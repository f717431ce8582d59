/** Sizing of the staging buffers: each holds one frame duration (20 ms)
    of frames at its own stream's sample rate, rounded up. */
module Sizing {

  /** Audio frame duration, in milliseconds. */
  const FrameDuration: nat := 20

  /** 2^32: the expression is evaluated in 32-bit `unsigned int`. */
  const Word: nat := 0x1_0000_0000

  /** The largest rate for which `rate * 20 + 999` does not wrap around. */
  const MaxRate: nat := (Word - 1 - 999) / FrameDuration

  /** A sample rate for which the frame size is computed without wrap-around. */
  predicate ValidRate(rate: int)
  {
    0 < rate <= MaxRate
  }

  /** `(rate * frame_duration + 999u) / 1000u` with C's unsigned arithmetic:
      the int rate is converted to unsigned and every step wraps modulo 2^32. */
  function FrameSize(rate: int): (n: nat)
    ensures n < Word / 1000 + 1
  {
    ((rate * FrameDuration) % Word + 999) % Word / 1000
  }

  /** Within the valid range no wrap-around happens and the frame size is the
      ceiling of rate * 20 / 1000: the least n with n * 1000 >= rate * 20. */
  lemma FrameSizeIsCeiling(rate: int)
    requires ValidRate(rate)
    ensures FrameSize(rate) * 1000 >= rate * FrameDuration
    ensures forall m: nat :: m * 1000 >= rate * FrameDuration ==> m >= FrameSize(rate)
    ensures FrameSize(rate) >= 1
  {
    NoWrap(rate);
    var q := (rate * FrameDuration + 999) / 1000;
    assert q * 1000 <= rate * FrameDuration + 999 < q * 1000 + 1000;
  }

  /** Beyond the valid range the 32-bit sum wraps: a rate of MaxRate + 1
      gets an empty buffer instead of a 4294967-frame one. */
  lemma FrameSizeWrapsBeyondMaxRate()
    ensures MaxRate + 1 == 214748315
    ensures FrameSize(MaxRate + 1) == 0
  {
  }

  /** Concrete sizes of the two buffers for common rates. */
  lemma CommonFrameSizes()
    ensures FrameSize(8000) == 160 && FrameSize(16000) == 320
    ensures FrameSize(44100) == 882 && FrameSize(48000) == 960
    ensures FrameSize(22050) == 441 && FrameSize(11025) == 221
  {
    NoWrap(8000);
    NoWrap(16000);
    NoWrap(44100);
    NoWrap(48000);
    NoWrap(22050);
    NoWrap(11025);
  }

  /** Within the valid range the frame size is the plain integer expression. */
  lemma NoWrap(rate: int)
    requires ValidRate(rate)
    ensures FrameSize(rate) == (rate * FrameDuration + 999) / 1000
  {
    var x := rate * FrameDuration;
    assert 0 < x && x + 999 < Word;
    assert (x % Word + 999) % Word == x + 999;
  }
}
