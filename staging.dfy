/** The input staging buffer: `channel_count` interleaved samples per frame.
    New frames are read into its tail, and after each engine call the
    frames the engine consumed are dropped by moving the rest to the front
    (`memmove`). Both are in-place writes into the array. */
module Staging {

  /** The channel counts the harness accepts: mono and stereo. */
  type Channels = c: int | c == 1 || c == 2 witness 1

  /** `frames * channel_count`, written per channel count so that the
      arithmetic stays linear. */
  function Samples(frames: nat, ch: Channels): nat
  {
    if ch == 1 then frames else 2 * frames
  }

  lemma SamplesIsProduct(frames: nat, ch: Channels)
    ensures Samples(frames, ch) == frames * ch
  {
  }

  /** The samples of s with d written over positions [at, at + |d|). */
  function Overwrite<T>(s: seq<T>, at: nat, d: seq<T>): (r: seq<T>)
    requires at + |d| <= |s|
    ensures |r| == |s|
    ensures forall i :: 0 <= i < |s| ==> r[i] == if at <= i < at + |d| then d[i - at] else s[i]
  {
    s[..at] + d + s[at + |d|..]
  }

  /** The read into the tail, at the sample offset where the staged frames
      end: `inSize` frames of `ch` samples each. */
  function Fill<T>(buf: seq<T>, inSize: nat, ch: Channels, chunk: seq<T>): (r: seq<T>)
    requires Samples(inSize, ch) + |chunk| <= |buf|
    ensures |r| == |buf|
  {
    Overwrite(buf, Samples(inSize, ch), chunk)
  }

  /** The read into the tail as the harness writes it, `in_data.get() + in_size`:
      the pointer is advanced by `inSize` samples, not by `inSize` frames. */
  function FillAsWritten<T>(buf: seq<T>, inSize: nat, chunk: seq<T>): (r: seq<T>)
    requires inSize + |chunk| <= |buf|
    ensures |r| == |buf|
  {
    Overwrite(buf, inSize, chunk)
  }

  /** The intended property of the fill: the staged frames stay as they were
      and the frames read follow them directly. */
  lemma FillAppendsAfterStaged<T>(buf: seq<T>, inSize: nat, ch: Channels, chunk: seq<T>)
    requires Samples(inSize, ch) + |chunk| <= |buf|
    ensures Fill(buf, inSize, ch, chunk)[..Samples(inSize, ch) + |chunk|] == buf[..Samples(inSize, ch)] + chunk
    ensures Fill(buf, inSize, ch, chunk)[Samples(inSize, ch) + |chunk|..] == buf[Samples(inSize, ch) + |chunk|..]
  {
    var r := Fill(buf, inSize, ch, chunk);
    var at := Samples(inSize, ch);
    assert r[..at + |chunk|] == buf[..at] + chunk by {
      forall i | 0 <= i < at + |chunk|
        ensures r[..at + |chunk|][i] == (buf[..at] + chunk)[i]
      {
        assert r[i] == if at <= i < at + |chunk| then chunk[i - at] else buf[i];
      }
    }
  }

  /** For mono input the written offset is the intended one. */
  lemma FillAsWrittenAgreesForMono<T>(buf: seq<T>, inSize: nat, chunk: seq<T>)
    requires inSize + |chunk| <= |buf|
    ensures FillAsWritten(buf, inSize, chunk) == Fill(buf, inSize, 1, chunk)
  {
  }

  /** For stereo input with frames left staged, the read as written lands
      inside the staged frames and overwrites the sample after the first
      `inSize` samples, whenever the first sample read differs from it. */
  lemma StereoFillClobbersStaged<T>(buf: seq<T>, inSize: nat, chunk: seq<T>)
    requires 0 < inSize && inSize * 2 + |chunk| <= |buf|
    requires 0 < |chunk| && chunk[0] != buf[inSize]
    ensures FillAsWritten(buf, inSize, chunk)[..inSize * 2] != buf[..inSize * 2]
    ensures Fill(buf, inSize, 2, chunk)[..inSize * 2] == buf[..inSize * 2]
  {
    var r := FillAsWritten(buf, inSize, chunk);
    assert r[inSize] == chunk[0];
    assert r[..inSize * 2][inSize] != buf[..inSize * 2][inSize];
    FillAppendsAfterStaged(buf, inSize, 2, chunk);
    assert Fill(buf, inSize, 2, chunk)[..inSize * 2] == (buf[..inSize * 2] + chunk)[..inSize * 2];
  }

  /** One stereo frame (1, 2) is staged and the frame (3, 4) is read: as
      written the buffer holds 1, 3, 4 and the engine sees the frames
      (1, 3), (4, 0); the intended fill gives (1, 2), (3, 4). */
  lemma StereoFillExample()
    ensures FillAsWritten([1, 2, 0, 0], 1, [3, 4]) == [1, 3, 4, 0]
    ensures Fill([1, 2, 0, 0], 1, 2, [3, 4]) == [1, 2, 3, 4]
  {
  }

  /** `memmove(buf, buf + from, n)`: the n samples starting at `from` move to
      the front; the samples from n on keep their old values. */
  function MoveToFront<T>(s: seq<T>, from: nat, n: nat): (r: seq<T>)
    requires from + n <= |s|
    ensures |r| == |s|
  {
    s[from..from + n] + s[n..]
  }

  /** Compaction keeps the unconsumed frames: after dropping `consumed` of the
      `inSize` staged frames, the first `inSize - consumed` frames are the old
      frames `consumed .. inSize`. */
  lemma CompactKeepsUnconsumed<T>(buf: seq<T>, consumed: nat, inSize: nat, ch: Channels)
    requires consumed <= inSize && Samples(inSize, ch) <= |buf|
    ensures Samples(consumed, ch) + Samples(inSize - consumed, ch) == Samples(inSize, ch)
    ensures MoveToFront(buf, Samples(consumed, ch), Samples(inSize - consumed, ch))[..Samples(inSize - consumed, ch)]
      == buf[Samples(consumed, ch)..Samples(inSize, ch)]
  {
  }

  /** The read into the tail of the array, at the end of the staged frames. */
  method FillTail<T>(buf: array<T>, inSize: nat, ch: Channels, chunk: seq<T>)
    requires Samples(inSize, ch) + |chunk| <= buf.Length
    modifies buf
    ensures buf[..] == Fill(old(buf[..]), inSize, ch, chunk)
  {
    var at := Samples(inSize, ch);
    forall i | 0 <= i < |chunk| {
      buf[at + i] := chunk[i];
    }
    assert buf[..] == Fill(old(buf[..]), inSize, ch, chunk) by {
      var r := Fill(old(buf[..]), inSize, ch, chunk);
      forall i | 0 <= i < buf.Length
        ensures buf[i] == r[i]
      {
        assert r[i] == if at <= i < at + |chunk| then chunk[i - at] else old(buf[i]);
      }
    }
  }

  /** `memmove` of the unconsumed samples to the front of the array. */
  method Compact<T>(buf: array<T>, from: nat, n: nat)
    requires from + n <= buf.Length
    modifies buf
    ensures buf[..] == MoveToFront(old(buf[..]), from, n)
  {
    forall i | 0 <= i < n {
      buf[i] := buf[from + i];
    }
    assert buf[..] == MoveToFront(old(buf[..]), from, n) by {
      var r := MoveToFront(old(buf[..]), from, n);
      forall i | 0 <= i < buf.Length
        ensures buf[i] == r[i]
      {
        if i < n {
          assert r[i] == old(buf[from + i]);
        } else {
          assert r[i] == old(buf[i]);
        }
      }
    }
  }
}
