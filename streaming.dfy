/** The streaming conversion loop (`resampling_loop`): fill the tail of the
    input staging buffer from the file, hand the staged frames to the
    engine, compact the buffer, emit what the engine produced; then drain the
    engine with empty input until it produces nothing.

    The engine is an oracle (`Process`): the k-th call of `process` gets the
    staged samples (None for the NULL pointer of the drain phase), their
    frame count and the output capacity in frames, and answers how many
    frames it consumed and which frames it produced. */
module Streaming {
  import opened Wrappers
  import Sizing
  import opened Staging

  /** The input file as the loop sees it: its rate and channel count, the
      frame count its header declares (`frames()`), and the interleaved
      samples it actually holds. */
  datatype SoundFile<T> = SoundFile(rate: int, channels: int, frames: nat, data: seq<T>)

  /** What one call of `process` gives back. */
  datatype Reply<T> = Reply(consumed: nat, produced: nat, samples: seq<T>)

  /** The engine: call number, staged samples (None = NULL), staged frame
      count, output capacity in frames. */
  type Process<!T> = (nat, Option<seq<T>>, nat, nat) -> Reply<T>

  /** The only thing the loop may assume of an engine: it consumes no more
      than it was given and produces no more than fits, as whole frames. */
  ghost predicate Honest<T(!new)>(process: Process<T>, ch: Channels)
  {
    forall k, input, inSize, outSize ::
      && process(k, input, inSize, outSize).consumed <= inSize
      && process(k, input, inSize, outSize).produced <= outSize
      && |process(k, input, inSize, outSize).samples| == Samples(process(k, input, inSize, outSize).produced, ch)
  }

  /** Progress, which the harness relies on but cannot check: from call
      `settle` on, the engine consumes something of any non-empty input and
      produces nothing from an empty one. Both loops terminate under it. */
  ghost predicate ProgressesFrom<T(!new)>(process: Process<T>, settle: nat)
  {
    forall k, input, inSize, outSize | k >= settle ::
      && (inSize > 0 ==> process(k, input, inSize, outSize).consumed > 0)
      && (inSize == 0 ==> process(k, input, inSize, outSize).produced == 0)
  }

  /** An engine that always consumes everything it is given. */
  ghost predicate ConsumesAll<T(!new)>(process: Process<T>)
  {
    forall k, input, inSize, outSize :: process(k, input, inSize, outSize).consumed == inSize
  }

  /** One call of `process` as it happened: frames consumed before it, the
      input it got, the staged frame count, and its reply. */
  datatype Call<T> = Call(consumedBefore: nat, input: Option<seq<T>>, inSize: nat, reply: Reply<T>)

  /** The one-time delay diagnostic: the call that first produced output,
      the total consumed at that point and the frames it produced (the delay
      is `consumed - produced * in_rate / out_rate`). */
  datatype DelayReport = DelayReport(call: nat, consumed: nat, produced: nat)

  /** The output file: the samples written so far and how many more frames
      it accepts before a write comes up short. */
  datatype Sink<T> = Sink(written: seq<T>, room: nat)

  datatype Status = Done | ReadShortfall | WriteShortfall

  function SumConsumed<T>(calls: seq<Call<T>>): nat
  {
    if calls == [] then 0 else SumConsumed(calls[..|calls| - 1]) + calls[|calls| - 1].reply.consumed
  }

  function SumProduced<T>(calls: seq<Call<T>>): nat
  {
    if calls == [] then 0 else SumProduced(calls[..|calls| - 1]) + calls[|calls| - 1].reply.produced
  }

  /** Everything the engine produced, in call order. */
  function Emitted<T>(calls: seq<Call<T>>): seq<T>
  {
    if calls == [] then [] else Emitted(calls[..|calls| - 1]) + calls[|calls| - 1].reply.samples
  }

  lemma {:induction false} AppendCall<T>(calls: seq<Call<T>>, c: Call<T>)
    ensures SumConsumed(calls + [c]) == SumConsumed(calls) + c.reply.consumed
    ensures SumProduced(calls + [c]) == SumProduced(calls) + c.reply.produced
    ensures Emitted(calls + [c]) == Emitted(calls) + c.reply.samples
  {
    assert (calls + [c])[..|calls|] == calls;
  }

  /** Frames wholly held by the data (a trailing partial frame is not one). */
  function StoredFrames<T>(data: seq<T>, ch: Channels): (n: nat)
    ensures Samples(n, ch) <= |data| < Samples(n, ch) + ch
  {
    if ch == 1 then |data| else |data| / 2
  }

  /** `readf(ptr, n)` at frame position `pos`: the frames it delivers, which
      are fewer than requested when the data runs out. */
  function ReadCount<T>(data: seq<T>, ch: Channels, pos: nat, n: nat): (r: nat)
    requires pos <= StoredFrames(data, ch)
    ensures r <= n && pos + r <= StoredFrames(data, ch)
    ensures r < n <==> StoredFrames(data, ch) - pos < n
    ensures r == n || pos + r == StoredFrames(data, ch)
  {
    Min(n, StoredFrames(data, ch) - pos)
  }

  /** `packs_to_read`: the room left in the staging buffer, capped by the
      declared frame count minus what has been CONSUMED (not minus what has
      been read). */
  function PacksToRead(inFrameSize: nat, inSize: nat, inCount: nat, totalConsumed: nat): (r: nat)
    requires inSize <= inFrameSize && totalConsumed < inCount
    ensures inSize + r <= inFrameSize
    ensures r <= inCount - totalConsumed
    ensures r == inFrameSize - inSize || r == inCount - totalConsumed
  {
    Min(inFrameSize - inSize, inCount - totalConsumed)
  }

  /** The request never overfills the buffer, and something is staged after
      every full read. */
  lemma {:induction false} StagedWithinCapacity(inFrameSize: nat, inSize: nat, inCount: nat, totalConsumed: nat)
    requires 1 <= inFrameSize && inSize <= inFrameSize && totalConsumed < inCount
    ensures 1 <= inSize + PacksToRead(inFrameSize, inSize, inCount, totalConsumed) <= inFrameSize
  {
  }

  /** The request stays within the frames the file has left after those
      already read exactly when nothing is staged or the end of the file is
      at least a whole buffer away. */
  lemma RequestWithinRemaining(inFrameSize: nat, inSize: nat, inCount: nat, totalConsumed: nat)
    requires inSize <= inFrameSize && totalConsumed < inCount
    ensures PacksToRead(inFrameSize, inSize, inCount, totalConsumed) <= inCount - totalConsumed - inSize
      <==> inSize == 0 || inFrameSize <= inCount - totalConsumed
  {
  }

  /** With a file that holds its declared frames, a short read happens only
      when the engine left frames staged near the end of the file. */
  lemma ShortReadNeedsStagedFrames(inFrameSize: nat, inSize: nat, inCount: nat, totalConsumed: nat, stored: nat)
    requires inSize <= inFrameSize && totalConsumed < inCount
    requires inCount <= stored
    requires stored < totalConsumed + inSize + PacksToRead(inFrameSize, inSize, inCount, totalConsumed)
    ensures 0 < inSize && inCount - totalConsumed < inFrameSize
  {
    RequestWithinRemaining(inFrameSize, inSize, inCount, totalConsumed);
  }

  /** 8 kHz mono, 200 declared frames, 160-frame buffer: the engine consumed
      150 of the first 160 frames. The next request is 50 frames though only
      40 are left, so the read comes up short. */
  lemma NearEndShortReadExample()
    ensures Sizing.FrameSize(8000) == 160
    ensures PacksToRead(160, 10, 200, 150) == 50
    ensures ReadCount(seq(200, i => 0), 1, 160, 50) == 40
  {
  }

  /** `write_data`: on the first output ever (nothing produced so far) the
      delay is reported; the produced total grows by the frames emitted; the
      sink takes what fits, and anything less than everything is a failure. */
  method WriteData<T>(outData: seq<T>, outSize: nat, ch: Channels, totalConsumed: nat, totalProduced: nat, sink: Sink<T>, call: nat)
    returns (produced: nat, sink': Sink<T>, report: seq<DelayReport>, ok: bool)
    requires |outData| == Samples(outSize, ch)
    ensures produced == totalProduced + outSize
    ensures report == if totalProduced == 0 then [DelayReport(call, totalConsumed, outSize)] else []
    ensures ok <==> outSize <= sink.room
    ensures ok ==> sink' == Sink(sink.written + outData, sink.room - outSize)
    ensures !ok ==> sink' == Sink(sink.written + outData[..Samples(sink.room, ch)], 0)
  {
    report := if totalProduced == 0 then [DelayReport(call, totalConsumed, outSize)] else [];
    produced := totalProduced + outSize;
    var writtenCount := Min(outSize, sink.room);
    assert Samples(writtenCount, ch) <= Samples(outSize, ch);
    sink' := Sink(sink.written + outData[..Samples(writtenCount, ch)], sink.room - writtenCount);
    ok := writtenCount == outSize;
  }

  /** Call k happened as stated: the engine's answer to that input, the staged
      count within the buffer, and the input exactly the next unconsumed
      frames of the file. */
  ghost predicate GenuineCall<T>(c: Call<T>, k: nat, process: Process<T>, outFrameSize: nat,
                                 data: seq<T>, ch: Channels, inFrameSize: nat)
  {
    && c.reply == process(k, c.input, c.inSize, outFrameSize)
    && c.inSize <= inFrameSize
    && Samples(c.consumedBefore + c.inSize, ch) <= |data|
    && (c.input.Some? ==> c.input.value == data[Samples(c.consumedBefore, ch)..Samples(c.consumedBefore + c.inSize, ch)])
    && (c.input.None? ==> c.inSize == 0)
  }

  /** Every call in the trace is genuine, and each started where the calls
      before it left off. */
  ghost predicate Faithful<T>(calls: seq<Call<T>>, process: Process<T>, outFrameSize: nat,
                              data: seq<T>, ch: Channels, inFrameSize: nat)
    decreases |calls|
  {
    calls != [] ==>
      && Faithful(calls[..|calls| - 1], process, outFrameSize, data, ch, inFrameSize)
      && GenuineCall(calls[|calls| - 1], |calls| - 1, process, outFrameSize, data, ch, inFrameSize)
      && calls[|calls| - 1].consumedBefore == SumConsumed(calls[..|calls| - 1])
  }

  lemma {:induction false} FaithfulAppend<T>(calls: seq<Call<T>>, c: Call<T>, process: Process<T>, outFrameSize: nat,
                                             data: seq<T>, ch: Channels, inFrameSize: nat)
    requires Faithful(calls, process, outFrameSize, data, ch, inFrameSize)
    requires GenuineCall(c, |calls|, process, outFrameSize, data, ch, inFrameSize)
    requires c.consumedBefore == SumConsumed(calls)
    ensures Faithful(calls + [c], process, outFrameSize, data, ch, inFrameSize)
  {
    assert (calls + [c])[..|calls|] == calls;
  }

  /** Call i of the trace is the engine's i-th answer to the frames that
      follow the ones consumed by the calls before it. */
  ghost predicate CallAt<T>(calls: seq<Call<T>>, i: nat, process: Process<T>, outFrameSize: nat,
                            data: seq<T>, ch: Channels, inFrameSize: nat)
    requires i < |calls|
  {
    && GenuineCall(calls[i], i, process, outFrameSize, data, ch, inFrameSize)
    && calls[i].consumedBefore == SumConsumed(calls[..i])
  }

  /** The trace read call by call: `Faithful` holds exactly when every call
      is as `CallAt` says. */
  lemma {:induction false} FaithfulEach<T>(calls: seq<Call<T>>, process: Process<T>, outFrameSize: nat,
                                           data: seq<T>, ch: Channels, inFrameSize: nat)
    ensures Faithful(calls, process, outFrameSize, data, ch, inFrameSize) <==>
      forall i :: 0 <= i < |calls| ==> CallAt(calls, i, process, outFrameSize, data, ch, inFrameSize)
  {
    if calls != [] {
      var n := |calls| - 1;
      var init := calls[..n];
      FaithfulEach(init, process, outFrameSize, data, ch, inFrameSize);
      forall i | 0 <= i < n
        ensures CallAt(init, i, process, outFrameSize, data, ch, inFrameSize)
            == CallAt(calls, i, process, outFrameSize, data, ch, inFrameSize)
      {
        assert init[i] == calls[i] && init[..i] == calls[..i];
      }
      assert CallAt(calls, n, process, outFrameSize, data, ch, inFrameSize)
          == (GenuineCall(calls[n], n, process, outFrameSize, data, ch, inFrameSize)
              && calls[n].consumedBefore == SumConsumed(init));
    }
  }

  /** The delay is reported exactly once if the engine ever produced
      anything, never otherwise, and then for the first call that did. */
  ghost predicate FirstOutputReported<T>(reports: seq<DelayReport>, calls: seq<Call<T>>)
  {
    && |reports| <= 1
    && (reports == [] <==> forall i :: 0 <= i < |calls| ==> calls[i].reply.produced == 0)
    && (reports != [] ==>
          && reports[0].call < |calls|
          && calls[reports[0].call].reply.produced > 0
          && (forall i :: 0 <= i < reports[0].call ==> calls[i].reply.produced == 0)
          && reports[0].consumed == SumConsumed(calls[..reports[0].call + 1])
          && reports[0].produced == calls[reports[0].call].reply.produced)
  }

  /** The first call of the trace that produced output, if any. */
  function FirstProducer<T>(calls: seq<Call<T>>): (j: Option<nat>)
    ensures j.Some? ==> j.value < |calls|
  {
    if calls == [] then None
    else if FirstProducer(calls[..|calls| - 1]).Some? then FirstProducer(calls[..|calls| - 1])
    else if calls[|calls| - 1].reply.produced > 0 then Some(|calls| - 1)
    else None
  }

  /** The delay diagnostics a run prints, given its trace. */
  function DelayReports<T>(calls: seq<Call<T>>): seq<DelayReport>
  {
    match FirstProducer(calls)
    case None => []
    case Some(j) => [DelayReport(j, SumConsumed(calls[..j + 1]), calls[j].reply.produced)]
  }

  /** `FirstProducer` finds the first call with output, and none when there
      is none. */
  lemma {:induction false} FirstProducerIsFirst<T>(calls: seq<Call<T>>)
    ensures FirstProducer(calls).None? <==> forall i :: 0 <= i < |calls| ==> calls[i].reply.produced == 0
    ensures FirstProducer(calls).Some? ==>
      && calls[FirstProducer(calls).value].reply.produced > 0
      && forall i :: 0 <= i < FirstProducer(calls).value ==> calls[i].reply.produced == 0
  {
    if calls != [] {
      var init := calls[..|calls| - 1];
      FirstProducerIsFirst(init);
      assert forall i :: 0 <= i < |init| ==> init[i] == calls[i];
    }
  }

  /** The reports a run prints are exactly the one-time delay report. */
  lemma DelayReportsReportFirstOutput<T>(calls: seq<Call<T>>)
    ensures FirstOutputReported(DelayReports(calls), calls)
  {
    FirstProducerIsFirst(calls);
  }

  /** Nothing produced so far means no call has produced anything yet. */
  lemma {:induction false} NothingProducedYet<T>(calls: seq<Call<T>>)
    ensures SumProduced(calls) == 0 <==> FirstProducer(calls).None?
  {
    if calls != [] {
      NothingProducedYet(calls[..|calls| - 1]);
    }
  }

  /** `write_data`'s test `total_produced == 0` reports the first output and
      no other. */
  lemma {:induction false} ReportAppend<T>(calls: seq<Call<T>>, c: Call<T>, report: seq<DelayReport>)
    requires report == if c.reply.produced > 0 && SumProduced(calls) == 0
      then [DelayReport(|calls|, SumConsumed(calls) + c.reply.consumed, c.reply.produced)] else []
    ensures DelayReports(calls) + report == DelayReports(calls + [c])
  {
    NothingProducedYet(calls);
    AppendCall(calls, c);
    var calls' := calls + [c];
    assert calls'[..|calls|] == calls;
    match FirstProducer(calls)
    case Some(j) =>
      assert calls'[..j + 1] == calls[..j + 1];
    case None =>
      assert calls'[..|calls| + 1] == calls';
  }

  /** The buffer begins with the `staged` frames of the file that follow
      its first `consumed` frames. */
  ghost predicate Staged<T>(buf: seq<T>, data: seq<T>, ch: Channels, consumed: nat, staged: nat)
  {
    && consumed + staged <= StoredFrames(data, ch)
    && Samples(staged, ch) <= |buf|
    && buf[..Samples(staged, ch)] == data[Samples(consumed, ch)..Samples(consumed + staged, ch)]
  }

  /** Filling the tail with the frames that follow the staged ones stages
      them all. */
  lemma {:induction false} StagedAfterFill<T>(before: seq<T>, data: seq<T>, ch: Channels, consumed: nat, staged: nat, readCount: nat)
    requires Staged(before, data, ch, consumed, staged)
    requires consumed + staged + readCount <= StoredFrames(data, ch)
    requires Samples(staged + readCount, ch) <= |before|
    ensures Staged(Fill(before, staged, ch, data[Samples(consumed + staged, ch)..Samples(consumed + staged + readCount, ch)]),
                   data, ch, consumed, staged + readCount)
  {
    var a, b, c := Samples(consumed, ch), Samples(consumed + staged, ch), Samples(consumed + staged + readCount, ch);
    assert c <= Samples(StoredFrames(data, ch), ch);
    var chunk := data[b..c];
    FillAppendsAfterStaged(before, staged, ch, chunk);
    assert Samples(staged, ch) + |chunk| == Samples(staged + readCount, ch);
    assert data[a..b] + data[b..c] == data[a..c];
  }

  /** Dropping the consumed frames leaves the rest staged. */
  lemma {:induction false} StagedAfterCompact<T>(before: seq<T>, after: seq<T>, data: seq<T>, ch: Channels,
                                                 consumedBefore: nat, inSize: nat, consumed: nat,
                                                 consumedAfter: nat, stagedAfter: nat)
    requires Staged(before, data, ch, consumedBefore, inSize)
    requires consumed <= inSize
    requires after == MoveToFront(before, Samples(consumed, ch), Samples(inSize - consumed, ch))
    requires consumedAfter == consumedBefore + consumed && stagedAfter == inSize - consumed
    ensures Staged(after, data, ch, consumedAfter, stagedAfter)
  {
    CompactKeepsUnconsumed(before, consumed, inSize, ch);
    var a, b, c := Samples(consumedBefore, ch), Samples(consumedBefore + consumed, ch), Samples(consumedBefore + inSize, ch);
    assert a + Samples(consumed, ch) == b && a + Samples(inSize, ch) == c;
    assert before[Samples(consumed, ch)..Samples(inSize, ch)] == data[b..c];
  }

  /** A call on everything staged is a genuine call. */
  lemma {:induction false} StagedCallIsGenuine<T>(buf: seq<T>, data: seq<T>, ch: Channels, process: Process<T>, k: nat,
                                                  outFrameSize: nat, inFrameSize: nat, consumedBefore: nat, inSize: nat)
    requires inSize <= inFrameSize && Staged(buf, data, ch, consumedBefore, inSize)
    ensures var input := Some(buf[..Samples(inSize, ch)]);
      GenuineCall(Call(consumedBefore, input, inSize, process(k, input, inSize, outFrameSize)),
                  k, process, outFrameSize, data, ch, inFrameSize)
  {
    assert Samples(consumedBefore + inSize, ch) <= Samples(StoredFrames(data, ch), ch);
  }

  /** `readf` into the buffer behind the staged frames: the staged frames
      and the frames just read are together the next unconsumed frames. */
  method Refill<T>(inData: array<T>, data: seq<T>, ch: Channels, position: nat, consumedBefore: nat, staged: nat, n: nat)
    returns (readCount: nat)
    modifies inData
    requires Staged(inData[..], data, ch, consumedBefore, staged)
    requires position == consumedBefore + staged
    requires Samples(staged + n, ch) <= inData.Length
    ensures readCount == ReadCount(data, ch, position, n)
    ensures Staged(inData[..], data, ch, consumedBefore, staged + readCount)
  {
    readCount := ReadCount(data, ch, position, n);
    StagedAfterFill(inData[..], data, ch, consumedBefore, staged, readCount);
    Staging.FillTail(inData, staged, ch, data[Samples(consumedBefore + staged, ch)..Samples(consumedBefore + staged + readCount, ch)]);
  }

  /** `process` on everything staged, then the `memmove`: the frames the
      engine left are again the next unconsumed frames of the file, at the
      front of the buffer. */
  method ProcessStaged<T(!new)>(inData: array<T>, data: seq<T>, ch: Channels, process: Process<T>, k: nat,
                                outFrameSize: nat, inFrameSize: nat, consumedBefore: nat, inSize: nat)
    returns (call: Call<T>, consumedAfter: nat, stagedAfter: nat)
    modifies inData
    requires Honest(process, ch)
    requires inSize <= inFrameSize && Samples(inFrameSize, ch) == inData.Length
    requires Staged(inData[..], data, ch, consumedBefore, inSize)
    ensures GenuineCall(call, k, process, outFrameSize, data, ch, inFrameSize)
    ensures call.consumedBefore == consumedBefore && call.input.Some? && call.inSize == inSize
    ensures call.reply.consumed <= inSize
    ensures |call.reply.samples| == Samples(call.reply.produced, ch)
    ensures consumedAfter == consumedBefore + call.reply.consumed && stagedAfter == inSize - call.reply.consumed
    ensures Staged(inData[..], data, ch, consumedAfter, stagedAfter)
  {
    ghost var buf := inData[..];
    var input := inData[..Samples(inSize, ch)];
    assert input == buf[..Samples(inSize, ch)];
    var reply := process(k, Some(input), inSize, outFrameSize);
    StagedCallIsGenuine(buf, data, ch, process, k, outFrameSize, inFrameSize, consumedBefore, inSize);
    call := Call(consumedBefore, Some(input), inSize, reply);
    consumedAfter, stagedAfter := consumedBefore + reply.consumed, inSize - reply.consumed;
    Staging.Compact(inData, Samples(reply.consumed, ch), Samples(inSize - reply.consumed, ch));
    StagedAfterCompact(buf, inData[..], data, ch, consumedBefore, inSize, reply.consumed, consumedAfter, stagedAfter);
  }

  /** What the output side has seen so far agrees with the trace: the
      produced total, the one-time delay report, and the samples written,
      none of them beyond the room the output file had. */
  ghost predicate Accounts<T>(calls: seq<Call<T>>, totalProduced: nat, reports: seq<DelayReport>,
                              sink: Sink<T>, sinkRoom: nat, ch: Channels)
  {
    && totalProduced == SumProduced(calls)
    && reports == DelayReports(calls)
    && sink.written == Emitted(calls)
    && |sink.written| == Samples(totalProduced, ch)
    && totalProduced <= sinkRoom
    && sink.room == sinkRoom - totalProduced
  }

  /** The output of every call but the last fit in the room. */
  ghost predicate FitUntilLast<T>(calls: seq<Call<T>>, sinkRoom: nat)
  {
    calls != [] && SumProduced(calls[..|calls| - 1]) <= sinkRoom
  }

  /** A write came up short, at the last call of the trace and at no
      earlier one: the output file holds exactly the frames it had room
      for, a proper prefix of what the engine produced, and the produced
      total exceeds that room, which the calls before the last fit in. */
  ghost predicate Truncated<T>(calls: seq<Call<T>>, totalProduced: nat, reports: seq<DelayReport>,
                               sink: Sink<T>, sinkRoom: nat, ch: Channels)
  {
    && totalProduced == SumProduced(calls)
    && reports == DelayReports(calls)
    && |sink.written| == Samples(sinkRoom, ch)
    && sink.written < Emitted(calls)
    && totalProduced > sinkRoom
    && FitUntilLast(calls, sinkRoom)
  }

  /** Nothing runs after a short write: a trace that already ended in one
      has no extension by a further call that is truncated. */
  lemma {:induction false} TruncatedIsFinal<T>(calls: seq<Call<T>>, totalProduced: nat, reports: seq<DelayReport>,
                                               sink: Sink<T>, sinkRoom: nat, ch: Channels, c: Call<T>)
    requires Truncated(calls, totalProduced, reports, sink, sinkRoom, ch)
    ensures !FitUntilLast(calls + [c], sinkRoom)
  {
    assert (calls + [c])[..|calls|] == calls;
  }

  /** The tail of one iteration of either loop: `write_data` when the call
      produced something, nothing otherwise. `totalConsumed` is the total
      after the call, as `write_data` receives it. */
  method Deliver<T>(call: Call<T>, ch: Channels, calls: seq<Call<T>>, reports: seq<DelayReport>,
                    totalConsumed: nat, totalProduced: nat, sink: Sink<T>, ghost sinkRoom: nat)
    returns (produced: nat, sink': Sink<T>, reports': seq<DelayReport>, ok: bool)
    requires Accounts(calls, totalProduced, reports, sink, sinkRoom, ch)
    requires |call.reply.samples| == Samples(call.reply.produced, ch)
    requires totalConsumed == SumConsumed(calls) + call.reply.consumed
    ensures ok ==> Accounts(calls + [call], produced, reports', sink', sinkRoom, ch)
    ensures !ok ==> call.reply.produced > 0 && Truncated(calls + [call], produced, reports', sink', sinkRoom, ch)
  {
    AppendCall(calls, call);
    var report: seq<DelayReport> := [];
    produced, sink', ok := totalProduced, sink, true;
    if call.reply.produced > 0 {
      produced, sink', report, ok := WriteData(call.reply.samples, call.reply.produced, ch, totalConsumed, totalProduced, sink, |calls|);
    }
    ReportAppend(calls, call, report);
    reports' := reports + report;
    if !ok {
      assert Samples(sink.room, ch) < Samples(call.reply.produced, ch);
      assert (calls + [call])[..|calls|] == calls;
    }
  }

  /** The frames the last call of a trace left staged: none before the
      first call, and none after a call that was offered nothing. */
  function StagedAfter<T>(calls: seq<Call<T>>): nat
  {
    if calls == [] || calls[|calls| - 1].inSize < calls[|calls| - 1].reply.consumed then 0
    else calls[|calls| - 1].inSize - calls[|calls| - 1].reply.consumed
  }

  /** A call with input was offered what the main loop requests: the frames
      the call before it left staged plus `packs_to_read`. */
  predicate RequestedCall<T>(c: Call<T>, stagedBefore: nat, inFrameSize: nat, inCount: nat)
  {
    c.input.Some? ==>
      && stagedBefore <= inFrameSize && c.consumedBefore < inCount
      && c.inSize == stagedBefore + PacksToRead(inFrameSize, stagedBefore, inCount, c.consumedBefore)
  }

  /** Every call of the trace was offered what the main loop requests. */
  ghost predicate Requested<T>(calls: seq<Call<T>>, inFrameSize: nat, inCount: nat)
    decreases |calls|
  {
    calls != [] ==>
      && Requested(calls[..|calls| - 1], inFrameSize, inCount)
      && RequestedCall(calls[|calls| - 1], StagedAfter(calls[..|calls| - 1]), inFrameSize, inCount)
  }

  lemma {:induction false} RequestedAppend<T>(calls: seq<Call<T>>, c: Call<T>, inFrameSize: nat, inCount: nat)
    requires Requested(calls, inFrameSize, inCount)
    requires RequestedCall(c, StagedAfter(calls), inFrameSize, inCount)
    ensures Requested(calls + [c], inFrameSize, inCount)
    ensures c.reply.consumed <= c.inSize ==> StagedAfter(calls + [c]) == c.inSize - c.reply.consumed
  {
    assert (calls + [c])[..|calls|] == calls;
  }

  /** Call i of the trace was offered what the main loop requests after
      the calls before it. */
  predicate RequestedAt<T>(calls: seq<Call<T>>, i: nat, inFrameSize: nat, inCount: nat)
    requires i < |calls|
  {
    RequestedCall(calls[i], StagedAfter(calls[..i]), inFrameSize, inCount)
  }

  /** The requests read call by call: call i with input was offered the
      frames call i - 1 left staged plus what line 195 asks the file for. */
  lemma {:induction false} RequestedEach<T>(calls: seq<Call<T>>, inFrameSize: nat, inCount: nat)
    ensures Requested(calls, inFrameSize, inCount) <==>
      forall i :: 0 <= i < |calls| ==> RequestedAt(calls, i, inFrameSize, inCount)
  {
    if calls != [] {
      var n := |calls| - 1;
      var init := calls[..n];
      RequestedEach(init, inFrameSize, inCount);
      forall i | 0 <= i < n
        ensures RequestedAt(init, i, inFrameSize, inCount) == RequestedAt(calls, i, inFrameSize, inCount)
      {
        assert init[i] == calls[i] && init[..i] == calls[..i];
      }
      assert RequestedAt(calls, n, inFrameSize, inCount)
          == RequestedCall(calls[n], StagedAfter(init), inFrameSize, inCount);
    }
  }

  /** The main loop's trace: the consumed total is the trace's, every call
      is genuine, and every call was fed frames, fewer than the declared
      count having been consumed before it. */
  ghost predicate Fed<T>(calls: seq<Call<T>>, totalConsumed: nat, process: Process<T>, data: seq<T>, ch: Channels,
                         inCount: nat, inFrameSize: nat, outFrameSize: nat)
  {
    && totalConsumed == SumConsumed(calls)
    && Faithful(calls, process, outFrameSize, data, ch, inFrameSize)
    && Requested(calls, inFrameSize, inCount)
    && (forall i :: 0 <= i < |calls| ==> calls[i].input.Some? && calls[i].consumedBefore < inCount)
  }

  /** A call of the main loop entered in the trace and delivered. */
  method Record<T>(call: Call<T>, data: seq<T>, inCount: nat, ch: Channels, process: Process<T>,
                   inFrameSize: nat, outFrameSize: nat, ghost sinkRoom: nat,
                   totalConsumed: nat, totalConsumed': nat, totalProduced: nat, sink: Sink<T>,
                   reports: seq<DelayReport>, calls: seq<Call<T>>)
    returns (ok: bool, totalProduced': nat, sink': Sink<T>, reports': seq<DelayReport>, calls': seq<Call<T>>)
    requires Fed(calls, totalConsumed, process, data, ch, inCount, inFrameSize, outFrameSize)
    requires Accounts(calls, totalProduced, reports, sink, sinkRoom, ch)
    requires GenuineCall(call, |calls|, process, outFrameSize, data, ch, inFrameSize)
    requires call.input.Some? && call.consumedBefore == totalConsumed < inCount
    requires |call.reply.samples| == Samples(call.reply.produced, ch)
    requires RequestedCall(call, StagedAfter(calls), inFrameSize, inCount) && call.reply.consumed <= call.inSize
    requires totalConsumed' == totalConsumed + call.reply.consumed
    ensures calls' == calls + [call]
    ensures Fed(calls', totalConsumed', process, data, ch, inCount, inFrameSize, outFrameSize)
    ensures StagedAfter(calls') == call.inSize - call.reply.consumed
    ensures ok ==> Accounts(calls', totalProduced', reports', sink', sinkRoom, ch)
    ensures !ok ==> Truncated(calls', totalProduced', reports', sink', sinkRoom, ch)
  {
    FaithfulAppend(calls, call, process, outFrameSize, data, ch, inFrameSize);
    RequestedAppend(calls, call, inFrameSize, inCount);
    AppendCall(calls, call);
    calls' := calls + [call];
    assert forall i :: 0 <= i < |calls| ==> calls'[i] == calls[i];
    totalProduced', sink', reports', ok := Deliver(call, ch, calls, reports, totalConsumed', totalProduced, sink, sinkRoom);
  }

  /** The buffer side of one iteration of the main loop: top the buffer up
      from the file and, unless the read came up short, call the engine on
      everything staged and move what it left to the front. */
  method FeedStep<T(!new)>(inData: array<T>, data: seq<T>, inCount: nat, ch: Channels, process: Process<T>,
                           k: nat, inFrameSize: nat, outFrameSize: nat, position: nat, totalConsumed: nat, staged: nat)
    returns (readShort: bool, readCount: nat, position': nat, call: Call<T>, totalConsumed': nat, staged': nat)
    modifies inData
    requires 1 <= inFrameSize && inData.Length == Samples(inFrameSize, ch)
    requires Honest(process, ch)
    requires totalConsumed < inCount
    requires staged <= inFrameSize && Staged(inData[..], data, ch, totalConsumed, staged)
    requires position == totalConsumed + staged
    ensures readCount == ReadCount(data, ch, position, PacksToRead(inFrameSize, staged, inCount, totalConsumed))
    ensures readShort <==> readCount != PacksToRead(inFrameSize, staged, inCount, totalConsumed)
    ensures readShort <==>
      StoredFrames(data, ch) < position + PacksToRead(inFrameSize, staged, inCount, totalConsumed)
    ensures position' == position + readCount
    ensures readShort ==> position' == StoredFrames(data, ch)
    ensures !readShort ==> position' == totalConsumed' + staged'
    ensures !readShort ==>
      && GenuineCall(call, k, process, outFrameSize, data, ch, inFrameSize)
      && call.input.Some? && call.consumedBefore == totalConsumed
      && call.inSize == staged + PacksToRead(inFrameSize, staged, inCount, totalConsumed)
      && call.reply.consumed <= call.inSize
      && |call.reply.samples| == Samples(call.reply.produced, ch)
      && totalConsumed' == totalConsumed + call.reply.consumed
      && staged' == call.inSize - call.reply.consumed
      && Staged(inData[..], data, ch, totalConsumed', staged')
  {
    var packsToRead := PacksToRead(inFrameSize, staged, inCount, totalConsumed);
    readCount := Refill(inData, data, ch, position, totalConsumed, staged, packsToRead);
    readShort := readCount != packsToRead;
    position' := position + readCount;
    call, totalConsumed', staged' := Call(totalConsumed, None, 0, Reply(0, 0, [])), totalConsumed, staged;
    if !readShort {
      call, totalConsumed', staged' :=
        ProcessStaged(inData, data, ch, process, k, outFrameSize, inFrameSize, totalConsumed, staged + readCount);
    }
  }

  /** One iteration of the main loop: read, process and compact, then
      record and write the call. After a short read nothing but the buffer
      and the read position has changed. */
  method FeedIteration<T(!new)>(inData: array<T>, data: seq<T>, inCount: nat, ch: Channels, process: Process<T>,
                                ghost settle: nat, inFrameSize: nat, outFrameSize: nat, sinkRoom: nat,
                                framesRead: nat, totalConsumed: nat, totalProduced: nat, staged: nat,
                                sink: Sink<T>, reports: seq<DelayReport>, calls: seq<Call<T>>)
    returns (readShort: bool, ok: bool, framesRead': nat, totalConsumed': nat, totalProduced': nat, staged': nat,
             sink': Sink<T>, reports': seq<DelayReport>, calls': seq<Call<T>>)
    modifies inData
    requires 1 <= inFrameSize && inData.Length == Samples(inFrameSize, ch)
    requires Honest(process, ch) && ProgressesFrom(process, settle)
    requires totalConsumed < inCount
    requires staged <= inFrameSize && Staged(inData[..], data, ch, totalConsumed, staged)
    requires Fed(calls, totalConsumed, process, data, ch, inCount, inFrameSize, outFrameSize)
    requires staged == StagedAfter(calls)
    requires framesRead == totalConsumed + staged
    requires Accounts(calls, totalProduced, reports, sink, sinkRoom, ch)
    ensures readShort <==>
      StoredFrames(data, ch) < totalConsumed + staged + PacksToRead(inFrameSize, staged, inCount, totalConsumed)
    ensures readShort ==>
      && framesRead' == StoredFrames(data, ch)
      && totalConsumed' == totalConsumed && staged' == staged && calls' == calls
      && totalProduced' == totalProduced && sink' == sink && reports' == reports
    ensures readShort && StoredFrames(data, ch) >= inCount ==> staged > 0
    ensures !readShort ==>
      && staged' <= inFrameSize && Staged(inData[..], data, ch, totalConsumed', staged')
      && Fed(calls', totalConsumed', process, data, ch, inCount, inFrameSize, outFrameSize)
      && staged' == StagedAfter(calls')
      && framesRead' == totalConsumed' + staged'
      && |calls'| == |calls| + 1
      && (|calls| >= settle ==> totalConsumed' > totalConsumed)
      && (ConsumesAll(process) ==> staged' == 0)
    ensures !readShort && ok ==> Accounts(calls', totalProduced', reports', sink', sinkRoom, ch)
    ensures !readShort && !ok ==> Truncated(calls', totalProduced', reports', sink', sinkRoom, ch)
  {
    StagedWithinCapacity(inFrameSize, staged, inCount, totalConsumed);
    RequestWithinRemaining(inFrameSize, staged, inCount, totalConsumed);
    var readCount, call;
    readShort, readCount, framesRead', call, totalConsumed', staged' :=
      FeedStep(inData, data, inCount, ch, process, |calls|, inFrameSize, outFrameSize, framesRead, totalConsumed, staged);
    if readShort {
      if StoredFrames(data, ch) >= inCount {
        ShortReadNeedsStagedFrames(inFrameSize, staged, inCount, totalConsumed, StoredFrames(data, ch));
      }
      totalConsumed', staged', totalProduced', sink', reports', calls' :=
        totalConsumed, staged, totalProduced, sink, reports, calls;
      ok := true;
      return;
    }
    ghost var left := inData[..];
    ok, totalProduced', sink', reports', calls' :=
      Record(call, data, inCount, ch, process, inFrameSize, outFrameSize, sinkRoom,
             totalConsumed, totalConsumed', totalProduced, sink, reports, calls);
    assert inData[..] == left;
  }

  /** The main loop of `resampling_loop`: while fewer frames than the
      declared count were consumed, top the buffer up from the file, process
      what is staged, compact, and write what was produced. `Done` means the
      loop ran to its end; the two shortfalls are the exceptions it throws. */
  method FeedLoop<T(0,!new)>(inData: array<T>, data: seq<T>, inCount: nat, ch: Channels, process: Process<T>,
                             ghost settle: nat, inFrameSize: nat, outFrameSize: nat, sinkRoom: nat)
    returns (status: Status, framesRead: nat, totalConsumed: nat, totalProduced: nat, staged: nat,
             sink: Sink<T>, reports: seq<DelayReport>, calls: seq<Call<T>>)
    modifies inData
    requires 1 <= inFrameSize && inData.Length == Samples(inFrameSize, ch)
    requires Honest(process, ch) && ProgressesFrom(process, settle)
    ensures staged <= inFrameSize && totalConsumed + staged <= StoredFrames(data, ch)
    ensures Fed(calls, totalConsumed, process, data, ch, inCount, inFrameSize, outFrameSize)
    ensures staged == StagedAfter(calls)
    // the file's read position: past the consumed and staged frames, or at the end after a short read
    ensures status != ReadShortfall ==> framesRead == totalConsumed + staged
    ensures status == ReadShortfall ==> framesRead == StoredFrames(data, ch)
    ensures status != WriteShortfall ==> Accounts(calls, totalProduced, reports, sink, sinkRoom, ch)
    ensures status == WriteShortfall ==> Truncated(calls, totalProduced, reports, sink, sinkRoom, ch)
    ensures status == Done ==> totalConsumed >= inCount
    // unless a write failed, the loop ends on a short read exactly when the next request exceeds the file
    ensures status != WriteShortfall ==>
      (status == ReadShortfall <==>
        && totalConsumed < inCount
        && StoredFrames(data, ch) < totalConsumed + staged + PacksToRead(inFrameSize, staged, inCount, totalConsumed))
    ensures status == ReadShortfall && StoredFrames(data, ch) >= inCount ==> staged > 0
    ensures ConsumesAll(process) ==> staged == 0
    ensures ConsumesAll(process) && StoredFrames(data, ch) >= inCount ==> status != ReadShortfall
  {
    framesRead, staged, totalConsumed, totalProduced := 0, 0, 0, 0;
    sink, reports, calls := Sink([], sinkRoom), [], [];
    while totalConsumed < inCount
      invariant staged <= inFrameSize && Staged(inData[..], data, ch, totalConsumed, staged)
      invariant Fed(calls, totalConsumed, process, data, ch, inCount, inFrameSize, outFrameSize)
      invariant staged == StagedAfter(calls)
      invariant framesRead == totalConsumed + staged
      invariant Accounts(calls, totalProduced, reports, sink, sinkRoom, ch)
      invariant ConsumesAll(process) ==> staged == 0
      decreases if |calls| < settle then settle - |calls| else 0, inCount - totalConsumed
    {
      var readShort, ok;
      readShort, ok, framesRead, totalConsumed, totalProduced, staged, sink, reports, calls :=
        FeedIteration(inData, data, inCount, ch, process, settle, inFrameSize, outFrameSize, sinkRoom,
                      framesRead, totalConsumed, totalProduced, staged, sink, reports, calls);
      if readShort {
        status := ReadShortfall;
        return;
      }
      if !ok {
        status := WriteShortfall;
        return;
      }
    }
    status := Done;
  }

  /** The flush loop's trace: the calls of the main loop followed by calls
      with no input, each but the last producing something. */
  ghost predicate Drained<T>(calls: seq<Call<T>>, totalConsumed: nat, process: Process<T>, data: seq<T>, ch: Channels,
                             inCount: nat, inFrameSize: nat, outFrameSize: nat)
  {
    && totalConsumed == SumConsumed(calls)
    && Faithful(calls, process, outFrameSize, data, ch, inFrameSize)
    && Requested(calls, inFrameSize, inCount)
    && (forall i :: 0 <= i < |calls| ==> (calls[i].input.Some? <==> calls[i].consumedBefore < inCount))
  }

  /** How the flush loop ends: its last call passed no input and produced
      nothing, and every earlier call without input produced something. */
  ghost predicate Flushed<T>(calls: seq<Call<T>>)
  {
    && |calls| > 0
    && calls[|calls| - 1].input.None? && calls[|calls| - 1].reply.produced == 0
    && forall i :: 0 <= i < |calls| - 1 && calls[i].input.None? ==> calls[i].reply.produced > 0
  }

  /** Every call without input so far produced something. */
  ghost predicate NullCallsProduced<T>(calls: seq<Call<T>>)
  {
    forall i :: 0 <= i < |calls| && calls[i].input.None? ==> calls[i].reply.produced > 0
  }

  /** How a run ends on a short write: at its last call, every earlier
      call's output having fit and every earlier flush call having
      produced something. */
  ghost predicate StoppedAtShortWrite<T>(calls: seq<Call<T>>, sinkRoom: nat)
  {
    FitUntilLast(calls, sinkRoom) && NullCallsProduced(calls[..|calls| - 1])
  }

  /** The main loop passes input to every call, so a short write there
      leaves no earlier call without input. */
  lemma {:induction false} FedStopsAtShortWrite<T>(calls: seq<Call<T>>, totalConsumed: nat, process: Process<T>,
                                                  data: seq<T>, ch: Channels, inCount: nat, inFrameSize: nat,
                                                  outFrameSize: nat, sinkRoom: nat)
    requires Fed(calls, totalConsumed, process, data, ch, inCount, inFrameSize, outFrameSize)
    requires FitUntilLast(calls, sinkRoom)
    ensures StoppedAtShortWrite(calls, sinkRoom)
  {
    assert forall i :: 0 <= i < |calls| - 1 ==> calls[..|calls| - 1][i] == calls[i];
  }

  /** One iteration of the flush loop: call the engine with no input and
      write what it produced. */
  method FlushStep<T(!new)>(data: seq<T>, inCount: nat, ch: Channels, process: Process<T>,
                            inFrameSize: nat, outFrameSize: nat, totalConsumed: nat, totalProduced: nat,
                            sink: Sink<T>, reports: seq<DelayReport>, calls: seq<Call<T>>, ghost sinkRoom: nat)
    returns (ok: bool, call: Call<T>, produced: nat, sink': Sink<T>, reports': seq<DelayReport>, calls': seq<Call<T>>)
    requires Honest(process, ch)
    requires inCount <= totalConsumed <= StoredFrames(data, ch)
    requires Drained(calls, totalConsumed, process, data, ch, inCount, inFrameSize, outFrameSize)
    requires Accounts(calls, totalProduced, reports, sink, sinkRoom, ch)
    requires NullCallsProduced(calls)
    ensures calls' == calls + [call]
    ensures call.input.None? && call.reply == process(|calls|, None, 0, outFrameSize)
    ensures Drained(calls', totalConsumed, process, data, ch, inCount, inFrameSize, outFrameSize)
    ensures call.reply.produced > 0 ==> NullCallsProduced(calls')
    ensures call.reply.produced == 0 ==> Flushed(calls')
    ensures ok ==> Accounts(calls', produced, reports', sink', sinkRoom, ch)
    ensures !ok ==> Truncated(calls', produced, reports', sink', sinkRoom, ch)
  {
    var reply := process(|calls|, None, 0, outFrameSize);
    call := Call(totalConsumed, None, 0, reply);
    assert Samples(totalConsumed + 0, ch) <= Samples(StoredFrames(data, ch), ch);
    FaithfulAppend(calls, call, process, outFrameSize, data, ch, inFrameSize);
    RequestedAppend(calls, call, inFrameSize, inCount);
    produced, sink', reports', ok := Deliver(call, ch, calls, reports, totalConsumed, totalProduced, sink, sinkRoom);
    AppendCall(calls, call);
    calls' := calls + [call];
    assert forall i :: 0 <= i < |calls| ==> calls'[i] == calls[i];
  }

  /** The flush loop: call the engine with no input (NULL, 0) until a call
      produces nothing, writing what each call produced. `ok` is false when
      a write came up short. */
  method Drain<T(!new)>(data: seq<T>, inCount: nat, ch: Channels, process: Process<T>, ghost settle: nat,
                        inFrameSize: nat, outFrameSize: nat, totalConsumed: nat, totalProduced: nat,
                        sink: Sink<T>, reports: seq<DelayReport>, calls: seq<Call<T>>, ghost sinkRoom: nat)
    returns (ok: bool, produced: nat, sink': Sink<T>, reports': seq<DelayReport>, calls': seq<Call<T>>)
    requires Honest(process, ch) && ProgressesFrom(process, settle)
    requires inCount <= totalConsumed <= StoredFrames(data, ch)
    requires Fed(calls, totalConsumed, process, data, ch, inCount, inFrameSize, outFrameSize)
    requires Accounts(calls, totalProduced, reports, sink, sinkRoom, ch)
    ensures calls <= calls'
    ensures Drained(calls', totalConsumed, process, data, ch, inCount, inFrameSize, outFrameSize)
    ensures ok ==> Accounts(calls', produced, reports', sink', sinkRoom, ch)
    ensures ok ==> |calls'| > |calls| && Flushed(calls')
    ensures !ok ==> Truncated(calls', produced, reports', sink', sinkRoom, ch)
    ensures !ok ==> StoppedAtShortWrite(calls', sinkRoom)
  {
    produced, sink', reports', calls' := totalProduced, sink, reports, calls;
    while true
      invariant calls <= calls'
      invariant Drained(calls', totalConsumed, process, data, ch, inCount, inFrameSize, outFrameSize)
      invariant NullCallsProduced(calls')
      invariant Accounts(calls', produced, reports', sink', sinkRoom, ch)
      decreases if |calls'| < settle then settle - |calls'| else 0
    {
      ghost var before := calls';
      var call;
      ok, call, produced, sink', reports', calls' :=
        FlushStep(data, inCount, ch, process, inFrameSize, outFrameSize, totalConsumed, produced,
                  sink', reports', calls', sinkRoom);
      if !ok || call.reply.produced == 0 {
        assert calls'[..|calls'| - 1] == before;
        return;
      }
    }
  }

  /** `resampling_loop`. The staging buffer is an array of `FrameSize(rate)`
      frames of `channels` samples; `output` is what the output file holds at
      the end and `calls` records every call of `process`. The two
      shortfall statuses are the exceptions: nothing runs after them. */
  method ResamplingLoop<T(0,!new)>(file: SoundFile<T>, outRate: int, process: Process<T>, ghost settle: nat, sinkRoom: nat)
    returns (status: Status, framesRead: nat, totalConsumed: nat, totalProduced: nat, staged: nat,
             output: seq<T>, reports: seq<DelayReport>, calls: seq<Call<T>>)
    requires file.channels == 1 || file.channels == 2
    requires Sizing.FrameSize(file.rate) >= 1
    requires Honest(process, file.channels)
    requires ProgressesFrom(process, settle)
    // every call is the engine's answer to the next unconsumed frames of the file
    ensures Faithful(calls, process, Sizing.FrameSize(outRate), file.data, file.channels, Sizing.FrameSize(file.rate))
    // frames are fed while fewer than the declared count were consumed, NULL after that
    ensures forall i :: 0 <= i < |calls| ==> (calls[i].input.Some? <==> calls[i].consumedBefore < file.frames)
    // each call with input was offered the frames left staged plus `packs_to_read`
    ensures Requested(calls, Sizing.FrameSize(file.rate), file.frames)
    // the file's read position: past the consumed and staged frames, or at the end after a short read
    ensures status != ReadShortfall ==> framesRead == totalConsumed + staged
    ensures status == ReadShortfall ==> framesRead == StoredFrames(file.data, file.channels) && staged == StagedAfter(calls)
    ensures totalConsumed == SumConsumed(calls) && totalProduced == SumProduced(calls)
    ensures staged <= Sizing.FrameSize(file.rate)
    ensures totalConsumed + staged <= StoredFrames(file.data, file.channels)
    ensures reports == DelayReports(calls)
    ensures status != WriteShortfall ==> output == Emitted(calls) && totalProduced <= sinkRoom
    // a short write ends the run at the call whose output did not fit: every earlier call's output did,
    // and every earlier flush call produced something
    ensures status == WriteShortfall ==>
      && |output| == Samples(sinkRoom, file.channels) && output < Emitted(calls) && totalProduced > sinkRoom
      && StoppedAtShortWrite(calls, sinkRoom)
    ensures status == Done ==>
      && totalConsumed >= file.frames
      && Flushed(calls)
    // unless a write failed, the run ends on a short read exactly when the next request exceeds the file
    ensures status != WriteShortfall ==>
      (status == ReadShortfall <==>
        && totalConsumed < file.frames
        && StoredFrames(file.data, file.channels)
             < totalConsumed + staged + PacksToRead(Sizing.FrameSize(file.rate), staged, file.frames, totalConsumed))
    // a file holding its declared frames is consumed exactly, with nothing left staged
    ensures status == Done && StoredFrames(file.data, file.channels) == file.frames ==>
      totalConsumed == file.frames && staged == 0
    // and it reads short only when the engine left frames staged
    ensures status == ReadShortfall && StoredFrames(file.data, file.channels) >= file.frames ==> staged > 0
    ensures ConsumesAll(process) && StoredFrames(file.data, file.channels) >= file.frames ==> status != ReadShortfall
  {
    var ch: Channels := file.channels;
    var inFrameSize := Sizing.FrameSize(file.rate);
    var outFrameSize := Sizing.FrameSize(outRate);
    var inData := new T[Samples(inFrameSize, ch)];
    var sink;
    status, framesRead, totalConsumed, totalProduced, staged, sink, reports, calls :=
      FeedLoop(inData, file.data, file.frames, ch, process, settle, inFrameSize, outFrameSize, sinkRoom);
    if status == Done {
      var ok;
      ok, totalProduced, sink, reports, calls :=
        Drain(file.data, file.frames, ch, process, settle, inFrameSize, outFrameSize,
              totalConsumed, totalProduced, sink, reports, calls, sinkRoom);
      if !ok {
        status := WriteShortfall;
      }
    } else if status == WriteShortfall {
      FedStopsAtShortWrite(calls, totalConsumed, process, file.data, ch, file.frames, inFrameSize, outFrameSize, sinkRoom);
    }
    output := sink.written;
  }
}
