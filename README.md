# src_test resampling harness, modelled in Dafny

`src_test <input> <resampler> <output rate> <output>` reads an audio file,
resamples it with an engine chosen by name, and writes the result. The
engines are speex (16-bit integer or float) and soxr (16-bit, 32-bit or
float, at one of five quality recipes). The tool also reports, once, how far
the engine's output lags its input. This project models the parts of
`src_test/main.cpp` that the harness itself implements:

- `sizing.dfy` (module `Sizing`): the staging-buffer size of one 20 ms
  frame, `(rate * 20 + 999) / 1000`, in 32-bit unsigned arithmetic.
- `selector.dfy` (module `Selector`): `create_resampler`. It dispatches on the
  "speex-" and "soxr-" prefixes, maps soxr's quality names to recipes, and
  applies the speex and soxr sample-format switches.
- `staging.dfy` (module `Staging`): the input staging array. Frames are read
  into its tail, and consumed frames are dropped by `memmove`. Both are
  in-place array methods proved against sequence functions.
- `streaming.dfy` (module `Streaming`): `resampling_loop` and `write_data`.
  - The engine is an oracle function of the call number, the staged
    samples, the staged frame count and the output capacity.
  - The run produces a trace of every engine call.
  - The methods are proved against predicates over that trace, such as
    `Faithful`, `Accounts` and `Flushed`.
  - Lemmas characterise those predicates: each call sees exactly the next
    unconsumed frames, and the delay is reported once, for the first call
    that produced output.
- `tool.dfy` (module `Tool`): `main`'s checks, in the order they run. When
  they all pass, the input's sample format picks the sample type (`short` or
  `float`) that the loop would run with.
- `wrappers.dfy`: `Option`, `Result` and `Min`.

Two behaviours of the code are modelled as written:

- **The read request.** `packs_to_read` is capped by the declared frame count
  minus the frames *consumed*, not minus the frames *read*. A file that holds
  exactly its declared frames can therefore make the loop request more than is
  left. The read then comes up short and the run fails.
  - `Streaming.RequestWithinRemaining` and `Streaming.ShortReadNeedsStagedFrames`
    say when this happens.
  - `Streaming.NearEndShortReadExample` gives a case.
  - `Streaming.ResamplingLoop` proves it cannot happen with an engine that
    consumes everything it is given.
- **The delay report in the flush.** The delay report is guarded by
  `total_produced == 0`, not by the phase of the loop. When the main loop
  produced nothing, the first flush call that produces output reports the delay.

## Model

| member | source | states |
|---|---|---|
| `Sizing.FrameSizeIsCeiling` | src_test/main.cpp:184-185 | For every rate from 1 to 214748314, no wrap-around happens. The frame size is the least frame count covering 20 ms at that rate, so it is at least 1. |
| `Sizing.NoWrap` | src_test/main.cpp:184-185 | For every rate from 1 to 214748314, the 32-bit unsigned expression equals the plain integer expression. |
| `Sizing.FrameSizeWrapsBeyondMaxRate` | src_test/main.cpp:184 | One rate past that range, the unsigned sum wraps and the buffer size is 0. |
| `Sizing.CommonFrameSizes` | src_test/main.cpp:184-185 | Buffer sizes for 8, 11.025, 16, 22.05, 44.1 and 48 kHz. |
| `Sizing.FrameSize` | src_test/main.cpp:184-185 | The frame size is below 2^32/1000 + 1 for every int rate, negative ones included: the unsigned conversion and each wrap are explicit. |
| `Selector.Substr` | src_test/main.cpp:119 | `substr(pos, n)` takes the `min(n, size - pos)` characters from `pos`. |
| `Selector.SubstrPrefix` | src_test/main.cpp:119 | Comparing the selector's first characters, as many as the prefix has, with the prefix succeeds exactly when it is a prefix of the selector. |
| `Selector.SoxrIoSpec` | src_test/main.cpp:82-94 | soxr accepts exactly 16-bit PCM, 32-bit PCM and float. Every other format throws. |
| `Selector.SoxrRecipe` | src_test/main.cpp:139-147 | Each of the four quality names selects its recipe exactly when the whole selector equals it; anything else gets QQ. |
| `Selector.CreateResampler` | src_test/main.cpp:115-157 | A speex engine comes only from a "speex-" selector with 16-bit PCM (int) or float input, and carries the quality parsed from the text after the prefix. A soxr engine comes only from a "soxr-" selector with the io spec soxr derives from the format. The selector is unrecognized exactly when it has neither prefix. |
| `Selector.PrefixesDisjoint` | src_test/main.cpp:119-137 | No selector satisfies both prefix tests. |
| `Selector.SpeexSelection` | src_test/main.cpp:119-135 | A "speex-" selector gives the int variant for 16-bit PCM and the float variant for float. Any other format fails. |
| `Selector.SoxrAcceptsExactly` | src_test/main.cpp:137-150 | A "soxr-" selector succeeds if and only if the format is 16-bit PCM, 32-bit PCM or float. Otherwise it fails with soxr's format error. |
| `Selector.SoxrFallback` | src_test/main.cpp:139-149 | Unknown "soxr-" suffixes fall back to QQ, and the four names get their own recipe. |
| `Selector.SelectorExamples` | src_test/main.cpp:115-157 | Concrete selectors: the "soxr-unknown" fallback, "soxr-vhq" on 32-bit PCM, speex on 16-bit and 24-bit PCM, and the unrecognized "sox-hq". |
| `Staging.SamplesIsProduct` | src_test/main.cpp:188 | The linear sample count equals frames times channel count. |
| `Staging.Overwrite` | src_test/main.cpp:196 | A read writes its samples over one window and leaves every other sample as it was. |
| `Staging.Fill` | src_test/main.cpp:196 | The corrected read at frame offset `in_size` keeps the buffer's length. Its content is stated by `Staging.FillAppendsAfterStaged`. |
| `Staging.FillAsWritten` | src_test/main.cpp:196 | The read as written, at sample offset `in_size`, keeps the buffer's length. Its effect is stated by `Staging.StereoFillClobbersStaged`. |
| `Staging.FillAppendsAfterStaged` | src_test/main.cpp:196-199 | The corrected read leaves the staged frames untouched and puts the frames read right behind them. The rest of the buffer is unchanged. |
| `Staging.FillAsWrittenAgreesForMono` | src_test/main.cpp:196 | For mono input the written offset is the intended one. |
| `Staging.StereoFillClobbersStaged` | src_test/main.cpp:196 | For stereo input with frames staged, the read as written changes the staged samples, while the corrected read keeps them. |
| `Staging.StereoFillExample` | src_test/main.cpp:196 | Staged (1,2) plus read (3,4): as written the engine sees (1,3),(4,0); corrected it sees (1,2),(3,4). |
| `Staging.MoveToFront` | src_test/main.cpp:206 | `memmove` keeps the buffer's length. |
| `Staging.CompactKeepsUnconsumed` | src_test/main.cpp:204-206 | After the move, the buffer starts with exactly the staged frames that were not consumed. |
| `Staging.FillTail` | src_test/main.cpp:196 | The in-place read leaves the array equal to `Fill` of its old contents. |
| `Staging.Compact` | src_test/main.cpp:206 | The in-place `memmove` leaves the array equal to `MoveToFront` of its old contents. |
| `Streaming.StoredFrames` | src_test/main.cpp:192-196 | The whole frames a file's samples hold: a trailing partial frame is not one. |
| `Streaming.ReadCount` | src_test/main.cpp:196-198 | `readf` delivers at most the frames requested. It delivers fewer exactly when fewer are left, and then it delivers all that are left. |
| `Streaming.PacksToRead` | src_test/main.cpp:195 | The request fits in the buffer's free room. It is at most the declared frame count minus the frames consumed. It equals one of the two. |
| `Streaming.StagedWithinCapacity` | src_test/main.cpp:195-199 | After a full read, between 1 and `in_frame_size` frames are staged. |
| `Streaming.RequestWithinRemaining` | src_test/main.cpp:195 | The request stays within the frames not yet read if and only if nothing is staged or at least a full buffer remains. |
| `Streaming.ShortReadNeedsStagedFrames` | src_test/main.cpp:195-198 | With a file holding its declared frames, a short read implies frames were staged and the end was less than a buffer away. |
| `Streaming.NearEndShortReadExample` | src_test/main.cpp:195-198 | An 8 kHz mono case where the request is 50 frames but only 40 are left. |
| `Streaming.WriteData` | src_test/main.cpp:168-181 | The delay is reported if and only if nothing was produced before. The produced total grows by the frames emitted. The write succeeds if and only if they all fit. On a short write, the sink holds exactly the whole frames that fit. |
| `Streaming.FaithfulEach` | src_test/main.cpp:193-222 | The recursive trace predicate holds if and only if every call i is the engine's i-th answer to exactly the frames that follow those consumed by the calls before it. |
| `Streaming.FirstProducerIsFirst` | src_test/main.cpp:170 | The call found is the first with output, and none is found exactly when no call produced anything. |
| `Streaming.DelayReportsReportFirstOutput` | src_test/main.cpp:170-175 | A run reports the delay at most once. It reports it if and only if some call produced output, for the first such call, with the consumed total after that call and its produced count. |
| `Streaming.NothingProducedYet` | src_test/main.cpp:170 | `total_produced == 0` holds exactly when no call has produced output yet. |
| `Streaming.ReportAppend` | src_test/main.cpp:170-177 | Reporting when `total_produced == 0` and the call produced output adds exactly the report that belongs to the extended trace. |
| `Streaming.StagedAfterFill` | src_test/main.cpp:195-199 | Reading the frames that follow the staged ones into the tail leaves them all staged, in file order. |
| `Streaming.StagedCallIsGenuine` | src_test/main.cpp:202 | A `process` call on everything staged passes the engine exactly the file's next unconsumed frames. |
| `Streaming.StagedAfterCompact` | src_test/main.cpp:204-206 | After the totals are updated and the `memmove` runs, the frames the engine left are again the next unconsumed frames of the file. |
| `Streaming.Refill` | src_test/main.cpp:195-199 | The read, at the file position just past the consumed and staged frames, delivers `ReadCount` frames. Afterwards the buffer holds the staged frames followed by the frames read, which together are the next unconsumed frames of the file. |
| `Streaming.ProcessStaged` | src_test/main.cpp:201-206 | The engine gets exactly the staged frames, which are the file's next unconsumed frames. After the `memmove`, the buffer holds the frames it did not consume. |
| `Streaming.TruncatedIsFinal` | src_test/main.cpp:179-180 | A short write ends the run (the throw). A truncated trace extended by any further call no longer has every call but the last fitting, so a truncated trace ends at its short write. |
| `Streaming.Deliver` | src_test/main.cpp:208-209 | After a call, the produced total, the reports and the output stay in step with the extended trace. A short write happens at this call, after every earlier call's output fit, and leaves the output a strict prefix of everything produced. |
| `Streaming.RequestedAppend` | src_test/main.cpp:194-205 | A call given the frames left staged plus `packs_to_read` extends the record of requests, and leaves staged what it did not consume. |
| `Streaming.RequestedEach` | src_test/main.cpp:194-205 | The recursive request record holds if and only if every call with input was given the frames the call before it left staged plus `packs_to_read` for that count, with fewer than the declared frames consumed. |
| `Streaming.Record` | src_test/main.cpp:204-209 | Appending a main-loop call keeps the trace faithful, the request record and the accounts in step, or ends truncated. The call's unconsumed frames are what the trace leaves staged. |
| `Streaming.FeedStep` | src_test/main.cpp:195-206 | The buffer side of one iteration fails its read exactly when the request exceeds the frames left in the file, and then the file position is at its end. Otherwise the position advances by the request, and the call is a genuine one on `staged + packs_to_read` frames. |
| `Streaming.FeedIteration` | src_test/main.cpp:194-209 | One main-loop iteration. After a short read only the buffer and the file position changed. Otherwise the trace, the request record, the staged count and the file position stay in step. The call consumes something once the engine has settled. |
| `Streaming.FeedLoop` | src_test/main.cpp:192-210 | Every call gets the next unconsumed frames and was given the staged frames plus `packs_to_read`. The sums and output agree with the trace. The file position is the consumed plus staged frames, or the file's end after a short read. Unless a write fails, the loop ends on a short read exactly when the next request exceeds the file, and otherwise Done with at least `in_count` frames consumed. A failed write ends the loop at that call. |
| `Streaming.FlushStep` | src_test/main.cpp:215-219 | One flush call passes no input. It is recorded and its output written. A call that produces nothing ends the flush as `Flushed` describes. |
| `Streaming.Drain` | src_test/main.cpp:213-222 | The flush extends the trace with calls that pass no input, and stops at the first call that produces nothing. It fails only on a short write, and then stops at that call, every earlier flush call having produced something. |
| `Streaming.FedStopsAtShortWrite` | src_test/main.cpp:192-210 | The main loop passes input to every call, so a short write there ends the run with no earlier call lacking input. |
| `Streaming.ResamplingLoop` | src_test/main.cpp:164-223 | The whole loop, stated case by case below. |
| `Tool.SubFormat` | src_test/main.cpp:251 | The sub-format is the unique value below 2^16 that agrees with the format modulo 2^16. |
| `Tool.Prepare` | src_test/main.cpp:225-270 | Each of the eight failures is reported exactly when every earlier check passed and its own failed. The failures name the file that failed, and a factory failure carries the factory's own error. The output file is opened, with the input's sub-format as WAV, its channel count and the requested rate, before the selector is used. A plan exists exactly when every check passed, and its sample type is `short` exactly for 16-bit PCM and `float` exactly for float. |
| `Tool.PlanEngineMatchesSampleType` | src_test/main.cpp:258-267 | A plan's engine reads and writes the plan's sample type: speex int or soxr Int16 for `short`, speex float or soxr Float32 for `float`. |
| `Tool.Pcm32SoxrRejectedLate` | src_test/main.cpp:258-269 | For 32-bit PCM input, a "soxr-" selector gets past the factory with an Int32 engine. The dispatch then rejects the run with "Unsupported sample format", after the output file was created. |
| `Tool.Pcm32SpeexRejectedByFactory` | src_test/main.cpp:119-134 | The same input with a "speex-" selector is rejected earlier, by the factory. |

`Streaming.ResamplingLoop` states the following about a run:

- Every call is the engine's answer to exactly the next unconsumed frames.
- Every call with input was given the frames left staged by the call before
  it plus `packs_to_read`.
- Input is passed while fewer than the declared frames were consumed, and NULL after that.
- The file position is the consumed plus staged frames, or the end of the
  file after a short read.
- The totals are the trace's sums, and the staged count stays within the buffer.
- The delay reports are the one-time report of the first output.
- The output is everything produced, except on a short write, where it is
  exactly the frames that fit and a strict prefix of everything produced.
  The run stops at the call whose write came up short: every earlier call's
  output fit, and every earlier flush call produced something.
- **Done:** at least the declared frames were consumed. The flush ended on a
  call that produced nothing, and every earlier flush call produced something.
- **Short read:** unless a write failed, the run ends on a short read exactly
  when the next request exceeds what the file holds.
- For a file holding exactly its declared frames:
  - Done means exactly those frames were consumed and none is left staged.
  - A short read means frames were left staged.
  - A short read never happens with an engine that consumes all it is given.

## Left out

- The engines themselves (speex and soxr filtering) are foreign libraries.
  - They are an oracle function that is only assumed honest: it consumes at most its input and produces at most its capacity, in whole frames.
  - Termination of both loops rests on one more assumption: from some call on, the engine consumes something from any non-empty input and produces nothing from an empty one. The harness relies on this without checking it.
- libsndfile is not part of this model.
  - The input is its declared frame count plus the samples it holds.
  - The output is a sink with a fixed room in frames: a write that does not fit comes up short.
  - Opening files and writing the output header are functions passed to `Tool.Prepare`.
- The float delay value, the millisecond conversion and all console output are left out.
  - The model records the inputs of each delay report: the call, the consumed total and the produced count.
- The out_data buffer is not a separate array: each engine reply carries the samples it produced.
- Parsing the output rate and the speex quality with `istringstream` is left to the caller, as functions passed in.
- The exit status (0 on success, 1 after any failure) is left out. So is the text of each failure message.
- Exception propagation is modelled as statuses and `Result` values.
  - A short read and a short write end `Streaming.ResamplingLoop` with a status.
  - The checks in `main` return a `Failure`.
- `unique_ptr` ownership, the virtual dispatch of `process`, and the engines' destructors are left out.
- The engine constructors' own failures (a NULL state from `speex_resampler_init` or `soxr_create`) are the `starts` function passed to `Tool.Prepare`. `speex_resampler_skip_zeros` is part of the foreign engine.
- `Streaming.ResamplingLoop` requires an input frame size of at least 1. A rate whose wrapped frame size is 0 gives the source an empty buffer: it requests 0 frames and calls the engine on nothing, without end. `Sizing.FrameSizeWrapsBeyondMaxRate` exhibits such a rate.
- `Streaming.Refill`, `Streaming.FeedStep`, `Streaming.FeedIteration`, `Streaming.FeedLoop` and `Streaming.ResamplingLoop` read into the buffer at the corrected tail offset, `in_size * channel_count` (see Findings). Their contracts describe that read, not `in_data.get() + in_size`. With the offset as written, stereo runs feed the engine wrong samples, so the "next unconsumed frames" property would not hold.
- `Streaming.ResamplingLoop`: the loop's `size_t` counters are unbounded numbers; the only wrap-around modelled is the 32-bit one in `Sizing.FrameSize`.

## Findings

| source | as written | input that shows it | evidently intended | confidence | as-written member | corrected member |
|---|---|---|---|---|---|---|
| src_test/main.cpp:196 | The read goes to `in_data.get() + in_size`. That is `in_size` samples past the start, while the staged frames occupy `in_size * channel_count` samples; the `memmove` at line 206 does scale by `channel_count`. | Stereo input, after a call that leaves frames staged. One staged frame (1,2) plus the frame (3,4) read gives buffer 1,3,4,…, so the engine gets the frames (1,3),(4,·). | Read to `in_data.get() + in_size * channel_count`, so the frames read follow the staged ones. | not executed | `Staging.StereoFillClobbersStaged` | `Staging.FillAppendsAfterStaged` |
