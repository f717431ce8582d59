/** The command line tool: `src_test <input> <resampler> <output rate> <output>`.
    Its checks run in a fixed order and the first that fails ends the run;
    when all pass, the input's sample format picks the sample type of the
    resampling loop. File handles, the rate parse and the engines'
    constructors are foreign and enter as functions. */
module Tool {
  import opened Wrappers
  import Selector

  /** libsndfile's SF_FORMAT_WAV container code. */
  const FormatWav: nat := 0x01_0000

  /** What an opened input file reports. */
  datatype FileInfo = FileInfo(rate: int, channels: int, format: nat)

  /** The two element types `resampling_loop` is instantiated with. */
  datatype SampleType = Short | Float

  /** The exceptions `main` reports as a failure, in the order it can meet them. */
  datatype Failure =
    | Usage
    | InvalidSampleRate
    | CannotOpenInput(inName: string)
    | UnsupportedChannelCount
    | CannotOpenOutput(outName: string)
    | Factory(error: Selector.SelectorError)
    | EngineStartFailed
    | UnsupportedSampleFormat

  /** A run that passed every check: the input, the output rate, the format
      the output file was opened with, the engine and the loop's sample type. */
  datatype Plan = Plan(input: FileInfo, outRate: int, outFormat: nat, engine: Selector.Engine, sampleType: SampleType)

  /** `format & SF_FORMAT_SUBMASK`: the low 16 bits. */
  function SubFormat(format: nat): (f: nat)
    ensures f < 0x1_0000
    ensures (format - f) % 0x1_0000 == 0
  {
    format % 0x1_0000
  }

  /** The checks before the output file is opened all pass: enough
      arguments, a positive rate, an input that opens, mono or stereo. */
  predicate InputAccepted(args: seq<string>, parseRate: string -> int, openInput: string -> Option<FileInfo>)
  {
    && |args| >= 5 && parseRate(args[3]) > 0
    && openInput(args[1]).Some? && openInput(args[1]).value.channels in {1, 2}
  }

  /** ... and the output file opens, as WAV with the input's sub-format,
      the input's channel count and the requested rate. */
  predicate OutputOpened(args: seq<string>, parseRate: string -> int, openInput: string -> Option<FileInfo>,
                         openOutput: (string, nat, int, int) -> bool)
  {
    && InputAccepted(args, parseRate, openInput)
    && openOutput(args[4], SubFormat(openInput(args[1]).value.format) + FormatWav,
                  openInput(args[1]).value.channels, parseRate(args[3]))
  }

  /** `main` up to the call of `resampling_loop`. `args` is argv with the
      program name first; `parseRate` is the `istringstream` parse of the
      rate (0 when nothing parses); `openInput` and `openOutput` are
      libsndfile's opens (the output opened with a format, channel count
      and rate); `starts` says whether an engine's foreign constructor
      returned a state. */
  function Prepare(args: seq<string>, parseRate: string -> int, openInput: string -> Option<FileInfo>,
                   openOutput: (string, nat, int, int) -> bool, parseQuality: string -> int,
                   starts: Selector.Engine -> bool): (r: Result<Plan, Failure>)
    // each failure is reported exactly when every earlier check passed and its own did not
    ensures r == Err(Usage) <==> |args| < 5
    ensures r == Err(InvalidSampleRate) <==> |args| >= 5 && parseRate(args[3]) <= 0
    ensures r.Err? && r.error.CannotOpenInput? <==>
      |args| >= 5 && parseRate(args[3]) > 0 && openInput(args[1]).None?
    ensures r == Err(UnsupportedChannelCount) <==>
      && |args| >= 5 && parseRate(args[3]) > 0 && openInput(args[1]).Some?
      && openInput(args[1]).value.channels !in {1, 2}
    ensures r.Err? && r.error.CannotOpenOutput? <==>
      InputAccepted(args, parseRate, openInput) && !OutputOpened(args, parseRate, openInput, openOutput)
    ensures r.Err? && r.error.Factory? <==>
      && OutputOpened(args, parseRate, openInput, openOutput)
      && Selector.CreateResampler(args[2], SubFormat(openInput(args[1]).value.format), parseQuality).Err?
    ensures r == Err(EngineStartFailed) <==>
      && OutputOpened(args, parseRate, openInput, openOutput)
      && Selector.CreateResampler(args[2], SubFormat(openInput(args[1]).value.format), parseQuality).Ok?
      && !starts(Selector.CreateResampler(args[2], SubFormat(openInput(args[1]).value.format), parseQuality).value)
    ensures r == Err(UnsupportedSampleFormat) <==>
      && OutputOpened(args, parseRate, openInput, openOutput)
      && Selector.CreateResampler(args[2], SubFormat(openInput(args[1]).value.format), parseQuality).Ok?
      && starts(Selector.CreateResampler(args[2], SubFormat(openInput(args[1]).value.format), parseQuality).value)
      && SubFormat(openInput(args[1]).value.format) !in {Selector.FormatPcm16, Selector.FormatFloat}
    // the failures name the file that failed and carry the factory's own error
    ensures r.Err? && r.error.CannotOpenInput? ==> r.error.inName == args[1]
    ensures r.Err? && r.error.CannotOpenOutput? ==> r.error.outName == args[4]
    ensures r.Err? && r.error.Factory? ==>
      r.error.error == Selector.CreateResampler(args[2], SubFormat(openInput(args[1]).value.format), parseQuality).error
    // a plan has passed every check and pairs the engine with a matching sample type
    ensures r.Ok? <==>
      && OutputOpened(args, parseRate, openInput, openOutput)
      && Selector.CreateResampler(args[2], SubFormat(openInput(args[1]).value.format), parseQuality).Ok?
      && starts(Selector.CreateResampler(args[2], SubFormat(openInput(args[1]).value.format), parseQuality).value)
      && SubFormat(openInput(args[1]).value.format) in {Selector.FormatPcm16, Selector.FormatFloat}
    ensures r.Ok? ==>
      && openInput(args[1]) == Some(r.value.input)
      && r.value.outRate == parseRate(args[3])
      && r.value.outFormat == SubFormat(r.value.input.format) + FormatWav
      && openOutput(args[4], r.value.outFormat, r.value.input.channels, r.value.outRate)
      && Selector.CreateResampler(args[2], SubFormat(r.value.input.format), parseQuality) == Ok(r.value.engine)
      && (r.value.sampleType == Short <==> SubFormat(r.value.input.format) == Selector.FormatPcm16)
      && (r.value.sampleType == Float <==> SubFormat(r.value.input.format) == Selector.FormatFloat)
  {
    if |args| < 5 then Err(Usage)
    else
      var outRate := parseRate(args[3]);
      if outRate <= 0 then Err(InvalidSampleRate)
      else
        match openInput(args[1])
        case None => Err(CannotOpenInput(args[1]))
        case Some(input) =>
          if input.channels != 1 && input.channels != 2 then Err(UnsupportedChannelCount)
          else
            var format := SubFormat(input.format);
            if !openOutput(args[4], format + FormatWav, input.channels, outRate) then Err(CannotOpenOutput(args[4]))
            else
              match Selector.CreateResampler(args[2], format, parseQuality)
              case Err(e) => Err(Factory(e))
              case Ok(engine) =>
                if !starts(engine) then Err(EngineStartFailed)
                else if format == Selector.FormatPcm16 then Ok(Plan(input, outRate, format + FormatWav, engine, Short))
                else if format == Selector.FormatFloat then Ok(Plan(input, outRate, format + FormatWav, engine, Float))
                else Err(UnsupportedSampleFormat)
  }

  /** A plan's engine reads and writes the plan's sample type: 16-bit
      integers for `Short`, floats for `Float`. */
  lemma PlanEngineMatchesSampleType(args: seq<string>, parseRate: string -> int, openInput: string -> Option<FileInfo>,
                                    openOutput: (string, nat, int, int) -> bool, parseQuality: string -> int,
                                    starts: Selector.Engine -> bool)
    requires Prepare(args, parseRate, openInput, openOutput, parseQuality, starts).Ok?
    ensures var plan := Prepare(args, parseRate, openInput, openOutput, parseQuality, starts).value;
      plan.sampleType == Short ==> plan.engine.SpeexInt? || plan.engine == Selector.Soxr(plan.engine.recipe, Selector.Int16I)
    ensures var plan := Prepare(args, parseRate, openInput, openOutput, parseQuality, starts).value;
      plan.sampleType == Float ==> plan.engine.SpeexFloat? || plan.engine == Selector.Soxr(plan.engine.recipe, Selector.Float32I)
  {
    var plan := Prepare(args, parseRate, openInput, openOutput, parseQuality, starts).value;
    var format := SubFormat(plan.input.format);
    if "speex-" <= args[2] {
      Selector.SpeexSelection(args[2], format, parseQuality);
    }
  }

  /** A 32-bit PCM input with a "soxr-" selector gets past the factory, which
      builds an Int32 engine for it, and is then refused by the dispatch on
      the sample type, after the output file has been created. */
  lemma Pcm32SoxrRejectedLate(args: seq<string>, parseRate: string -> int, openInput: string -> Option<FileInfo>,
                              openOutput: (string, nat, int, int) -> bool, parseQuality: string -> int,
                              starts: Selector.Engine -> bool)
    requires |args| >= 5 && parseRate(args[3]) > 0
    requires openInput(args[1]).Some? && openInput(args[1]).value.channels in {1, 2}
    requires SubFormat(openInput(args[1]).value.format) == Selector.FormatPcm32
    requires openOutput(args[4], Selector.FormatPcm32 + FormatWav, openInput(args[1]).value.channels, parseRate(args[3]))
    requires "soxr-" <= args[2]
    ensures Selector.CreateResampler(args[2], Selector.FormatPcm32, parseQuality).Ok?
    ensures Selector.CreateResampler(args[2], Selector.FormatPcm32, parseQuality).value.io == Selector.Int32I
    ensures starts(Selector.CreateResampler(args[2], Selector.FormatPcm32, parseQuality).value) ==>
      Prepare(args, parseRate, openInput, openOutput, parseQuality, starts) == Err(UnsupportedSampleFormat)
  {
    Selector.SoxrAcceptsExactly(args[2], Selector.FormatPcm32, parseQuality);
    Selector.PrefixesDisjoint(args[2]);
  }

  /** The same input with a "speex-" selector is refused earlier, by the factory. */
  lemma Pcm32SpeexRejectedByFactory(args: seq<string>, parseRate: string -> int, openInput: string -> Option<FileInfo>,
                                    openOutput: (string, nat, int, int) -> bool, parseQuality: string -> int,
                                    starts: Selector.Engine -> bool)
    requires |args| >= 5 && parseRate(args[3]) > 0
    requires openInput(args[1]).Some? && openInput(args[1]).value.channels in {1, 2}
    requires SubFormat(openInput(args[1]).value.format) == Selector.FormatPcm32
    requires openOutput(args[4], Selector.FormatPcm32 + FormatWav, openInput(args[1]).value.channels, parseRate(args[3]))
    requires "speex-" <= args[2]
    ensures Prepare(args, parseRate, openInput, openOutput, parseQuality, starts)
      == Err(Factory(Selector.UnsupportedSpeexFormat))
  {
    Selector.SpeexSelection(args[2], Selector.FormatPcm32, parseQuality);
  }
}
