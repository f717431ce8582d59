/** The resampler factory: a selector string and the input's sample format
    choose one of three engine variants, or fail as the harness's
    `std::invalid_argument` does. The engines themselves are foreign; only
    the choice is modelled. */
module Selector {
  import opened Wrappers

  /** libsndfile's sub-format codes (the low 16 bits of a file's format). */
  const FormatPcm16: int := 0x0002
  const FormatPcm24: int := 0x0003
  const FormatPcm32: int := 0x0004
  const FormatFloat: int := 0x0006

  /** soxr quality recipes. */
  datatype Recipe = QQ | LQ | MQ | HQ | VHQ

  /** soxr interleaved sample representations of an io spec. */
  datatype SoxrDatatype = Int16I | Int32I | Float32I

  /** The engine variants behind the single `process` interface. */
  datatype Engine =
    | SpeexInt(quality: int)
    | SpeexFloat(quality: int)
    | Soxr(recipe: Recipe, io: SoxrDatatype)

  datatype SelectorError =
    | UnsupportedSpeexFormat
    | UnsupportedSoxrFormat
    | UnrecognizedResampler(selector: string)

  /** `std::string::substr(pos, n)` for `pos <= |s|`: at most n characters from pos. */
  function Substr(s: string, pos: nat, n: nat): (r: string)
    requires pos <= |s|
    ensures |r| == Min(n, |s| - pos)
    ensures forall i :: 0 <= i < |r| ==> r[i] == s[pos + i]
  {
    s[pos..pos + Min(n, |s| - pos)]
  }

  /** The test `type.substr(0, |p|) == p` holds exactly when p is a prefix of type. */
  lemma SubstrPrefix(s: string, p: string)
    ensures Substr(s, 0, |p|) == p <==> p <= s
  {
    if p <= s {
      assert Substr(s, 0, |p|) == s[..|p|];
    }
  }

  /** The io spec the soxr constructor builds for a sample format, or its exception. */
  function SoxrIoSpec(format: int): (r: Result<SoxrDatatype, SelectorError>)
    ensures r.Ok? <==> format in {FormatPcm16, FormatPcm32, FormatFloat}
    ensures r.Err? ==> r.error == UnsupportedSoxrFormat
  {
    if format == FormatPcm16 then Ok(Int16I)
    else if format == FormatPcm32 then Ok(Int32I)
    else if format == FormatFloat then Ok(Float32I)
    else Err(UnsupportedSoxrFormat)
  }

  /** The recipe chosen by exact match of the whole selector, QQ otherwise. */
  function SoxrRecipe(selector: string): (r: Recipe)
    ensures r == LQ <==> selector == "soxr-lq"
    ensures r == MQ <==> selector == "soxr-mq"
    ensures r == HQ <==> selector == "soxr-hq"
    ensures r == VHQ <==> selector == "soxr-vhq"
  {
    if selector == "soxr-lq" then LQ
    else if selector == "soxr-mq" then MQ
    else if selector == "soxr-hq" then HQ
    else if selector == "soxr-vhq" then VHQ
    else QQ
  }

  /** `create_resampler`: dispatch on the selector's prefix, then on the
      sample format. `parseQuality` stands for the `istringstream` parse of
      the text after "speex-". */
  function CreateResampler(selector: string, format: int, parseQuality: string -> int): (r: Result<Engine, SelectorError>)
    ensures r.Ok? && r.value.SpeexInt? ==> "speex-" <= selector && format == FormatPcm16
    ensures r.Ok? && r.value.SpeexFloat? ==> "speex-" <= selector && format == FormatFloat
    ensures r.Ok? && r.value.Soxr? ==> "soxr-" <= selector && SoxrIoSpec(format) == Ok(r.value.io)
    ensures r.Ok? && !r.value.Soxr? ==> r.value.quality == parseQuality(selector[6..])
    ensures r == Err(UnrecognizedResampler(selector)) <==> !("speex-" <= selector) && !("soxr-" <= selector)
  {
    SubstrPrefix(selector, "speex-");
    SubstrPrefix(selector, "soxr-");
    if Substr(selector, 0, 6) == "speex-" then
      assert Substr(selector, 6, |selector| - 6) == selector[6..];
      var quality := parseQuality(Substr(selector, 6, |selector| - 6));
      if format == FormatPcm16 then Ok(SpeexInt(quality))
      else if format == FormatFloat then Ok(SpeexFloat(quality))
      else Err(UnsupportedSpeexFormat)
    else if Substr(selector, 0, 5) == "soxr-" then
      var recipe := SoxrRecipe(selector);
      match SoxrIoSpec(format)
      case Ok(io) => Ok(Soxr(recipe, io))
      case Err(e) => Err(e)
    else
      Err(UnrecognizedResampler(selector))
  }

  /** No selector starts with both prefixes. */
  lemma PrefixesDisjoint(selector: string)
    ensures !("speex-" <= selector && "soxr-" <= selector)
  {
    if "speex-" <= selector {
      assert selector[1] == 'p';
    }
  }

  /** A "speex-" selector gives the int variant for 16-bit PCM, the float
      variant for float, and fails for every other format. */
  lemma SpeexSelection(selector: string, format: int, parseQuality: string -> int)
    requires "speex-" <= selector
    ensures format == FormatPcm16 ==>
      CreateResampler(selector, format, parseQuality) == Ok(SpeexInt(parseQuality(selector[6..])))
    ensures format == FormatFloat ==>
      CreateResampler(selector, format, parseQuality) == Ok(SpeexFloat(parseQuality(selector[6..])))
    ensures format != FormatPcm16 && format != FormatFloat ==>
      CreateResampler(selector, format, parseQuality) == Err(UnsupportedSpeexFormat)
  {
    SubstrPrefix(selector, "speex-");
    assert Substr(selector, 6, |selector| - 6) == selector[6..];
  }

  /** A "soxr-" selector is accepted for exactly 16-bit PCM, 32-bit PCM and
      float, whatever follows the prefix. */
  lemma SoxrAcceptsExactly(selector: string, format: int, parseQuality: string -> int)
    requires "soxr-" <= selector
    ensures CreateResampler(selector, format, parseQuality).Ok?
      <==> format in {FormatPcm16, FormatPcm32, FormatFloat}
    ensures CreateResampler(selector, format, parseQuality).Err? ==>
      CreateResampler(selector, format, parseQuality).error == UnsupportedSoxrFormat
  {
    SubstrPrefix(selector, "speex-");
    SubstrPrefix(selector, "soxr-");
    PrefixesDisjoint(selector);
  }

  /** Any "soxr-" selector other than the four named tiers falls back to QQ;
      the named ones get their own recipe. */
  lemma SoxrFallback(selector: string, format: int, parseQuality: string -> int)
    requires "soxr-" <= selector
    requires format in {FormatPcm16, FormatPcm32, FormatFloat}
    ensures CreateResampler(selector, format, parseQuality).Ok?
    ensures selector !in {"soxr-lq", "soxr-mq", "soxr-hq", "soxr-vhq"} ==>
      CreateResampler(selector, format, parseQuality).value == Soxr(QQ, SoxrIoSpec(format).value)
    ensures selector == "soxr-vhq" ==> CreateResampler(selector, format, parseQuality).value == Soxr(VHQ, SoxrIoSpec(format).value)
    ensures selector == "soxr-hq" ==> CreateResampler(selector, format, parseQuality).value == Soxr(HQ, SoxrIoSpec(format).value)
    ensures selector == "soxr-mq" ==> CreateResampler(selector, format, parseQuality).value == Soxr(MQ, SoxrIoSpec(format).value)
    ensures selector == "soxr-lq" ==> CreateResampler(selector, format, parseQuality).value == Soxr(LQ, SoxrIoSpec(format).value)
  {
    SoxrAcceptsExactly(selector, format, parseQuality);
    PrefixesDisjoint(selector);
    SubstrPrefix(selector, "speex-");
    SubstrPrefix(selector, "soxr-");
  }

  /** Example selectors: "soxr-unknown" is not an error but the QQ recipe;
      "speex-5" on 16-bit PCM is the int variant; "sox-hq" is unrecognized. */
  lemma SelectorExamples(parseQuality: string -> int)
    ensures CreateResampler("soxr-unknown", FormatFloat, parseQuality) == Ok(Soxr(QQ, Float32I))
    ensures CreateResampler("soxr-vhq", FormatPcm32, parseQuality) == Ok(Soxr(VHQ, Int32I))
    ensures CreateResampler("speex-5", FormatPcm16, parseQuality) == Ok(SpeexInt(parseQuality("5")))
    ensures CreateResampler("speex-5", FormatPcm24, parseQuality) == Err(UnsupportedSpeexFormat)
    ensures CreateResampler("soxr-hq", FormatPcm24, parseQuality) == Err(UnsupportedSoxrFormat)
    ensures CreateResampler("sox-hq", FormatPcm16, parseQuality) == Err(UnrecognizedResampler("sox-hq"))
  {
    SpeexSelection("speex-5", FormatPcm16, parseQuality);
    SpeexSelection("speex-5", FormatPcm24, parseQuality);
    SoxrFallback("soxr-unknown", FormatFloat, parseQuality);
    SoxrFallback("soxr-vhq", FormatPcm32, parseQuality);
    SoxrAcceptsExactly("soxr-hq", FormatPcm24, parseQuality);
    assert !("speex-" <= "sox-hq") by { assert "sox-hq"[3] != "speex-"[3]; }
    assert !("soxr-" <= "sox-hq") by { assert "sox-hq"[3] != "soxr-"[3]; }
  }
}
