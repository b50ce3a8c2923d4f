/** The synthesis session of the binding (src/lib.rs): construction from a
    dictionary and a voice model, and the synthesize call that applies the
    options, analyses the text, runs the engine and converts its samples to
    signed 16-bit PCM. */
module AltJTalkLib {
  import opened Wrappers
  import opened Hts
  import Jpreprocess
  import opened SynthesisOptions

  /** Rust's `i16`. */
  type i16 = x: int | -0x8000 <= x < 0x8000

  const I16_MIN: i16 := -0x8000
  const I16_MAX: i16 := 0x7fff

  /** The two error statuses the binding reports. */
  datatype Status = InvalidArg | Unknown

  /** An error as reported to the caller: its status and the collaborator's message. */
  datatype Error = Error(status: Status, reason: string)

  datatype AltJTalkConfig = AltJTalkConfig(dictionary: string, model: string)

  /** Real-to-integer truncation toward zero (`as` on an in-range float). */
  function TruncateTowardZero(d: real): (r: int)
    ensures 0.0 <= d ==> 0 <= r && r as real <= d < r as real + 1.0
    ensures d < 0.0 ==> r <= 0 && r as real - 1.0 < d <= r as real
  {
    if d >= 0.0 then d.Floor else -((-d).Floor)
  }

  /** The per-sample conversion: saturate below and above, truncate in range. */
  function ToI16(d: real): (r: i16)
    ensures d < I16_MIN as real ==> r == I16_MIN
    ensures d > I16_MAX as real ==> r == I16_MAX
    ensures I16_MIN as real <= d <= I16_MAX as real ==> r == TruncateTowardZero(d)
  {
    if d < I16_MIN as real then I16_MIN
    else if d > I16_MAX as real then I16_MAX
    else TruncateTowardZero(d)
  }

  /** The element-wise conversion of the engine's samples, in order. */
  function ConvertSamples(samples: seq<real>): (pcm: seq<i16>)
    ensures |pcm| == |samples|
    ensures forall i :: 0 <= i < |samples| ==> pcm[i] == ToI16(samples[i])
  {
    if samples == [] then [] else [ToI16(samples[0])] + ConvertSamples(samples[1..])
  }

  /** Whether a synthesize call reaches the acoustic engine: analysis
      succeeds and yields more than two labels. */
  function ReachesEngine(analyser: Jpreprocess.Analyser, text: string): (reached: bool)
    ensures analyser.extractFullcontext(text).Err? ==> !reached
    ensures analyser.extractFullcontext(text).Ok? ==>
      (reached <==> |analyser.extractFullcontext(text).value| >= 3)
  {
    var labels := analyser.extractFullcontext(text);
    labels.Ok? && |labels.value| > 2
  }

  /** What a synthesize call returns, once the engine holds `params`. */
  function SynthesisResult(analyser: Jpreprocess.Analyser, hts: Hts.Library, voices: seq<string>,
                           params: Params, text: string): (r: Result<seq<i16>, Error>)
    ensures r.Err? ==> r.error.status == Unknown
    ensures !ReachesEngine(analyser, text) && r.Ok? ==> r.value == []
  {
    match analyser.extractFullcontext(text)
    case Err(e) => Err(Error(Unknown, e))
    case Ok(labels) =>
      if |labels| <= 2 then Ok([])
      else match hts.synthesize(voices, params, labels)
        case Err(e) => Err(Error(Unknown, e))
        case Ok(samples) => Ok(ConvertSamples(samples))
  }

  class AltJTalk {
    const jpreprocess: Jpreprocess.Analyser
    const htsengine: HtsEngine
    const defaultOptions: SynthesisOption

    constructor (jpreprocess: Jpreprocess.Analyser, htsengine: HtsEngine, defaultOptions: SynthesisOption)
      ensures this.jpreprocess == jpreprocess && this.htsengine == htsengine
      ensures this.defaultOptions == defaultOptions
    {
      this.jpreprocess := jpreprocess;
      this.htsengine := htsengine;
      this.defaultOptions := defaultOptions;
    }

    /** `from_config`: create an engine and load the model into it, snapshot
        its parameters, then open the dictionary. Either failure is reported
        as `InvalidArg` and no session is made; a model failure is reported
        whatever the dictionary would have done. */
    static method FromConfig(config: AltJTalkConfig, hts: Hts.Library, jp: Jpreprocess.Library)
      returns (r: Result<AltJTalk, Error>)
      ensures hts.load(hts.initial, [config.model]).Err? ==>
        r == Err(Error(InvalidArg, hts.load(hts.initial, [config.model]).error))
      ensures hts.load(hts.initial, [config.model]).Ok? && jp.fromDictionary(config.dictionary).Err? ==>
        r == Err(Error(InvalidArg, jp.fromDictionary(config.dictionary).error))
      ensures r.Ok? <==> hts.load(hts.initial, [config.model]).Ok? && jp.fromDictionary(config.dictionary).Ok?
      ensures r.Ok? ==>
        && fresh(r.value) && fresh(r.value.htsengine)
        && r.value.htsengine.library == hts
        && r.value.htsengine.voices == [config.model]
        && r.value.htsengine.Parameters() == hts.load(hts.initial, [config.model]).value
        && r.value.htsengine.synthesisCalls == 0
        && r.value.defaultOptions == FromEngine(r.value.htsengine)
        && r.value.jpreprocess == jp.fromDictionary(config.dictionary).value
    {
      var htsengine := new HtsEngine(hts);
      var loaded := htsengine.Load([config.model]);
      if loaded.Err? {
        return Err(Error(InvalidArg, loaded.error));
      }
      var defaultOptions := FromEngine(htsengine);
      var analyser := jp.fromDictionary(config.dictionary);
      if analyser.Err? {
        return Err(Error(InvalidArg, analyser.error));
      }
      var session := new AltJTalk(analyser.value, htsengine, defaultOptions);
      r := Ok(session);
    }

    /** `synthesize`: the options are applied to the engine first, so its
        parameters are the resolved ones even when a later step fails; the
        engine is run only when analysis yields more than two labels. The
        session's analyser and default snapshot are left as they are. */
    method Synthesize(inputText: string, option: SynthesisOption) returns (r: Result<seq<i16>, Error>)
      modifies htsengine
      ensures htsengine.Parameters() == Resolve(option, defaultOptions)
      ensures htsengine.voices == old(htsengine.voices)
      ensures r == SynthesisResult(jpreprocess, htsengine.library, htsengine.voices,
                                   Resolve(option, defaultOptions), inputText)
      ensures htsengine.synthesisCalls ==
        old(htsengine.synthesisCalls) + (if ReachesEngine(jpreprocess, inputText) then 1 else 0)
    {
      ApplyToEngine(option, htsengine, defaultOptions);
      var labels := jpreprocess.extractFullcontext(inputText);
      if labels.Err? {
        return Err(Error(Unknown, labels.error));
      }
      if |labels.value| <= 2 {
        return Ok([]);
      }
      var audio := htsengine.Synthesize(labels.value);
      if audio.Err? {
        return Err(Error(Unknown, audio.error));
      }
      r := Ok(ConvertSamples(audio.value));
    }
  }

  /** Two calls with the same text and options return the same result. */
  method SynthesizeIsRepeatable(session: AltJTalk, text: string, option: SynthesisOption)
    returns (first: Result<seq<i16>, Error>, second: Result<seq<i16>, Error>)
    modifies session.htsengine
    ensures first == second
  {
    first := session.Synthesize(text, option);
    second := session.Synthesize(text, option);
  }

  /** The example conversion: saturation at both ends, truncation toward
      zero in between. */
  lemma ConversionExample()
    ensures ConvertSamples([40000.0, -40000.0, 123.7, -123.7]) == [32767, -32768, 123, -123]
  {
  }

  /** Every converted sample is within the 16-bit range, and in-range
      samples lose less than one unit, toward zero. */
  lemma {:induction false} ConversionBounds(samples: seq<real>, i: nat)
    requires i < |samples|
    requires I16_MIN as real <= samples[i] <= I16_MAX as real
    ensures var v := ConvertSamples(samples)[i] as real;
      -32768.0 <= v <= 32767.0
      && (samples[i] >= 0.0 ==> 0.0 <= samples[i] - v < 1.0)
      && (samples[i] < 0.0 ==> 0.0 <= v - samples[i] < 1.0)
  {
  }

  /** An analysis failure becomes an `Unknown` error carrying the analyser's message. */
  lemma AnalysisFailureIsUnknown(analyser: Jpreprocess.Analyser, hts: Hts.Library, voices: seq<string>,
                                 params: Params, text: string)
    requires analyser.extractFullcontext(text).Err?
    ensures SynthesisResult(analyser, hts, voices, params, text)
         == Err(Error(Unknown, analyser.extractFullcontext(text).error))
  {
  }

  /** At most two labels: the result is empty, and the engine's synthesis
      function has no influence on it. */
  lemma ShortLabelSequenceIsEmpty(analyser: Jpreprocess.Analyser, hts1: Hts.Library, hts2: Hts.Library,
                                  voices: seq<string>, params: Params, text: string)
    requires analyser.extractFullcontext(text).Ok? && |analyser.extractFullcontext(text).value| <= 2
    ensures SynthesisResult(analyser, hts1, voices, params, text) == Ok([])
    ensures SynthesisResult(analyser, hts1, voices, params, text)
         == SynthesisResult(analyser, hts2, voices, params, text)
  {
  }

  /** More than two labels: a synthesis failure becomes an `Unknown` error,
      and a success gives one converted sample per engine sample, in order. */
  lemma EngineOutcomeIsPropagated(analyser: Jpreprocess.Analyser, hts: Hts.Library, voices: seq<string>,
                                  params: Params, text: string)
    requires ReachesEngine(analyser, text)
    ensures var audio := hts.synthesize(voices, params, analyser.extractFullcontext(text).value);
      var r := SynthesisResult(analyser, hts, voices, params, text);
      && (audio.Err? ==> r == Err(Error(Unknown, audio.error)))
      && (audio.Ok? ==> r.Ok? && |r.value| == |audio.value|
                        && forall i :: 0 <= i < |audio.value| ==> r.value[i] == ToI16(audio.value[i]))
  {
  }

  /** The scenario of an engine reporting 44100 Hz: a call giving only a
      frame period of 120 resolves to the snapshot's sampling frequency and
      alpha, the explicit frame period, and the constants for the rest. */
  lemma SnapshotScenario(engine: HtsEngine)
    requires engine.samplingFrequency == 44100
    ensures Resolve(NoOptions.(framePeriod := Some(120)), FromEngine(engine))
         == Params(44100, 120, engine.alpha, 0.0, 1.0, 0.0, 0.5, 1.0, 1.0, 0.0)
  {
  }
}
