/** The HTS speech engine handle, seen from the binding: a mutable set of
    synthesis parameters, a list of loaded voices, and two library calls
    (`load` and `synthesize`). What the library computes is not modelled;
    it is supplied from outside as the pure functions of a `Library`. */
module Hts {
  import opened Wrappers

  /** A full-context label, as produced by the text analyser. */
  type Label = string

  /** The ten engine parameters the binding reads or writes. `usize`
      values are modelled as unbounded naturals. */
  datatype Params = Params(
    samplingFrequency: nat,
    fperiod: nat,
    alpha: real,
    beta: real,
    speed: real,
    additionalHalfTone: real,
    msdThreshold: real,       // voiced/unvoiced threshold of stream 1 (log F0)
    gvWeightSpectrum: real,   // global-variance weight of stream 0
    gvWeightLogF0: real,      // global-variance weight of stream 1
    volume: real)

  /** The behaviour of the external library:
      - `initial`: the parameters of a newly created engine;
      - `load`: the parameters after loading the given voices into an engine
        whose parameters were the first argument, or the load error;
      - `synthesize`: the samples generated from the labels by the loaded
        voices under the given parameters, or the synthesis error. */
  datatype Library = Library(
    initial: Params,
    load: (Params, seq<string>) -> Result<Params, string>,
    synthesize: (seq<string>, Params, seq<Label>) -> Result<seq<real>, string>)

  class HtsEngine {
    const library: Library
    var voices: seq<string>

    var samplingFrequency: nat
    var fperiod: nat
    var alpha: real
    var beta: real
    var speed: real
    var additionalHalfTone: real
    var msdThreshold: real
    var gvWeightSpectrum: real
    var gvWeightLogF0: real
    var volume: real

    /** How many times acoustic synthesis has been run on this engine. */
    ghost var synthesisCalls: nat

    /** The engine's current parameters as one value. */
    function Parameters(): Params
      reads this
    {
      Params(samplingFrequency, fperiod, alpha, beta, speed, additionalHalfTone,
             msdThreshold, gvWeightSpectrum, gvWeightLogF0, volume)
    }

    /** `HTSEngine::new()`: no voice loaded, the library's initial parameters. */
    constructor (library: Library)
      ensures this.library == library && voices == []
      ensures Parameters() == library.initial && synthesisCalls == 0
    {
      this.library := library;
      voices := [];
      var p := library.initial;
      samplingFrequency, fperiod, alpha, beta, speed := p.samplingFrequency, p.fperiod, p.alpha, p.beta, p.speed;
      additionalHalfTone, msdThreshold := p.additionalHalfTone, p.msdThreshold;
      gvWeightSpectrum, gvWeightLogF0, volume := p.gvWeightSpectrum, p.gvWeightLogF0, p.volume;
      synthesisCalls := 0;
    }

    /** `load(voices)`: on success the engine holds the voices and the
        parameters the library derives from them; on failure the error. */
    method Load(models: seq<string>) returns (r: Result<(), string>)
      modifies this
      ensures r.Ok? <==> library.load(old(Parameters()), models).Ok?
      ensures r.Err? ==> r.error == library.load(old(Parameters()), models).error
      ensures r.Ok? ==> Parameters() == library.load(old(Parameters()), models).value && voices == models
      ensures synthesisCalls == old(synthesisCalls)
    {
      var loaded := library.load(Parameters(), models);
      if loaded.Ok? {
        var p := loaded.value;
        samplingFrequency, fperiod, alpha, beta, speed := p.samplingFrequency, p.fperiod, p.alpha, p.beta, p.speed;
        additionalHalfTone, msdThreshold := p.additionalHalfTone, p.msdThreshold;
        gvWeightSpectrum, gvWeightLogF0, volume := p.gvWeightSpectrum, p.gvWeightLogF0, p.volume;
        voices := models;
        r := Ok(());
      } else {
        r := Err(loaded.error);
      }
    }

    // Setters. Each overwrites its own parameter and nothing else.

    method SetSamplingFrequency(i: nat)
      modifies this`samplingFrequency
      ensures Parameters() == old(Parameters()).(samplingFrequency := i)
    {
      samplingFrequency := i;
    }

    method SetFperiod(i: nat)
      modifies this`fperiod
      ensures Parameters() == old(Parameters()).(fperiod := i)
    {
      fperiod := i;
    }

    method SetAlpha(f: real)
      modifies this`alpha
      ensures Parameters() == old(Parameters()).(alpha := f)
    {
      alpha := f;
    }

    method SetBeta(f: real)
      modifies this`beta
      ensures Parameters() == old(Parameters()).(beta := f)
    {
      beta := f;
    }

    method SetSpeed(f: real)
      modifies this`speed
      ensures Parameters() == old(Parameters()).(speed := f)
    {
      speed := f;
    }

    /** `add_half_tone`: taken to overwrite the additional half tone. */
    method AddHalfTone(f: real)
      modifies this`additionalHalfTone
      ensures Parameters() == old(Parameters()).(additionalHalfTone := f)
    {
      additionalHalfTone := f;
    }

    /** `set_msd_threshold(1, f)`. */
    method SetMsdThresholdLogF0(f: real)
      modifies this`msdThreshold
      ensures Parameters() == old(Parameters()).(msdThreshold := f)
    {
      msdThreshold := f;
    }

    /** `set_gv_weight(0, f)`. */
    method SetGvWeightSpectrum(f: real)
      modifies this`gvWeightSpectrum
      ensures Parameters() == old(Parameters()).(gvWeightSpectrum := f)
    {
      gvWeightSpectrum := f;
    }

    /** `set_gv_weight(1, f)`. */
    method SetGvWeightLogF0(f: real)
      modifies this`gvWeightLogF0
      ensures Parameters() == old(Parameters()).(gvWeightLogF0 := f)
    {
      gvWeightLogF0 := f;
    }

    method SetVolume(f: real)
      modifies this`volume
      ensures Parameters() == old(Parameters()).(volume := f)
    {
      volume := f;
    }

    /** `synthesize(labels)`: runs the library under the current parameters;
        the parameters themselves are left as they are. */
    method Synthesize(labels: seq<Label>) returns (r: Result<seq<real>, string>)
      modifies this`synthesisCalls
      ensures r == library.synthesize(voices, Parameters(), labels)
      ensures synthesisCalls == old(synthesisCalls) + 1
    {
      r := library.synthesize(voices, Parameters(), labels);
      synthesisCalls := synthesisCalls + 1;
    }
  }
}
