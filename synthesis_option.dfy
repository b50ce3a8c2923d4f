/** The per-call synthesis options and the policy that turns them, together
    with the session's snapshot of engine defaults, into the ten engine
    parameters (src/synthesis_option.rs). */
module SynthesisOptions {
  import opened Wrappers
  import opened Hts

  const U32_LIMIT: int := 0x1_0000_0000

  /** Rust's `u32`. */
  type u32 = x: int | 0 <= x < 0x1_0000_0000

  /** `n as u32` for a `usize` n: keeps the low 32 bits. */
  function AsU32(n: nat): (r: u32)
    ensures n < U32_LIMIT ==> r == n
    ensures r <= n && (n - r) % U32_LIMIT == 0
  {
    n % U32_LIMIT
  }

  /** Ten optional parameters. No range is enforced on any of them. */
  datatype SynthesisOption = SynthesisOption(
    samplingFrequency: Option<u32>,
    framePeriod: Option<u32>,
    allPassConstant: Option<real>,
    postfilteringCoefficient: Option<real>,
    speechSpeedRate: Option<real>,
    additionalHalfTone: Option<real>,
    voicedUnvoicedThreshold: Option<real>,
    weightOfGvForSpectrum: Option<real>,
    weightOfGvForLogF0: Option<real>,
    volumeInDb: Option<real>)

  /** The option with every field omitted. */
  const NoOptions: SynthesisOption :=
    SynthesisOption(None, None, None, None, None, None, None, None, None, None)

  // Constants used when neither the call nor (where consulted) the snapshot gives a value.
  const SAMPLING_FREQUENCY_FALLBACK: u32 := 48000
  const FRAME_PERIOD_FALLBACK: u32 := 240
  const ALPHA_FALLBACK: real := 0.55
  const BETA_FALLBACK: real := 0.0
  const SPEED_FALLBACK: real := 1.0
  const HALF_TONE_FALLBACK: real := 0.0
  const MSD_THRESHOLD_FALLBACK: real := 0.5
  const GV_WEIGHT_SPECTRUM_FALLBACK: real := 1.0
  const GV_WEIGHT_LOG_F0_FALLBACK: real := 1.0
  const VOLUME_FALLBACK: real := 0.0

  /** `from_engine`: a snapshot of the engine's current parameters. Speed and
      additional half tone are never captured; the integer parameters go
      through the `as u32` cast. */
  function FromEngine(engine: HtsEngine): (snapshot: SynthesisOption)
    reads engine
    ensures snapshot.speechSpeedRate == None && snapshot.additionalHalfTone == None
    ensures snapshot.samplingFrequency == Some(AsU32(engine.samplingFrequency))
    ensures snapshot.framePeriod == Some(AsU32(engine.fperiod))
    ensures snapshot.allPassConstant == Some(engine.alpha)
    ensures snapshot.postfilteringCoefficient == Some(engine.beta)
    ensures snapshot.voicedUnvoicedThreshold == Some(engine.msdThreshold)
    ensures snapshot.weightOfGvForSpectrum == Some(engine.gvWeightSpectrum)
    ensures snapshot.weightOfGvForLogF0 == Some(engine.gvWeightLogF0)
    ensures snapshot.volumeInDb == Some(engine.volume)
  {
    SynthesisOption(
      samplingFrequency := Some(AsU32(engine.samplingFrequency)),
      framePeriod := Some(AsU32(engine.fperiod)),
      allPassConstant := Some(engine.alpha),
      postfilteringCoefficient := Some(engine.beta),
      speechSpeedRate := None,
      additionalHalfTone := None,
      voicedUnvoicedThreshold := Some(engine.msdThreshold),
      weightOfGvForSpectrum := Some(engine.gvWeightSpectrum),
      weightOfGvForLogF0 := Some(engine.gvWeightLogF0),
      volumeInDb := Some(engine.volume))
  }

  /** The first value present along a fallback chain, or `last` when every
      tier is absent. The independent statement of "call, then snapshot,
      then constant". */
  function FirstPresent<T>(tiers: seq<Option<T>>, last: T): (r: T)
    ensures (exists i :: 0 <= i < |tiers| && tiers[i].Some?) ==>
      exists i :: 0 <= i < |tiers| && tiers[i].Some? && r == tiers[i].value
                  && forall j :: 0 <= j < i ==> tiers[j].None?
    ensures (forall i :: 0 <= i < |tiers| ==> tiers[i].None?) ==> r == last
    ensures |tiers| > 0 && tiers[0].Some? ==> r == tiers[0].value
  {
    if |tiers| == 0 then last
    else if tiers[0].Some? then tiers[0].value
    else FirstPresent(tiers[1..], last)
  }

  /** The parameters `apply_to_engine` pushes into the engine for the call's
      `option` and the session's `default`. */
  function Resolve(option: SynthesisOption, default: SynthesisOption): (p: Params)
    // An explicitly supplied value is passed through unchanged.
    ensures option.samplingFrequency.Some? ==> p.samplingFrequency == option.samplingFrequency.value
    ensures option.framePeriod.Some? ==> p.fperiod == option.framePeriod.value
    ensures option.allPassConstant.Some? ==> p.alpha == option.allPassConstant.value
    ensures option.postfilteringCoefficient.Some? ==> p.beta == option.postfilteringCoefficient.value
    ensures option.speechSpeedRate.Some? ==> p.speed == option.speechSpeedRate.value
    ensures option.additionalHalfTone.Some? ==> p.additionalHalfTone == option.additionalHalfTone.value
    ensures option.voicedUnvoicedThreshold.Some? ==> p.msdThreshold == option.voicedUnvoicedThreshold.value
    ensures option.weightOfGvForSpectrum.Some? ==> p.gvWeightSpectrum == option.weightOfGvForSpectrum.value
    ensures option.weightOfGvForLogF0.Some? ==> p.gvWeightLogF0 == option.weightOfGvForLogF0.value
    ensures option.volumeInDb.Some? ==> p.volume == option.volumeInDb.value
    // Omitted: sampling frequency, frame period and alpha consult the snapshot ...
    ensures option.samplingFrequency.None? ==>
      p.samplingFrequency == (if default.samplingFrequency.Some? then default.samplingFrequency.value else SAMPLING_FREQUENCY_FALLBACK)
    ensures option.framePeriod.None? ==>
      p.fperiod == (if default.framePeriod.Some? then default.framePeriod.value else FRAME_PERIOD_FALLBACK)
    ensures option.allPassConstant.None? ==>
      p.alpha == (if default.allPassConstant.Some? then default.allPassConstant.value else ALPHA_FALLBACK)
    // ... and every other field goes straight to its constant.
    ensures option.postfilteringCoefficient.None? ==> p.beta == BETA_FALLBACK
    ensures option.speechSpeedRate.None? ==> p.speed == SPEED_FALLBACK
    ensures option.additionalHalfTone.None? ==> p.additionalHalfTone == HALF_TONE_FALLBACK
    ensures option.voicedUnvoicedThreshold.None? ==> p.msdThreshold == MSD_THRESHOLD_FALLBACK
    ensures option.weightOfGvForSpectrum.None? ==> p.gvWeightSpectrum == GV_WEIGHT_SPECTRUM_FALLBACK
    ensures option.weightOfGvForLogF0.None? ==> p.gvWeightLogF0 == GV_WEIGHT_LOG_F0_FALLBACK
    ensures option.volumeInDb.None? ==> p.volume == VOLUME_FALLBACK
  {
    Params(
      samplingFrequency := option.samplingFrequency.Or(default.samplingFrequency).UnwrapOr(SAMPLING_FREQUENCY_FALLBACK),
      fperiod := option.framePeriod.Or(default.framePeriod).UnwrapOr(FRAME_PERIOD_FALLBACK),
      alpha := option.allPassConstant.Or(default.allPassConstant).UnwrapOr(ALPHA_FALLBACK),
      beta := option.postfilteringCoefficient.UnwrapOr(BETA_FALLBACK),
      speed := option.speechSpeedRate.UnwrapOr(SPEED_FALLBACK),
      additionalHalfTone := option.additionalHalfTone.UnwrapOr(HALF_TONE_FALLBACK),
      msdThreshold := option.voicedUnvoicedThreshold.UnwrapOr(MSD_THRESHOLD_FALLBACK),
      gvWeightSpectrum := option.weightOfGvForSpectrum.UnwrapOr(GV_WEIGHT_SPECTRUM_FALLBACK),
      gvWeightLogF0 := option.weightOfGvForLogF0.UnwrapOr(GV_WEIGHT_LOG_F0_FALLBACK),
      volume := option.volumeInDb.UnwrapOr(VOLUME_FALLBACK))
  }

  /** `apply_to_engine`: ten setter calls. Afterwards every parameter is the
      resolved one, whatever the engine held before, so applying the same
      option and snapshot again changes nothing; the voices are kept. */
  method ApplyToEngine(option: SynthesisOption, engine: HtsEngine, default: SynthesisOption)
    modifies engine
    ensures engine.Parameters() == Resolve(option, default)
    ensures engine.voices == old(engine.voices)
    ensures engine.synthesisCalls == old(engine.synthesisCalls)
  {
    engine.SetSamplingFrequency(option.samplingFrequency.Or(default.samplingFrequency).UnwrapOr(SAMPLING_FREQUENCY_FALLBACK));
    engine.SetFperiod(option.framePeriod.Or(default.framePeriod).UnwrapOr(FRAME_PERIOD_FALLBACK));
    engine.SetAlpha(option.allPassConstant.Or(default.allPassConstant).UnwrapOr(ALPHA_FALLBACK));
    engine.SetBeta(option.postfilteringCoefficient.UnwrapOr(BETA_FALLBACK));
    engine.SetSpeed(option.speechSpeedRate.UnwrapOr(SPEED_FALLBACK));
    engine.AddHalfTone(option.additionalHalfTone.UnwrapOr(HALF_TONE_FALLBACK));
    engine.SetMsdThresholdLogF0(option.voicedUnvoicedThreshold.UnwrapOr(MSD_THRESHOLD_FALLBACK));
    engine.SetGvWeightSpectrum(option.weightOfGvForSpectrum.UnwrapOr(GV_WEIGHT_SPECTRUM_FALLBACK));
    engine.SetGvWeightLogF0(option.weightOfGvForLogF0.UnwrapOr(GV_WEIGHT_LOG_F0_FALLBACK));
    engine.SetVolume(option.volumeInDb.UnwrapOr(VOLUME_FALLBACK));
  }

  /** Each resolved parameter is the first present value along its chain:
      call then snapshot then constant for sampling frequency, frame period
      and alpha; call then constant for the other seven. */
  lemma {:induction false} ResolveFollowsFallbackChains(option: SynthesisOption, default: SynthesisOption)
    ensures var p := Resolve(option, default);
      && p.samplingFrequency == FirstPresent([option.samplingFrequency, default.samplingFrequency], SAMPLING_FREQUENCY_FALLBACK)
      && p.fperiod == FirstPresent([option.framePeriod, default.framePeriod], FRAME_PERIOD_FALLBACK)
      && p.alpha == FirstPresent([option.allPassConstant, default.allPassConstant], ALPHA_FALLBACK)
      && p.beta == FirstPresent([option.postfilteringCoefficient], BETA_FALLBACK)
      && p.speed == FirstPresent([option.speechSpeedRate], SPEED_FALLBACK)
      && p.additionalHalfTone == FirstPresent([option.additionalHalfTone], HALF_TONE_FALLBACK)
      && p.msdThreshold == FirstPresent([option.voicedUnvoicedThreshold], MSD_THRESHOLD_FALLBACK)
      && p.gvWeightSpectrum == FirstPresent([option.weightOfGvForSpectrum], GV_WEIGHT_SPECTRUM_FALLBACK)
      && p.gvWeightLogF0 == FirstPresent([option.weightOfGvForLogF0], GV_WEIGHT_LOG_F0_FALLBACK)
      && p.volume == FirstPresent([option.volumeInDb], VOLUME_FALLBACK)
  {
  }

  /** A call that gives sampling frequency, frame period and alpha fixes
      every engine parameter: the snapshot plays no part. */
  lemma SnapshotFieldsGivenIgnoreDefaults(option: SynthesisOption, d1: SynthesisOption, d2: SynthesisOption)
    requires option.samplingFrequency.Some? && option.framePeriod.Some? && option.allPassConstant.Some?
    ensures Resolve(option, d1) == Resolve(option, d2)
  {
  }

  /** Only sampling frequency, frame period and alpha can depend on the
      snapshot; the other seven parameters never do. */
  lemma NonSnapshotFieldsIgnoreDefaults(option: SynthesisOption, d1: SynthesisOption, d2: SynthesisOption)
    ensures var p1, p2 := Resolve(option, d1), Resolve(option, d2);
      p1 == p2.(samplingFrequency := p1.samplingFrequency, fperiod := p1.fperiod, alpha := p1.alpha)
  {
  }

  /** Resolving an all-omitted option against a snapshot of an engine gives
      back that engine's sampling frequency (modulo the 32-bit cast), frame
      period (likewise) and alpha, but the constants for everything else,
      even the five parameters the snapshot did capture. */
  lemma SnapshotRestoresOnlyThreeParameters(engine: HtsEngine)
    ensures var p := Resolve(NoOptions, FromEngine(engine));
      && p.samplingFrequency == engine.samplingFrequency % U32_LIMIT
      && p.fperiod == engine.fperiod % U32_LIMIT
      && p.alpha == engine.alpha
      && p == Resolve(NoOptions, NoOptions).(samplingFrequency := p.samplingFrequency, fperiod := p.fperiod, alpha := p.alpha)
  {
  }

  /** When the engine's integer parameters fit in 32 bits, the snapshot
      restores them exactly. */
  lemma SnapshotRestoresSmallIntegers(engine: HtsEngine)
    requires engine.samplingFrequency < U32_LIMIT && engine.fperiod < U32_LIMIT
    ensures Resolve(NoOptions, FromEngine(engine)).samplingFrequency == engine.samplingFrequency
    ensures Resolve(NoOptions, FromEngine(engine)).fperiod == engine.fperiod
  {
  }

  /** With no option and no snapshot every parameter is its constant. */
  lemma AllOmittedGivesConstants()
    ensures Resolve(NoOptions, NoOptions) ==
      Params(48000, 240, 0.55, 0.0, 1.0, 0.0, 0.5, 1.0, 1.0, 0.0)
  {
  }
}
