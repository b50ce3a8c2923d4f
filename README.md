# AltJTalk binding: option resolution and synthesis session

A Dafny model of the Rust glue of node-altjtalk-binding, which sits between
an HTS speech engine and the JPreprocess Japanese text analyser.

- `SynthesisOptions` (src/synthesis_option.rs) holds the ten-field
  `SynthesisOption` record. `FromEngine` takes a snapshot of an engine's
  parameters. `Resolve` is the per-field fallback policy: the call's value,
  then, for sampling frequency, frame period and alpha only, the snapshot,
  then a fixed constant. `ApplyToEngine` is the ten setter calls that push
  the resolved values into the engine.
- `AltJTalkLib` (src/lib.rs) holds the `AltJTalk` session. `FromConfig`
  loads the model, takes the snapshot, then opens the dictionary.
  `Synthesize` applies the options, analyses the text, returns an empty
  result for at most two labels, and otherwise runs the engine and converts
  every sample to `i16` by saturating at both ends and truncating toward
  zero in range. `SynthesisResult` is the pure statement of what a call
  returns. `ReachesEngine` says when the engine is run.
- `Hts` models the HTS engine handle as a class with one field per
  parameter, the loaded voices, and a ghost counter of synthesis runs.
  `Jpreprocess` models the analyser. Both libraries are external: what they
  compute (model loading, dictionary loading, label extraction, waveform
  generation) is passed in as pure functions in the `Hts.Library` and
  `Jpreprocess.Library` values.
- `Wrappers` holds `Option` (with Rust's `or` and `unwrap_or`) and `Result`.

Facts about the code worth knowing when reading the model:

- The binding has ten option fields. Only sampling frequency, frame period
  and alpha consult the snapshot.
- `from_engine` captures eight parameters, of which `apply_to_engine` uses three.
- Analysis and synthesis failures both become `Status::Unknown`. Load
  failures become `Status::InvalidArg`.
- In-range samples are truncated toward zero.
- The session's analyser, engine handle and snapshot are `const`: they are
  set once in `FromConfig` and never reassigned.

## Model

| member | source | states |
|---|---|---|
| Wrappers.Option.Or | src/synthesis_option.rs:63-65 | `or`: a present value is kept; an absent one is replaced by the other option |
| Wrappers.Option.UnwrapOr | src/synthesis_option.rs:66-81 | `unwrap_or`: a present value is returned; an absent one gives the fallback |
| SynthesisOptions.AsU32 | src/synthesis_option.rs:49-50 | the `as u32` cast keeps the value when it fits in 32 bits, and otherwise keeps it modulo 2^32 |
| SynthesisOptions.FromEngine | src/synthesis_option.rs:47-60 | the snapshot has no speed and no half tone; the other eight fields are `Some` of the engine's current values, with the two integers cast to `u32` |
| SynthesisOptions.FirstPresent | src/synthesis_option.rs:62-81 | reference fallback chain: when some tier is present, the result is the value of the first present tier (every earlier tier is absent); when every tier is absent, it is the last-resort constant |
| SynthesisOptions.Resolve | src/synthesis_option.rs:61-81 | per field: a supplied value is used verbatim, with no range check; when omitted, sampling frequency, frame period and alpha take the snapshot value if present, else 48000, 240 or 0.55; the other seven take 0.0, 1.0, 0.0, 0.5, 1.0, 1.0 or 0.0 whatever the snapshot holds |
| SynthesisOptions.ApplyToEngine | src/synthesis_option.rs:61-82 | total; afterwards all ten engine parameters equal the resolved ones, whatever they were before, so a second application of the same option and snapshot leaves the state as the first; voices are kept |
| SynthesisOptions.ResolveFollowsFallbackChains | src/synthesis_option.rs:62-81 | each resolved parameter is the first present value of its chain: call, snapshot, constant for three fields; call, constant for seven |
| SynthesisOptions.SnapshotFieldsGivenIgnoreDefaults | src/synthesis_option.rs:62-74 | when the call gives the three snapshot-eligible fields, the snapshot has no influence at all |
| SynthesisOptions.NonSnapshotFieldsIgnoreDefaults | src/synthesis_option.rs:75-81 | two different snapshots can change only sampling frequency, frame period and alpha |
| SynthesisOptions.SnapshotRestoresOnlyThreeParameters | src/synthesis_option.rs:47-81 | an all-omitted call against `FromEngine(e)` restores e's sampling frequency and frame period (mod 2^32) and alpha; every other parameter is its constant, even the five the snapshot captured |
| SynthesisOptions.SnapshotRestoresSmallIntegers | src/synthesis_option.rs:49-51 | when e's integers fit in 32 bits, the all-omitted call gives them back exactly |
| SynthesisOptions.AllOmittedGivesConstants | src/synthesis_option.rs:61-81 | no option and no snapshot resolve to (48000, 240, 0.55, 0.0, 1.0, 0.0, 0.5, 1.0, 1.0, 0.0) |
| Hts.HtsEngine.constructor | src/lib.rs:31 | a new engine has no voices and the library's initial parameters |
| Hts.HtsEngine.Load | src/lib.rs:32-34 | succeeds exactly when the library load does; on success the engine holds the model and the loaded parameters; on failure the library's error is returned |
| Hts.HtsEngine.SetSamplingFrequency | src/synthesis_option.rs:62-67 | overwrites the sampling frequency and nothing else |
| Hts.HtsEngine.SetFperiod | src/synthesis_option.rs:68 | overwrites the frame period and nothing else |
| Hts.HtsEngine.SetAlpha | src/synthesis_option.rs:69-74 | overwrites alpha and nothing else |
| Hts.HtsEngine.SetBeta | src/synthesis_option.rs:75 | overwrites beta and nothing else |
| Hts.HtsEngine.SetSpeed | src/synthesis_option.rs:76 | overwrites the speed and nothing else |
| Hts.HtsEngine.AddHalfTone | src/synthesis_option.rs:77 | overwrites the additional half tone and nothing else |
| Hts.HtsEngine.SetMsdThresholdLogF0 | src/synthesis_option.rs:78 | overwrites the stream-1 voiced/unvoiced threshold and nothing else |
| Hts.HtsEngine.SetGvWeightSpectrum | src/synthesis_option.rs:79 | overwrites the stream-0 GV weight and nothing else |
| Hts.HtsEngine.SetGvWeightLogF0 | src/synthesis_option.rs:80 | overwrites the stream-1 GV weight and nothing else |
| Hts.HtsEngine.SetVolume | src/synthesis_option.rs:81 | overwrites the volume and nothing else |
| Hts.HtsEngine.Synthesize | src/lib.rs:63-66 | returns the library's samples or error for the current voices, parameters and labels; counts one synthesis run; parameters unchanged |
| AltJTalkLib.TruncateTowardZero | src/lib.rs:74 | the result is the integer nearest d on the side of zero: less than one unit away and never farther from zero than d |
| AltJTalkLib.ToI16 | src/lib.rs:68-76 | below -32768 gives -32768, above 32767 gives 32767, otherwise truncation toward zero; always in the `i16` range |
| AltJTalkLib.ConvertSamples | src/lib.rs:63-77 | same length as the engine's samples, and each output is the conversion of the sample at the same position |
| AltJTalkLib.ReachesEngine | src/lib.rs:55-61 | the engine is reached only when analysis succeeds, and then exactly when it yields three or more labels |
| AltJTalkLib.SynthesisResult | src/lib.rs:55-78 | every error has status `Unknown`; when the engine is not reached a success is the empty sequence |
| AltJTalkLib.AltJTalk.constructor | src/lib.rs:38-46 | the session holds exactly the given analyser, engine and snapshot |
| AltJTalkLib.AltJTalk.FromConfig | src/lib.rs:30-47 | a model failure gives `InvalidArg` with the model error whatever the dictionary would do; otherwise a dictionary failure gives `InvalidArg` with its error; success exactly when both load; the new session's snapshot is `FromEngine` of the loaded engine, which holds the model and no synthesis runs |
| AltJTalkLib.AltJTalk.Synthesize | src/lib.rs:49-79 | the engine parameters end as the resolved options even when analysis or synthesis fails; the result is `SynthesisResult` under those parameters; the engine is run once exactly when analysis yields more than two labels, else not at all; analyser, snapshot and voices unchanged |
| AltJTalkLib.SynthesizeIsRepeatable | src/lib.rs:49-79 | two calls with the same text and options on one session return the same result, given that the analyser and the engine library are deterministic (they are modelled as pure functions) |
| AltJTalkLib.ConversionExample | src/lib.rs:68-76 | [40000.0, -40000.0, 123.7, -123.7] converts to [32767, -32768, 123, -123] |
| AltJTalkLib.ConversionBounds | src/lib.rs:68-76 | corollary of the `ToI16` and `TruncateTowardZero` contracts: an in-range sample converts to a value in [-32768, 32767] less than one unit from it, toward zero |
| AltJTalkLib.AnalysisFailureIsUnknown | src/lib.rs:55-58 | an analysis failure gives `Err(Unknown, analyser's message)` and no output |
| AltJTalkLib.ShortLabelSequenceIsEmpty | src/lib.rs:59-61 | at most two labels give `Ok([])`, and the engine's synthesis function has no influence on the result |
| AltJTalkLib.EngineOutcomeIsPropagated | src/lib.rs:63-78 | past the short-circuit, an engine failure gives `Err(Unknown, engine message)`; an engine success gives one converted sample per engine sample, in order |
| AltJTalkLib.SnapshotScenario | src/synthesis_option.rs:61-81 | with an engine reporting 44100 Hz, a call giving only frame period 120 resolves to (44100, 120, engine alpha, 0.0, 1.0, 0.0, 0.5, 1.0, 1.0, 0.0) |

## Left out

- Model loading, dictionary loading, label extraction and waveform generation happen inside the HTS engine and JPreprocess libraries, which are not part of this model. They appear only as the pure functions of `Hts.Library` and `Jpreprocess.Library`.
- Hts.HtsEngine.Load: says nothing about the engine's state after a failed load. The session is not created in that case.
- The HTS setters are modelled as plain overwrites. Any clamping the library does is not modelled, and neither is whether `add_half_tone` accumulates.
- Hts.HtsEngine.Synthesize: assumes a synthesis run leaves the engine's parameters unchanged. The library's internal buffers are not modelled.
- Only stream 1 of the voiced/unvoiced threshold and streams 0 and 1 of the GV weight are modelled, because those are the only streams the binding touches.
- Samples and float options are `real`, so NaN and infinities are not modelled. Rust's `NaN as i16` gives 0.
- `usize` is an unbounded `nat`. The `usize` to `u32` cast in `from_engine` is modelled as reduction modulo 2^32, and the `u32` to `usize` cast in `apply_to_engine` as the identity.
- The Node-API layer is not modelled: the `#[napi]` attributes, `Int16Array`, and `napi::Error` beyond a status and a message.
- File paths are opaque strings. No file I/O is modelled.
- There is no concurrency. The `&mut self` exclusivity of `synthesize` is its `modifies` clause.
