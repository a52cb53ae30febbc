# AuraPhase content script — control logic model

AuraPhase is a browser extension that makes a page's audio seem to orbit
the listener. Its content script builds one WebAudio graph per media
element. A sine oscillator (the LFO) is passed through a shaping table. The
shaped signal then drives a stereo panner (level difference), a pair of
short delay lines (time difference) and a tremolo gain.

This project models the scalar control logic around that graph. It is
written in Dafny and proves properties of it:

- `settings.dfy`, module `Settings`:
  - the settings `enabled`, `speedHz` and `intensity`;
  - `clamp`;
  - the normalisation applied by the initial load (`Load`) and by the
    message handler (`Merge`);
  - lemmas that the settings stay in range and that a message changes
    exactly the fields it carries.
- `shaper.dfy`, module `Shaper`:
  - the 2048-entry motion-shaping table, `sign(x)·|x|^g` with `g = 2`,
    filled by a loop (`MakeShaper`);
  - proofs of its endpoints, bounds, strict monotonicity and odd symmetry.
    The shape lemmas hold for every natural exponent.
- `params.dfy`, module `Params`:
  - a pipeline, represented by the values of the nodes the script sets:
    the LFO frequency, the four depth gains, the panner's own pan value,
    the constant-source offsets and the output gain;
  - `Applied`, which is what `applyParamsToOne` does to one pipeline;
  - the sums of the signals wired into the pan, the two delay times and
    the tremolo gain;
  - lemmas about bypass, the depth ceilings, idempotence, and the delay
    times staying within the delay lines' 0.05 s capacity.
- `registry.dfy`, module `Registry`:
  - class `AuraPhase`, the script's state object. Its fields are the
    settings, the lazily created audio context and the map from media
    element to pipeline;
  - its methods `EnsureContext`, `EnsurePipelineFor`, `ApplyParamsToOne`,
    `ApplyParamsToAll`, `InitOrUpdate`, `Forget` (the per-element removal
    observer), `LoadSettings`, `Start` and `OnMessage`;
  - the specification function `Refreshed`, with lemmas about it.

The spec functions `Merge`, `Load`, `Applied` and `Refreshed` give the new
state. The class methods are proved to update the state exactly as those
functions say. The listed properties are proved as lemmas about the
functions.

The model follows this content script, which differs from the more advanced
variants of the extension:
- Speed is clamped to [0.05, 3.0], not [0.01, 1.0]. A speed of 0 falls
  back to 0.25.
- The pan ceiling is 0.85. At intensity 0.7 the pan depth is 0.595, not
  0.49.
- The content script has none of the following: direction, spin toggle,
  quadrature gate, mono downmix, dry/wet crossfade, gain compensation or
  limiter. The popup still sends `direction`, `spinEnabled` and
  `monoEnabled`. The handler ignores them, and `MergeIgnoresOtherFields`
  proves this.
- In bypass the base delay of 6 ms stays on both channels. Only the
  modulated parts become 0.

Other observations about the code that the model makes explicit:
- `applyParamsToAll` updates only registered elements that are still in
  the document. A registered element that has left the document, but whose
  removal observer has not yet fired, keeps its previous control values.
  See `Refreshed`.
- The enabled branch of `applyParamsToOne` never writes the panner's own
  pan value. It stays 0 because nothing else writes it (`Fixed`).
- `ensurePipelineFor` creates the audio context before it tries the tap.
  A failed tap therefore still leaves a context behind.
- An element that leaves the document is forgotten (content.js:155-158)
  but not torn down. If it is later inserted again, the second
  `createMediaElementSource` on it throws (content.js:59-63), so no entry is
  added. Its audio presumably keeps flowing through the forgotten graph
  with the old control values, and later messages (content.js:193) never
  reach it. In the model this is a re-inserted element outside `tappable`.
- Between registering a pipeline and applying its parameters, the depth
  gains hold their default of 1. `ValidBut` describes that state.

## Model

| member | source | states |
|---|---|---|
| Settings.Clamp | content.js:28 | the result is at most b, and at least a when a ≤ b; n in [a, b] is returned unchanged; below a gives a, above b gives b; when a > b the result is b |
| Settings.ClampIdempotent | content.js:28 | clamping an already clamped value changes nothing |
| Settings.SpeedFrom | content.js:232 | a normalised speed lies in [0.05, 3.0]; 0 gives 0.25; a non-zero in-range value is kept; values below or above the range give the nearest bound |
| Settings.IntensityFrom | content.js:233 | a normalised intensity lies in [0, 1], in-range values are kept, out-of-range values give the nearest bound |
| Settings.Merge | content.js:229-233 | the settings after the message handler: a missing message or one of another type leaves them unchanged, and in-range settings stay in range |
| Settings.DefaultsInRange | content.js:8-11 | the initial settings (disabled, 0.25 Hz, 0.7) are in range |
| Settings.MergeInRange | content.js:228-236 | handling any message keeps speed in [0.05, 3.0] and intensity in [0, 1] |
| Settings.MergeIgnoresForeign | content.js:229 | a missing message, or one whose type is not "AURAPHASE", leaves the settings unchanged |
| Settings.MergeFieldwise | content.js:231-233 | an accepted message sets `enabled` only when it carries a boolean, and speed or intensity only when non-null, each to its normalised value; absent fields keep their old values |
| Settings.MergeIgnoresOtherFields | content.js:229-233 | two messages that differ only in `direction`, `spinEnabled` or `monoEnabled` have the same effect |
| Settings.MergeIdempotent | content.js:228-236 | handling the same message twice gives the same settings as handling it once |
| Settings.MergeZeroSpeedFallsBack | content.js:232 | a message with speed 0 sets 0.25, not the lower bound 0.05 |
| Settings.Load | content.js:216-218 | the settings after the initial load are always in range, and a missing `enabled` key gives the default (disabled) |
| Settings.LoadInRange | content.js:210-219 | whatever storage holds, the loaded settings are in range; empty storage yields the defaults |
| Shaper.PowUnit | content.js:44 | a power of a base in [0, 1] lies in [0, 1] |
| Shaper.PowOne | content.js:44 | every power of 1 is 1 |
| Shaper.PowMonotone | content.js:44 | powers are non-decreasing in a non-negative base, and strictly increasing for a positive exponent |
| Shaper.Shape | content.js:44 | `sign(x)·|x|^g` keeps the sign of x: non-negative for positive x, non-positive for negative x, 0 at 0 |
| Shaper.ShapeSquare | content.js:25 | with the exponent 2 each value is `x·|x|` |
| Shaper.ShapeFixedPoints | content.js:44 | the shape maps 0, 1 and −1 to themselves for every exponent |
| Shaper.ShapeBounded | content.js:44 | the shape maps [−1, 1] into [−1, 1] |
| Shaper.ShapeOdd | content.js:44 | the shape is odd |
| Shaper.ShapeMonotone | content.js:44 | the shape is non-decreasing, and strictly increasing for a positive exponent |
| Shaper.SamplePoint | content.js:43 | every index of the table maps to a point in [−1, 1]; the two middle indices map to points either side of 0, so no entry is exactly 0 |
| Shaper.SamplePointFacts | content.js:43 | sample points are strictly increasing within [−1, 1] and mirror-symmetric about 0 |
| Shaper.SamplePointEnds | content.js:43 | the first sample point is −1 and the last is 1 |
| Shaper.CurveAt | content.js:45 | the entry at index i is `x·|x|` for its sample point x |
| Shaper.CurveEnds | content.js:42-46 | the first table entry is −1 and the last is 1 |
| Shaper.CurveBounded | content.js:42-46 | every table entry lies in [−1, 1] |
| Shaper.CurveIncreasing | content.js:42-46 | the table is strictly increasing in its index |
| Shaper.CurveOdd | content.js:42-46 | mirrored entries are opposite: entry i is minus entry 2047 − i |
| Shaper.MakeShaper | content.js:36-46 | the loop fills a 2048-entry table with the shape of each sample point; the result has endpoints −1 and 1, lies in [−1, 1], is strictly increasing and is odd |
| Params.Built | content.js:78-128 | a freshly built pipeline has the fixed offsets (6 ms base delays, tremolo base 1, output gain 1, pan 0) and the LFO at the current speed |
| Params.Applied | content.js:169-189 | applying settings writes only the LFO frequency, the depth gains and the pan; the base delays, the tremolo base and the output gain are never written |
| Params.Created | content.js:144-151 | a newly created pipeline has the fixed offsets, its LFO at the current speed, and is unchanged when the same settings are applied again |
| Params.AppliedConsistent | content.js:165-190 | applying in-range settings gives a frequency in [0.05, 3.0], depths within their ceilings, a right delay depth that is the negated left one, and all depths scaled from one intensity |
| Params.CreatedConsistent | content.js:144-151 | a newly created pipeline, with its parameters applied, satisfies the same bounds |
| Params.AppliedIdempotent | content.js:165-190 | applying the same settings twice is the same as applying them once |
| Params.AppliedForgetsHistory | content.js:165-190 | a pipeline's control values depend only on the last settings applied, not on earlier ones |
| Params.CreatedIsApplied | content.js:151 | a newly created pipeline already carries the current settings |
| Params.BypassSilencesModulation | content.js:169-178 | in bypass the LFO still runs at the set speed; the pan and all depths are 0; the pan input is 0, both delay times equal the base delay and the tremolo input is 1 for every oscillator value |
| Params.EnabledDepths | content.js:181-189 | when enabled, the pan, delay and tremolo depths are 0.85, 0.006 and 0.12 times the intensity, each within its ceiling; the right delay depth is the negated left one; the pan is untouched |
| Params.DefaultScenario | content.js:9-21 | enabled at 0.25 Hz and intensity 0.7 gives depths 0.595, ±0.0042 and 0.084 |
| Params.PanInput | content.js:86-89 | the total pan input: the panner's own pan plus the pan depth times the shaped sample |
| Params.DelayInputL | content.js:92-103 | the left delay time: the left base delay plus the left depth times the shaped sample |
| Params.DelayInputR | content.js:93-104 | the right delay time: the right base delay plus the right (negated) depth times the shaped sample |
| Params.TremInput | content.js:107-114 | the wired tremolo input: the tremolo base plus the tremolo depth times the shaped sample |
| Params.DelayWithinCapacity | content.js:70-71 | for a shaped sample in [−1, 1], each delay time lies in [0, 0.012] s, within the 0.05 s capacity, and the two delay times sum to twice the base delay |
| Params.ModulationWithinCeilings | content.js:86-114 | for a shaped sample in [−1, 1], the pan input lies within ±0.85 and the wired tremolo inputs within 1 ± 0.12 |
| Params.DelayWithinCapacityOnCurve | content.js:95-105 | for every value of the shaping table, both delay times stay within the delay lines' capacity |
| Registry.RefreshedConsistent | content.js:221-226 | registering and updating the document keeps every registered pipeline within its bounds, and registers only media elements |
| Registry.RefreshedReflectsSettings | content.js:221-226 | after an update the registered elements are the old ones plus the tappable media elements of the document; every registered element of the document carries exactly the controls of a pipeline newly created with the current settings |
| Registry.RefreshedRegistersTappable | content.js:52-64 | an update never drops a registration; an element not yet registered gains a pipeline exactly when it is a media element of the document whose tap succeeds |
| Registry.RefreshedIdempotent | content.js:221-226 | updating twice with the same document and settings is the same as updating once |
| Registry.Refreshed | content.js:221-226 | the registry after `initOrUpdate`: no registration is dropped, a registered element that left the document keeps its pipeline, and new entries are only media elements of the document |
| Registry.AuraPhase.constructor | content.js:8-16 | the state starts with the default settings, no context and no pipelines |
| Registry.AuraPhase.EnsureContext | content.js:30-34 | an existing context is returned unchanged; otherwise one new context is created and stored |
| Registry.AuraPhase.ApplyParamsToOne | content.js:165-190 | a registered element's pipeline is replaced by the applied one; an unregistered element changes nothing |
| Registry.AuraPhase.EnsurePipelineFor | content.js:52-151 | a non-media or registered element changes nothing, not even the context; otherwise the context is ensured; a failed tap adds no entry; a successful tap adds exactly that element's entry with its parameters applied |
| Registry.AuraPhase.ApplyParamsToAll | content.js:192-194 | registrations are unchanged; each registered element in the document gets the current settings and every other one keeps its values |
| Registry.AuraPhase.InitOrUpdate | content.js:221-226 | the registry becomes the refreshed registry; an existing context is kept, and no context is created when every media element of the document is already registered |
| Registry.AuraPhase.Forget | content.js:154-159 | an element no longer in the document loses its entry, and only that entry; otherwise nothing changes |
| Registry.AuraPhase.LoadSettings | content.js:210-219 | the settings become the normalised stored values, and nothing else changes |
| Registry.AuraPhase.Start | content.js:238-241 | after start-up the settings are the loaded ones, the registry is refreshed with them, and an existing context is kept |
| Registry.AuraPhase.OnMessage | content.js:228-236 | the settings become the merged ones; an accepted message then refreshes the registry with the new settings; any other message changes neither the registry nor the context; an existing context is always kept |

## Left out

- WebAudio node creation and wiring, `start()` calls, oversampling, and
  rendering of audio samples. A pipeline is the record of its scalar
  control values. The per-element resume-on-play handler is also left out,
  because it only calls a browser API.
- The total tremolo gain. `TremInput` sums only the two wired signals;
  the tremolo gain keeps its own value 1 in addition to them. The pan and
  delay inputs are totals, because the panner's own pan value and the
  delay times' own values stay 0.
- DOM discovery. The document-wide observer and its `watcher` flag, and the
  element selector queries, are represented by the `doc` sequence passed to
  the methods. Each removal observer is represented by calls to `Forget`.
- Browser storage, runtime messaging, script injection, and the
  asynchronous wrappers around loading and start-up. Their results are
  parameters.
- The guard against injecting the script twice. It only controls whether
  the script runs at all.
- Whether tapping an element succeeds is a parameter. It depends on the
  browser, for example on whether the element was already tapped.
- JavaScript number semantics: NaN, `Number()` coercion of non-numeric
  values, and float and single-precision rounding. Settings and table
  entries are exact reals. A null or absent speed or intensity is
  modelled as None.
- Non-boolean values of `enabled`. In a message, a non-boolean `enabled`
  is modelled as absent, as the handler ignores it. On load only boolean
  stored values are modelled, since the popup stores a checkbox state; the
  truthiness coercion of other stored values is not modelled.
- The shape exponent is modelled as a natural number, fixed at 2. `Math.pow` with a fractional exponent is not modelled.
- The whole popup, which is UI state and display formatting.
- The in-place writes to audio-node objects, which are modelled as
  replacing a value in the pipeline map. Two pipelines never share nodes,
  so no aliasing is lost.
- Concurrency between the control and render timelines, and the
  asynchronous timing of observer callbacks.
