/** One pipeline's control values and `applyParamsToOne`, which derives them
    from the settings.

    A pipeline is represented by the scalar values of its nodes that the
    content script sets: the oscillator frequency, the gains of the four
    depth nodes, the panner's own pan value and the offsets of the three
    constant sources. The audio nodes, their wiring and rendering are not
    part of this model. Each control input of the graph receives the sum of
    the signals wired into it; the functions `PanInput`, `DelayInputL`,
    `DelayInputR` and `TremInput` give those sums for a shaped oscillator
    sample y. */
module Params {
  import opened Settings
  import Shaper

  /** Tuning constants of the state object. */
  const MaxPan: real := 0.85
  const BaseDelay: real := 0.006
  const MaxDelayDepth: real := 0.006
  const TremMax: real := 0.12

  /** Maximum delay, in seconds, each delay line is created with. */
  const DelayCapacity: real := 0.05

  /** Default value of a gain node's gain, and offset of the tremolo base source. */
  const UnityGain: real := 1.0

  datatype Pipeline = Pipeline(
    lfoFrequency: real,   // oscillator frequency, Hz
    panDepth: real,       // gain from the shaped oscillator into the panner's pan
    delayDepth: real,     // gain from the shaped oscillator into the left delay time
    delayDepthNeg: real,  // gain from the shaped oscillator into the right delay time
    tremDepth: real,      // gain from the shaped oscillator into the tremolo gain
    pan: real,            // the panner's own pan value
    baseDelayL: real,     // offset of the constant source into the left delay time
    baseDelayR: real,     // offset of the constant source into the right delay time
    tremBase: real,       // offset of the constant source into the tremolo gain
    outGain: real)        // output gain

  /** The values that are set once when the pipeline is built and never
      written again. */
  predicate Fixed(p: Pipeline)
  {
    p.pan == 0.0 && p.baseDelayL == BaseDelay && p.baseDelayR == BaseDelay &&
    p.tremBase == UnityGain && p.outGain == UnityGain
  }

  /** A pipeline as built, before its parameters are applied: the depth
      gain nodes still hold their default gain 1. */
  function Built(speedHz: real): (p: Pipeline)
    ensures Fixed(p)
    ensures p.lfoFrequency == speedHz
  {
    Pipeline(speedHz, UnityGain, UnityGain, UnityGain, UnityGain, 0.0,
             BaseDelay, BaseDelay, UnityGain, UnityGain)
  }

  /** `applyParamsToOne` on a stored pipeline: the frequency follows the
      speed; in bypass the four depths and the panner's pan are zeroed; when
      enabled the depths are scaled by the intensity and the pan is left
      as it was. */
  function Applied(p: Pipeline, s: Settings): (r: Pipeline)
    ensures Fixed(p) ==> Fixed(r)
    ensures r.baseDelayL == p.baseDelayL && r.baseDelayR == p.baseDelayR
    ensures r.tremBase == p.tremBase && r.outGain == p.outGain
  {
    var q := p.(lfoFrequency := s.speedHz);
    if !s.enabled then
      q.(panDepth := 0.0, delayDepth := 0.0, delayDepthNeg := 0.0, tremDepth := 0.0, pan := 0.0)
    else
      var d := MaxDelayDepth * s.intensity;
      q.(panDepth := MaxPan * s.intensity, delayDepth := d, delayDepthNeg := -d,
         tremDepth := TremMax * s.intensity)
  }

  /** A pipeline created with settings s: built, then its parameters applied. */
  function Created(s: Settings): (r: Pipeline)
    ensures Fixed(r) && r.lfoFrequency == s.speedHz
    ensures Applied(r, s) == r
  {
    Applied(Built(s.speedHz), s)
  }

  /** What every stored pipeline satisfies: the fixed values, a frequency
      in the speed range, depths within their ceilings, the right delay
      depth the negation of the left, and all three depths scaled from the
      same intensity. */
  predicate Consistent(p: Pipeline)
  {
    Fixed(p) &&
    SpeedMin <= p.lfoFrequency <= SpeedMax &&
    0.0 <= p.panDepth <= MaxPan &&
    0.0 <= p.delayDepth <= MaxDelayDepth &&
    p.delayDepthNeg == -p.delayDepth &&
    0.0 <= p.tremDepth <= TremMax &&
    p.delayDepth * MaxPan == p.panDepth * MaxDelayDepth &&
    p.tremDepth * MaxPan == p.panDepth * TremMax
  }

  /** Control inputs for a shaped oscillator sample y. `PanInput` is the
      total pan: the panner's own value plus the wired depth signal. The
      delay inputs are the totals too, since each delay time's own value
      stays at its default 0. `TremInput` is only the sum of the two wired
      signals: the tremolo gain's own value 1 is not included. */
  function PanInput(p: Pipeline, y: real): real { p.pan + p.panDepth * y }
  function DelayInputL(p: Pipeline, y: real): real { p.baseDelayL + p.delayDepth * y }
  function DelayInputR(p: Pipeline, y: real): real { p.baseDelayR + p.delayDepthNeg * y }
  function TremInput(p: Pipeline, y: real): real { p.tremBase + p.tremDepth * y }

  /** A depth d >= 0 times a sample in [-1, 1] lies in [-d, d]. */
  lemma ScaledSample(d: real, y: real)
    requires 0.0 <= d && -1.0 <= y <= 1.0
    ensures -d <= d * y <= d
  {
  }

  /** Applying in-range settings to a pipeline whose fixed values are
      intact yields a consistent pipeline. */
  lemma AppliedConsistent(p: Pipeline, s: Settings)
    requires Fixed(p) && InRange(s)
    ensures Consistent(Applied(p, s))
  {
  }

  /** A newly created pipeline is consistent. */
  lemma CreatedConsistent(s: Settings)
    requires InRange(s)
    ensures Consistent(Created(s))
  {
  }

  /** Applying the same settings twice is applying them once. */
  lemma AppliedIdempotent(p: Pipeline, s: Settings)
    ensures Applied(Applied(p, s), s) == Applied(p, s)
  {
  }

  /** The controls of a pipeline whose fixed values are intact depend only
      on the last settings applied, not on its history. */
  lemma AppliedForgetsHistory(p: Pipeline, q: Pipeline, s: Settings)
    requires Fixed(p) && Fixed(q)
    ensures Applied(p, s) == Applied(q, s)
  {
  }

  /** A newly created pipeline already carries its parameters. */
  lemma CreatedIsApplied(s: Settings)
    ensures Applied(Created(s), s) == Created(s)
  {
  }

  /** Bypass: the oscillator keeps running at the set speed, but the pan
      input is 0, both delay times are the base delay and the tremolo input
      is 1, whatever the oscillator's value. */
  lemma BypassSilencesModulation(p: Pipeline, s: Settings, y: real)
    requires Fixed(p) && !s.enabled
    ensures var r := Applied(p, s);
      r.lfoFrequency == s.speedHz &&
      r.panDepth == 0.0 && r.delayDepth == 0.0 && r.delayDepthNeg == 0.0 &&
      r.tremDepth == 0.0 && r.pan == 0.0 &&
      PanInput(r, y) == 0.0 &&
      DelayInputL(r, y) == BaseDelay && DelayInputR(r, y) == BaseDelay &&
      TremInput(r, y) == UnityGain
  {
  }

  /** Enabled: each depth is its ceiling scaled by the intensity, so it
      never exceeds the ceiling, and the right delay depth is the negated
      left one. */
  lemma EnabledDepths(p: Pipeline, s: Settings)
    requires s.enabled && InRange(s)
    ensures var r := Applied(p, s);
      r.lfoFrequency == s.speedHz &&
      r.panDepth == MaxPan * s.intensity && r.panDepth <= MaxPan &&
      r.delayDepth == MaxDelayDepth * s.intensity && r.delayDepth <= MaxDelayDepth &&
      r.delayDepthNeg == -r.delayDepth &&
      r.tremDepth == TremMax * s.intensity && r.tremDepth <= TremMax &&
      r.pan == p.pan
  {
  }

  /** The settings' default scenario (enabled, speed 0.25 Hz, intensity 0.7). */
  lemma DefaultScenario()
    ensures var r := Created(Settings(true, 0.25, 0.7));
      r.lfoFrequency == 0.25 && r.panDepth == 0.595 && r.delayDepth == 0.0042 &&
      r.delayDepthNeg == -0.0042 && r.tremDepth == 0.084
  {
  }

  /** For a consistent pipeline and a shaped sample in [-1, 1], each delay
      time is `baseDelay +/- delayDepth * y`, inside [0, 0.012] and hence
      within the delay lines' capacity; the two delay times are mirror
      images about the base delay. */
  lemma {:induction false} DelayWithinCapacity(p: Pipeline, y: real)
    requires Consistent(p) && -1.0 <= y <= 1.0
    ensures 0.0 <= DelayInputL(p, y) <= 2.0 * BaseDelay <= DelayCapacity
    ensures 0.0 <= DelayInputR(p, y) <= 2.0 * BaseDelay <= DelayCapacity
    ensures DelayInputL(p, y) + DelayInputR(p, y) == 2.0 * BaseDelay
  {
    var e := p.delayDepth * y;
    ScaledSample(p.delayDepth, y);
    assert p.delayDepthNeg * y == -e;
    assert DelayInputL(p, y) == BaseDelay + e;
    assert DelayInputR(p, y) == BaseDelay - e;
    assert -BaseDelay <= e <= BaseDelay;
  }

  /** For a consistent pipeline, the pan input stays within the pan
      ceiling and the tremolo input within 1 +/- the tremolo ceiling. */
  lemma {:induction false} ModulationWithinCeilings(p: Pipeline, y: real)
    requires Consistent(p) && -1.0 <= y <= 1.0
    ensures -MaxPan <= PanInput(p, y) <= MaxPan
    ensures UnityGain - TremMax <= TremInput(p, y) <= UnityGain + TremMax
  {
    ScaledSample(p.panDepth, y);
    assert -MaxPan <= p.panDepth * y <= MaxPan;
    ScaledSample(p.tremDepth, y);
    assert -TremMax <= p.tremDepth * y <= TremMax;
  }

  /** The same bound for every value the shaping table produces. */
  lemma DelayWithinCapacityOnCurve(p: Pipeline, i: int)
    requires Consistent(p) && 0 <= i < Shaper.CurveLength
    ensures 0.0 <= DelayInputL(p, Shaper.CurveAt(i)) <= DelayCapacity
    ensures 0.0 <= DelayInputR(p, Shaper.CurveAt(i)) <= DelayCapacity
  {
    Shaper.CurveBounded(i);
    DelayWithinCapacity(p, Shaper.CurveAt(i));
  }
}
