/** The user-facing settings of the content script (the `enabled`, `speedHz`
    and `intensity` fields of its state object), the `clamp` helper that
    normalises every numeric update, and the two places that write the
    settings: the initial load from storage and the runtime message handler.

    Numbers are modelled as `real`: JavaScript's NaN, `Number()` coercion of
    non-numeric values and float rounding are not part of this model. */
module Settings {

  datatype Option<T> = None | Some(value: T)

  /** Range that every speed update is clamped to, and the value used
      when the supplied speed is 0 (falsy). */
  const SpeedMin: real := 0.05
  const SpeedMax: real := 3.0
  const SpeedFallback: real := 0.25

  /** Range that every intensity update is clamped to. */
  const IntensityMin: real := 0.0
  const IntensityMax: real := 1.0

  /** The value of the `type` field that the message handler accepts. */
  const MessageType: string := "AURAPHASE"

  datatype Settings = Settings(enabled: bool, speedHz: real, intensity: real)

  /** The settings the state object starts with, which are also the
      storage defaults of the initial load. */
  const Defaults: Settings := Settings(false, 0.25, 0.7)

  /** A message as the popup sends it. The handler reads only `kind`
      (the `type` field), `enabled`, `speedHz` and `intensity`; the popup
      also sends `direction`, `spinEnabled` and `monoEnabled`, kept here
      to show that they are ignored.
      `enabled` is None when the field is absent or not a boolean;
      `speedHz` and `intensity` are None when the field is absent or null. */
  datatype Message = Message(
    kind: string,
    enabled: Option<bool>,
    speedHz: Option<real>,
    intensity: Option<real>,
    direction: Option<string>,
    spinEnabled: Option<bool>,
    monoEnabled: Option<bool>)

  /** What storage holds for each of the three keys; None is a key that
      was never stored, for which the default of the load applies. */
  datatype Stored = Stored(enabled: Option<bool>, speedHz: Option<real>, intensity: Option<real>)

  function Max(x: real, y: real): real { if x >= y then x else y }
  function Min(x: real, y: real): real { if x <= y then x else y }

  /** n pulled into [a, b]: the lower bound is applied first and the upper
      bound last, so when a > b the result is b. */
  function Clamp(n: real, a: real, b: real): (r: real)
    ensures r <= b
    ensures a <= b ==> a <= r
    ensures a <= n <= b ==> r == n
    ensures n < a && a <= b ==> r == a
    ensures b < n ==> r == b
    ensures a > b ==> r == b
  {
    Min(b, Max(a, n))
  }

  /** Clamping twice is clamping once. */
  lemma ClampIdempotent(n: real, a: real, b: real)
    ensures Clamp(Clamp(n, a, b), a, b) == Clamp(n, a, b)
  {
  }

  /** A supplied speed, normalised: 0 is falsy and is replaced by the
      fallback 0.25 before the value is clamped to [0.05, 3.0]. */
  function SpeedFrom(x: real): (r: real)
    ensures SpeedMin <= r <= SpeedMax
    ensures x == 0.0 ==> r == SpeedFallback
    ensures x != 0.0 && SpeedMin <= x <= SpeedMax ==> r == x
    ensures x != 0.0 && x < SpeedMin ==> r == SpeedMin
    ensures SpeedMax < x ==> r == SpeedMax
  {
    Clamp(if x == 0.0 then SpeedFallback else x, SpeedMin, SpeedMax)
  }

  /** A supplied intensity, clamped to [0, 1]. */
  function IntensityFrom(x: real): (r: real)
    ensures IntensityMin <= r <= IntensityMax
    ensures IntensityMin <= x <= IntensityMax ==> r == x
    ensures x < IntensityMin ==> r == IntensityMin
    ensures IntensityMax < x ==> r == IntensityMax
  {
    Clamp(x, IntensityMin, IntensityMax)
  }

  /** The domain every reachable setting lies in. */
  predicate InRange(s: Settings)
  {
    SpeedMin <= s.speedHz <= SpeedMax && IntensityMin <= s.intensity <= IntensityMax
  }

  /** The message handler accepts a present message whose type is "AURAPHASE". */
  predicate Accepted(msg: Option<Message>)
  {
    msg.Some? && msg.value.kind == MessageType
  }

  /** The settings after the message handler has run on `msg`. */
  function Merge(s: Settings, msg: Option<Message>): (r: Settings)
    ensures !Accepted(msg) ==> r == s
    ensures InRange(s) ==> InRange(r)
  {
    if !Accepted(msg) then s
    else
      var m := msg.value;
      Settings(
        if m.enabled.Some? then m.enabled.value else s.enabled,
        if m.speedHz.Some? then SpeedFrom(m.speedHz.value) else s.speedHz,
        if m.intensity.Some? then IntensityFrom(m.intensity.value) else s.intensity)
  }

  /** The settings after the initial load from storage: each key not
      stored takes its default; the flag is taken as a boolean, the speed
      is normalised as in the message handler and the intensity clamped.
      (The nullish fallback to 0.7 in the source never applies, since a
      numeric conversion never yields null or undefined.) */
  function Load(st: Stored): (r: Settings)
    ensures InRange(r)
    ensures st.enabled.None? ==> r.enabled == Defaults.enabled
  {
    Settings(
      if st.enabled.Some? then st.enabled.value else Defaults.enabled,
      SpeedFrom(if st.speedHz.Some? then st.speedHz.value else Defaults.speedHz),
      IntensityFrom(if st.intensity.Some? then st.intensity.value else Defaults.intensity))
  }

  lemma DefaultsInRange()
    ensures InRange(Defaults)
  {
  }

  /** A message keeps the settings in their domain. */
  lemma MergeInRange(s: Settings, msg: Option<Message>)
    requires InRange(s)
    ensures InRange(Merge(s, msg))
  {
  }

  /** A missing message, or one whose type is not "AURAPHASE", changes nothing. */
  lemma MergeIgnoresForeign(s: Settings, msg: Option<Message>)
    requires !Accepted(msg)
    ensures Merge(s, msg) == s
  {
  }

  /** An accepted message changes exactly the fields it carries, each
      to its normalised value, and leaves the others as they were. */
  lemma MergeFieldwise(s: Settings, m: Message)
    requires m.kind == MessageType
    ensures var r := Merge(s, Some(m));
      (m.enabled.None? ==> r.enabled == s.enabled) &&
      (m.enabled.Some? ==> r.enabled == m.enabled.value) &&
      (m.speedHz.None? ==> r.speedHz == s.speedHz) &&
      (m.speedHz.Some? ==> r.speedHz == SpeedFrom(m.speedHz.value)) &&
      (m.intensity.None? ==> r.intensity == s.intensity) &&
      (m.intensity.Some? ==> r.intensity == IntensityFrom(m.intensity.value))
  {
  }

  /** `direction`, `spinEnabled` and `monoEnabled` have no effect. */
  lemma MergeIgnoresOtherFields(s: Settings, m1: Message, m2: Message)
    requires m1.kind == m2.kind && m1.enabled == m2.enabled
    requires m1.speedHz == m2.speedHz && m1.intensity == m2.intensity
    ensures Merge(s, Some(m1)) == Merge(s, Some(m2))
  {
  }

  /** Delivering the same message twice is the same as delivering it once. */
  lemma MergeIdempotent(s: Settings, msg: Option<Message>)
    ensures Merge(Merge(s, msg), msg) == Merge(s, msg)
  {
  }

  /** A message carrying speed 0 sets the fallback 0.25, not the lower bound. */
  lemma MergeZeroSpeedFallsBack(s: Settings, m: Message)
    requires m.kind == MessageType && m.speedHz == Some(0.0)
    ensures Merge(s, Some(m)).speedHz == SpeedFallback
  {
  }

  /** Whatever storage holds, the loaded settings are in their domain,
      and an empty storage yields the defaults. */
  lemma LoadInRange(st: Stored)
    ensures InRange(Load(st))
    ensures st == Stored(None, None, None) ==> Load(st) == Defaults
  {
  }
}
