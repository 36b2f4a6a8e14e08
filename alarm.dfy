/**
 * The classifier of PressureBar: how one raw reading of a process variable is
 * sorted into an alarm band and which fill and border colours its bar gets.
 */
module Alarm {
  import opened Wrappers

  /** A value as the live-value provider reports it: `undefined`, `NaN`, or a number. */
  datatype RawValue = Undefined | NotANumber | Number(x: real)

  /** The alarm thresholds in force: `minor` is the HIGH limit, `major` the HIHI limit. */
  datatype Thresholds = Thresholds(minor: real, major: real)

  datatype Band = Ok | Minor | Major

  /** The colour constants the component uses; their concrete CSS values are not part of this model. */
  datatype Colour = OkBg | MinorBg | MajorBg | OkLine | MinorLine | MajorLine | HoverLine

  /** JavaScript truthiness of a reading: `undefined`, `NaN` and `0` are falsy. */
  predicate Truthy(raw: RawValue) {
    raw.Number? && raw.x != 0.0
  }

  /** The global `isNaN`, which coerces its argument: `isNaN(undefined)` is true. */
  predicate IsNaN(raw: RawValue) {
    !raw.Number?
  }

  /**
   * The guard `value && !isNaN(value)` that decides whether a reading is classified at all.
   * It accepts exactly the non-zero numbers: a true zero reading counts as "no data".
   */
  predicate IsValidReading(raw: RawValue)
    ensures IsValidReading(raw) <==> raw.Number? && raw.x != 0.0
  {
    Truthy(raw) && !IsNaN(raw)
  }

  /**
   * The alarm band of a reading: closed-open intervals [minor, major) for MINOR and
   * [major, +inf) (and at or above minor) for MAJOR; an invalid reading is OK.
   */
  function Classify(raw: RawValue, t: Thresholds): (b: Band)
    ensures b == Minor <==> IsValidReading(raw) && t.minor <= raw.x < t.major
    ensures b == Major <==> IsValidReading(raw) && t.minor <= raw.x && t.major <= raw.x
  {
    if !IsValidReading(raw) || raw.x < t.minor then Ok
    else if raw.x < t.major then Minor
    else Major
  }

  /** How bad a band is, for comparing bands. */
  function Severity(b: Band): nat {
    match b
    case Ok => 0
    case Minor => 1
    case Major => 2
  }

  /** The fill colour lookup, total over the bands. */
  function FillOf(b: Band): Colour {
    match b
    case Ok => OkBg
    case Minor => MinorBg
    case Major => MajorBg
  }

  /** The border colour lookup: there is no entry for MAJOR, so such a bar gets `undefined`. */
  function BorderOf(b: Band): Option<Colour> {
    match b
    case Ok => Some(OkLine)
    case Minor => Some(MinorLine)
    case Major => None
  }

  /** The background-colour callback of `updatePVValues`, branch for branch. */
  function FillColour(raw: RawValue, t: Thresholds): (c: Colour)
    ensures c == FillOf(Classify(raw, t))
  {
    if IsValidReading(raw) then
      if raw.x < t.minor then OkBg
      else if raw.x >= t.minor && raw.x < t.major then MinorBg
      else MajorBg
    else
      OkBg
  }

  /** The border-colour callback of `updatePVValues`: its valid branch has no final `else`. */
  function BorderColour(raw: RawValue, t: Thresholds): (c: Option<Colour>)
    ensures c == BorderOf(Classify(raw, t))
  {
    if IsValidReading(raw) then
      if raw.x < t.minor then Some(OkLine)
      else if raw.x >= t.minor && raw.x < t.major then Some(MinorLine)
      else None
    else
      Some(OkLine)
  }

  /** Below the minor threshold a valid reading is OK: OK fill and OK border. */
  lemma BelowMinorIsOk(raw: RawValue, t: Thresholds)
    requires IsValidReading(raw) && raw.x < t.minor
    ensures Classify(raw, t) == Ok
    ensures FillColour(raw, t) == OkBg && BorderColour(raw, t) == Some(OkLine)
  {
  }

  /** An invalid reading is OK whatever the thresholds are. */
  lemma InvalidReadingIsOk(raw: RawValue, t: Thresholds)
    requires !IsValidReading(raw)
    ensures Classify(raw, t) == Ok
    ensures FillColour(raw, t) == OkBg && BorderColour(raw, t) == Some(OkLine)
  {
  }

  /** Both boundaries belong to the band above them. */
  lemma BoundariesBelongToUpperBand(t: Thresholds)
    requires t.minor != 0.0 && t.major != 0.0
    ensures t.minor < t.major ==> Classify(Number(t.minor), t) == Minor
    ensures t.minor <= t.major ==> Classify(Number(t.major), t) == Major
  {
  }

  /** The only reading that gets no border colour is a MAJOR one, and every MAJOR one gets none. */
  lemma BorderMissingIffMajor(raw: RawValue, t: Thresholds)
    ensures BorderColour(raw, t).None? <==> Classify(raw, t) == Major
    ensures BorderColour(raw, t).None? <==> FillColour(raw, t) == MajorBg
  {
  }

  /** A larger valid reading is never in a less severe band, inverted thresholds included. */
  lemma SeverityMonotoneInValue(a: RawValue, b: RawValue, t: Thresholds)
    requires IsValidReading(a) && IsValidReading(b)
    requires a.x <= b.x
    ensures Severity(Classify(a, t)) <= Severity(Classify(b, t))
  {
  }

  /** Raising both thresholds (as a reconfiguration may) never makes a reading more severe. */
  lemma RaisedThresholdsNeverWorsen(raw: RawValue, t: Thresholds, u: Thresholds)
    requires t.minor <= u.minor && t.major <= u.major
    ensures Severity(Classify(raw, u)) <= Severity(Classify(raw, t))
  {
  }
}
