/**
 * The threshold store of PressureBar: the minor/major scalars and the two flat
 * line series drawn at them, set up from the component's props and replaced by
 * the settings dialog's callback.
 */
module ThresholdStore {
  import opened Alarm
  import opened Series

  /** Default minor (HIGH) threshold, 1e-8. */
  const DefaultMinor: real := 0.00000001
  /** Default major (HIHI) threshold, 1e-7. */
  const DefaultMajor: real := 0.0000001

  datatype Store = Store(minorVal: real, majorVal: real, minorArray: seq<real>, majorArray: seq<real>)

  /** Each line holds its threshold once per process variable. */
  ghost predicate LinesMatch(s: Store, pvs: seq<string>) {
    s.minorArray == Line(pvs, s.minorVal) && s.majorArray == Line(pvs, s.majorVal)
  }

  /** `prop ? prop : fallback`: a falsy prop (missing, `NaN` or `0`) falls back. */
  function OrDefault(prop: RawValue, fallback: real): (r: real)
    ensures Truthy(prop) ==> r == prop.x && r != 0.0
    ensures !Truthy(prop) ==> r == fallback
  {
    if Truthy(prop) then prop.x else fallback
  }

  /** The thresholds the constructor derives from the `hihi` and `high` props. */
  function Initial(pvs: seq<string>, hihi: RawValue, high: RawValue): (s: Store)
    ensures LinesMatch(s, pvs)
    ensures s.minorVal == OrDefault(high, DefaultMinor) && s.majorVal == OrDefault(hihi, DefaultMajor)
    ensures |s.minorArray| == |pvs| && |s.majorArray| == |pvs|
  {
    var minor := OrDefault(high, DefaultMinor);
    var major := OrDefault(hihi, DefaultMajor);
    Store(minor, major, Map(_ => minor, pvs), Map(_ => major, pvs))
  }

  /**
   * `handleConfig(hihi, high)`: arguments are taken by position, major first.
   * When both equal the stored values nothing is replaced.
   */
  function Reconfigured(s: Store, pvs: seq<string>, hihi: real, high: real): (r: Store)
    ensures hihi == s.majorVal && high == s.minorVal ==> r == s
    ensures r.minorVal == high && r.majorVal == hihi
    ensures r != s ==> LinesMatch(r, pvs)
  {
    if hihi != s.majorVal || high != s.minorVal then
      Store(high, hihi, Map(_ => high, pvs), Map(_ => hihi, pvs))
    else
      s
  }

  /**
   * On a store whose lines match its scalars, the no-op skip is invisible:
   * the result is the store a fresh reconfiguration would build.
   */
  lemma SkipIsInvisible(s: Store, pvs: seq<string>, hihi: real, high: real)
    requires LinesMatch(s, pvs)
    ensures Reconfigured(s, pvs, hihi, high) == Store(high, hihi, Line(pvs, high), Line(pvs, hihi))
  {
  }

  /** Reconfiguration keeps both lines flat at the new thresholds and as long as the PV list. */
  lemma ReconfiguredLinesMatch(s: Store, pvs: seq<string>, hihi: real, high: real)
    requires LinesMatch(s, pvs)
    ensures LinesMatch(Reconfigured(s, pvs, hihi, high), pvs)
    ensures |Reconfigured(s, pvs, hihi, high).minorArray| == |pvs|
    ensures |Reconfigured(s, pvs, hihi, high).majorArray| == |pvs|
  {
  }

  /** Sending the same settings twice: the second call changes nothing. */
  lemma ReconfigureIdempotent(s: Store, pvs: seq<string>, hihi: real, high: real)
    ensures Reconfigured(Reconfigured(s, pvs, hihi, high), pvs, hihi, high) == Reconfigured(s, pvs, hihi, high)
  {
  }
}
