/**
 * The per-bar series of one refresh: reading the provider for every process
 * variable, colouring every reading, and the flat threshold lines. Each is an
 * `Array.prototype.map` over the process-variable list in the source.
 */
module Series {
  import opened Wrappers
  import opened Alarm

  /** `s.map(f)`: one result per element, in order. */
  function Map<A, B>(f: A -> B, s: seq<A>): (r: seq<B>)
    ensures |r| == |s|
    ensures forall i :: 0 <= i < |s| ==> r[i] == f(s[i])
  {
    if s == [] then [] else [f(s[0])] + Map(f, s[1..])
  }

  /**
   * `pvs.map(pv => pvData[pv].value)`: the provider's snapshot is a map from
   * process-variable name to its current value. A name the snapshot lacks makes
   * `pvData[pv].value` throw, which is `None` here.
   */
  function ReadValues(pvs: seq<string>, pvData: map<string, RawValue>): (r: Option<seq<RawValue>>)
    ensures r.Some? <==> forall i :: 0 <= i < |pvs| ==> pvs[i] in pvData
    ensures r.Some? ==> |r.value| == |pvs|
    ensures r.Some? ==> forall i :: 0 <= i < |pvs| ==> r.value[i] == pvData[pvs[i]]
  {
    if pvs == [] then Some([])
    else if pvs[0] !in pvData then None
    else
      match ReadValues(pvs[1..], pvData)
      case None => None
      case Some(rest) => Some([pvData[pvs[0]]] + rest)
  }

  /** `pvs.map(() => x)`: the flat line drawn at threshold `x`, one point per bar. */
  function Line(pvs: seq<string>, x: real): (r: seq<real>)
    ensures |r| == |pvs|
    ensures forall i :: 0 <= i < |r| ==> r[i] == x
  {
    Map(_ => x, pvs)
  }

  /** `values.map(...)` for the bar fill colours, all under one threshold pair. */
  function FillSeries(values: seq<RawValue>, t: Thresholds): (r: seq<Colour>)
    ensures |r| == |values|
    ensures forall i :: 0 <= i < |values| ==> r[i] == FillOf(Classify(values[i], t))
  {
    Map(v => FillColour(v, t), values)
  }

  /** `values.map(...)` for the bar border colours, all under one threshold pair. */
  function BorderSeries(values: seq<RawValue>, t: Thresholds): (r: seq<Option<Colour>>)
    ensures |r| == |values|
    ensures forall i :: 0 <= i < |values| ==> r[i] == BorderOf(Classify(values[i], t))
  {
    Map(v => BorderColour(v, t), values)
  }

  /** A tick in which every reading is invalid renders every bar with OK colours. */
  lemma AllInvalidRendersAllOk(values: seq<RawValue>, t: Thresholds)
    requires forall i :: 0 <= i < |values| ==> !IsValidReading(values[i])
    ensures FillSeries(values, t) == Map(_ => OkBg, values)
    ensures BorderSeries(values, t) == Map(_ => Some(OkLine), values)
  {
  }
}
