/**
 * The PressureBar component: its alarm state, the refresh tick, the settings
 * callback and the mount/unmount pair, as one object whose methods update its
 * fields. React's `setState` is a direct field update; the live-value provider
 * is the snapshot `pvData` each tick is given.
 */
module Component {
  import opened Wrappers
  import opened Alarm
  import opened Series
  import opened ThresholdStore
  import opened Frame
  import L = Lifecycle

  class PressureBar {
    /** The process variables, one bar each, in display order. */
    const pvs: seq<string>

    // threshold store (component state)
    var minorVal: real
    var majorVal: real
    var minorArray: seq<real>
    var majorArray: seq<real>

    // the last tick's readings and their colours (instance fields)
    var values: seq<RawValue>
    var bg: seq<Colour>
    var border: seq<Option<Colour>>
    /** The last frame handed to the chart; `None` until the first tick ("loading..."). */
    var chartData: Option<ChartData>

    // timer and provider
    var timer: Option<nat>
    var live: set<nat>
    var nextHandle: nat
    var connected: bool
    var effects: seq<L.Effect>

    /** The threshold pair the current `bg` and `border` were computed with. */
    ghost var colouredWith: Thresholds

    function CurrentStore(): Store
      reads this
    {
      Store(minorVal, majorVal, minorArray, majorArray)
    }

    function Life(): L.State
      reads this
    {
      L.State(timer, live, nextHandle, connected, effects)
    }

    ghost predicate Valid()
      reads this
    {
      LinesMatch(CurrentStore(), pvs) &&
      (values == [] || |values| == |pvs|) &&
      bg == FillSeries(values, colouredWith) &&
      border == BorderSeries(values, colouredWith) &&
      (chartData.Some? ==> WellFormed(chartData.value, |pvs|)) &&
      L.HandlesAllocated(Life())
    }

    constructor (pvs: seq<string>, hihi: RawValue, high: RawValue)
      ensures Valid()
      ensures this.pvs == pvs
      ensures CurrentStore() == Initial(pvs, hihi, high)
      ensures values == [] && bg == [] && border == [] && chartData == None
      ensures Life() == L.Created(pvs)
    {
      this.pvs := pvs;
      var init := Initial(pvs, hihi, high);
      minorVal, majorVal := init.minorVal, init.majorVal;
      minorArray, majorArray := init.minorArray, init.majorArray;
      values, bg, border := [], [], [];
      chartData := None;
      colouredWith := Thresholds(init.minorVal, init.majorVal);
      timer, live, nextHandle, connected, effects := None, {}, 1, true, [L.Subscribe(pvs)];
    }

    /**
     * `updatePVValues`: reads every process variable from the provider and
     * colours every reading with the thresholds read once at the start. A
     * name the provider lacks throws (`ok` false) before anything is assigned.
     */
    method UpdatePVValues(pvData: map<string, RawValue>) returns (ok: bool)
      requires Valid()
      modifies this`values, this`bg, this`border, this`colouredWith
      ensures Valid()
      ensures ok <==> forall i :: 0 <= i < |pvs| ==> pvs[i] in pvData
      ensures ok ==> |values| == |bg| == |border| == |pvs|
      ensures ok ==> forall i :: 0 <= i < |pvs| ==>
        values[i] == pvData[pvs[i]] &&
        bg[i] == FillColour(values[i], Thresholds(minorVal, majorVal)) &&
        border[i] == BorderColour(values[i], Thresholds(minorVal, majorVal))
      ensures ok ==> colouredWith == Thresholds(minorVal, majorVal)
      ensures !ok ==> values == old(values) && bg == old(bg) && border == old(border)
    {
      var t := Thresholds(minorVal, majorVal);
      var read := ReadValues(pvs, pvData);
      if read.None? {
        return false;
      }
      values := read.value;
      bg := FillSeries(values, t);
      border := BorderSeries(values, t);
      colouredWith := t;
      ok := true;
    }

    /**
     * `updateContent`, the tick the interval fires: refreshes the readings and
     * replaces the frame wholesale. A failed read leaves the last frame shown.
     */
    method UpdateContent(pvData: map<string, RawValue>) returns (ok: bool)
      requires Valid() && L.Ticking(Life())
      modifies this`values, this`bg, this`border, this`colouredWith, this`chartData
      ensures Valid()
      ensures ok <==> forall i :: 0 <= i < |pvs| ==> pvs[i] in pvData
      ensures ok ==> chartData == Some(Build(pvs, values, bg, border, minorArray, majorArray))
      ensures ok ==> WellFormed(chartData.value, |pvs|) && chartData.value.labels == pvs
      ensures ok ==> ColouredWith(chartData.value, Thresholds(minorVal, majorVal))
      ensures ok ==> forall i :: 0 <= i < |pvs| ==> chartData.value.bars.data[i] == pvData[pvs[i]]
      ensures ok ==> chartData.value.minorLine.data == Line(pvs, minorVal)
      ensures ok ==> chartData.value.majorLine.data == Line(pvs, majorVal)
      ensures !ok ==> chartData == old(chartData) && values == old(values)
      ensures !ok ==> bg == old(bg) && border == old(border)
    {
      ok := UpdatePVValues(pvData);
      if ok {
        chartData := Some(Build(pvs, values, bg, border, minorArray, majorArray));
      }
    }

    /** `handleConfig(hihi, high)`, called by the settings dialog with already-parsed numbers. */
    method HandleConfig(hihi: real, high: real)
      requires Valid()
      modifies this`minorVal, this`majorVal, this`minorArray, this`majorArray
      ensures Valid()
      ensures CurrentStore() == Reconfigured(old(CurrentStore()), pvs, hihi, high)
      ensures minorVal == high && majorVal == hihi
      ensures minorArray == Line(pvs, high) && majorArray == Line(pvs, hihi)
    {
      if hihi != majorVal || high != minorVal {
        minorVal, majorVal := high, hihi;
        minorArray, majorArray := Map(_ => high, pvs), Map(_ => hihi, pvs);
      }
    }

    /** `componentDidMount`: starts the refresh interval. */
    method ComponentDidMount()
      requires Valid()
      modifies this`timer, this`live, this`nextHandle, this`effects
      ensures Valid()
      ensures Life() == L.Mounted(old(Life()))
      ensures L.Ticking(Life())
    {
      var handle := nextHandle;
      nextHandle := nextHandle + 1;
      live := live + {handle};
      timer := Some(handle);
      effects := effects + [L.SetInterval(handle, L.RefreshInterval)];
    }

    /** `componentWillUnmount`: clears the interval, then disconnects the provider. */
    method ComponentWillUnmount()
      requires Valid()
      modifies this`live, this`connected, this`effects
      ensures Valid()
      ensures Life() == L.Unmounted(old(Life()))
      ensures !connected
      ensures effects == old(effects) + [L.ClearInterval(timer), L.Disconnect]
    {
      if timer.Some? {
        live := live - {timer.value};
      }
      effects := effects + [L.ClearInterval(timer)];
      connected := false;
      effects := effects + [L.Disconnect];
    }
  }

  /** A client of the specifications above: reconfiguration by position, then teardown. */
  method ExampleReconfigureAndStop(g1: string, g2: string, g3: string)
  {
    var bar := new PressureBar([g1, g2, g3], Undefined, Undefined);
    bar.ComponentDidMount();
    bar.HandleConfig(0.00001, 0.000001);
    assert bar.minorVal == 0.000001 && bar.majorVal == 0.00001;
    assert bar.minorArray[2] == 0.000001 && |bar.majorArray| == 3;
    bar.ComponentWillUnmount();
    assert !L.Ticking(bar.Life()) && !bar.connected;
  }
}
