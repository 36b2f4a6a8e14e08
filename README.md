# PressureBar alarm engine, modelled in Dafny

This project models the alarm logic of the `PressureBar` React component of the
vacuum pressure monitor. The component shows one bar per pressure gauge (one
process variable, or PV, each). Every 100 ms it reads each PV's current value from
the EPICS live-value provider. It sorts each value into an alarm band (OK, MINOR,
MAJOR) by a minor (HIGH) and a major (HIHI) threshold. Then it builds a chart
frame: the bars with a fill and a border colour each, plus two flat lines at the
thresholds. The settings dialog can replace the thresholds at any time.

Modules, leaves first:

- `Wrappers` (`wrappers.dfy`): `Option`. `None` is JavaScript's `undefined` or `null` where the model needs one (a MAJOR bar's border, the `null` timer before mount).
- `Alarm` (`alarm.dfy`): the classifier. Raw values are `Undefined | NotANumber | Number(x)`.
  The guard `value && !isNaN(value)` is modelled literally. `Classify` gives the bands as
  closed-open intervals. `FillColour` and `BorderColour` are the two colour callbacks, branch
  for branch, and each is proved equal to a band lookup.
- `Series` (`series.dfy`): the `.map` calls that turn the PV list into per-bar series.
  These are the provider read (including the throw on an unknown PV), the colour series and
  the flat threshold lines.
- `ThresholdStore` (`thresholds.dfy`): the constructor defaults and `handleConfig`, as
  functions on a `Store` value.
- `Frame` (`frame.dfy`): the `chartData` record and the function that builds it.
- `Lifecycle` (`lifecycle.dfy`): the constructor's subscription, plus mount and unmount, as
  functions on a lifecycle state. Calls to the timer and the provider are kept in order in an
  effect log.
- `Component` (`pressure_bar.dfy`): the class `PressureBar`. Its fields are the component's
  state and instance fields. Each method is proved against the functions above. A client
  method uses only the contracts to show what a caller can conclude.
- `Scenarios` (`scenarios.dfy`): worked ticks of three gauges under the default thresholds.

The provider is abstracted to a snapshot `map<string, RawValue>`, given to each tick.
A tick is one call of `UpdateContent`. `setState` is a direct field update. Interval
handles come from a counter in place of the host's `setInterval`.

## Model

| member | source | states |
|---|---|---|
| `Alarm.IsValidReading` | src/components/PressureBar.jsx:49 | the guard `value && !isNaN(value)` (also at line 65) accepts exactly the non-zero numbers; `0`, `undefined` and `NaN` are all invalid |
| `Alarm.Classify` | src/components/PressureBar.jsx:48-62 | MINOR iff the reading is valid and in [minor, major); MAJOR iff valid and at or above both thresholds; OK otherwise |
| `Alarm.FillColour` | src/components/PressureBar.jsx:48-62 | the fill callback gives the fill colour of the reading's band: OK_BG, MINOR_BG or MAJOR_BG |
| `Alarm.BorderColour` | src/components/PressureBar.jsx:64-74 | the border callback gives OK_LINE or MINOR_LINE for those bands, and `undefined` for MAJOR |
| `Alarm.BelowMinorIsOk` | src/components/PressureBar.jsx:49-51 | a valid reading below the minor threshold is OK, with OK fill and OK border |
| `Alarm.InvalidReadingIsOk` | src/components/PressureBar.jsx:49-73 | an invalid reading is OK with OK fill and OK border, whatever the thresholds |
| `Alarm.BoundariesBelongToUpperBand` | src/components/PressureBar.jsx:50-55 | for non-zero thresholds with minor < major, a reading equal to minor is MINOR; with minor <= major, a reading equal to major is MAJOR |
| `Alarm.BorderMissingIffMajor` | src/components/PressureBar.jsx:64-74 | a bar lacks a border colour exactly when its reading is MAJOR, that is, exactly when its fill is MAJOR_BG |
| `Alarm.SeverityMonotoneInValue` | src/components/PressureBar.jsx:50-55 | for any threshold pair, ordered or not, a larger valid reading is never in a less severe band |
| `Alarm.RaisedThresholdsNeverWorsen` | src/components/PressureBar.jsx:50-55 | raising both thresholds never moves any reading to a more severe band |
| `Series.ReadValues` | src/components/PressureBar.jsx:46 | the read succeeds iff every PV is known to the provider; then it yields one value per PV, in PV order |
| `Series.Line` | src/components/PressureBar.jsx:25 | a threshold line has one point per PV, each equal to the threshold |
| `Series.FillSeries` | src/components/PressureBar.jsx:48-62 | one fill per reading, in order; each is the fill of that reading's band under the one threshold pair |
| `Series.BorderSeries` | src/components/PressureBar.jsx:64-74 | one border per reading, in order; each is the border of that reading's band under the one threshold pair |
| `Series.AllInvalidRendersAllOk` | src/components/PressureBar.jsx:57-61 | a tick whose readings are all invalid colours every bar OK_BG with border OK_LINE |
| `Scenarios.OneReadingPerBand` | src/components/PressureBar.jsx:48-74 | readings 5e-9, 5e-8 and 5e-7 under the defaults get fills OK_BG, MINOR_BG, MAJOR_BG and borders OK_LINE, MINOR_LINE, `undefined` |
| `Scenarios.InvalidReadingsMasked` | src/components/PressureBar.jsx:48-74 | readings 0, 5e-9 and `NaN` under the defaults all get OK_BG fills and OK_LINE borders |
| `Scenarios.UnknownPvFailsRead` | src/components/PressureBar.jsx:46 | a snapshot that lacks one of the PVs makes the read fail |
| `ThresholdStore.OrDefault` | src/components/PressureBar.jsx:24-27 | a truthy prop is used as given (and is non-zero); a falsy one gives the default |
| `ThresholdStore.Initial` | src/components/PressureBar.jsx:21-28 | minor is `high` or 1e-8, major is `hihi` or 1e-7, and both lines are flat at them with one point per PV |
| `ThresholdStore.Reconfigured` | src/components/PressureBar.jsx:190-200 | the store is unchanged when both values equal the stored ones; in every case the new minor is `high` and the new major is `hihi`; on change, both lines are rebuilt flat at the new values |
| `ThresholdStore.SkipIsInvisible` | src/components/PressureBar.jsx:193-197 | on a store whose lines match its thresholds, the skip cannot be observed: the result is always the freshly built store |
| `ThresholdStore.ReconfiguredLinesMatch` | src/components/PressureBar.jsx:196 | on a store whose lines already match its thresholds, after reconfiguration both lines are flat at their thresholds and as long as the PV list |
| `ThresholdStore.ReconfigureIdempotent` | src/components/PressureBar.jsx:193 | applying the same settings twice is the same as applying them once |
| `Frame.Build` | src/components/PressureBar.jsx:80-118 | with inputs of matching lengths every series of the frame has one entry per PV; hover and line styling are the fixed constants |
| `Lifecycle.Created` | src/components/PressureBar.jsx:30-32 | a new component is subscribed to the provider and has no interval running |
| `Lifecycle.Mounted` | src/components/PressureBar.jsx:122-124 | mount starts a fresh interval at the refresh period and remembers its handle; earlier live intervals stay live |
| `Lifecycle.Unmounted` | src/components/PressureBar.jsx:126-129 | unmount clears exactly the remembered interval (every other live interval stays live) and then disconnects, in that order; if the remembered interval was the only live one, no tick can fire afterwards |
| `Lifecycle.MountFromIdleKeepsDiscipline` | src/components/PressureBar.jsx:122-124 | mounting with no live interval leaves the remembered interval as the only live one |
| `Lifecycle.MountThenUnmountStops` | src/components/PressureBar.jsx:122-129 | create, mount, unmount: the effects are subscribe, set interval, clear interval, disconnect, and no tick can fire afterwards |
| `Lifecycle.DoubleMountLeaksInterval` | src/components/PressureBar.jsx:122-129 | start is unguarded: after two mounts and one unmount the first interval still fires |
| `Lifecycle.UnmountTwiceDisconnectsTwice` | src/components/PressureBar.jsx:126-129 | stop is not idempotent: a second unmount calls `disconnect` again |
| `Component.PressureBar.constructor` | src/components/PressureBar.jsx:18-37 | the store is the initial one for the props, no readings or frame exist yet, and the provider is subscribed |
| `Component.PressureBar.UpdatePVValues` | src/components/PressureBar.jsx:41-75 | on success, entry i of values, fills and borders belongs to PV i, and all are coloured with the thresholds read at the start; on an unknown PV nothing changes |
| `Component.PressureBar.UpdateContent` | src/components/PressureBar.jsx:77-120 | on success the frame is replaced: labels are the PVs, every series has one entry per PV, each bar is coloured from its own reading under the stored thresholds, and the lines are flat at them; on failure the last frame stays |
| `Component.PressureBar.HandleConfig` | src/components/PressureBar.jsx:190-200 | the state becomes `Reconfigured` of the old state: minor is `high`, major is `hihi`, and both lines are flat at them |
| `Component.PressureBar.ComponentDidMount` | src/components/PressureBar.jsx:122-124 | the lifecycle becomes `Mounted` of the old one, and ticks can fire |
| `Component.PressureBar.ComponentWillUnmount` | src/components/PressureBar.jsx:126-129 | the lifecycle becomes `Unmounted` of the old one: the clear-interval call is logged before the disconnect |

## Left out

- Rendering: `renderBar`, `render`, the chart defaults, datalabel and tooltip options, the logarithmic axis, CSS and the settings dialog. These are presentation and hold no alarm logic.
- The EPICS provider: how it subscribes and keeps values fresh is not modelled. Each tick gets a snapshot map. The subscription is the `connected` flag and the `Subscribe`/`Disconnect` effects.
- Timing and React scheduling: interval timing, overlapping ticks and `setState` batching are not modelled. Each tick is one method call, and `setState` takes effect at once.
- Floating point: values and thresholds are reals. `NaN` is only a reading, never a threshold. A `NaN` minor threshold colours every valid reading MAJOR_BG with an `undefined` border. A `NaN` major threshold alone does so for every valid reading at or above the minor threshold; readings below it stay OK. With a `NaN` threshold stored, the equality skip in `handleConfig` never fires.
- Component.PressureBar.HandleConfig: takes already-parsed reals. `parseFloat` on its string arguments is a library call and is not modelled.
- A changed PV list: the model fixes `pvs` for the component's lifetime (a `const`). The code reads `props.pvs` again on every tick and in `handleConfig`, while the provider keeps the list from construction. After React passes a new `pvs` prop, a PV the provider lacks makes every tick throw. The lines keep the length of the list they were last built from (at construction, or at the last `handleConfig` that changed a threshold). A shorter list gives labels and bars of the new length but lines of the old length until such a reconfiguration. The length invariant in `Component.PressureBar.Valid` holds only because `pvs` cannot change.
- Readings and props that are neither numbers, `undefined` nor `NaN` (for example strings) are not modelled.
- `componentDidUpdate` is an empty stub. The `tooltipText` and `tooltipVisible` state fields are never read by this logic, so neither is modelled.

## Behaviour worth knowing

- The constructor subscribes to the provider (`new Epics(pvs)`); mounting only starts the interval (`Lifecycle.Created`).
- A second unmount calls `disconnect` again (`Lifecycle.UnmountTwiceDisconnectsTwice`).
- A second mount overwrites the remembered handle, so the first interval keeps firing after one unmount (`Lifecycle.DoubleMountLeaksInterval`).
- A `NaN` minor threshold (outside this model) colours every valid reading MAJOR_BG with an `undefined` border. A `NaN` major threshold alone does so for every valid reading at or above the minor threshold; readings below it stay OK.
- The two thresholds are separate state fields. One `setState` call replaces them together with both lines, so no tick sees one updated without the other.
