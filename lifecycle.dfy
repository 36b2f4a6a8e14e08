/**
 * The lifecycle of PressureBar: the provider subscription opened when the
 * component is created, the refresh interval started on mount, and the
 * teardown on unmount. Calls into the timer and the provider are recorded, in
 * order, as effects; interval handles are allocated from a counter.
 */
module Lifecycle {
  import opened Wrappers

  /** The refresh period, in milliseconds. */
  const RefreshInterval: nat := 100

  datatype Effect =
    | Subscribe(pvs: seq<string>)           // new Epics(pvs)
    | SetInterval(handle: nat, period: nat) // setInterval(updateContent, period)
    | ClearInterval(cleared: Option<nat>)   // clearInterval(this.timer)
    | Disconnect                            // this.epics.disconnect()

  /**
   * `timer` is the handle the component remembers, `live` the intervals the
   * host will still fire, `connected` whether the provider is subscribed.
   */
  datatype State = State(timer: Option<nat>, live: set<nat>, nextHandle: nat, connected: bool, effects: seq<Effect>)

  /** Ticks can still fire while some interval is live. */
  predicate Ticking(l: State) {
    l.live != {}
  }

  /** Every handle in use was allocated before `nextHandle`. */
  ghost predicate HandlesAllocated(l: State) {
    (forall h :: h in l.live ==> h < l.nextHandle) &&
    (l.timer.Some? ==> l.timer.value < l.nextHandle)
  }

  /** The only live interval, if any, is the one the component remembers. */
  ghost predicate AtMostRemembered(l: State) {
    forall h :: h in l.live ==> l.timer == Some(h)
  }

  /** The constructor: subscribed to the provider, no interval yet. */
  function Created(pvs: seq<string>): (l: State)
    ensures l.connected && !Ticking(l) && l.timer.None?
    ensures HandlesAllocated(l) && AtMostRemembered(l)
    ensures l.effects == [Subscribe(pvs)]
  {
    State(None, {}, 1, true, [Subscribe(pvs)])
  }

  /** `componentDidMount`: starts a fresh interval and remembers it, forgetting any previous one. */
  function Mounted(l: State): (r: State)
    ensures r.timer.Some? && r.live == l.live + {r.timer.value} && Ticking(r)
    ensures HandlesAllocated(l) ==> r.timer.value !in l.live && HandlesAllocated(r)
    ensures r.connected == l.connected
    ensures r.effects == l.effects + [SetInterval(r.timer.value, RefreshInterval)]
  {
    State(Some(l.nextHandle), l.live + {l.nextHandle}, l.nextHandle + 1, l.connected,
          l.effects + [SetInterval(l.nextHandle, RefreshInterval)])
  }

  /** `componentWillUnmount`: clears the remembered interval, then disconnects the provider. */
  function Unmounted(l: State): (r: State)
    ensures !r.connected && r.live <= l.live && r.timer == l.timer
    ensures l.timer.Some? ==> l.timer.value !in r.live
    ensures forall h :: h in l.live && l.timer != Some(h) ==> h in r.live
    ensures AtMostRemembered(l) ==> !Ticking(r)
    ensures HandlesAllocated(l) ==> HandlesAllocated(r)
    ensures |r.effects| == |l.effects| + 2 && r.effects[..|l.effects|] == l.effects
    ensures r.effects[|l.effects|] == ClearInterval(l.timer) && r.effects[|l.effects| + 1] == Disconnect
  {
    var live := if l.timer.Some? then l.live - {l.timer.value} else l.live;
    State(l.timer, live, l.nextHandle, false, l.effects + [ClearInterval(l.timer), Disconnect])
  }

  /** A single mount keeps the "one remembered interval" discipline. */
  lemma MountFromIdleKeepsDiscipline(l: State)
    requires !Ticking(l)
    ensures AtMostRemembered(Mounted(l))
  {
  }

  /**
   * Created, mounted once, unmounted: no tick can fire afterwards, the provider
   * is released, and the interval was cleared before the disconnect.
   */
  lemma MountThenUnmountStops(pvs: seq<string>)
    ensures !Ticking(Unmounted(Mounted(Created(pvs))))
    ensures !Unmounted(Mounted(Created(pvs))).connected
    ensures Unmounted(Mounted(Created(pvs))).effects ==
            [Subscribe(pvs), SetInterval(1, RefreshInterval), ClearInterval(Some(1)), Disconnect]
  {
  }

  /** Start is not guarded: mounting twice and unmounting once leaves the first interval firing. */
  lemma DoubleMountLeaksInterval(pvs: seq<string>)
    ensures Ticking(Unmounted(Mounted(Mounted(Created(pvs)))))
    ensures 1 in Unmounted(Mounted(Mounted(Created(pvs)))).live
  {
  }

  /** Stop is not idempotent: a second unmount disconnects the provider a second time. */
  lemma UnmountTwiceDisconnectsTwice(l: State)
    ensures Unmounted(Unmounted(l)).effects ==
            l.effects + [ClearInterval(l.timer), Disconnect, ClearInterval(l.timer), Disconnect]
  {
  }
}
