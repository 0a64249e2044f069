/**
 * The change-notification emitter's trailing-edge debounce, and the plugin state's
 * wrappers around the manager.
 */
module Lib {
  import opened Values
  import opened Errors
  import opened Models
  import Desktop

  /** The quiet period, in milliseconds. */
  const DebounceMillis: nat := 500

  /** A record published to subscribers, with the time it went out. */
  datatype Emission = Emission(at: nat, info: NetworkInfo)

  /**
   * The emitter loop's variables (`pending_event`, `debounce_deadline`), the time it
   * last observed, whether the loop still runs, and everything published so far.
   * Times are milliseconds since the loop started.
   */
  datatype EmitterState = EmitterState(
    pending: Option<NetworkInfo>,
    deadline: Option<nat>,
    clock: nat,
    running: bool,
    emitted: seq<Emission>)

  /** The loop as spawned: nothing pending, no deadline, nothing published; the invariant holds. */
  function Start(): (r: EmitterState)
    ensures Inv(r) && r.running && r.pending.None? && r.emitted == []
  {
    EmitterState(Option.None, Option.None, 0, true, [])
  }

  /**
   * What the loop keeps true: a value is pending exactly while a deadline is set; the
   * deadline lies in the future but at most one quiet period ahead; a stopped loop
   * holds nothing; every emission is in the past, and consecutive emissions, like the
   * last emission and the pending deadline, are at least one quiet period apart.
   */
  ghost predicate Inv(s: EmitterState) {
    && (s.pending.Some? <==> s.deadline.Some?)
    && (s.deadline.Some? ==> s.clock < s.deadline.value <= s.clock + DebounceMillis)
    && (!s.running ==> s.pending.None?)
    && (forall k :: 0 <= k < |s.emitted| ==> s.emitted[k].at <= s.clock)
    && (forall k :: 0 < k < |s.emitted| ==> s.emitted[k - 1].at + DebounceMillis <= s.emitted[k].at)
    && (s.deadline.Some? && s.emitted != [] ==> s.emitted[|s.emitted| - 1].at + DebounceMillis <= s.deadline.value)
  }

  /**
   * The check at the top of the loop: once the clock has reached the deadline, the
   * pending value (if any) is taken and published and the deadline is cleared. The
   * wait before it ends at the deadline, so that is the emission's time.
   */
  function Flush(s: EmitterState, now: nat): (r: EmitterState)
    ensures r.clock == s.clock && r.running == s.running
    ensures s.emitted <= r.emitted && |r.emitted| <= |s.emitted| + 1
    ensures |r.emitted| == |s.emitted| + 1 ==>
      && s.running && s.deadline.Some? && s.deadline.value <= now && s.pending.Some?
      && r.emitted[|s.emitted|] == Emission(s.deadline.value, s.pending.value)
  {
    if s.running && s.deadline.Some? && now >= s.deadline.value then
      s.(pending := Option.None, deadline := Option.None,
         emitted := s.emitted + (if s.pending.Some? then [Emission(s.deadline.value, s.pending.value)] else []))
    else s
  }

  /**
   * A record arrives on the channel at time `t`. A deadline already passed by `t` was
   * handled first; then the record becomes the pending value and the deadline is `t`
   * plus the quiet period (from idle as well as inside a window).
   */
  function OnArrive(s: EmitterState, info: NetworkInfo, t: nat): (r: EmitterState)
    requires s.clock <= t
    ensures s.clock <= r.clock <= t
    ensures !s.running ==> r == s
    ensures s.running ==>
      r.clock == t && r.pending == Some(info) && r.deadline == Some(t + DebounceMillis)
  {
    if !s.running then s
    else Flush(s, t).(pending := Some(info), deadline := Some(t + DebounceMillis), clock := t)
  }

  /** The clock reaches `now` with nothing received: a timed-out wait, or an emission if due. */
  function OnClock(s: EmitterState, now: nat): (r: EmitterState)
    requires s.clock <= now
    ensures s.clock <= r.clock <= now
    ensures !s.running ==> r == s
    ensures s.running ==> r.clock == now && r.running
  {
    if !s.running then s else Flush(s, now).(clock := now)
  }

  /**
   * The sending side goes away at `t`: a deadline already passed was handled first;
   * the loop then ends and a value still pending is dropped.
   */
  function OnDisconnect(s: EmitterState, t: nat): (r: EmitterState)
    requires s.clock <= t
    ensures s.clock <= r.clock <= t
    ensures !r.running
    ensures !s.running ==> r == s
    ensures s.running ==> r.clock == t && r.pending.None? && r.deadline.None?
  {
    if !s.running then s
    else Flush(s, t).(pending := Option.None, deadline := Option.None, clock := t, running := false)
  }

  /** What the loop can observe, with the time it happens. */
  datatype Event = Arrive(at: nat, info: NetworkInfo) | Clock(at: nat) | Disconnect(at: nat)

  function Step(s: EmitterState, e: Event): (r: EmitterState)
    requires s.clock <= e.at
    ensures s.clock <= r.clock <= e.at
    ensures !s.running ==> r == s
    ensures s.running ==> r.clock == e.at
  {
    match e
    case Arrive(t, info) => OnArrive(s, info, t)
    case Clock(t) => OnClock(s, t)
    case Disconnect(t) => OnDisconnect(s, t)
  }

  /** Events in time order, none before `start`. */
  ghost predicate Chronological(start: nat, es: seq<Event>) {
    && (forall i :: 0 <= i < |es| ==> start <= es[i].at)
    && (forall i, j :: 0 <= i < j < |es| ==> es[i].at <= es[j].at)
  }

  /** The state after the events, oldest first. */
  function Replay(s: EmitterState, es: seq<Event>): (r: EmitterState)
    requires Chronological(s.clock, es)
    ensures s.clock <= r.clock
    ensures es != [] ==> r.clock <= es[|es| - 1].at
    decreases |es|
  {
    if es == [] then s
    else
      var p := es[..|es| - 1];
      assert Chronological(s.clock, p);
      var q := Replay(s, p);
      assert p != [] ==> p[|p| - 1] == es[|es| - 2];
      Step(q, es[|es| - 1])
  }

  /** The most recent arrival among the events. */
  function LastArrival(es: seq<Event>): (r: Option<Event>)
    ensures r.Some? ==> r.value.Arrive?
  {
    if es == [] then Option.None
    else if es[|es| - 1].Arrive? then Some(es[|es| - 1])
    else LastArrival(es[..|es| - 1])
  }

  /** How many records arrived. */
  function Arrivals(es: seq<Event>): nat {
    if es == [] then 0
    else Arrivals(es[..|es| - 1]) + (if es[|es| - 1].Arrive? then 1 else 0)
  }

  // ---------------------------------------------------------------------------
  // Single steps

  /** Publishing a due value keeps the invariant once the clock has moved to `now`. */
  lemma FlushKeepsInv(s: EmitterState, now: nat)
    requires Inv(s) && s.clock <= now
    ensures var f := Flush(s, now).(clock := now);
      && Inv(f)
      && (f.emitted != [] ==> f.emitted[|f.emitted| - 1].at <= now)
  {
    var f := Flush(s, now).(clock := now);
    if s.running && s.deadline.Some? && now >= s.deadline.value {
      assert f.emitted == s.emitted + [Emission(s.deadline.value, s.pending.value)];
      assert forall k :: 0 <= k < |s.emitted| ==> f.emitted[k] == s.emitted[k];
    }
  }

  /** Every step keeps the loop's invariant. */
  lemma StepKeepsInv(s: EmitterState, e: Event)
    requires Inv(s) && s.clock <= e.at
    ensures Inv(Step(s, e))
  {
    if s.running {
      FlushKeepsInv(s, e.at);
    }
  }

  /** From idle, an arrival becomes pending with a fresh deadline and nothing is published. */
  lemma ArriveFromIdle(s: EmitterState, info: NetworkInfo, t: nat)
    requires Inv(s) && s.running && s.pending.None? && s.clock <= t
    ensures OnArrive(s, info, t).pending == Some(info)
    ensures OnArrive(s, info, t).deadline == Some(t + 500)
    ensures OnArrive(s, info, t).emitted == s.emitted
  {
  }

  /** Inside a window, an arrival replaces the pending value and restarts the window from itself. */
  lemma ArriveInWindow(s: EmitterState, info: NetworkInfo, t: nat)
    requires Inv(s) && s.running && s.deadline.Some? && s.clock <= t < s.deadline.value
    ensures OnArrive(s, info, t).pending == Some(info)
    ensures OnArrive(s, info, t).deadline == Some(t + 500)
    ensures OnArrive(s, info, t).emitted == s.emitted
  {
  }

  /** Before the deadline, the clock moving on changes nothing else. */
  lemma ClockBeforeDeadline(s: EmitterState, now: nat)
    requires s.running && s.deadline.Some? && s.clock <= now < s.deadline.value
    ensures OnClock(s, now) == s.(clock := now)
  {
  }

  /** At or after the deadline, the pending value is published once, at the deadline, and the loop goes idle. */
  lemma ClockAtDeadlineEmits(s: EmitterState, now: nat)
    requires Inv(s) && s.running && s.deadline.Some? && s.clock <= now && s.deadline.value <= now
    ensures OnClock(s, now).emitted == s.emitted + [Emission(s.deadline.value, s.pending.value)]
    ensures OnClock(s, now).pending.None? && OnClock(s, now).deadline.None?
  {
  }

  /** A stopped loop ignores everything that follows. */
  lemma {:induction false} StoppedIsSilent(s: EmitterState, es: seq<Event>)
    requires !s.running && Chronological(s.clock, es)
    ensures Replay(s, es) == s
    decreases |es|
  {
    if es != [] {
      var p := es[..|es| - 1];
      assert Chronological(s.clock, p);
      StoppedIsSilent(s, p);
    }
  }

  /** Disconnecting inside a window drops the pending value: it is never published. */
  lemma DisconnectDropsPending(s: EmitterState, t: nat, later: seq<Event>)
    requires Inv(s) && s.running && s.deadline.Some? && s.clock <= t < s.deadline.value
    requires Chronological(t, later)
    ensures OnDisconnect(s, t).emitted == s.emitted
    ensures Replay(OnDisconnect(s, t), later).emitted == s.emitted
  {
    StoppedIsSilent(OnDisconnect(s, t), later);
  }

  /**
   * A channel whose sending side is already gone when the loop starts (what the
   * desktop manager's `listen_network_changes` hands over) ends the loop at once:
   * nothing is ever published.
   */
  lemma ClosedAtSpawnNeverEmits(es: seq<Event>)
    requires Chronological(0, es)
    ensures Replay(OnDisconnect(Start(), 0), es).emitted == []
  {
    StoppedIsSilent(OnDisconnect(Start(), 0), es);
  }

  // ---------------------------------------------------------------------------
  // Whole runs from the spawned state

  /** The invariant holds after every run. */
  lemma {:induction false} ReplayKeepsInv(s: EmitterState, es: seq<Event>)
    requires Inv(s) && Chronological(s.clock, es)
    ensures Inv(Replay(s, es))
    decreases |es|
  {
    if es != [] {
      var p := es[..|es| - 1];
      assert Chronological(s.clock, p);
      ReplayKeepsInv(s, p);
      StepKeepsInv(Replay(s, p), es[|es| - 1]);
    }
  }

  /** Appending one event is one more step. */
  lemma ReplaySnoc(s: EmitterState, es: seq<Event>, e: Event)
    requires Chronological(s.clock, es + [e])
    ensures Chronological(s.clock, es)
    ensures Replay(s, es).clock <= e.at
    ensures Replay(s, es + [e]) == Step(Replay(s, es), e)
  {
    var all := es + [e];
    assert all[..|all| - 1] == es;
    assert all[|all| - 1] == e;
    assert Chronological(s.clock, es) by {
      assert forall i :: 0 <= i < |es| ==> es[i] == all[i];
    }
    if es != [] {
      assert es[|es| - 1] == all[|all| - 2];
    }
  }

  /** The pending value and its deadline come from the arrival `last`. */
  ghost predicate PendingFrom(s: EmitterState, last: Option<Event>) {
    s.pending.Some? ==>
      && last.Some? && last.value.Arrive?
      && s.pending.value == last.value.info
      && s.deadline == Some(last.value.at + DebounceMillis)
  }

  /** One step keeps the pending value tied to the latest arrival. */
  lemma StepPendingFrom(s: EmitterState, e: Event, last: Option<Event>)
    requires Inv(s) && s.clock <= e.at && PendingFrom(s, last)
    ensures PendingFrom(Step(s, e), if e.Arrive? then Some(e) else last)
  {
  }

  /** The value pending after a run is the last record that arrived, with the deadline it set. */
  lemma {:induction false} PendingIsLastArrival(es: seq<Event>)
    requires Chronological(0, es)
    ensures PendingFrom(Replay(Start(), es), LastArrival(es))
    decreases |es|
  {
    if es != [] {
      var p, e := es[..|es| - 1], es[|es| - 1];
      assert es == p + [e];
      ReplaySnoc(Start(), p, e);
      ReplayKeepsInv(Start(), p);
      PendingIsLastArrival(p);
      StepPendingFrom(Replay(Start(), p), e, LastArrival(p));
      assert LastArrival(es) == if e.Arrive? then Some(e) else LastArrival(p);
    }
  }

  /**
   * Each event publishes at most one record, never retracts one, and what it publishes
   * is the last record that arrived before it, one quiet period after that arrival.
   */
  lemma EmissionIsLastArrival(es: seq<Event>, e: Event)
    requires Chronological(0, es + [e])
    ensures Chronological(0, es)
    ensures var before, after := Replay(Start(), es).emitted, Replay(Start(), es + [e]).emitted;
      && before <= after
      && |after| <= |before| + 1
      && (|after| == |before| + 1 ==>
            && LastArrival(es).Some?
            && after[|before|] == Emission(LastArrival(es).value.at + DebounceMillis, LastArrival(es).value.info)
            && after[|before|].at <= e.at)
  {
    ReplaySnoc(Start(), es, e);
    ReplayKeepsInv(Start(), es);
    PendingIsLastArrival(es);
  }

  /** A run never publishes more records than arrived; a pending one is counted too. */
  lemma {:induction false} EmissionsBoundedByArrivals(es: seq<Event>)
    requires Chronological(0, es)
    ensures var r := Replay(Start(), es);
      |r.emitted| + (if r.pending.Some? then 1 else 0) <= Arrivals(es)
    decreases |es|
  {
    if es != [] {
      var p, e := es[..|es| - 1], es[|es| - 1];
      assert es == p + [e];
      ReplaySnoc(Start(), p, e);
      EmissionsBoundedByArrivals(p);
    }
  }

  /**
   * Records at 0, 100, 200 and 600 ms: nothing goes out before 1100 ms, and then
   * exactly one emission, at 1100 ms, carrying the 600 ms record.
   */
  lemma BurstExample(a: NetworkInfo, b: NetworkInfo, c: NetworkInfo, d: NetworkInfo)
    ensures var burst := OnArrive(OnArrive(OnArrive(OnArrive(Start(), a, 0), b, 100), c, 200), d, 600);
      && OnClock(burst, 1099).emitted == []
      && OnClock(burst, 1100).emitted == [Emission(1100, d)]
  {
  }

  /** A single record is published once, one quiet period after it arrived. */
  lemma SingleEventExample(a: NetworkInfo, t: nat)
    ensures OnClock(OnArrive(Start(), a, t), t + 499).emitted == []
    ensures OnClock(OnArrive(Start(), a, t), t + 500).emitted == [Emission(t + 500, a)]
  {
  }

  // ---------------------------------------------------------------------------
  // The loop as the object the spawned thread runs

  /** The emitter thread's state, advanced one loop iteration at a time. */
  class NetworkChangeEmitter {
    var pending: Option<NetworkInfo>
    var deadline: Option<nat>
    var clock: nat
    var running: bool
    var emitted: seq<Emission>

    function State(): EmitterState
      reads this
    {
      EmitterState(pending, deadline, clock, running, emitted)
    }

    ghost predicate Valid()
      reads this
    {
      Inv(State())
    }

    constructor ()
      ensures Valid() && State() == Start()
    {
      pending, deadline, clock, running, emitted := Option.None, Option.None, 0, true, [];
    }

    /**
     * The loop observes the time `now` with nothing received: the due check at the
     * top of the loop publishes the pending value if its deadline has been reached.
     */
    method Tick(now: nat)
      requires Valid() && clock <= now
      modifies this
      ensures Valid()
      ensures State() == OnClock(old(State()), now)
    {
      ghost var s := State();
      if running {
        if deadline.Some? && now >= deadline.value {
          if pending.Some? {
            emitted := emitted + [Emission(deadline.value, pending.value)];
            pending := Option.None;
          }
          deadline := Option.None;
        }
        clock := now;
      }
      StepKeepsInv(s, Clock(now));
    }

    /** A record is received at `t`, after the due check for that time. */
    method Receive(info: NetworkInfo, t: nat)
      requires Valid() && clock <= t
      modifies this
      ensures Valid()
      ensures State() == OnArrive(old(State()), info, t)
    {
      ghost var s := State();
      if running {
        Tick(t);
        pending := Some(info);
        deadline := Some(t + DebounceMillis);
      }
      StepKeepsInv(s, Arrive(t, info));
    }

    /** The channel reports disconnection at `t`, after the due check for that time: the loop ends. */
    method Disconnected(t: nat)
      requires Valid() && clock <= t
      modifies this
      ensures Valid()
      ensures State() == OnDisconnect(old(State()), t)
    {
      ghost var s := State();
      if running {
        Tick(t);
        pending, deadline, running := Option.None, Option.None, false;
      }
      StepKeepsInv(s, Disconnect(t));
    }
  }

  // ---------------------------------------------------------------------------
  // The plugin state's wrappers

  /** The shared manager slot: its lock may be poisoned, and it may hold no manager. */
  datatype ManagerCell<M> = ManagerCell(poisoned: bool, manager: Option<M>)

  /**
   * The body every wrapper shares: a poisoned lock is `LockError`, an empty slot is
   * `NotInitialized`, and otherwise the manager's own result is returned as it is.
   */
  function Dispatch<M, T>(cell: ManagerCell<M>, op: M -> Result<T>): (r: Result<T>)
    ensures cell.poisoned ==> r == Err(LockError)
    ensures !cell.poisoned && cell.manager.None? ==> r == Err(NotInitialized)
    ensures !cell.poisoned && cell.manager.Some? ==> r == op(cell.manager.value)
    ensures r.Ok? ==> Usable(cell) && r == op(cell.manager.value)
  {
    if cell.poisoned then Err(LockError)
    else match cell.manager
      case None => Err(NotInitialized)
      case Some(m) => op(m)
  }

  /**
   * `list_wifi_networks` through the state: it succeeds only with a usable manager
   * whose reads work, and then lists nothing.
   */
  function ListWifiNetworks(cell: ManagerCell<Desktop.Manager>): (r: Result<seq<NetworkInfo>>)
    ensures r.Ok? <==>
      Usable(cell) && cell.manager.value.listProxy.Ok? && cell.manager.value.devicesRead.Ok?
    ensures r.Ok? ==> r.value == []
    ensures !Usable(cell) ==> r in {Err(LockError), Err(NotInitialized)}
  {
    Dispatch(cell, (m: Desktop.Manager) => Desktop.ListWifiNetworks(m.listProxy, m.devicesRead))
  }

  /**
   * `connect_to_wifi` through the state: it reports success whenever the manager is
   * usable and its proxy can be created, whatever the request.
   */
  function ConnectToWifi(cell: ManagerCell<Desktop.Manager>, config: ConnectionConfig): (r: Result<()>)
    ensures r.Ok? <==> Usable(cell) && cell.manager.value.connectProxy.Ok?
    ensures !Usable(cell) ==> r in {Err(LockError), Err(NotInitialized)}
  {
    Dispatch(cell, (m: Desktop.Manager) => Desktop.ConnectToWifi(m.connectProxy, config))
  }

  /**
   * `toggle_network_state` through the state: it succeeds exactly when the manager is
   * usable and its proxy can be created, and then echoes the requested state.
   */
  function ToggleNetworkState(cell: ManagerCell<Desktop.Manager>, enabled: bool): (r: Result<bool>)
    ensures r.Ok? <==> Usable(cell) && cell.manager.value.toggleProxy.Ok?
    ensures r.Ok? ==> r.value == enabled
    ensures !Usable(cell) ==> r in {Err(LockError), Err(NotInitialized)}
  {
    Dispatch(cell, (m: Desktop.Manager) => Desktop.ToggleNetworkState(m.toggleProxy, enabled))
  }

  /** Whether the slot holds a usable manager. */
  predicate Usable<M>(cell: ManagerCell<M>) {
    !cell.poisoned && cell.manager.Some?
  }
}
