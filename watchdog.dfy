/**
 The watchdog timer registry of the ping loop (src/main.rs, lines 67-96).

 Every ping for a key schedules a one-shot expiry five seconds later and
 stores its guard under the key, replacing (and so cancelling) the guard
 stored before. An expiry that is due sends the key it captured to the
 alert channel. Entries are never removed, not even after firing.

 The timer thread of the `timer` crate is replaced by integer time and an
 explicit `Tick(now)` step. Two properties of the crate's `Guard` are
 assumed, not derived from its code: a scheduled callback runs at most
 once, and dropping its guard (here: overwriting the map entry) cancels
 it before it runs. A handle's `serial` stands for the identity of the
 guard object, so that a replaced handle can be told apart from its
 successor even when both carry the same deadline.
 */
module Watchdog {

  /** `chrono::Duration::seconds(5)`: the grace period, in whole seconds. */
  const GracePeriod: int := 5

  /**
   One scheduled expiry: the key its callback captured, the identity of its
   guard, the time at which it is due, and whether it has already run.
   */
  datatype Handle = Handle(key: string, serial: nat, deadline: int, fired: bool)

  /** The registry as a value: the key-to-handle map and the number of handles scheduled so far. */
  datatype Engine = Engine(timers: map<string, Handle>, scheduled: nat)

  /** One thing that happens to the ping loop or its timer. */
  datatype Event =
    | PingReceived(id: string, now: int)
    | PingRecvError(reason: string)
    | TimerTick(now: int)

  /**
   The registry invariant: each entry's callback captured the key it is
   stored under, each guard identity was handed out already, and no two
   entries share a guard.
   */
  ghost predicate WellFormed(e: Engine) {
    && (forall k | k in e.timers :: e.timers[k].key == k && e.timers[k].serial < e.scheduled)
    && (forall k1, k2 | k1 in e.timers && k2 in e.timers && k1 != k2 :: e.timers[k1].serial != e.timers[k2].serial)
  }

  /** The registry at start-up: `HashMap::new()`. */
  function Empty(): (e: Engine)
    ensures WellFormed(e) && e.timers == map[]
  {
    Engine(map[], 0)
  }

  /** `active_timers.insert(id, timer.schedule_with_delay(delay, ...))` at time `now`. */
  function AfterPing(e: Engine, id: string, now: int): (r: Engine)
    ensures r.timers.Keys == e.timers.Keys + {id} && r.scheduled == e.scheduled + 1
    ensures forall k | k in e.timers && k != id :: r.timers[k] == e.timers[k]
  {
    Engine(e.timers[id := Handle(id, e.scheduled, now + GracePeriod, false)], e.scheduled + 1)
  }

  /** The keys whose stored handle has not run yet and whose deadline has passed at `now`. */
  function Due(m: map<string, Handle>, now: int): (ks: set<string>)
    ensures ks <= m.Keys
  {
    set k | k in m && !m[k].fired && m[k].deadline <= now
  }

  /** The registry after the handles stored under `ks` have run. */
  function FireKeys(m: map<string, Handle>, ks: set<string>): map<string, Handle> {
    map k | k in m :: if k in ks then m[k].(fired := true) else m[k]
  }

  /** The timer subsystem at time `now`: every due handle runs. */
  function AfterTick(e: Engine, now: int): (r: Engine)
    ensures r.timers.Keys == e.timers.Keys && r.scheduled == e.scheduled
    ensures Due(r.timers, now) == {}
  {
    Engine(FireKeys(e.timers, Due(e.timers, now)), e.scheduled)
  }

  /** The keys sent on the alert channel at `now`: the keys the due callbacks captured. */
  function Alerts(e: Engine, now: int): (a: set<string>)
    ensures forall k | k in Due(e.timers, now) :: e.timers[k].key in a
    ensures Due(e.timers, now) == {} ==> a == {}
  {
    set k | k in e.timers && k in Due(e.timers, now) :: e.timers[k].key
  }

  /** The guards whose callbacks run at `now`. */
  function FiredSerials(e: Engine, now: int): set<nat> {
    set k | k in e.timers && k in Due(e.timers, now) :: e.timers[k].serial
  }

  /** One iteration of the ping loop, or one tick of the timer. */
  function Step(e: Engine, ev: Event): (r: Engine)
    ensures e.timers.Keys <= r.timers.Keys && e.scheduled <= r.scheduled
  {
    match ev
    case PingReceived(id, now) => AfterPing(e, id, now)
    case PingRecvError(_) => e
    case TimerTick(now) => AfterTick(e, now)
  }

  /** The guards whose callbacks run during `ev`. */
  function StepFired(e: Engine, ev: Event): set<nat> {
    match ev
    case TimerTick(now) => FiredSerials(e, now)
    case _ => {}
  }

  /** The registry after a sequence of events; no event removes a key, so the key set never shrinks. */
  function Run(e: Engine, evs: seq<Event>): (r: Engine)
    ensures e.timers.Keys <= r.timers.Keys
    decreases |evs|
  {
    if evs == [] then e else Run(Step(e, evs[0]), evs[1..])
  }

  /** Every callback run during a sequence of events, counted by guard. */
  function RunFired(e: Engine, evs: seq<Event>): multiset<nat>
    decreases |evs|
  {
    if evs == [] then multiset{} else multiset(StepFired(e, evs[0])) + RunFired(Step(e, evs[0]), evs[1..])
  }

  /** The keys the callbacks send during `ev`. */
  function StepAlerts(e: Engine, ev: Event): set<string> {
    match ev
    case TimerTick(now) => Alerts(e, now)
    case _ => {}
  }

  /** The keys sent on the alert channel during a sequence of events, counted with repetition; only ticks send. */
  function RunAlerts(e: Engine, evs: seq<Event>): (r: multiset<string>)
    ensures (forall i | 0 <= i < |evs| :: !evs[i].TimerTick?) ==> r == multiset{}
    decreases |evs|
  {
    if evs == [] then multiset{} else multiset(StepAlerts(e, evs[0])) + RunAlerts(Step(e, evs[0]), evs[1..])
  }

  // ---------------------------------------------------------------------
  // One step

  /**
   After a ping for `id` at `now` the entry for `id` is a fresh guard that
   has not run and is due at `now + 5`; every other entry is unchanged,
   and the key set grows by `id` alone.
   */
  lemma PingEffect(e: Engine, id: string, now: int)
    requires WellFormed(e)
    ensures var e' := AfterPing(e, id, now);
      && WellFormed(e')
      && id in e'.timers
      && e'.timers[id].key == id
      && e'.timers[id].deadline == now + GracePeriod
      && !e'.timers[id].fired
      && (forall k | k in e.timers :: e'.timers[id].serial != e.timers[k].serial)
      && (forall k | k in e.timers && k != id :: k in e'.timers && e'.timers[k] == e.timers[k])
      && e'.timers.Keys == e.timers.Keys + {id}
      && |e'.timers.Keys| <= |e.timers.Keys| + 1
  {
    var e' := AfterPing(e, id, now);
    assert e'.timers.Keys == e.timers.Keys + {id};
    assert |e.timers.Keys + {id}| <= |e.timers.Keys| + |{id}|;
  }

  /** The alerts of a tick are exactly the keys that were due: a callback only ever sends its own key. */
  lemma AlertsAreDueKeys(e: Engine, now: int)
    requires WellFormed(e)
    ensures Alerts(e, now) == Due(e.timers, now)
  {
  }

  /**
   A tick marks exactly the due handles as having run and changes nothing
   else: no key is removed, and no handle that ran becomes due again.
   */
  lemma TickEffect(e: Engine, now: int)
    requires WellFormed(e)
    ensures var e' := AfterTick(e, now);
      && WellFormed(e')
      && e'.timers.Keys == e.timers.Keys
      && (forall k | k in Due(e.timers, now) :: e'.timers[k] == e.timers[k].(fired := true))
      && (forall k | k in e.timers && k !in Due(e.timers, now) :: e'.timers[k] == e.timers[k])
      && (forall t :: Due(e'.timers, t) !! Due(e.timers, now))
  {
  }

  /** A receive error on the ping channel leaves the registry as it was. */
  lemma RecvErrorKeepsRegistry(e: Engine, reason: string)
    ensures Step(e, PingRecvError(reason)) == e
    ensures StepFired(e, PingRecvError(reason)) == {}
  {
  }

  // ---------------------------------------------------------------------
  // Deadlines of one key

  /**
   A key pinged at `t` raises no alert at a tick before `t + 5` that directly
   follows the ping, whatever was stored for it before. `RenewedKeyNeverAlerted`
   states this over whole runs.
   */
  lemma RenewedKeyNotAlerted(e: Engine, k: string, t: int, now: int)
    requires WellFormed(e)
    requires now < t + GracePeriod
    ensures k !in Alerts(AfterPing(e, k, t), now)
  {
  }

  /**
   A key pinged at `t` raises its alert at a tick at or after `t + 5` that
   directly follows the ping, and the tick after that does not raise it
   again. `MissedDeadlineAlertsExactlyOnce` states this over whole runs.
   */
  lemma MissedKeyAlertedOnce(e: Engine, k: string, t: int, now: int, later: int)
    requires WellFormed(e)
    requires now >= t + GracePeriod
    ensures k in Alerts(AfterPing(e, k, t), now)
    ensures k !in Alerts(AfterTick(AfterPing(e, k, t), now), later)
  {
    var e1 := AfterPing(e, k, t);
    PingEffect(e, k, t);
    AlertsAreDueKeys(e1, now);
    TickEffect(e1, now);
    AlertsAreDueKeys(AfterTick(e1, now), later);
  }

  /**
   Pings at 0 and 3 with a grace period of 5: no alert at 5, the alert at 8,
   and none afterwards.
   */
  lemma RenewalPostponesAlert(k: string)
    ensures var e2 := AfterPing(AfterPing(Empty(), k, 0), k, 3);
      && Alerts(e2, 5) == {}
      && Alerts(AfterTick(e2, 5), 8) == {k}
      && (forall t :: Alerts(AfterTick(AfterTick(e2, 5), 8), t) == {})
  {
    var e1 := AfterPing(Empty(), k, 0);
    var e2 := AfterPing(e1, k, 3);
    PingEffect(Empty(), k, 0);
    PingEffect(e1, k, 3);
    assert e2.timers.Keys == {k};
    AlertsAreDueKeys(e2, 5);
    var e3 := AfterTick(e2, 5);
    assert Due(e2.timers, 5) == {};
    TickEffect(e2, 5);
    AlertsAreDueKeys(e3, 8);
    assert Due(e3.timers, 8) == {k};
    var e4 := AfterTick(e3, 8);
    TickEffect(e3, 8);
    forall t ensures Alerts(e4, t) == {} {
      AlertsAreDueKeys(e4, t);
      assert Due(e4.timers, t) == {};
    }
  }

  // ---------------------------------------------------------------------
  // Whole runs

  /**
   Every guard in `fired` has run exactly once so far, was handed out
   already, and if it is still stored it is marked as having run.
   */
  ghost predicate Settled(e: Engine, fired: multiset<nat>) {
    forall s | s in fired ::
      && fired[s] == 1
      && s < e.scheduled
      && (forall k | k in e.timers && e.timers[k].serial == s :: e.timers[k].fired)
  }

  /** Guard `s` was handed out and is no longer stored: it has been replaced. */
  ghost predicate Retired(e: Engine, s: nat) {
    s < e.scheduled && forall k | k in e.timers :: e.timers[k].serial != s
  }

  lemma StepSettled(e: Engine, ev: Event, fired: multiset<nat>)
    requires WellFormed(e) && Settled(e, fired)
    ensures WellFormed(Step(e, ev))
    ensures Settled(Step(e, ev), fired + multiset(StepFired(e, ev)))
  {
    match ev {
      case PingReceived(id, now) =>
        PingEffect(e, id, now);
      case PingRecvError(_) =>
      case TimerTick(now) =>
        var e' := AfterTick(e, now);
        var due := Due(e.timers, now);
        var fs := FiredSerials(e, now);
        TickEffect(e, now);
        var all := fired + multiset(fs);
        forall s | s in all
          ensures all[s] == 1 && s < e'.scheduled
          ensures forall k | k in e'.timers && e'.timers[k].serial == s :: e'.timers[k].fired
        {
          if s in fs {
            var kd :| kd in e.timers && kd in due && e.timers[kd].serial == s;
            assert s !in fired;
            forall k | k in e'.timers && e'.timers[k].serial == s ensures e'.timers[k].fired {
              assert k == kd;
            }
          } else {
            assert s in fired;
            forall k | k in e'.timers && e'.timers[k].serial == s ensures e'.timers[k].fired {
              assert k !in due;
            }
          }
        }
    }
  }

  /**
   Over any run from a well-formed registry, every guard's callback runs at
   most once, whatever the pings, receive errors and ticks.
   */
  lemma {:induction false} RunSettled(e: Engine, evs: seq<Event>, fired: multiset<nat>)
    requires WellFormed(e) && Settled(e, fired)
    ensures WellFormed(Run(e, evs))
    ensures Settled(Run(e, evs), fired + RunFired(e, evs))
    decreases |evs|
  {
    if evs != [] {
      StepSettled(e, evs[0], fired);
      var fired' := fired + multiset(StepFired(e, evs[0]));
      RunSettled(Step(e, evs[0]), evs[1..], fired');
      assert fired' + RunFired(Step(e, evs[0]), evs[1..]) == fired + RunFired(e, evs);
    }
  }

  /** A scheduled callback emits at most once over any run. */
  lemma FiresAtMostOnce(e: Engine, evs: seq<Event>, s: nat)
    requires WellFormed(e)
    ensures RunFired(e, evs)[s] <= 1
  {
    RunSettled(e, evs, multiset{});
    assert multiset{} + RunFired(e, evs) == RunFired(e, evs);
  }

  /** A replaced guard stays replaced and does not run, whatever the next event is. */
  lemma StepRetired(e: Engine, ev: Event, s: nat)
    requires WellFormed(e) && Retired(e, s)
    ensures WellFormed(Step(e, ev)) && Retired(Step(e, ev), s)
    ensures s !in StepFired(e, ev)
  {
  }

  lemma {:induction false} RunRetired(e: Engine, evs: seq<Event>, s: nat)
    requires WellFormed(e) && Retired(e, s)
    ensures Retired(Run(e, evs), s)
    ensures s !in RunFired(e, evs)
    decreases |evs|
  {
    if evs != [] {
      StepRetired(e, evs[0], s);
      RunRetired(Step(e, evs[0]), evs[1..], s);
    }
  }

  /**
   Cancel on replace: once a ping for `k` replaces the handle stored for
   `k`, the replaced handle's callback never runs, whatever follows.
   */
  lemma ReplacedNeverFires(e: Engine, k: string, t: int, evs: seq<Event>)
    requires WellFormed(e) && k in e.timers
    ensures e.timers[k].serial !in RunFired(Step(e, PingReceived(k, t)), evs)
  {
    var s := e.timers[k].serial;
    PingEffect(e, k, t);
    var e' := Step(e, PingReceived(k, t));
    assert Retired(e', s);
    RunRetired(e', evs, s);
  }

  // ---------------------------------------------------------------------
  // Alerts of one key over whole runs

  /** No event of `evs` is a ping for `k`. */
  ghost predicate NoPingFor(evs: seq<Event>, k: string) {
    forall i | 0 <= i < |evs| :: !(evs[i].PingReceived? && evs[i].id == k)
  }

  /** `k` has a stored handle that has not run yet. */
  ghost predicate Pending(e: Engine, k: string) {
    k in e.timers && !e.timers[k].fired
  }

  /**
   A key is alerted in a step only if its handle was pending, and then it is
   no longer pending afterwards, unless the step is a ping for that key.
   */
  lemma StepPending(e: Engine, ev: Event, k: string)
    requires WellFormed(e) && !(ev.PingReceived? && ev.id == k)
    ensures WellFormed(Step(e, ev))
    ensures multiset(StepAlerts(e, ev))[k] + (if Pending(Step(e, ev), k) then 1 else 0) <= (if Pending(e, k) then 1 else 0)
  {
    match ev {
      case PingReceived(id, now) =>
        PingEffect(e, id, now);
      case PingRecvError(_) =>
      case TimerTick(now) =>
        TickEffect(e, now);
        AlertsAreDueKeys(e, now);
    }
  }

  /**
   Without a new ping for `k`, `k` is alerted at most once over any run, and
   not at all when its handle has already run.
   */
  lemma {:induction false} AlertedAtMostOnceWithoutPing(e: Engine, k: string, evs: seq<Event>)
    requires WellFormed(e) && NoPingFor(evs, k)
    ensures RunAlerts(e, evs)[k] <= (if Pending(e, k) then 1 else 0)
    decreases |evs|
  {
    if evs != [] {
      StepPending(e, evs[0], k);
      assert NoPingFor(evs[1..], k) by {
        forall i | 0 <= i < |evs| - 1 ensures !(evs[1..][i].PingReceived? && evs[1..][i].id == k) {
          assert evs[1..][i] == evs[i + 1];
        }
      }
      AlertedAtMostOnceWithoutPing(Step(e, evs[0]), k, evs[1..]);
    }
  }

  /**
   A pending handle for `k` is alerted by a run that, without pinging `k`
   again, ticks at some time at or after the handle's deadline.
   */
  lemma {:induction false} PendingKeyAlerted(e: Engine, k: string, evs: seq<Event>, i: nat)
    requires WellFormed(e) && Pending(e, k) && NoPingFor(evs, k)
    requires i < |evs| && evs[i].TimerTick? && evs[i].now >= e.timers[k].deadline
    ensures RunAlerts(e, evs)[k] >= 1
    decreases |evs|
  {
    var ev := evs[0];
    if ev.TimerTick? && k in Due(e.timers, ev.now) {
      AlertsAreDueKeys(e, ev.now);
    } else {
      var e' := Step(e, ev);
      match ev {
        case PingReceived(id, now) =>
          PingEffect(e, id, now);
        case PingRecvError(_) =>
        case TimerTick(now) =>
          TickEffect(e, now);
      }
      assert Pending(e', k) && e'.timers[k].deadline == e.timers[k].deadline;
      assert NoPingFor(evs[1..], k) by {
        forall j | 0 <= j < |evs| - 1 ensures !(evs[1..][j].PingReceived? && evs[1..][j].id == k) {
          assert evs[1..][j] == evs[j + 1];
        }
      }
      assert i > 0;
      PendingKeyAlerted(e', k, evs[1..], i - 1);
    }
  }

  /**
   A missed deadline gives exactly one alert: after a ping for `k` at `t`,
   a run that does not ping `k` again and ticks at some time at or after
   `t + 5` sends `k` exactly once.
   */
  lemma MissedDeadlineAlertsExactlyOnce(e: Engine, k: string, t: int, evs: seq<Event>, i: nat)
    requires WellFormed(e) && NoPingFor(evs, k)
    requires i < |evs| && evs[i].TimerTick? && evs[i].now >= t + GracePeriod
    ensures RunAlerts(AfterPing(e, k, t), evs)[k] == 1
  {
    PingEffect(e, k, t);
    PendingKeyAlerted(AfterPing(e, k, t), k, evs, i);
    AlertedAtMostOnceWithoutPing(AfterPing(e, k, t), k, evs);
  }

  /**
   `k` is kept alive against deadline `d` over `evs`: every tick comes before
   the deadline set by the latest ping for `k`, starting from `d`.
   */
  ghost predicate KeptAlive(k: string, d: int, evs: seq<Event>)
    decreases |evs|
  {
    if evs == [] then true
    else match evs[0]
      case PingReceived(id, now) => KeptAlive(k, if id == k then now + GracePeriod else d, evs[1..])
      case PingRecvError(_) => KeptAlive(k, d, evs[1..])
      case TimerTick(now) => now < d && KeptAlive(k, d, evs[1..])
  }

  /**
   A key whose pending handle is due no earlier than `d`, and that is kept
   alive against `d`, is never alerted over the run.
   */
  lemma {:induction false} KeptAliveNeverAlerted(e: Engine, k: string, d: int, evs: seq<Event>)
    requires WellFormed(e) && Pending(e, k) && e.timers[k].deadline >= d
    requires KeptAlive(k, d, evs)
    ensures RunAlerts(e, evs)[k] == 0
    decreases |evs|
  {
    if evs != [] {
      match evs[0] {
        case PingReceived(id, now) =>
          PingEffect(e, id, now);
          KeptAliveNeverAlerted(Step(e, evs[0]), k, if id == k then now + GracePeriod else d, evs[1..]);
        case PingRecvError(_) =>
          KeptAliveNeverAlerted(e, k, d, evs[1..]);
        case TimerTick(now) =>
          TickEffect(e, now);
          AlertsAreDueKeys(e, now);
          KeptAliveNeverAlerted(Step(e, evs[0]), k, d, evs[1..]);
      }
    }
  }

  /**
   A key pinged at `t` and renewed before each tick reaches its current
   deadline (every tick earlier than the latest ping for it plus five
   seconds) is never alerted.
   */
  lemma RenewedKeyNeverAlerted(e: Engine, k: string, t: int, evs: seq<Event>)
    requires WellFormed(e) && KeptAlive(k, t + GracePeriod, evs)
    ensures RunAlerts(AfterPing(e, k, t), evs)[k] == 0
  {
    PingEffect(e, k, t);
    KeptAliveNeverAlerted(AfterPing(e, k, t), k, t + GracePeriod, evs);
  }

  /** Running one more due handle extends the set of handles that have run by its key. */
  lemma FireOneMore(m: map<string, Handle>, done: set<string>, k: string)
    requires k in m && k !in done
    ensures FireKeys(m, done)[k := m[k].(fired := true)] == FireKeys(m, done + {k})
  {
  }

  // ---------------------------------------------------------------------
  // The registry as owned by the ping loop

  /** The `active_timers` map of the ping loop, with the timer that feeds it. */
  class Registry {
    var timers: map<string, Handle>
    var scheduled: nat

    function State(): Engine
      reads this
    {
      Engine(timers, scheduled)
    }

    constructor ()
      ensures State() == Empty()
    {
      timers := map[];
      scheduled := 0;
    }

    /** One ping for `id` at `now`: insert a fresh handle, replacing the old one. */
    method Ping(id: string, now: int)
      requires WellFormed(State())
      modifies this
      ensures State() == AfterPing(old(State()), id, now)
      ensures WellFormed(State())
    {
      PingEffect(State(), id, now);
      timers := timers[id := Handle(id, scheduled, now + GracePeriod, false)];
      scheduled := scheduled + 1;
    }

    /** One receive on the ping channel: a ping is registered, an error only logged. */
    method Receive(ev: Event)
      requires WellFormed(State()) && !ev.TimerTick?
      modifies this
      ensures State() == Step(old(State()), ev)
      ensures WellFormed(State())
    {
      match ev
      case PingReceived(id, now) =>
        Ping(id, now);
      case PingRecvError(_) =>
    }

    /**
     The timer at `now`: runs every due handle once, marks it as run, and
     returns the keys the callbacks send, each once.
     */
    method Tick(now: int) returns (alerts: seq<string>)
      requires WellFormed(State())
      modifies this
      ensures State() == AfterTick(old(State()), now)
      ensures WellFormed(State())
      ensures forall i, j | 0 <= i < j < |alerts| :: alerts[i] != alerts[j]
      ensures forall k :: k in alerts <==> k in Alerts(old(State()), now)
    {
      ghost var m0 := timers;
      var due := Due(timers, now);
      var pending := due;
      ghost var done: set<string> := {};
      alerts := [];
      while pending != {}
        invariant done + pending == due && done !! pending
        invariant timers == FireKeys(m0, done) && scheduled == old(scheduled)
        invariant forall i, j | 0 <= i < j < |alerts| :: alerts[i] != alerts[j]
        invariant forall k :: k in alerts <==> k in done
        decreases pending
      {
        var k :| k in pending;
        var h := timers[k];
        assert h == m0[k] && h.key == k;
        FireOneMore(m0, done, k);
        timers := timers[k := h.(fired := true)];
        alerts := alerts + [h.key];
        pending := pending - {k};
        done := done + {k};
      }
      assert done == due;
      assert State() == AfterTick(old(State()), now);
      AlertsAreDueKeys(old(State()), now);
      TickEffect(old(State()), now);
    }
  }
}
