/** The five timeouts over whole runs: which of them can ever fire. */
module Watchdogs {
  import opened Basics
  import opened RunLoop

  /** A session's optional timeouts. */
  datatype Spec = Spec(
    total: Option<real>, handshake: Option<real>, firstTurn: Option<real>, inactivity: Option<real>, idle: Option<real>)

  function Or(setting: Option<real>, default: real): real {
    if setting.Some? then setting.value else default
  }

  function Resolve(spec: Spec): Timeouts {
    var total := Or(spec.total, 1800.0);
    Timeouts(Or(spec.handshake, 30.0), Or(spec.firstTurn, 120.0), Or(spec.inactivity, 300.0), total, Or(spec.idle, total))
  }

  /** Readings of a monotonic clock: each is at least the time held at the gate after the one before. */
  predicate Monotonic(trace: seq<Iteration>, last: real) {
    trace == [] ||
    (trace[0].pausedFor >= 0.0 && last + trace[0].pausedFor <= trace[0].now && Monotonic(trace[1..], trace[0].now))
  }

  predicate Ordered(c: Clock, now: real) {
    c.runStart <= c.lastEvent <= now
  }

  lemma {:induction false} DrainClock(s: State, commands: seq<Command>)
    ensures Drained(s, commands).0.clock == s.clock
    decreases |commands|
  {
    if commands != [] && !Ends(commands[0]) {
      DrainClock(Apply(s, commands[0]), commands[1..]);
    }
  }

  lemma {:induction false} GateClock(s: State, polls: seq<seq<Command>>)
    ensures Gated(s, polls).0.clock == s.clock
    decreases |polls|
  {
    if s.session.paused && polls != [] {
      DrainClock(s, polls[0]);
      GateClock(Drained(s, polls[0]).0, polls[1..]);
    }
  }

  /** The invariant of the loop's clock: the run started, then its last event came, then it is now. */
  lemma IterationOrdered(s: State, t: Option<Timeouts>, it: Iteration, last: real)
    requires Ordered(s.clock, last) && it.pausedFor >= 0.0 && last + it.pausedFor <= it.now
    ensures Ordered(Iterated(s, t, it).0.clock, it.now)
    ensures Iterated(s, t, it).1 == Leave(TimedOut(Idle)) ==> t.Some? && IdleCanFire(t.value)
  {
    DrainClock(s, it.before);
    GateClock(Drained(s, it.before).0, it.polls);
    EntryNeverTimesOut(s, it);
    var e := Entered(s, it).0;
    var h := if it.event.None? then (e, Proceed) else Handled(e, it.event.value);
    HandlingNeverTimesOut(e, it);
    DrainClock(Watched(h.0, t, it.event, it.now).0, it.after);
  }

  lemma {:induction false} GateNeverTimesOut(s: State, polls: seq<seq<Command>>)
    ensures Gated(s, polls).1 in {Proceed, Leave(Held), Leave(Stopped)}
    decreases |polls|
  {
    if s.session.paused && polls != [] {
      GateNeverTimesOut(Drained(s, polls[0]).0, polls[1..]);
    }
  }

  lemma EntryNeverTimesOut(s: State, it: Iteration)
    ensures Entered(s, it).1 in {Proceed, Leave(Held), Leave(Stopped)}
  {
    GateNeverTimesOut(Drained(s, it.before).0, it.polls);
  }

  lemma HandlingNeverTimesOut(s: State, it: Iteration)
    ensures it.event.Some? ==>
      Handled(s, it.event.value).0.clock == s.clock && Handled(s, it.event.value).1 != Leave(TimedOut(Idle))
  {
  }

  predicate IdleCanFire(t: Timeouts) {
    t.idle < t.total && (t.idle < t.handshake || t.idle < t.inactivity)
  }

  lemma {:induction false} LoopIdle(s: State, t: Timeouts, trace: seq<Iteration>, last: real)
    requires Ordered(s.clock, last) && Monotonic(trace, last)
    ensures Looped(s, Some(t), trace).exit == TimedOut(Idle) ==> IdleCanFire(t)
    decreases |trace|
  {
    if trace != [] {
      IterationOrdered(s, Some(t), trace[0], last);
      LoopIdle(Iterated(s, Some(t), trace[0]).0, t, trace[1..], trace[0].now);
    }
  }

  /** Some session under some monotonic clock ends with `idle_watchdog_timeout`. */
  ghost predicate IdleReachable(t: Timeouts) {
    exists session, start, trace ::
      Monotonic(trace, start) && Processed(Start(session, start), Some(t), trace).exit == TimedOut(Idle)
  }

  predicate Positive(t: Timeouts) {
    t.handshake > 0.0 && t.firstTurn > 0.0 && t.inactivity > 0.0 && t.total > 0.0 && t.idle > 0.0
  }

  /** The idle watchdog can fire exactly when it is shorter than the run and than one of the silences it watches. */
  lemma IdleExact(t: Timeouts)
    requires Positive(t)
    ensures IdleReachable(t) <==> IdleCanFire(t)
  {
    if IdleReachable(t) {
      var session, start, trace :| Monotonic(trace, start) && Processed(Start(session, start), Some(t), trace).exit == TimedOut(Idle);
      LoopIdle(Start(session, start), t, trace, start);
    }
    if IdleCanFire(t) {
      if t.idle < t.handshake { IdleBeforeFirstEvent(t); } else { IdleAfterTurn(t); }
    }
  }

  function Silence(now: real): Iteration {
    Iteration(None, [], [], 0.0, now, [])
  }

  const FRESH := Session(Running, None, 0, map[], [], false)

  lemma IdleBeforeFirstEvent(t: Timeouts)
    requires Positive(t) && t.idle < t.total && t.idle < t.handshake
    ensures IdleReachable(t)
  {
    var trace := [Silence(t.idle)];
    assert trace[1..] == [];
    assert Monotonic(trace, 0.0);
    assert Iterated(Start(FRESH, 0.0), Some(t), trace[0]).1 == Leave(TimedOut(Idle));
    assert Processed(Start(FRESH, 0.0), Some(t), trace).exit == TimedOut(Idle);
  }

  lemma IdleAfterTurn(t: Timeouts)
    requires Positive(t) && t.idle < t.total && t.idle < t.inactivity
    ensures IdleReachable(t)
  {
    var turn := Silence(0.0).(event := Some(TurnComplete(1, true, true, true, true)));
    var trace := [turn, Silence(t.idle)];
    var s := Start(FRESH, 0.0);
    var s1 := Iterated(s, Some(t), turn).0;
    assert trace[1..] == [Silence(t.idle)] && trace[1..][1..] == [];
    assert Monotonic(trace[1..], 0.0) && Monotonic(trace, 0.0);
    assert Iterated(s, Some(t), turn).1 == Proceed && s1.clock == Clock(0.0, 0.0, true, true) && !s1.session.paused;
    assert Iterated(s1, Some(t), Silence(t.idle)).1 == Leave(TimedOut(Idle));
    assert Looped(s, Some(t), trace) == Looped(s1, Some(t), trace[1..]);
    assert Processed(s, Some(t), trace).exit == TimedOut(Idle);
  }

  /** As sessions are configured, with the idle timeout equal to the total or left to default, it never fires. */
  lemma IdleNeverFires(spec: Spec, session: Session, start: real, trace: seq<Iteration>)
    requires spec.idle.None? || spec.idle.value == Or(spec.total, 1800.0)
    requires Monotonic(trace, start)
    ensures Processed(Start(session, start), Some(Resolve(spec)), trace).exit != TimedOut(Idle)
  {
    LoopIdle(Start(session, start), Resolve(spec), trace, start);
  }
}
