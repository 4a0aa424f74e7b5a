/** When a run ends, read off its trace: the five timeouts, the two guards and the other exits. */
module RunLaws {
  import opened Basics
  import opened RunLoop
  import opened RunVerdict
  import opened Watchdogs

  // ---- Runs, one iteration after the other ----

  /** The state before iteration `k`. */
  function StateAt(s: State, t: Option<Timeouts>, trace: seq<Iteration>, k: nat): State
    requires k <= |trace|
  {
    if k == 0 then s else Iterated(StateAt(s, t, trace, k - 1), t, trace[k - 1]).0
  }

  function FlowAt(s: State, t: Option<Timeouts>, trace: seq<Iteration>, k: nat): Flow
    requires k < |trace|
  {
    Iterated(StateAt(s, t, trace, k), t, trace[k]).1
  }

  /** No iteration before `k` ends the run. */
  predicate Starts(s: State, t: Option<Timeouts>, trace: seq<Iteration>, k: nat)
    requires k <= |trace|
  {
    forall j :: 0 <= j < k ==> !FlowAt(s, t, trace, j).Leave?
  }

  lemma {:induction false} StateShift(s: State, t: Option<Timeouts>, trace: seq<Iteration>, k: nat)
    requires 0 < k <= |trace|
    ensures StateAt(s, t, trace, k) == StateAt(Iterated(s, t, trace[0]).0, t, trace[1..], k - 1)
  {
    if k > 1 {
      StateShift(s, t, trace, k - 1);
    }
  }

  /** The loop leaves at the first iteration that says so, and starts none after it. */
  lemma {:induction false} LoopLeaves(s: State, t: Option<Timeouts>, trace: seq<Iteration>, k: nat)
    requires k < |trace| && Starts(s, t, trace, k) && FlowAt(s, t, trace, k).Leave?
    ensures Looped(s, t, trace) == End(StateAt(s, t, trace, k + 1), FlowAt(s, t, trace, k).exit, trace[k + 1..])
    decreases k
  {
    if k > 0 {
      var s1, rest := Iterated(s, t, trace[0]).0, trace[1..];
      assert !FlowAt(s, t, trace, 0).Leave?;
      forall j | 0 <= j <= k - 1 ensures FlowAt(s1, t, rest, j) == FlowAt(s, t, trace, j + 1) {
        StateShift(s, t, trace, j + 1);
      }
      StateShift(s, t, trace, k + 1);
      LoopLeaves(s1, t, rest, k - 1);
      assert rest[k..] == trace[k + 1..];
    }
  }

  /** Every end but that of the stream is some iteration's doing. */
  lemma {:induction false} LoopLeft(s: State, t: Option<Timeouts>, trace: seq<Iteration>) returns (k: nat)
    requires !Looped(s, t, trace).exit.StreamEnd? || Looped(s, t, trace).left != []
    ensures k < |trace| && Starts(s, t, trace, k) && FlowAt(s, t, trace, k) == Leave(Looped(s, t, trace).exit)
    decreases |trace|
  {
    if Iterated(s, t, trace[0]).1.Leave? {
      k := 0;
    } else {
      var s1, rest := Iterated(s, t, trace[0]).0, trace[1..];
      var j := LoopLeft(s1, t, rest);
      k := j + 1;
      forall i | 0 <= i < k ensures !FlowAt(s, t, trace, i).Leave? {
        if i > 0 {
          StateShift(s, t, trace, i);
          assert !FlowAt(s1, t, rest, i - 1).Leave?;
        }
      }
      StateShift(s, t, trace, k);
    }
  }

  // ---- The clock, from the readings ----

  /** The time an iteration spends at the gate. */
  function HeldFor(s: State, it: Iteration): real {
    if Drained(s, it.before).0.session.paused then it.pausedFor else 0.0
  }

  /** The time spent at the gate in the first `k` iterations. */
  function HeldUpTo(s: State, t: Option<Timeouts>, trace: seq<Iteration>, k: nat): real
    requires k <= |trace|
  {
    if k == 0 then 0.0 else HeldUpTo(s, t, trace, k - 1) + HeldFor(StateAt(s, t, trace, k - 1), trace[k - 1])
  }

  /** An event the watchdog hears of: a SESSION_COMPLETE ends the run or skips the watchdog. */
  predicate Heard(it: Iteration) {
    it.event.Some? && !it.event.value.SessionComplete?
  }

  /** The last iteration before `k` whose event was heard. */
  function LastHeard(trace: seq<Iteration>, k: nat): (r: Option<nat>)
    requires k <= |trace|
    ensures r.Some? ==> r.value < k && Heard(trace[r.value]) && forall j :: r.value < j < k ==> !Heard(trace[j])
    ensures r.None? ==> forall j :: 0 <= j < k ==> !Heard(trace[j])
  {
    if k == 0 then None else if Heard(trace[k - 1]) then Some(k - 1) else LastHeard(trace, k - 1)
  }

  predicate TurnHeard(trace: seq<Iteration>, k: nat)
    requires k <= |trace|
  {
    exists j :: 0 <= j < k && trace[j].event.Some? && trace[j].event.value.TurnComplete?
  }

  /** Wall time since the start, at the reading of iteration `k`, less the time at the gate. */
  function Elapsed(s: State, start: real, t: Option<Timeouts>, trace: seq<Iteration>, k: nat): real
    requires k < |trace|
  {
    trace[k].now - start - HeldUpTo(s, t, trace, k + 1)
  }

  /** The same since the last event heard, or since the start if there was none. */
  function Gap(s: State, start: real, t: Option<Timeouts>, trace: seq<Iteration>, k: nat): real
    requires k < |trace|
  {
    match LastHeard(trace, k + 1)
    case None => Elapsed(s, start, t, trace, k)
    case Some(j) => trace[k].now - trace[j].now - (HeldUpTo(s, t, trace, k + 1) - HeldUpTo(s, t, trace, j + 1))
  }

  /** The clock of a state, told from the trace. */
  predicate Told(c: Clock, s: State, start: real, t: Option<Timeouts>, trace: seq<Iteration>, k: nat)
    requires k <= |trace|
  {
    var held, last := HeldUpTo(s, t, trace, k), LastHeard(trace, k);
    && c.runStart == start + held
    && c.lastEvent == (if last.None? then start + held else trace[last.value].now + held - HeldUpTo(s, t, trace, last.value + 1))
    && c.handshake == last.Some?
    && c.firstTurn == TurnHeard(trace, k)
  }

  lemma EntryClock(s: State, it: Iteration)
    ensures Entered(s, it).1.Proceed? ==> Entered(s, it).0.clock == Shifted(s.clock, HeldFor(s, it))
  {
    DrainClock(s, it.before);
    GateClock(Drained(s, it.before).0, it.polls);
  }

  lemma HandledClock(s: State, e: Event)
    ensures Handled(s, e).0.clock == s.clock
    ensures e.SessionComplete? ==> !Handled(s, e).1.Proceed?
    ensures Handled(s, e).1.Skip? ==> e.SessionComplete?
  {
  }

  /** An iteration that goes on: its event was handled, and unless it skipped the watchdog the clock was marked. */
  lemma IterationClock(s: State, t: Option<Timeouts>, it: Iteration)
    requires !Iterated(s, t, it).1.Leave?
    ensures var c := Shifted(s.clock, HeldFor(s, it));
      Iterated(s, t, it).0.clock == if Heard(it) then Marked(c, it.event, it.now) else c
  {
    EntryNeverTimesOut(s, it);
    EntryClock(s, it);
    var e := Entered(s, it).0;
    if it.event.Some? {
      HandledClock(e, it.event.value);
    }
    var h := if it.event.None? then (e, Proceed) else Handled(e, it.event.value);
    DrainClock(Watched(h.0, t, it.event, it.now).0, it.after);
  }

  lemma {:induction false} ClockTold(session: Session, start: real, t: Option<Timeouts>, trace: seq<Iteration>, k: nat)
    requires k <= |trace| && Starts(Start(session, start), t, trace, k)
    ensures var s := Start(session, start); Told(StateAt(s, t, trace, k).clock, s, start, t, trace, k)
  {
    if k > 0 {
      var s := Start(session, start);
      ClockTold(session, start, t, trace, k - 1);
      assert !FlowAt(s, t, trace, k - 1).Leave?;
      IterationClock(StateAt(s, t, trace, k - 1), t, trace[k - 1]);
      TurnStep(trace, k);
    }
  }

  lemma TurnStep(trace: seq<Iteration>, k: nat)
    requires 0 < k <= |trace|
    ensures TurnHeard(trace, k) <==>
      TurnHeard(trace, k - 1) || (trace[k - 1].event.Some? && trace[k - 1].event.value.TurnComplete?)
  {
  }

  // ---- The five timeouts ----

  /** Iteration `it` gets as far as the watchdog: nothing ended the run before, and nothing skipped it. */
  predicate Watches(s: State, it: Iteration) {
    && Entered(s, it).1.Proceed?
    && (it.event.Some? ==> Handled(Entered(s, it).0, it.event.value).1.Proceed?)
  }

  function Rank(w: Watchdog): nat {
    match w
    case Handshake => 0
    case FirstTurn => 1
    case Inactivity => 2
    case Total => 3
    case Idle => 4
  }

  /** Times less the time at the gate, and whether any event, any TURN_COMPLETE was heard. */
  datatype Reading = Reading(elapsed: real, gap: real, event: bool, turn: bool)

  function ReadingAt(s: State, start: real, t: Option<Timeouts>, trace: seq<Iteration>, k: nat): Reading
    requires k < |trace|
  {
    Reading(Elapsed(s, start, t, trace, k), Gap(s, start, t, trace, k), LastHeard(trace, k + 1).Some?, TurnHeard(trace, k + 1))
  }

  predicate RunOut(w: Watchdog, r: Reading, t: Timeouts) {
    match w
    case Handshake => !r.event && r.elapsed >= t.handshake
    case FirstTurn => r.event && !r.turn && r.gap >= t.firstTurn
    case Inactivity => r.event && r.gap >= t.inactivity
    case Total => r.elapsed >= t.total
    case Idle => r.gap >= t.idle
  }

  /** `w` is the first of the five to have run out. */
  predicate FirstOut(w: Watchdog, r: Reading, t: Timeouts) {
    RunOut(w, r, t) && forall v :: Rank(v) < Rank(w) ==> !RunOut(v, r, t)
  }

  function ClockReading(c: Clock, now: real): Reading {
    Reading(now - c.runStart, now - c.lastEvent, c.handshake, c.firstTurn)
  }

  /** The clock the watchdog of an iteration looks at. */
  function ClockIn(s: State, it: Iteration): Clock {
    Marked(Shifted(s.clock, HeldFor(s, it)), it.event, it.now)
  }

  lemma ReadingTold(session: Session, start: real, t: Option<Timeouts>, trace: seq<Iteration>, k: nat)
    requires var s := Start(session, start); k < |trace| && Starts(s, t, trace, k) && Watches(StateAt(s, t, trace, k), trace[k])
    ensures var s := Start(session, start);
      ClockReading(ClockIn(StateAt(s, t, trace, k), trace[k]), trace[k].now) == ReadingAt(s, start, t, trace, k)
  {
    var s := Start(session, start);
    ClockTold(session, start, t, trace, k);
    TurnStep(trace, k + 1);
    if trace[k].event.Some? {
      HandledClock(Entered(StateAt(s, t, trace, k), trace[k]).0, trace[k].event.value);
    }
  }

  lemma WatchedFlow(s: State, t: Option<Timeouts>, it: Iteration, w: Watchdog)
    requires Watches(s, it)
    ensures Iterated(s, t, it).1 == Leave(TimedOut(w)) <==> Expired(ClockIn(s, it), t, it.now) == Some(w)
  {
    EntryClock(s, it);
    var e := Entered(s, it).0;
    if it.event.Some? {
      HandledClock(e, it.event.value);
    }
  }

  lemma RankedFirst(c: Clock, t: Timeouts, now: real, w: Watchdog)
    ensures Expired(c, Some(t), now) == Some(w) <==> FirstOut(w, ClockReading(c, now), t)
  {
    assert Rank(Handshake) == 0 && Rank(FirstTurn) == 1 && Rank(Inactivity) == 2 && Rank(Total) == 3 && Rank(Idle) == 4;
  }

  /**
   * An iteration that gets to the watchdog times out under `w` if and only if `w` is the first of the
   * five to have run out.
   */
  lemma TimeoutExact(session: Session, start: real, t: Timeouts, trace: seq<Iteration>, k: nat, w: Watchdog)
    requires var s := Start(session, start);
      k < |trace| && Starts(s, Some(t), trace, k) && Watches(StateAt(s, Some(t), trace, k), trace[k])
    ensures var s := Start(session, start);
      FlowAt(s, Some(t), trace, k) == Leave(TimedOut(w)) <==> FirstOut(w, ReadingAt(s, start, Some(t), trace, k), t)
  {
    var before := StateAt(Start(session, start), Some(t), trace, k);
    ReadingTold(session, start, Some(t), trace, k);
    WatchedFlow(before, Some(t), trace[k], w);
    RankedFirst(ClockIn(before, trace[k]), t, trace[k].now, w);
  }

  lemma OnlyWatchdogsTimeOut(s: State, t: Option<Timeouts>, it: Iteration, w: Watchdog)
    requires Iterated(s, t, it).1 == Leave(TimedOut(w))
    ensures Watches(s, it) && t.Some?
  {
    EntryNeverTimesOut(s, it);
  }

  /** Iteration `k` is started, gets to the watchdog and finds `w` the first to have run out. */
  predicate TimesOutAt(session: Session, start: real, t: Timeouts, trace: seq<Iteration>, k: nat, w: Watchdog) {
    var s := Start(session, start);
    && k < |trace| && Starts(s, Some(t), trace, k) && Watches(StateAt(s, Some(t), trace, k), trace[k])
    && FirstOut(w, ReadingAt(s, start, Some(t), trace, k), t)
  }

  lemma RunTimesOutExactly(session: Session, start: real, t: Timeouts, trace: seq<Iteration>, w: Watchdog)
    ensures Processed(Start(session, start), Some(t), trace).exit == TimedOut(w) <==>
      exists k: nat :: TimesOutAt(session, start, t, trace, k, w)
  {
    var s := Start(session, start);
    if Looped(s, Some(t), trace).exit == TimedOut(w) {
      var k := LoopLeft(s, Some(t), trace);
      OnlyWatchdogsTimeOut(StateAt(s, Some(t), trace, k), Some(t), trace[k], w);
      TimeoutExact(session, start, t, trace, k, w);
      assert TimesOutAt(session, start, t, trace, k, w);
    }
    if k: nat :| TimesOutAt(session, start, t, trace, k, w) {
      TimeoutExact(session, start, t, trace, k, w);
      LoopLeaves(s, Some(t), trace, k);
    }
  }

  /** No iteration starts after one whose reading has reached the total. */
  lemma TotalEndsRun(session: Session, start: real, t: Timeouts, trace: seq<Iteration>, k: nat)
    requires var s := Start(session, start);
      k < |trace| && Starts(s, Some(t), trace, k) && Watches(StateAt(s, Some(t), trace, k), trace[k])
      && Elapsed(s, start, Some(t), trace, k) >= t.total
    ensures var end := Processed(Start(session, start), Some(t), trace); end.exit.TimedOut? && end.left == trace[k + 1..]
  {
    var s := Start(session, start);
    var w := FirstOfAll(ReadingAt(s, start, Some(t), trace, k), t, Total);
    TimeoutExact(session, start, t, trace, k, w);
    LoopLeaves(s, Some(t), trace, k);
  }

  // ---- The guards, from the events ----

  function Turns(seen: seq<Event>): seq<Event> {
    if seen == [] then []
    else if Last(seen).TurnComplete? then Turns(Init(seen)) + [Last(seen)]
    else Turns(Init(seen))
  }

  /** How many turns at the end changed no file. */
  function Unchanged(turns: seq<Event>): nat
    requires forall i :: 0 <= i < |turns| ==> turns[i].TurnComplete?
  {
    if turns == [] || Last(turns).fileChanged then 0 else 1 + Unchanged(Init(turns))
  }

  lemma {:induction false} TurnsOnly(seen: seq<Event>)
    ensures forall i :: 0 <= i < |Turns(seen)| ==> Turns(seen)[i].TurnComplete?
  {
    if seen != [] { TurnsOnly(Init(seen)); }
  }

  /** The last five turns changed no file. */
  predicate Stalled(seen: seq<Event>) {
    var turns := Turns(seen);
    |turns| >= 5 && forall i :: |turns| - 5 <= i < |turns| ==> turns[i].TurnComplete? && !turns[i].fileChanged
  }

  lemma {:induction false} UnchangedAtLeast(turns: seq<Event>, n: nat)
    requires forall i :: 0 <= i < |turns| ==> turns[i].TurnComplete?
    ensures Unchanged(turns) >= n <==> |turns| >= n && forall i :: |turns| - n <= i < |turns| ==> !turns[i].fileChanged
    decreases |turns|
  {
    if n > 0 && turns != [] {
      UnchangedAtLeast(Init(turns), n - 1);
      assert turns == Init(turns) + [Last(turns)];
    }
  }

  /** The turn number after `seen`: one more each time, or what the backend reports if that is more. */
  function TurnCount(prior: int, seen: seq<Event>): int {
    if seen == [] then prior
    else if !Last(seen).TurnComplete? then TurnCount(prior, Init(seen))
    else if Last(seen).reported > TurnCount(prior, Init(seen)) then Last(seen).reported
    else TurnCount(prior, Init(seen)) + 1
  }

  /** The events since the last TURN_COMPLETE. */
  function ThisTurn(seen: seq<Event>): seq<Event> {
    if seen == [] || Last(seen).TurnComplete? then [] else ThisTurn(Init(seen)) + [Last(seen)]
  }

  predicate Calls(events: seq<Event>) {
    exists i :: 0 <= i < |events| && events[i].ToolCall?
  }

  predicate Modifies(events: seq<Event>) {
    exists i :: 0 <= i < |events| && events[i].ToolCall? && events[i].modifying
  }

  /** The last of `seen` is a step of a turn that has called tools and modified nothing; at the end of the
      turn the workspace must be clean, too, and the turn not the first. */
  predicate ReadsOnly(prior: int, seen: seq<Event>)
    requires seen != []
  {
    var turn := ThisTurn(Init(seen));
    && Calls(turn) && !Modifies(turn)
    && (Last(seen).TurnComplete? ==> !Last(seen).dirty && TurnCount(prior, seen) > 1)
  }

  /** How many steps at the end only read: a tool result and the end of a turn are a step each. */
  function ReadOnlySteps(prior: int, seen: seq<Event>): nat {
    if seen == [] then 0
    else if !Last(seen).ToolResult? && !Last(seen).TurnComplete? then ReadOnlySteps(prior, Init(seen))
    else if ReadsOnly(prior, seen) then ReadOnlySteps(prior, Init(seen)) + 1
    else 0
  }

  predicate GuardsTold(prior: int, s: State) {
    TurnsOnly(s.seen);
    && s.session.turns == TurnCount(prior, s.seen)
    && s.guards.noop == Unchanged(Turns(s.seen))
    && s.guards.streak == ReadOnlySteps(prior, s.seen)
    && s.guards.tools == Calls(ThisTurn(s.seen))
    && s.guards.modifying == Modifies(ThisTurn(s.seen))
  }

  lemma CallsSnoc(events: seq<Event>, e: Event)
    ensures Calls(events + [e]) <==> Calls(events) || e.ToolCall?
    ensures Modifies(events + [e]) <==> Modifies(events) || (e.ToolCall? && e.modifying)
  {
    var all := events + [e];
    assert all[|events|] == e;
    if i :| 0 <= i < |events| && events[i].ToolCall? { assert all[i] == events[i]; }
    if i :| 0 <= i < |events| && events[i].ToolCall? && events[i].modifying { assert all[i] == events[i]; }
  }

  /** What a TURN_COMPLETE makes of the counters, before anything is decided. */
  lemma TalliedTold(prior: int, s: State, e: Event)
    requires GuardsTold(prior, s) && e.TurnComplete?
    ensures var g := Tallied(s.(seen := s.seen + [e]), e);
      && g.session.turns == TurnCount(prior, s.seen + [e])
      && (g.guards.noop >= 5 <==> Stalled(s.seen + [e]))
      && g.guards.streak == ReadOnlySteps(prior, s.seen + [e])
  {
    var seen := s.seen + [e];
    assert Init(seen) == s.seen && Last(seen) == e;
    TurnsOnly(s.seen);
    TurnsOnly(seen);
    var turns := Turns(seen);
    assert Init(turns) == Turns(s.seen) && Last(turns) == e;
    UnchangedAtLeast(turns, 5);
  }

  lemma TurnTold(prior: int, s: State, e: Event)
    requires GuardsTold(prior, s) && e.TurnComplete? && !Handled(s, e).1.Leave?
    ensures GuardsTold(prior, Handled(s, e).0)
  {
    var seen := s.seen + [e];
    assert Init(seen) == s.seen && Last(seen) == e;
    TurnsOnly(s.seen);
    TurnsOnly(seen);
    assert Init(Turns(seen)) == Turns(s.seen) && Last(Turns(seen)) == e;
    TalliedTold(prior, s, e);
    assert !Calls([]) && !Modifies([]);
  }

  lemma OtherTold(prior: int, s: State, e: Event)
    requires GuardsTold(prior, s) && !e.TurnComplete? && !Handled(s, e).1.Leave?
    ensures GuardsTold(prior, Handled(s, e).0)
  {
    var seen := s.seen + [e];
    assert Init(seen) == s.seen && Last(seen) == e;
    CallsSnoc(ThisTurn(s.seen), e);
    assert ThisTurn(seen) == ThisTurn(s.seen) + [e] && Turns(seen) == Turns(s.seen);
  }

  /** Commands and the watchdog touch neither the counters nor what was seen. */
  predicate SameCounters(a: State, b: State) {
    b.guards == a.guards && b.seen == a.seen && b.session.turns == a.session.turns && b.sent == a.sent && b.followUp == a.followUp
  }

  lemma {:induction false} DrainCounters(s: State, commands: seq<Command>)
    ensures SameCounters(s, Drained(s, commands).0)
    decreases |commands|
  {
    if commands != [] && !Ends(commands[0]) {
      DrainCounters(Apply(s, commands[0]), commands[1..]);
    }
  }

  lemma {:induction false} GateCounters(s: State, polls: seq<seq<Command>>)
    ensures SameCounters(s, Gated(s, polls).0)
    decreases |polls|
  {
    if s.session.paused && polls != [] {
      DrainCounters(s, polls[0]);
      GateCounters(Drained(s, polls[0]).0, polls[1..]);
    }
  }

  lemma EntryCounters(s: State, it: Iteration)
    ensures SameCounters(s, Entered(s, it).0)
  {
    DrainCounters(s, it.before);
    GateCounters(Drained(s, it.before).0, it.polls);
  }

  /** The state an iteration leaves differs from the handled one in nothing the counters see. */
  lemma IterationCounters(s: State, t: Option<Timeouts>, it: Iteration)
    requires Entered(s, it).1.Proceed?
    ensures var e := Entered(s, it).0;
      SameCounters(if it.event.None? then e else Handled(e, it.event.value).0, Iterated(s, t, it).0)
  {
    var e := Entered(s, it).0;
    var h := if it.event.None? then (e, Proceed) else Handled(e, it.event.value);
    DrainCounters(Watched(h.0, t, it.event, it.now).0, it.after);
  }

  lemma CountersStep(prior: int, s: State, t: Option<Timeouts>, it: Iteration)
    requires GuardsTold(prior, s) && !Iterated(s, t, it).1.Leave?
    ensures GuardsTold(prior, Iterated(s, t, it).0)
    ensures Iterated(s, t, it).0.seen == s.seen + (if it.event.Some? then [it.event.value] else [])
  {
    EntryNeverTimesOut(s, it);
    EntryCounters(s, it);
    IterationCounters(s, t, it);
    if it.event.Some? {
      var e := Entered(s, it).0;
      assert !Handled(e, it.event.value).1.Leave?;
      if it.event.value.TurnComplete? { TurnTold(prior, e, it.event.value); } else { OtherTold(prior, e, it.event.value); }
      HandledSeen(e, it.event.value);
    }
  }

  lemma {:induction false} CountersTold(session: Session, start: real, t: Option<Timeouts>, trace: seq<Iteration>, k: nat)
    requires k <= |trace| && Starts(Start(session, start), t, trace, k)
    ensures var s := StateAt(Start(session, start), t, trace, k);
      GuardsTold(session.turns, s) && s.seen == Events(trace[..k])
  {
    var s0 := Start(session, start);
    if k == 0 {
      assert trace[..0] == [] && !Calls([]) && !Modifies([]);
    } else {
      CountersTold(session, start, t, trace, k - 1);
      assert !FlowAt(s0, t, trace, k - 1).Leave?;
      CountersStep(session.turns, StateAt(s0, t, trace, k - 1), t, trace[k - 1]);
      assert trace[..k] == trace[..k - 1] + [trace[k - 1]];
      EventsSnoc(trace[..k - 1], trace[k - 1]);
    }
  }

  lemma {:induction false} EventsSnoc(trace: seq<Iteration>, it: Iteration)
    ensures Events(trace + [it]) == Events(trace) + (if it.event.Some? then [it.event.value] else [])
  {
    if trace == [] {
      assert [it][1..] == [];
      assert [] + [it] == [it];
    } else {
      EventsSnoc(trace[1..], it);
      assert (trace + [it])[1..] == trace[1..] + [it];
    }
  }

  // ---- The other exits ----

  /** A follow-up was sent and no SESSION_COMPLETE has come since. */
  ghost predicate AwaitsAnswer(s: State, t: Option<Timeouts>, trace: seq<Iteration>, k: nat)
    requires k <= |trace|
  {
    exists j :: 0 <= j < k && SentIn(s, t, trace, j) && forall i :: j < i < k ==> !Completes(trace[i])
  }

  ghost predicate SentIn(s: State, t: Option<Timeouts>, trace: seq<Iteration>, j: nat)
    requires j < |trace|
  {
    StateAt(s, t, trace, j + 1).sent != StateAt(s, t, trace, j).sent
  }

  predicate Completes(it: Iteration) {
    it.event.Some? && it.event.value.SessionComplete?
  }

  lemma {:induction false} FollowUpTold(session: Session, start: real, t: Option<Timeouts>, trace: seq<Iteration>, k: nat)
    requires k <= |trace| && Starts(Start(session, start), t, trace, k)
    ensures var s := Start(session, start); StateAt(s, t, trace, k).followUp <==> AwaitsAnswer(s, t, trace, k)
  {
    var s0 := Start(session, start);
    if k > 0 {
      FollowUpTold(session, start, t, trace, k - 1);
      var s, it := StateAt(s0, t, trace, k - 1), trace[k - 1];
      assert !FlowAt(s0, t, trace, k - 1).Leave?;
      EntryNeverTimesOut(s, it);
      EntryCounters(s, it);
      IterationCounters(s, t, it);
      AwaitsStep(s0, t, trace, k);
      assert s.sent + [s.session.pending] != s.sent;
      HandledSends(Entered(s, it).0, it);
    }
  }

  lemma HandledSends(s: State, it: Iteration)
    ensures it.event.Some? ==>
      var h := Handled(s, it.event.value).0;
      if it.event.value.SessionComplete? then h.sent == s.sent && (!Handled(s, it.event.value).1.Leave? ==> !h.followUp)
      else h.followUp <==> s.followUp || h.sent != s.sent
  {
    assert s.sent + [s.session.pending] != s.sent;
  }

  lemma AwaitsStep(s: State, t: Option<Timeouts>, trace: seq<Iteration>, k: nat)
    requires 0 < k <= |trace|
    ensures AwaitsAnswer(s, t, trace, k) <==>
      SentIn(s, t, trace, k - 1) || (AwaitsAnswer(s, t, trace, k - 1) && !Completes(trace[k - 1]))
  {
    if AwaitsAnswer(s, t, trace, k) && !SentIn(s, t, trace, k - 1) {
      var j :| 0 <= j < k && SentIn(s, t, trace, j) && forall i :: j < i < k ==> !Completes(trace[i]);
      assert j < k - 1;
    }
    if AwaitsAnswer(s, t, trace, k - 1) && !Completes(trace[k - 1]) {
      var j :| 0 <= j < k - 1 && SentIn(s, t, trace, j) && forall i :: j < i < k - 1 ==> !Completes(trace[i]);
    }
  }

  /** The exit an event brings about, told from the events up to it. */
  ghost predicate ExitFits(prior: int, seen: seq<Event>, awaits: bool, flow: Flow)
    requires seen != []
  {
    var e, looping := Last(seen), ReadOnlySteps(prior, seen) >= 8;
    && (flow == Leave(Noop) <==> e.TurnComplete? && Stalled(seen))
    && (flow == Leave(ReadOnly) <==> e.TurnComplete? && !Stalled(seen) && looping)
    && (flow == Leave(Inactive) <==> e.TurnComplete? && !Stalled(seen) && !looping && !e.active)
    && (flow == Leave(Terminal) <==> e.SessionComplete? && !awaits)
    && (flow == Skip <==> e.SessionComplete? && awaits)
  }

  lemma HandledExit(prior: int, s: State, e: Event)
    requires GuardsTold(prior, s)
    ensures ExitFits(prior, s.seen + [e], s.followUp, Handled(s, e).1)
    ensures Handled(s, e).1 in {Proceed, Skip, Leave(Noop), Leave(ReadOnly), Leave(Inactive), Leave(Terminal)}
  {
    if e.TurnComplete? { TalliedTold(prior, s, e); }
  }

  /**
   * The run ends as a no-op after five turns without a file change, as a read-only loop after eight
   * steps that only read, as inactive when the tracker says so, and as terminal on a SESSION_COMPLETE that
   * answers no follow-up; each exactly then.
   */
  lemma ExitsExact(session: Session, start: real, t: Option<Timeouts>, trace: seq<Iteration>, k: nat)
    requires var s := Start(session, start);
      k < |trace| && Starts(s, t, trace, k) && trace[k].event.Some? && Entered(StateAt(s, t, trace, k), trace[k]).1.Proceed?
    ensures var s := Start(session, start);
      Events(trace[..k + 1]) != [] && ExitFits(session.turns, Events(trace[..k + 1]), AwaitsAnswer(s, t, trace, k), FlowAt(s, t, trace, k))
  {
    var s0 := Start(session, start);
    var s, it := StateAt(s0, t, trace, k), trace[k];
    CountersTold(session, start, t, trace, k);
    FollowUpTold(session, start, t, trace, k);
    EntryCounters(s, it);
    HandledExit(session.turns, Entered(s, it).0, it.event.value);
    assert trace[..k + 1] == trace[..k] + [it];
    EventsSnoc(trace[..k], it);
    TailExits(Handled(Entered(s, it).0, it.event.value).0, t, it);
  }

  lemma TailExits(s: State, t: Option<Timeouts>, it: Iteration)
    ensures Tail(s, t, it).1.Proceed? || Tail(s, t, it).1 == Leave(Stopped) || (Tail(s, t, it).1.Leave? && Tail(s, t, it).1.exit.TimedOut?)
  {
  }

  /** At the end of a turn that goes on, everything pending is sent as one batch, if the backend takes it. */
  lemma TurnDelivers(s: State, e: Event)
    requires e.TurnComplete? && Handled(s, e).1 in {Proceed, Leave(Inactive)}
    ensures var d := Handled(s, e).0;
      if e.sendAccepted && s.session.pending != [] then d.sent == s.sent + [s.session.pending] && d.session.pending == []
      else d.sent == s.sent && d.session.pending == s.session.pending
  {
  }

  /** The gate: an event is handled only when the session is not paused and nothing stopped the run. */
  lemma EntryExact(s: State, it: Iteration)
    ensures var (g, flow) := Entered(s, it); var stopped := |g.log| > |s.log| && Ends(g.log[|g.log| - 1]);
      && (flow == Leave(Stopped) <==> stopped)
      && (flow == Leave(Held) <==> !stopped && g.session.paused)
      && (flow == Proceed <==> !stopped && !g.session.paused)
  {
    var d := Drained(s, it.before);
    DrainEnds(s, it.before);
    if !d.1 && d.0.session.paused {
      GateEnds(d.0, it.polls);
    }
  }

  lemma {:induction false} DrainEnds(s: State, commands: seq<Command>)
    ensures var (d, stop) := Drained(s, commands);
      && s.log <= d.log && (stop ==> |d.log| > |s.log| && Ends(d.log[|d.log| - 1]))
      && (!stop ==> forall i :: |s.log| <= i < |d.log| ==> !Ends(d.log[i]))
    decreases |commands|
  {
    if commands != [] && !Ends(commands[0]) {
      DrainEnds(Apply(s, commands[0]), commands[1..]);
    }
  }

  lemma {:induction false} GateEnds(s: State, polls: seq<seq<Command>>)
    ensures var (g, flow) := Gated(s, polls);
      && flow in {Proceed, Leave(Held), Leave(Stopped)} && s.log <= g.log
      && (flow == Leave(Stopped) ==> |g.log| > |s.log| && Ends(g.log[|g.log| - 1]))
      && (flow != Leave(Stopped) ==> (flow == Proceed <==> !g.session.paused) && forall i :: |s.log| <= i < |g.log| ==> !Ends(g.log[i]))
    decreases |polls|
  {
    if s.session.paused && polls != [] {
      DrainEnds(s, polls[0]);
      if !Drained(s, polls[0]).1 {
        GateEnds(Drained(s, polls[0]).0, polls[1..]);
      }
    }
  }

  /** After the watchdog the commands found are obeyed, and the run stops exactly when one of them ends it. */
  lemma AfterTaken(s: State, t: Option<Timeouts>, it: Iteration)
    requires Watches(s, it) && forall w :: Iterated(s, t, it).1 != Leave(TimedOut(w))
    ensures var taken := RunVerdict.Taken(it.after);
      && Iterated(s, t, it).0.log == Entered(s, it).0.log + taken
      && (Iterated(s, t, it).1 == Leave(Stopped) <==> taken != [] && Ends(Last(taken)))
      && (Iterated(s, t, it).1 == Proceed <==> !(taken != [] && Ends(Last(taken))))
  {
    var e := Entered(s, it).0;
    var h := if it.event.None? then (e, Proceed) else Handled(e, it.event.value);
    var w := Watched(h.0, t, it.event, it.now);
    assert w.1.Proceed? && w.0.log == e.log;
    DrainTakes(w.0, it.after);
    DrainEnds(w.0, it.after);
    TakenEnds(it.after);
  }

  lemma {:induction false} TakenEnds(commands: seq<Command>)
    ensures var taken := RunVerdict.Taken(commands);
      forall s :: Drained(s, commands).1 <==> taken != [] && Ends(Last(taken))
    decreases |commands|
  {
    if commands != [] && !Ends(commands[0]) {
      TakenEnds(commands[1..]);
      var rest := RunVerdict.Taken(commands[1..]);
      assert Last([commands[0]] + rest) == if rest == [] then commands[0] else Last(rest);
    }
  }

  /** What a timeout is recorded as, unless a frame overwrites it. */
  lemma TimeoutRecorded(session: Session, start: real, t: Timeouts, trace: seq<Iteration>)
    requires var end := Processed(Start(session, start), Some(t), trace);
      end.exit.TimedOut? && forall e :: e in end.state.seen ==> !e.SessionComplete?
    ensures var end := Processed(Start(session, start), Some(t), trace);
      var (w, reason) := (end.exit.watchdog, end.state.session.reason);
      && end.state.session.status == Failed
      && (w == Handshake ==> reason == Some("handshake_timeout"))
      && (w == FirstTurn ==> reason == Some("first_turn_timeout"))
      && (w == Inactivity ==> reason == Some("inactivity_timeout"))
      && (w == Total ==> reason == Some("total_timeout"))
      && (w == Idle ==> reason == Some("idle_watchdog_timeout"))
  {
    InterruptionStands(session, start, Some(t), trace);
  }

  // ---- The pause flag, from the commands ----

  /** Whether the session is paused after `log`: the last command to settle it does. */
  predicate Flag(paused: bool, log: seq<Command>) {
    if log == [] then paused
    else
      match Last(log)
      case Pause(true) => true
      case Resume(true) => false
      case Stop => false
      case _ => Flag(paused, Init(log))
  }

  predicate FlagTold(paused: bool, s: State) {
    s.session.paused == Flag(paused, s.log)
  }

  lemma FlagOnce(paused: bool, s: State, c: Command)
    requires FlagTold(paused, s)
    ensures FlagTold(paused, Apply(s, c))
  {
    assert Init(s.log + [c]) == s.log;
  }

  lemma {:induction false} FlagDrain(paused: bool, s: State, commands: seq<Command>)
    requires FlagTold(paused, s)
    ensures FlagTold(paused, Drained(s, commands).0)
    decreases |commands|
  {
    if commands != [] {
      FlagOnce(paused, s, commands[0]);
      if !Ends(commands[0]) { FlagDrain(paused, Apply(s, commands[0]), commands[1..]); }
    }
  }

  lemma {:induction false} FlagGate(paused: bool, s: State, polls: seq<seq<Command>>)
    requires FlagTold(paused, s)
    ensures FlagTold(paused, Gated(s, polls).0)
    decreases |polls|
  {
    if s.session.paused && polls != [] {
      FlagDrain(paused, s, polls[0]);
      FlagGate(paused, Drained(s, polls[0]).0, polls[1..]);
    }
  }

  lemma FlagStep(paused: bool, s: State, t: Option<Timeouts>, it: Iteration)
    requires FlagTold(paused, s)
    ensures FlagTold(paused, Iterated(s, t, it).0)
  {
    FlagDrain(paused, s, it.before);
    FlagGate(paused, Drained(s, it.before).0, it.polls);
    var e := Entered(s, it).0;
    var h := if it.event.None? then (e, Proceed) else Handled(e, it.event.value);
    HandledFlag(e, it);
    FlagDrain(paused, Watched(h.0, t, it.event, it.now).0, it.after);
  }

  lemma HandledFlag(s: State, it: Iteration)
    ensures it.event.Some? ==>
      Handled(s, it.event.value).0.session.paused == s.session.paused && Handled(s, it.event.value).0.log == s.log
  {
  }

  /** At every point of every run the session is paused exactly when the commands obeyed so far leave it so. */
  lemma {:induction false} PausedTold(session: Session, start: real, t: Option<Timeouts>, trace: seq<Iteration>, k: nat)
    requires k <= |trace|
    ensures FlagTold(session.paused, StateAt(Start(session, start), t, trace, k))
  {
    if k > 0 {
      PausedTold(session, start, t, trace, k - 1);
      FlagStep(session.paused, StateAt(Start(session, start), t, trace, k - 1), t, trace[k - 1]);
    }
  }

  // ---- Sessions that set no timeouts, or some ----

  const UNSET := Spec(None, None, None, None, None)

  predicate TimesOut(flow: Flow) {
    flow.Leave? && flow.exit.TimedOut?
  }

  ghost predicate AnyOut(r: Reading, t: Timeouts) {
    exists w :: RunOut(w, r, t)
  }

  lemma TimesOutWhenAny(session: Session, start: real, t: Timeouts, trace: seq<Iteration>, k: nat)
    requires var s := Start(session, start);
      k < |trace| && Starts(s, Some(t), trace, k) && Watches(StateAt(s, Some(t), trace, k), trace[k])
    ensures var s := Start(session, start);
      TimesOut(FlowAt(s, Some(t), trace, k)) <==> AnyOut(ReadingAt(s, start, Some(t), trace, k), t)
  {
    var s := Start(session, start);
    var flow, r := FlowAt(s, Some(t), trace, k), ReadingAt(s, start, Some(t), trace, k);
    if TimesOut(flow) {
      TimeoutExact(session, start, t, trace, k, flow.exit.watchdog);
    }
    if w :| RunOut(w, r, t) {
      TimeoutExact(session, start, t, trace, k, FirstOfAll(r, t, w));
    }
  }

  /** Without settings a silent backend has 30 seconds to say anything, 120 between events before its first turn ends
      and 300 after that, and a run half an hour. */
  predicate DefaultsOut(r: Reading) {
    || (!r.event && r.elapsed >= 30.0)
    || (r.event && r.gap >= if r.turn then 300.0 else 120.0)
    || r.elapsed >= 1800.0 || r.gap >= 1800.0
  }

  lemma DefaultsAre(r: Reading)
    ensures AnyOut(r, Resolve(UNSET)) <==> DefaultsOut(r)
  {
    var t := Resolve(UNSET);
    if DefaultsOut(r) {
      assert RunOut(Handshake, r, t) || RunOut(FirstTurn, r, t) || RunOut(Inactivity, r, t) || RunOut(Total, r, t) || RunOut(Idle, r, t);
    }
  }

  lemma DefaultTimeouts(session: Session, start: real, trace: seq<Iteration>, k: nat)
    requires var s, t := Start(session, start), Some(Resolve(UNSET));
      k < |trace| && Starts(s, t, trace, k) && Watches(StateAt(s, t, trace, k), trace[k])
    ensures var s, t := Start(session, start), Some(Resolve(UNSET));
      TimesOut(FlowAt(s, t, trace, k)) <==> DefaultsOut(ReadingAt(s, start, t, trace, k))
  {
    TimesOutWhenAny(session, start, Resolve(UNSET), trace, k);
    DefaultsAre(ReadingAt(Start(session, start), start, Some(Resolve(UNSET)), trace, k));
  }

  function FirstOfAll(r: Reading, t: Timeouts, ghost w: Watchdog): (first: Watchdog)
    requires RunOut(w, r, t)
    ensures FirstOut(first, r, t)
  {
    if RunOut(Handshake, r, t) then Handshake else if RunOut(FirstTurn, r, t) then FirstTurn
             else if RunOut(Inactivity, r, t) then Inactivity else if RunOut(Total, r, t) then Total else Idle
  }

  /** What a session sets is used, and the idle timeout left unset is the total. */
  lemma SettingsApply(spec: Spec, x: real)
    ensures var t := Resolve(spec);
      && (spec.total == Some(x) ==> t.total == x && (spec.idle.None? ==> t.idle == x))
      && (spec.handshake == Some(x) ==> t.handshake == x)
      && (spec.firstTurn == Some(x) ==> t.firstTurn == x)
      && (spec.inactivity == Some(x) ==> t.inactivity == x)
      && (spec.idle == Some(x) ==> t.idle == x)
  {
  }
}
