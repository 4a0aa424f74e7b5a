/** What the history of a run determines: its verdict, its token usage, its follow-ups. */
module RunVerdict {
  import opened Basics
  import opened TokenUsage
  import opened RunLoop

  function LastError(seen: seq<Event>): Option<string> {
    if seen == [] then None
    else if Last(seen).Error? then Some(Last(seen).message)
    else LastError(Init(seen))
  }

  /** The reason of the last SESSION_COMPLETE, as resolved against the errors before it. */
  function LastComplete(seen: seq<Event>): Option<string> {
    if seen == [] then None
    else if Last(seen).SessionComplete? then Some(Resolved(Last(seen).reason, LastError(Init(seen))))
    else LastComplete(Init(seen))
  }

  /** Tokens reported under `key` by every SESSION_COMPLETE seen. */
  function Usage(seen: seq<Event>, key: string): int {
    if seen == [] then 0
    else Usage(Init(seen), key) + (if Last(seen).SessionComplete? then Reported(Last(seen).usage, key) else 0)
  }

  function Payloads(log: seq<Command>): seq<string> {
    if log == [] then []
    else if Last(log).FollowUp? then Payloads(Init(log)) + [Last(log).payload]
    else Payloads(Init(log))
  }

  function Flat(batches: seq<seq<string>>): seq<string> {
    if batches == [] then [] else Flat(Init(batches)) + Last(batches)
  }

  function Events(trace: seq<Iteration>): seq<Event> {
    if trace == [] then []
    else (if trace[0].event.Some? then [trace[0].event.value] else []) + Events(trace[1..])
  }

  function OrderReason(c: Command): string {
    if c.Stop? then "operator_stop" else "operator_takeover"
  }

  /** Status and reason of a session nothing has closed, after the errors in `seen`. */
  function Standing(prior: Session, seen: seq<Event>): (Status, Option<string>) {
    if LastError(seen).Some? then (Failed, Some("backend_error")) else (prior.status, prior.reason)
  }

  /** The final verdict, read off the exit and the history alone. */
  function Verdict(prior: Session, exit: Exit, log: seq<Command>, seen: seq<Event>): (Status, Option<string>) {
    match LastComplete(seen)
    case Some(reason) =>
      var final := Resolved(reason, LastError(seen));
      (if Good(final) then Completed else Failed, Some(final))
    case None =>
      match exit
      case Stopped => (Failed, if log == [] then None else Some(OrderReason(Last(log))))
      case Noop => (Completed, Some("noop_detected"))
      case ReadOnly => (Failed, Some("read_only_loop"))
      case Inactive => (Completed, Standing(prior, seen).1)
      case TimedOut(w) => (Failed, Some(TimeoutReason(w)))
      case _ => Standing(prior, seen)
  }

  /** Everything the loop keeps in step with its history while it runs. */
  ghost predicate Accounted(prior: Session, s: State) {
    && s.error == LastError(s.seen)
    && Flat(s.sent) + s.session.pending == prior.pending + Payloads(s.log)
    && forall key :: Get(s.session.tokens, key) == Get(prior.tokens, key) + Usage(s.seen, key)
  }

  predicate Open(prior: Session, s: State) {
    s.stored == LastComplete(s.seen) && (s.session.status, s.session.reason) == Standing(prior, s.seen)
  }

  /** The state after an exit, before the stored frame is looked at. */
  predicate Shut(prior: Session, s: State, exit: Exit) {
    if exit.Terminal? then
      s.stored.None? && (s.session.status, s.session.reason) == Verdict(prior, exit, s.log, s.seen) && LastComplete(s.seen).Some?
    else
      && s.stored == LastComplete(s.seen)
      && (s.stored.None? ==> (s.session.status, s.session.reason) == Verdict(prior, exit, s.log, s.seen))
  }

  ghost predicate Reached(prior: Session, s: State, flow: Flow) {
    Accounted(prior, s) && if flow.Leave? then Shut(prior, s, flow.exit) else Open(prior, s)
  }

  lemma {:induction false} PayloadsAppend(a: seq<Command>, b: seq<Command>)
    ensures Payloads(a + b) == Payloads(a) + Payloads(b)
    decreases |b|
  {
    if b == [] {
      assert a + b == a;
    } else {
      assert Init(a + b) == a + Init(b);
      PayloadsAppend(a, Init(b));
    }
  }

  /** The effect of commands alone: some are logged, and only those that end the run close the session. */
  ghost predicate Commanded(s: State, d: State, stop: bool) {
    && d == s.(session := d.session, log := d.log, clock := d.clock)
    && d.session.tokens == s.session.tokens
    && s.log <= d.log
    && d.session.pending == s.session.pending + Payloads(d.log[|s.log|..])
    && if stop then
         d.log != [] && d.session.status == Failed && d.session.reason == Some(OrderReason(Last(d.log)))
       else
         d.session.status == s.session.status && d.session.reason == s.session.reason
  }

  lemma CommandedTrans(a: State, b: State, c: State, stop: bool)
    requires Commanded(a, b, false) && Commanded(b, c, stop)
    ensures Commanded(a, c, stop)
  {
    assert c.log[|a.log|..] == b.log[|a.log|..] + c.log[|b.log|..];
    PayloadsAppend(b.log[|a.log|..], c.log[|b.log|..]);
  }

  lemma CommandedOnce(s: State, c: Command)
    ensures Commanded(s, Apply(s, c), Ends(c))
  {
    var d := Apply(s, c);
    assert d.log[|s.log|..] == [c];
    assert Init([c]) == [];
    assert Payloads([c]) == if c.FollowUp? then [c.payload] else [];
  }

  lemma {:induction false} CommandedDrain(s: State, commands: seq<Command>)
    ensures Commanded(s, Drained(s, commands).0, Drained(s, commands).1)
    decreases |commands|
  {
    if commands == [] {
      assert s.log[|s.log|..] == [];
    } else {
      var d := Apply(s, commands[0]);
      CommandedOnce(s, commands[0]);
      if !Ends(commands[0]) {
        CommandedDrain(d, commands[1..]);
        CommandedTrans(s, d, Drained(s, commands).0, Drained(s, commands).1);
      }
    }
  }

  /** The commands a drain takes: all of them, or up to the first stop or takeover. */
  function Taken(commands: seq<Command>): seq<Command> {
    if commands == [] then []
    else if Ends(commands[0]) then [commands[0]]
    else [commands[0]] + Taken(commands[1..])
  }

  /** Every command a drain finds is obeyed, in order, until one ends the run. */
  lemma {:induction false} DrainTakes(s: State, commands: seq<Command>)
    ensures Drained(s, commands).0.log == s.log + Taken(commands)
    decreases |commands|
  {
    if commands == [] {
      assert s.log + [] == s.log;
    } else if !Ends(commands[0]) {
      DrainTakes(Apply(s, commands[0]), commands[1..]);
      assert s.log + [commands[0]] + Taken(commands[1..]) == s.log + ([commands[0]] + Taken(commands[1..]));
    }
  }

  lemma {:induction false} CommandedGate(s: State, polls: seq<seq<Command>>)
    ensures var g := Gated(s, polls); g.1 in {Proceed, Leave(Held), Leave(Stopped)} && Commanded(s, g.0, g.1 == Leave(Stopped))
    decreases |polls|
  {
    assert s.log[|s.log|..] == [];
    if s.session.paused && polls != [] {
      var d := Drained(s, polls[0]);
      CommandedDrain(s, polls[0]);
      if !d.1 {
        CommandedGate(d.0, polls[1..]);
        CommandedTrans(s, d.0, Gated(s, polls).0, Gated(s, polls).1 == Leave(Stopped));
      }
    }
  }

  lemma CommandedEntry(s: State, it: Iteration)
    ensures var e := Entered(s, it); e.1 in {Proceed, Leave(Held), Leave(Stopped)} && Commanded(s, e.0, e.1 == Leave(Stopped))
  {
    var d := Drained(s, it.before);
    CommandedDrain(s, it.before);
    if !d.1 && d.0.session.paused {
      CommandedGate(d.0, it.polls);
      var g := Gated(d.0, it.polls);
      CommandedTrans(s, d.0, g.0, g.1 == Leave(Stopped));
    }
  }

  lemma CommandedKeeps(prior: Session, s: State, d: State, stop: bool)
    requires Reached(prior, s, Proceed) && Commanded(s, d, stop)
    ensures Reached(prior, d, if stop then Leave(Stopped) else Proceed)
  {
    assert d.log == s.log + d.log[|s.log|..];
    PayloadsAppend(s.log, d.log[|s.log|..]);
    var more := Payloads(d.log[|s.log|..]);
    assert Flat(d.sent) + d.session.pending == (Flat(s.sent) + s.session.pending) + more;
    assert (prior.pending + Payloads(s.log)) + more == prior.pending + Payloads(d.log);
  }

  lemma SeenSnoc(seen: seq<Event>, e: Event)
    ensures LastError(seen + [e]) == if e.Error? then Some(e.message) else LastError(seen)
    ensures LastComplete(seen + [e]) == if e.SessionComplete? then Some(Resolved(e.reason, LastError(seen))) else LastComplete(seen)
    ensures forall key :: Usage(seen + [e], key) == Usage(seen, key) + (if e.SessionComplete? then Reported(e.usage, key) else 0)
  {
    assert Init(seen + [e]) == seen && Last(seen + [e]) == e;
  }

  lemma DeliveredKeeps(prior: Session, s: State, accepted: bool)
    requires Reached(prior, s, Proceed)
    ensures Reached(prior, Delivered(s, accepted), Proceed)
  {
    var batches := s.sent + [s.session.pending];
    assert Init(batches) == s.sent && Last(batches) == s.session.pending;
    assert Flat(batches) + [] == Flat(s.sent) + s.session.pending;
  }

  /** Counters and guards carry no part of the account. */
  lemma CountersKeep(prior: Session, s: State, turns: int, guards: Guards)
    requires Reached(prior, s, Proceed)
    ensures Reached(prior, s.(session := s.session.(turns := turns), guards := guards), Proceed)
  {
  }

  lemma ClosedKeeps(prior: Session, s: State, session: Session, exit: Exit)
    requires Reached(prior, s, Proceed) && !exit.Terminal?
    requires session == s.session.(status := session.status, reason := session.reason)
    requires LastComplete(s.seen).None? ==> (session.status, session.reason) == Verdict(prior, exit, s.log, s.seen)
    ensures Reached(prior, s.(session := session), Leave(exit))
  {
  }

  lemma TurnKeeps(prior: Session, s: State, e: Event)
    requires e.TurnComplete? && Reached(prior, s, Proceed)
    ensures Reached(prior, TurnEnded(s, e).0, TurnEnded(s, e).1)
  {
    var (d, flow) := TurnEnded(s, e);
    var n := Tallied(s, e);
    CountersKeep(prior, s, n.session.turns, n.guards);
    if flow == Leave(Noop) || flow == Leave(ReadOnly) {
      ClosedKeeps(prior, n, d.session, flow.exit);
    } else {
      CountersKeep(prior, n, n.session.turns, d.guards);
      DeliveredKeeps(prior, n.(guards := d.guards), e.sendAccepted);
      if flow.Leave? {
        ClosedKeeps(prior, Delivered(n.(guards := d.guards), e.sendAccepted), d.session, Inactive);
      }
    }
  }

  lemma SessionKeeps(prior: Session, s: State, seen: seq<Event>, e: Event)
    requires e.SessionComplete? && s.seen == seen + [e]
    requires Reached(prior, s.(seen := seen), Proceed)
    ensures Reached(prior, SessionEnded(s, e).0, SessionEnded(s, e).1)
  {
    SeenSnoc(seen, e);
    forall key {
      NormalizedGet(e.usage, key);
    }
  }

  lemma HandledKeeps(prior: Session, s: State, e: Event)
    requires Reached(prior, s, Proceed)
    ensures Reached(prior, Handled(s, e).0, Handled(s, e).1)
  {
    var n := s.(seen := s.seen + [e]);
    SeenSnoc(s.seen, e);
    if e.TurnComplete? {
      TurnKeeps(prior, n, e);
    } else if e.SessionComplete? {
      assert n.(seen := s.seen) == s;
      SessionKeeps(prior, n, s.seen, e);
    }
  }

  lemma WatchedKeeps(prior: Session, s: State, t: Option<Timeouts>, event: Option<Event>, now: real)
    requires Reached(prior, s, Proceed)
    ensures Reached(prior, Watched(s, t, event, now).0, Watched(s, t, event, now).1)
  {
  }

  lemma BodyKeeps(prior: Session, s: State, t: Option<Timeouts>, it: Iteration)
    requires Reached(prior, s, Proceed)
    ensures Reached(prior, Body(s, t, it).0, Body(s, t, it).1)
  {
    if it.event.Some? {
      HandledKeeps(prior, s, it.event.value);
    }
    var h := if it.event.None? then (s, Proceed) else Handled(s, it.event.value);
    if h.1.Proceed? {
      WatchedKeeps(prior, h.0, t, it.event, it.now);
      var w := Watched(h.0, t, it.event, it.now);
      CommandedDrain(w.0, it.after);
      if !w.1.Leave? {
        CommandedKeeps(prior, w.0, Drained(w.0, it.after).0, Drained(w.0, it.after).1);
      }
    }
  }

  lemma {:induction false} LoopKeeps(prior: Session, s: State, t: Option<Timeouts>, trace: seq<Iteration>)
    requires Reached(prior, s, Proceed)
    ensures var end := Looped(s, t, trace); Reached(prior, end.state, Leave(end.exit))
    decreases |trace|
  {
    if trace != [] {
      var e := Entered(s, trace[0]);
      CommandedEntry(s, trace[0]);
      CommandedKeeps(prior, s, e.0, e.1 == Leave(Stopped));
      if e.1.Proceed? {
        BodyKeeps(prior, e.0, t, trace[0]);
        var b := Body(e.0, t, trace[0]);
        if !b.1.Leave? {
          LoopKeeps(prior, b.0, t, trace[1..]);
        }
      }
    }
  }

  /** Exact verdict: every run that ends has the status and reason its history dictates. */
  lemma FinalVerdict(session: Session, start: real, t: Option<Timeouts>, trace: seq<Iteration>)
    requires !Processed(Start(session, start), t, trace).exit.Held?
    ensures var end := Processed(Start(session, start), t, trace);
      (end.state.session.status, end.state.session.reason) == Verdict(session, end.exit, end.state.log, end.state.seen)
    ensures var end := Processed(Start(session, start), t, trace);
      end.exit.Terminal? ==> exists e :: e in end.state.seen && e.SessionComplete?
  {
    StartReached(session, start);
    LoopKeeps(session, Start(session, start), t, trace);
    CompleteSeen(Looped(Start(session, start), t, trace).state.seen);
  }

  lemma StartReached(session: Session, start: real)
    ensures Reached(session, Start(session, start), Proceed)
  {
    assert Flat([]) + session.pending == session.pending + Payloads([]);
  }

  lemma {:induction false} CompleteSeen(seen: seq<Event>)
    ensures LastComplete(seen).Some? <==> exists e :: e in seen && e.SessionComplete?
  {
    if seen != [] {
      assert seen == Init(seen) + [Last(seen)];
      CompleteSeen(Init(seen));
    }
  }

  /** Each consumed SESSION_COMPLETE is counted once, reprocessed or not. */
  lemma TokensConserved(session: Session, start: real, t: Option<Timeouts>, trace: seq<Iteration>, key: string)
    ensures var end := Processed(Start(session, start), t, trace).state;
      Get(end.session.tokens, key) == Get(session.tokens, key) + Usage(end.seen, key)
  {
    StartReached(session, start);
    LoopKeeps(session, Start(session, start), t, trace);
  }

  /** Delivered batches, then what still waits, are exactly the payloads drained, in order. */
  lemma FollowUpsConserved(session: Session, start: real, t: Option<Timeouts>, trace: seq<Iteration>)
    ensures var end := Processed(Start(session, start), t, trace).state;
      Flat(end.sent) + end.session.pending == session.pending + Payloads(end.log)
  {
    StartReached(session, start);
    LoopKeeps(session, Start(session, start), t, trace);
  }

  /** An operator stop or a timeout has the last word if and only if no SESSION_COMPLETE was consumed. */
  lemma InterruptionStands(session: Session, start: real, t: Option<Timeouts>, trace: seq<Iteration>)
    requires var exit := Processed(Start(session, start), t, trace).exit; exit.Stopped? || exit.TimedOut?
    ensures var end := Processed(Start(session, start), t, trace); var s := end.state;
      if exists e :: e in s.seen && e.SessionComplete? then
        LastComplete(s.seen).Some? && s.session.reason == Some(Resolved(LastComplete(s.seen).value, LastError(s.seen)))
      else
        && s.session.status == Failed
        && (end.exit.TimedOut? ==> s.session.reason == Some(TimeoutReason(end.exit.watchdog)))
        && (end.exit.Stopped? ==> s.session.reason in {Some("operator_stop"), Some("operator_takeover")})
  {
    FinalVerdict(session, start, t, trace);
    StartReached(session, start);
    LoopKeeps(session, Start(session, start), t, trace);
    StopLogged(Start(session, start), t, trace);
    CompleteSeen(Looped(Start(session, start), t, trace).state.seen);
  }

  lemma {:induction false} StopLogged(s: State, t: Option<Timeouts>, trace: seq<Iteration>)
    ensures Looped(s, t, trace).exit.Stopped? ==> Looped(s, t, trace).state.log != []
    decreases |trace|
  {
    if trace != [] {
      var it := trace[0];
      CommandedEntry(s, it);
      var e := Entered(s, it);
      TailFrame(if it.event.None? then e.0 else Handled(e.0, it.event.value).0, t, it);
      if !Iterated(s, t, it).1.Leave? {
        StopLogged(Iterated(s, t, it).0, t, trace[1..]);
      }
    }
  }

  /** Once the last ERROR is non-empty, only the no-op and inactive exits still complete the run. */
  lemma CompletedDespiteError(session: Session, start: real, t: Option<Timeouts>, trace: seq<Iteration>)
    requires !Processed(Start(session, start), t, trace).exit.Held?
    requires Fatal(LastError(Processed(Start(session, start), t, trace).state.seen))
    ensures var end := Processed(Start(session, start), t, trace);
      end.state.session.status == Completed <==>
        (end.exit.Noop? || end.exit.Inactive?) && !(exists e :: e in end.state.seen && e.SessionComplete?)
  {
    FinalVerdict(session, start, t, trace);
    CompleteSeen(Looped(Start(session, start), t, trace).state.seen);
  }

  lemma CompletedByFrame(session: Session, start: real, t: Option<Timeouts>, trace: seq<Iteration>, k: nat)
    requires !Processed(Start(session, start), t, trace).exit.Held?
    requires var seen := Processed(Start(session, start), t, trace).state.seen;
      && k < |seen| && seen[k].SessionComplete?
      && forall j :: k < j < |seen| ==> !seen[j].SessionComplete?
    ensures var end := Processed(Start(session, start), t, trace); var seen := end.state.seen;
      end.state.session.status == Completed <==>
        Good(seen[k].reason) && !Fatal(LastError(seen[..k])) && !Fatal(LastError(seen))
  {
    FinalVerdict(session, start, t, trace);
    LastCompleteAt(Processed(Start(session, start), t, trace).state.seen, k);
  }

  /** There was no ERROR, or the last had an empty message. */
  predicate NoFatalError(seen: seq<Event>) {
    LastError(seen).None? || LastError(seen).value == ""
  }

  /** A SESSION_COMPLETE completes the run exactly when its reason is good and no error masks it, then or at the end. */
  lemma CompletedBySession(session: Session, start: real, t: Option<Timeouts>, trace: seq<Iteration>, k: nat)
    requires !Processed(Start(session, start), t, trace).exit.Held?
    requires var seen := Processed(Start(session, start), t, trace).state.seen;
      && k < |seen| && seen[k].SessionComplete?
      && forall j :: k < j < |seen| ==> !seen[j].SessionComplete?
    ensures var end := Processed(Start(session, start), t, trace); var seen := end.state.seen;
      end.state.session.status == Completed <==>
        (seen[k].reason == "success" || seen[k].reason == "turn_complete") && NoFatalError(seen[..k]) && NoFatalError(seen)
  {
    CompletedByFrame(session, start, t, trace, k);
  }

  lemma {:induction false} LastCompleteAt(seen: seq<Event>, k: nat)
    requires k < |seen| && seen[k].SessionComplete?
    requires forall j :: k < j < |seen| ==> !seen[j].SessionComplete?
    ensures LastComplete(seen) == Some(Resolved(seen[k].reason, LastError(seen[..k])))
  {
    if k == |seen| - 1 {
      assert Init(seen) == seen[..k];
    } else {
      LastCompleteAt(Init(seen), k);
      assert Init(seen)[..k] == seen[..k];
    }
  }

  function Quick(event: Option<Event>, now: real): Iteration {
    Iteration(event, [], [], 0.0, now, [])
  }

  /** An ERROR with an empty message hides the fatal one before it: the run completes. */
  lemma EmptyErrorMasksFatal(session: Session)
    requires !session.paused
    ensures var end := Processed(Start(session, 0.0), None,
        [Quick(Some(Error("boom")), 1.0), Quick(Some(Error("")), 2.0), Quick(Some(SessionComplete("success", [])), 3.0)]);
      end.exit == Terminal && end.state.session.status == Completed
  {
    var a, b, c := Quick(Some(Error("boom")), 1.0), Quick(Some(Error("")), 2.0), Quick(Some(SessionComplete("success", [])), 3.0);
    var s := Start(session, 0.0);
    var s1 := Iterated(s, None, a).0;
    var s2 := Iterated(s1, None, b).0;
    assert [a, b, c][1..] == [b, c] && [b, c][1..] == [c];
    assert Iterated(s2, None, c).1 == Leave(Terminal);
    assert Looped(s, None, [a, b, c]) == Looped(s1, None, [b, c]) == Looped(s2, None, [c]);
  }

  /** A stop after an intermediate SESSION_COMPLETE is overwritten: the stopped run is reported completed. */
  lemma StopIsOverwritten(session: Session)
    requires !session.paused && session.pending != []
    ensures var end := Processed(Start(session, 0.0), None,
        [Quick(Some(TurnComplete(1, true, true, true, true)), 1.0), Quick(Some(SessionComplete("success", [])), 2.0),
         Quick(None, 3.0).(before := [Stop])]);
      end.exit == Stopped && end.state.session.status == Completed && end.state.session.reason == Some("success")
  {
    var a, b := Quick(Some(TurnComplete(1, true, true, true, true)), 1.0), Quick(Some(SessionComplete("success", [])), 2.0);
    var c := Quick(None, 3.0).(before := [Stop]);
    var s := Start(session, 0.0);
    var s1 := Iterated(s, None, a).0;
    var s2 := Iterated(s1, None, b).0;
    assert s1.followUp && Iterated(s, None, a).1 == Proceed;
    assert s2.stored == Some("success") && Iterated(s1, None, b).1 == Skip;
    assert Iterated(s2, None, c).1 == Leave(Stopped);
    assert [a, b, c][1..] == [b, c] && [b, c][1..] == [c];
    assert Looped(s, None, [a, b, c]) == Looped(s1, None, [b, c]) == Looped(s2, None, [c]);
  }

  lemma HandledSeen(s: State, e: Event)
    ensures Handled(s, e).0.seen == s.seen + [e]
  {
  }

  lemma TailFrame(s: State, t: Option<Timeouts>, it: Iteration)
    ensures var (d, flow) := Tail(s, t, it); d.seen == s.seen && !flow.Skip? && (flow == Leave(Stopped) ==> d.log != [])
  {
    CommandedDrain(Watched(s, t, it.event, it.now).0, it.after);
  }

  lemma SeenOnce(s: State, t: Option<Timeouts>, it: Iteration)
    ensures var (d, flow) := Iterated(s, t, it);
      || d.seen == s.seen + Events([it])
      || (d.seen == s.seen && (flow == Leave(Stopped) || flow == Leave(Held)))
  {
    CommandedEntry(s, it);
    var e := Entered(s, it).0;
    if it.event.Some? {
      HandledSeen(e, it.event.value);
    }
    TailFrame(if it.event.None? then e else Handled(e, it.event.value).0, t, it);
    assert [it][1..] == [];
  }

  /**
   * The loop handles the events of the iterations it starts, each once and in order; only an
   * iteration stopped or held at its entry leaves its event unhandled.
   */
  lemma {:induction false} EventsInOrder(s: State, t: Option<Timeouts>, trace: seq<Iteration>)
    ensures var end := Looped(s, t, trace);
      && |end.left| <= |trace| && trace[|trace| - |end.left|..] == end.left
      && Followed(s.seen, end, trace[..|trace| - |end.left|])
    decreases |trace|
  {
    if trace == [] {
      assert trace[..0] == [];
    } else {
      var (d, flow) := Iterated(s, t, trace[0]);
      var end := Looped(s, t, trace);
      var n := |trace| - |end.left|;
      SeenOnce(s, t, trace[0]);
      if flow.Leave? {
        assert trace[..1] == [trace[0]] && trace[..1][..0] == [];
      } else {
        EventsInOrder(d, t, trace[1..]);
        assert trace[..n] == [trace[0]] + trace[1..][..n - 1];
        FollowedCons(s.seen, end, trace[0], trace[1..][..n - 1]);
      }
    }
  }

  predicate Followed(seen: seq<Event>, end: End, started: seq<Iteration>) {
    || end.state.seen == seen + Events(started)
    || (started != [] && (end.exit.Stopped? || end.exit.Held?) && end.state.seen == seen + Events(Init(started)))
  }

  lemma EventsCons(it: Iteration, rest: seq<Iteration>)
    ensures Events([it] + rest) == Events([it]) + Events(rest)
  {
    assert ([it] + rest)[1..] == rest && [it][1..] == [];
  }

  lemma FollowedCons(seen: seq<Event>, end: End, it: Iteration, rest: seq<Iteration>)
    requires Followed(seen + Events([it]), end, rest)
    ensures Followed(seen, end, [it] + rest)
  {
    EventsCons(it, rest);
    if rest != [] {
      assert Init([it] + rest) == [it] + Init(rest);
      EventsCons(it, Init(rest));
    }
  }
}
