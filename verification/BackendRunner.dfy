/** The run loop as it executes: fields updated in place, proved equal to the functions of RunLoop. */
module BackendRunner {
  import opened Basics
  import opened TokenUsage
  import opened RunLoop

  class Runner {
    // The session.
    var status: Status
    var reason: Option<string>
    var turns: int
    var tokens: map<string, int>
    var pending: seq<string>
    var paused: bool
    // The loop's variables.
    var clock: Clock
    var guards: Guards
    var error: Option<string>
    var followUp: bool
    var stored: Option<string>
    // What has happened.
    ghost var sent: seq<seq<string>>
    ghost var log: seq<Command>
    ghost var seen: seq<Event>

    ghost function View(): State
      reads this
    {
      State(Session(status, reason, turns, tokens, pending, paused), clock, guards, error, followUp, stored, sent, log, seen)
    }

    constructor (session: Session, now: real)
      ensures View() == Start(session, now)
    {
      status, reason, turns, tokens, pending, paused :=
        session.status, session.reason, session.turns, session.tokens, session.pending, session.paused;
      clock := Clock(now, now, false, false);
      guards := Guards(0, 0, false, false);
      error, followUp, stored := None, false, None;
      sent, log, seen := [], [], [];
    }

    method Obey(c: Command)
      modifies this
      ensures View() == Apply(old(View()), c)
    {
      log := log + [c];
      match c
      case Pause(accepted) => if accepted { paused := true; }
      case Resume(accepted) => if accepted { paused := false; }
      case Stop => paused, status, reason := false, Failed, Some("operator_stop");
      case Takeover => status, reason := Failed, Some("operator_takeover");
      case FollowUp(payload) => pending := pending + [payload];
      case OtherCommand =>
    }

    method Drain(commands: seq<Command>) returns (stop: bool)
      modifies this
      ensures (View(), stop) == Drained(old(View()), commands)
    {
      var i := 0;
      while i < |commands|
        invariant 0 <= i <= |commands|
        invariant Drained(View(), commands[i..]) == Drained(old(View()), commands)
      {
        Obey(commands[i]);
        if commands[i].Stop? || commands[i].Takeover? {
          return true;
        }
        i := i + 1;
      }
      return false;
    }

    /** Holds the event until a resume; `Leave(Held)` when the trace of polls ends first. */
    method PauseGate(polls: seq<seq<Command>>) returns (flow: Flow)
      modifies this
      ensures (View(), flow) == Gated(old(View()), polls)
    {
      var i := 0;
      while paused
        invariant 0 <= i <= |polls|
        invariant Gated(View(), polls[i..]) == Gated(old(View()), polls)
        decreases |polls| - i
      {
        if i == |polls| {
          return Leave(Held);
        }
        assert polls[i..][1..] == polls[i + 1..];
        var stop := Drain(polls[i]);
        if stop {
          return Leave(Stopped);
        }
        i := i + 1;
      }
      return Proceed;
    }

    method Enter(it: Iteration) returns (flow: Flow)
      modifies this
      ensures (View(), flow) == Entered(old(View()), it)
    {
      var stop := Drain(it.before);
      if stop {
        return Leave(Stopped);
      }
      flow := Proceed;
      if paused {
        flow := PauseGate(it.polls);
        clock := clock.(runStart := clock.runStart + it.pausedFor, lastEvent := clock.lastEvent + it.pausedFor);
      }
    }

    method Tally(e: Event)
      requires e.TurnComplete?
      modifies this
      ensures View() == Tallied(old(View()), e)
    {
      turns := if turns + 1 >= e.reported then turns + 1 else e.reported;
      var noop := if e.fileChanged then 0 else guards.noop + 1;
      var streak := if turns > 1 && guards.tools && !guards.modifying && !e.dirty then guards.streak + 1 else 0;
      guards := Guards(noop, streak, guards.tools, guards.modifying);
    }

    method Deliver(accepted: bool)
      modifies this
      ensures View() == Delivered(old(View()), accepted)
    {
      if pending != [] && accepted {
        sent := sent + [pending];
        pending, followUp := [], true;
      }
    }

    method CompleteTurn(e: Event) returns (flow: Flow)
      requires e.TurnComplete?
      modifies this
      ensures (View(), flow) == TurnEnded(old(View()), e)
    {
      Tally(e);
      if guards.noop >= NOOP_LIMIT {
        status, reason := Completed, Some("noop_detected");
        return Leave(Noop);
      }
      if guards.streak >= READ_ONLY_LIMIT {
        status, reason := Failed, Some("read_only_loop");
        return Leave(ReadOnly);
      }
      guards := guards.(tools := false, modifying := false);
      Deliver(e.sendAccepted);
      if !e.active {
        status := Completed;
        return Leave(Inactive);
      }
      return Proceed;
    }

    method Judge(final: string)
      modifies this
      ensures View() == old(View()).(session := Judged(old(View()).session, final), stored := None)
    {
      status, reason, stored := if Good(final) then Completed else Failed, Some(final), None;
    }

    method CompleteSession(e: Event) returns (flow: Flow)
      requires e.SessionComplete?
      modifies this
      ensures (View(), flow) == SessionEnded(old(View()), e)
    {
      var final := Resolved(e.reason, error);
      if e.usage != [] {
        var canonical := Normalize(e.usage);
        tokens := Merge(tokens, canonical);
      }
      if followUp {
        followUp, stored := false, Some(final);
        return Skip;
      }
      Judge(final);
      return Leave(Terminal);
    }

    method Handle(e: Event) returns (flow: Flow)
      modifies this
      ensures (View(), flow) == Handled(old(View()), e)
    {
      seen := seen + [e];
      flow := Proceed;
      match e
      case ToolCall(writes) =>
        guards := guards.(tools := true, modifying := guards.modifying || writes);
      case ToolResult =>
        guards := guards.(streak := if guards.tools && !guards.modifying then guards.streak + 1 else 0);
      case TurnComplete(_, _, _, _, _) =>
        flow := CompleteTurn(e);
      case SessionComplete(_, _) =>
        flow := CompleteSession(e);
      case Error(message) =>
        error, status, reason := Some(message), Failed, Some("backend_error");
      case OtherEvent =>
    }

    method Watch(t: Option<Timeouts>, event: Option<Event>, now: real) returns (flow: Flow)
      modifies this
      ensures (View(), flow) == Watched(old(View()), t, event, now)
    {
      if event.Some? {
        clock := clock.(handshake := true, lastEvent := now, firstTurn := clock.firstTurn || event.value.TurnComplete?);
      }
      var expired := Expired(clock, t, now);
      if expired.None? {
        return Proceed;
      }
      status, reason := Failed, Some(TimeoutReason(expired.value));
      return Leave(TimedOut(expired.value));
    }

    method Iterate(t: Option<Timeouts>, it: Iteration) returns (flow: Flow)
      modifies this
      ensures (View(), flow) == Iterated(old(View()), t, it)
    {
      flow := Enter(it);
      if flow.Leave? {
        return;
      }
      flow := Proceed;
      if it.event.Some? {
        flow := Handle(it.event.value);
      }
      if flow.Proceed? {
        flow := Watch(t, it.event, it.now);
        if flow.Proceed? {
          var stop := Drain(it.after);
          flow := if stop then Leave(Stopped) else Proceed;
        }
      }
    }

    /** The whole run over a finite trace; `left` is what it never started. */
    method ProcessEvents(t: Option<Timeouts>, trace: seq<Iteration>) returns (exit: Exit, left: seq<Iteration>)
      modifies this
      ensures End(View(), exit, left) == Processed(old(View()), t, trace)
    {
      exit := StreamEnd;
      left := trace;
      var running := true;
      while left != [] && running
        invariant running ==> exit == StreamEnd && Looped(View(), t, left) == Looped(old(View()), t, trace)
        invariant !running ==> End(View(), exit, left) == Looped(old(View()), t, trace)
        decreases |left|
      {
        var it := left[0];
        left := left[1..];
        var flow := Iterate(t, it);
        if flow.Leave? {
          running, exit := false, flow.exit;
        }
      }
      if !exit.Held? && stored.Some? {
        Judge(Resolved(stored.value, error));
      }
    }
  }
}
