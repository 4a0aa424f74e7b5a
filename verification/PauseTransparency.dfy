/**
 * Pausing is transparent: a run with operator pauses ends like the run whose clock omits the paused
 * spans.
 */
module PauseTransparency {
  import opened Basics
  import opened RunLoop

  function PausedAfter(paused: bool, commands: seq<Command>): bool
    decreases |commands|
  {
    if commands == [] then paused
    else
      var c := commands[0];
      PausedAfter(if c == Pause(true) then true else if c == Resume(true) || c.Stop? then false else paused, commands[1..])
  }

  predicate Stops(commands: seq<Command>) {
    exists c :: c in commands && Ends(c)
  }

  /** The commands without the pauses and resumes. */
  function Quiet(commands: seq<Command>): seq<Command> {
    if commands == [] then []
    else
      var c, rest := commands[0], Quiet(commands[1..]);
      if Switch(c) then rest else [c] + rest
  }

  predicate Switch(c: Command) {
    c.Pause? || c.Resume?
  }

  lemma {:induction false} QuietSnoc(commands: seq<Command>, c: Command)
    ensures Quiet(commands + [c]) == if Switch(c) then Quiet(commands) else Quiet(commands) + [c]
  {
    if commands == [] {
      assert commands + [c] == [c];
    } else {
      assert (commands + [c])[1..] == commands[1..] + [c];
      QuietSnoc(commands[1..], c);
    }
  }

  /** The commands the gate takes in before it opens. */
  function AtGate(paused: bool, polls: seq<seq<Command>>): seq<Command>
    decreases |polls|
  {
    if !paused || polls == [] then []
    else if Stops(polls[0]) then polls[0]
    else polls[0] + AtGate(PausedAfter(paused, polls[0]), polls[1..])
  }

  function Skipped(it: Iteration, paused: bool, skipped: real): real {
    if PausedAfter(paused, it.before) then skipped + it.pausedFor else skipped
  }

  /** All the commands an iteration takes in before its event. */
  function Opening(it: Iteration, paused: bool): seq<Command> {
    it.before + AtGate(PausedAfter(paused, it.before), it.polls)
  }

  /** A SESSION_COMPLETE iteration never reaches the second drain. */
  function Closing(it: Iteration): seq<Command> {
    if it.event.Some? && it.event.value.SessionComplete? then [] else it.after
  }

  function Calm(it: Iteration, paused: bool, skipped: real): Iteration {
    Iteration(it.event, Quiet(Opening(it, paused)), [], 0.0, it.now - Skipped(it, paused, skipped), Quiet(Closing(it)))
  }

  /**
   * The same run with the paused spans cut out of the clock: no pause or resume is ever sent, what
   * the operator sent during a pause arrives when it ends, and every reading is `skipped` earlier.
   */
  function Unpaused(trace: seq<Iteration>, paused: bool, skipped: real): seq<Iteration>
    decreases |trace|
  {
    if trace == [] then []
    else
      [Calm(trace[0], paused, skipped)]
      + Unpaused(trace[1..], PausedAfter(PausedAfter(paused, Opening(trace[0], paused)), Closing(trace[0])),
                 Skipped(trace[0], paused, skipped))
  }

  function Unshifted(c: Clock, skipped: real): Clock {
    c.(runStart := c.runStart - skipped, lastEvent := c.lastEvent - skipped)
  }

  function Retimed(s: State, skipped: real, log: seq<Command>): State {
    s.(session := s.session.(paused := false), clock := Unshifted(s.clock, skipped), log := log)
  }

  /** `s` as the run without pauses has it: same session, clock behind by `skipped`. */
  function Clean(s: State, skipped: real): State {
    Retimed(s, skipped, Quiet(s.log))
  }

  /** What both runs share: everything but the clock, the pause flag and the pause commands. */
  function Face(s: State): State {
    s.(session := s.session.(paused := false), clock := Clock(0.0, 0.0, false, false), log := Quiet(s.log))
  }

  lemma ApplyClean(s: State, c: Command, skipped: real)
    ensures Clean(Apply(s, c), skipped) == if Switch(c) then Clean(s, skipped) else Apply(Clean(s, skipped), c)
  {
    QuietSnoc(s.log, c);
  }

  lemma {:induction false} DrainPauses(s: State, commands: seq<Command>)
    ensures Drained(s, commands).1 == Stops(commands)
    ensures !Stops(commands) ==> Drained(s, commands).0.session.paused == PausedAfter(s.session.paused, commands)
    decreases |commands|
  {
    if commands != [] && !Ends(commands[0]) {
      assert commands == [commands[0]] + commands[1..];
      DrainPauses(Apply(s, commands[0]), commands[1..]);
    }
  }

  lemma {:induction false} DrainClean(s: State, commands: seq<Command>, skipped: real)
    ensures Drained(Clean(s, skipped), Quiet(commands))
         == (Clean(Drained(s, commands).0, skipped), Drained(s, commands).1)
    decreases |commands|
  {
    if commands != [] {
      var c, rest := commands[0], Quiet(commands[1..]);
      ApplyClean(s, c, skipped);
      if !Ends(c) {
        DrainClean(Apply(s, c), commands[1..], skipped);
      }
      assert !Switch(c) ==> ([c] + rest)[1..] == rest;
    }
  }

  lemma {:induction false} DrainAppend(s: State, a: seq<Command>, b: seq<Command>)
    ensures Drained(s, a + b) == if Drained(s, a).1 then Drained(s, a) else Drained(Drained(s, a).0, b)
    decreases |a|
  {
    if a == [] {
      assert a + b == b;
    } else {
      assert (a + b)[1..] == a[1..] + b;
      if !Ends(a[0]) {
        DrainAppend(Apply(s, a[0]), a[1..], b);
      }
    }
  }

  lemma {:induction false} GateIsADrain(s: State, polls: seq<seq<Command>>)
    ensures var g := Gated(s, polls);
      g.1 != Leave(Held) ==> Drained(s, AtGate(s.session.paused, polls)) == (g.0, g.1.Leave?)
    ensures Gated(s, polls).1 in {Proceed, Leave(Held), Leave(Stopped)}
    decreases |polls|
  {
    if s.session.paused && polls != [] {
      var d := Drained(s, polls[0]);
      DrainPauses(s, polls[0]);
      if !d.1 {
        GateIsADrain(d.0, polls[1..]);
        DrainAppend(s, polls[0], AtGate(d.0.session.paused, polls[1..]));
      }
    }
  }

  lemma {:induction false} QuietTwice(commands: seq<Command>)
    ensures Quiet(Quiet(commands)) == Quiet(commands)
  {
    if commands != [] {
      QuietTwice(commands[1..]);
    }
  }

  lemma FaceClean(s: State, skipped: real)
    ensures Face(Clean(s, skipped)) == Face(s)
  {
    QuietTwice(s.log);
  }

  /** Entering: the drain and the gate of the real iteration are one drain of the calm one. */
  lemma EnteredOnce(s: State, it: Iteration)
    ensures var e := Entered(s, it); var d := Drained(s, Opening(it, s.session.paused));
      e.1 != Leave(Held) ==>
        && d.1 == e.1.Leave?
        && (d.1 ==> e.1 == Leave(Stopped) && Face(d.0) == Face(e.0))
        && (!d.1 ==> e.1 == Proceed && e.0 == d.0.(clock := Shifted(d.0.clock, Skipped(it, s.session.paused, 0.0))))
  {
    var d := Drained(s, it.before);
    DrainPauses(s, it.before);
    DrainAppend(s, it.before, AtGate(PausedAfter(s.session.paused, it.before), it.polls));
    if !d.1 {
      GateIsADrain(d.0, it.polls);
    }
  }

  lemma EnteredClean(s: State, it: Iteration, skipped: real)
    requires Entered(s, it).1 != Leave(Held)
    ensures var e := Entered(s, it); var paused := s.session.paused;
      var q := Entered(Clean(s, skipped), Calm(it, paused, skipped));
      && q.1 == e.1
      && Face(q.0) == Face(e.0)
      && (e.1.Proceed? ==>
        q.0 == Clean(e.0, Skipped(it, paused, skipped)) && e.0.session.paused == PausedAfter(paused, Opening(it, paused)))
  {
    var commands := Opening(it, s.session.paused);
    var d := Drained(s, commands);
    EnteredOnce(s, it);
    DrainClean(s, commands, skipped);
    DrainPauses(s, commands);
    FaceClean(d.0, skipped);
    if !d.1 {
      var e := Entered(s, it);
      assert Clean(e.0, Skipped(it, s.session.paused, skipped)) == Clean(d.0, skipped);
      assert Face(e.0) == Face(d.0);
    }
  }

  lemma DeliveredClean(s: State, accepted: bool, skipped: real)
    ensures Delivered(Clean(s, skipped), accepted) == Clean(Delivered(s, accepted), skipped)
    ensures Delivered(s, accepted).session.paused == s.session.paused
  {
  }

  lemma TalliedClean(s: State, e: Event, skipped: real)
    requires e.TurnComplete?
    ensures Tallied(Clean(s, skipped), e) == Clean(Tallied(s, e), skipped)
  {
  }

  lemma TurnEndedClean(s: State, e: Event, skipped: real)
    requires e.TurnComplete?
    ensures TurnEnded(Clean(s, skipped), e) == (Clean(TurnEnded(s, e).0, skipped), TurnEnded(s, e).1)
    ensures TurnEnded(s, e).0.session.paused == s.session.paused
  {
    var d := Tallied(s, e);
    TalliedClean(s, e, skipped);
    DeliveredClean(d.(guards := d.guards.(tools := false, modifying := false)), e.sendAccepted, skipped);
  }

  lemma SessionEndedClean(s: State, e: Event, skipped: real)
    requires e.SessionComplete?
    ensures SessionEnded(Clean(s, skipped), e) == (Clean(SessionEnded(s, e).0, skipped), SessionEnded(s, e).1)
    ensures SessionEnded(s, e).0.session.paused == s.session.paused
  {
  }

  lemma HandledClean(s: State, e: Event, skipped: real)
    ensures Handled(Clean(s, skipped), e) == (Clean(Handled(s, e).0, skipped), Handled(s, e).1)
    ensures Handled(s, e).0.session.paused == s.session.paused
  {
    var n := s.(seen := s.seen + [e]);
    if e.TurnComplete? {
      TurnEndedClean(n, e, skipped);
    } else if e.SessionComplete? {
      SessionEndedClean(n, e, skipped);
    }
  }

  lemma WatchedClean(s: State, t: Option<Timeouts>, event: Option<Event>, now: real, skipped: real)
    ensures Watched(Clean(s, skipped), t, event, now - skipped)
         == (Clean(Watched(s, t, event, now).0, skipped), Watched(s, t, event, now).1)
    ensures Watched(s, t, event, now).0.session.paused == s.session.paused
  {
    var clock := Marked(s.clock, event, now);
    assert Marked(Unshifted(s.clock, skipped), event, now - skipped) == Unshifted(clock, skipped);
    assert Expired(Unshifted(clock, skipped), t, now - skipped) == Expired(clock, t, now);
  }

  lemma BodyClean(s: State, t: Option<Timeouts>, it: Iteration, calm: Iteration, skipped: real)
    requires calm.event == it.event && calm.now == it.now - skipped && calm.after == Quiet(Closing(it))
    ensures Body(Clean(s, skipped), t, calm) == (Clean(Body(s, t, it).0, skipped), Body(s, t, it).1)
    ensures !Body(s, t, it).1.Leave? ==> Body(s, t, it).0.session.paused == PausedAfter(s.session.paused, Closing(it))
  {
    var h := if it.event.None? then (s, Proceed) else Handled(s, it.event.value);
    if it.event.Some? {
      HandledClean(s, it.event.value, skipped);
    }
    if h.1.Proceed? {
      WatchedClean(h.0, t, it.event, it.now, skipped);
      var w := Watched(h.0, t, it.event, it.now);
      DrainClean(w.0, it.after, skipped);
      DrainPauses(w.0, it.after);
    }
  }

  /**
   * Pausing is transparent: cutting every paused span out of the clock changes neither the
   * iteration the loop ends at, nor the exit it takes, nor anything it leaves behind.
   */
  lemma {:induction false} LoopUnpaused(s: State, t: Option<Timeouts>, trace: seq<Iteration>, skipped: real)
    requires !Looped(s, t, trace).exit.Held?
    ensures var r := Looped(s, t, trace);
      var q := Looped(Clean(s, skipped), t, Unpaused(trace, s.session.paused, skipped));
      q.exit == r.exit && |q.left| == |r.left| && Face(q.state) == Face(r.state)
    decreases |trace|
  {
    if trace == [] {
      FaceClean(s, skipped);
    } else {
      var it, paused := trace[0], s.session.paused;
      var k, calm := Skipped(it, paused, skipped), Calm(it, paused, skipped);
      var rest := Unpaused(trace[1..], PausedAfter(PausedAfter(paused, Opening(it, paused)), Closing(it)), k);
      var all := Unpaused(trace, paused, skipped);
      assert all[0] == calm && all[1..] == rest;
      UnpausedLength(trace[1..], PausedAfter(PausedAfter(paused, Opening(it, paused)), Closing(it)), k);
      EnteredClean(s, it, skipped);
      var e := Entered(s, it);
      if e.1.Proceed? {
        BodyClean(e.0, t, it, calm, k);
        var b := Body(e.0, t, it);
        FaceClean(b.0, k);
        if !b.1.Leave? {
          LoopUnpaused(b.0, t, trace[1..], k);
        }
      }
    }
  }

  lemma {:induction false} UnpausedLength(trace: seq<Iteration>, paused: bool, skipped: real)
    ensures |Unpaused(trace, paused, skipped)| == |trace|
    decreases |trace|
  {
    if trace != [] {
      UnpausedLength(trace[1..], PausedAfter(PausedAfter(paused, Opening(trace[0], paused)), Closing(trace[0])),
                     Skipped(trace[0], paused, skipped));
    }
  }

  lemma PauseTransparent(session: Session, start: real, t: Option<Timeouts>, trace: seq<Iteration>)
    requires !Processed(Start(session, start), t, trace).exit.Held?
    ensures var r := Processed(Start(session, start), t, trace);
      var q := Processed(Start(session.(paused := false), start), t, Unpaused(trace, session.paused, 0.0));
      q.exit == r.exit && |q.left| == |r.left| && Face(q.state) == Face(r.state)
  {
    var s := Start(session, start);
    assert Clean(s, 0.0) == Start(session.(paused := false), start);
    LoopUnpaused(s, t, trace, 0.0);
  }
}
