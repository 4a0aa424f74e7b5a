/**
 * The run loop: one iteration per backend event or poll tick. Each iteration drains operator
 * commands, holds at the pause gate, handles the event, checks the five timeouts and drains again;
 * after the loop a stored SESSION_COMPLETE is reprocessed. File probes, tracker answers, sends and
 * clock readings are supplied by the trace.
 */
module RunLoop {
  import opened Basics
  import opened TokenUsage

  const NOOP_LIMIT := 5
  const READ_ONLY_LIMIT := 8

  /** `accepted`: the backend supports and confirms the pause or resume. */
  datatype Command =
    | Pause(accepted: bool)
    | Resume(accepted: bool)
    | Stop
    | Takeover
    | FollowUp(payload: string)
    | OtherCommand

  datatype Event =
    | ToolCall(modifying: bool)
    | ToolResult
    | TurnComplete(reported: int, fileChanged: bool, dirty: bool, sendAccepted: bool, active: bool)
    | SessionComplete(reason: string, usage: seq<Entry>)
    | Error(message: string)
    | OtherEvent

  /**
   * One iteration: the event (none for a poll tick), the commands each drain finds, one batch per
   * poll of the pause gate, the time spent in the gate and the watchdog's clock reading.
   */
  datatype Iteration = Iteration(
    event: Option<Event>,
    before: seq<Command>,
    polls: seq<seq<Command>>,
    pausedFor: real,
    now: real,
    after: seq<Command>)

  datatype Timeouts = Timeouts(handshake: real, firstTurn: real, inactivity: real, total: real, idle: real)

  datatype Watchdog = Handshake | FirstTurn | Inactivity | Total | Idle

  /** `Held` is not an end of the run: the trace stops while the gate is still closed. */
  datatype Exit = Stopped | Noop | ReadOnly | Inactive | Terminal | TimedOut(watchdog: Watchdog) | StreamEnd | Held

  datatype Flow = Proceed | Skip | Leave(exit: Exit)

  datatype Status = Running | Completed | Failed

  datatype Session = Session(
    status: Status,
    reason: Option<string>,
    turns: int,
    tokens: map<string, int>,
    pending: seq<string>,
    paused: bool)

  datatype Clock = Clock(runStart: real, lastEvent: real, handshake: bool, firstTurn: bool)

  datatype Guards = Guards(noop: nat, streak: nat, tools: bool, modifying: bool)

  /** The session, the loop's variables and, last, three history logs. */
  datatype State = State(
    session: Session,
    clock: Clock,
    guards: Guards,
    error: Option<string>,
    followUp: bool,
    stored: Option<string>,
    sent: seq<seq<string>>,
    log: seq<Command>,
    seen: seq<Event>)

  // ---- One iteration, as functions of the state ----

  predicate Ends(c: Command) {
    c.Stop? || c.Takeover?
  }

  function Closed(s: Session, status: Status, reason: string): Session {
    s.(status := status, reason := Some(reason))
  }

  function Obeyed(s: Session, c: Command): Session {
    match c
    case Pause(accepted) => if accepted then s.(paused := true) else s
    case Resume(accepted) => if accepted then s.(paused := false) else s
    case Stop => Closed(s, Failed, "operator_stop").(paused := false)
    case Takeover => Closed(s, Failed, "operator_takeover")
    case FollowUp(payload) => s.(pending := s.pending + [payload])
    case OtherCommand => s
  }

  function Apply(s: State, c: Command): State {
    s.(session := Obeyed(s.session, c), log := s.log + [c])
  }

  /** A stop or takeover ends the drain and leaves the rest in the queue. */
  function Drained(s: State, commands: seq<Command>): (State, bool)
    decreases |commands|
  {
    if commands == [] then (s, false)
    else if Ends(commands[0]) then (Apply(s, commands[0]), true)
    else Drained(Apply(s, commands[0]), commands[1..])
  }

  function Gated(s: State, polls: seq<seq<Command>>): (State, Flow)
    decreases |polls|
  {
    if !s.session.paused then (s, Proceed)
    else if polls == [] then (s, Leave(Held))
    else
      var (d, stop) := Drained(s, polls[0]);
      if stop then (d, Leave(Stopped)) else Gated(d, polls[1..])
  }

  function Shifted(c: Clock, span: real): Clock {
    c.(runStart := c.runStart + span, lastEvent := c.lastEvent + span)
  }

  predicate Good(reason: string) {
    reason == "success" || reason == "turn_complete"
  }

  predicate Fatal(error: Option<string>) {
    error.Some? && error.value != ""
  }

  function Resolved(reason: string, error: Option<string>): string {
    if Fatal(error) && Good(reason) then "backend_error" else reason
  }

  function Judged(s: Session, reason: string): Session {
    Closed(s, if Good(reason) then Completed else Failed, reason)
  }

  function Delivered(s: State, accepted: bool): State {
    if s.session.pending != [] && accepted then
      s.(session := s.session.(pending := []), sent := s.sent + [s.session.pending], followUp := true)
    else s
  }

  function NoopStreak(noop: nat, fileChanged: bool): nat {
    if fileChanged then 0 else noop + 1
  }

  function ReadStreak(g: Guards, turns: int, dirty: bool): nat {
    if turns > 1 && g.tools && !g.modifying && !dirty then g.streak + 1 else 0
  }

  function Tallied(s: State, e: Event): State
    requires e.TurnComplete?
  {
    var turns := if s.session.turns + 1 >= e.reported then s.session.turns + 1 else e.reported;
    s.(session := s.session.(turns := turns),
       guards := s.guards.(noop := NoopStreak(s.guards.noop, e.fileChanged), streak := ReadStreak(s.guards, turns, e.dirty)))
  }

  function TurnEnded(s: State, e: Event): (State, Flow)
    requires e.TurnComplete?
  {
    var s := Tallied(s, e);
    if s.guards.noop >= NOOP_LIMIT then (s.(session := Closed(s.session, Completed, "noop_detected")), Leave(Noop))
    else if s.guards.streak >= READ_ONLY_LIMIT then (s.(session := Closed(s.session, Failed, "read_only_loop")), Leave(ReadOnly))
    else
      var s := Delivered(s.(guards := s.guards.(tools := false, modifying := false)), e.sendAccepted);
      if e.active then (s, Proceed) else (s.(session := s.session.(status := Completed)), Leave(Inactive))
  }

  function SessionEnded(s: State, e: Event): (State, Flow)
    requires e.SessionComplete?
  {
    var reason := Resolved(e.reason, s.error);
    var session :=
      if e.usage == [] then s.session
      else s.session.(tokens := Merged(s.session.tokens, Normalized(e.usage)));
    if s.followUp then (s.(session := session, followUp := false, stored := Some(reason)), Skip)
    else (s.(session := Judged(session, reason), stored := None), Leave(Terminal))
  }

  function Handled(s: State, e: Event): (State, Flow) {
    var s := s.(seen := s.seen + [e]);
    match e
    case ToolCall(modifying) =>
      (s.(guards := s.guards.(tools := true, modifying := s.guards.modifying || modifying)), Proceed)
    case ToolResult =>
      (s.(guards := s.guards.(streak := if s.guards.tools && !s.guards.modifying then s.guards.streak + 1 else 0)), Proceed)
    case TurnComplete(_, _, _, _, _) => TurnEnded(s, e)
    case SessionComplete(_, _) => SessionEnded(s, e)
    case Error(message) => (s.(session := Closed(s.session, Failed, "backend_error"), error := Some(message)), Proceed)
    case OtherEvent => (s, Proceed)
  }

  function Marked(c: Clock, event: Option<Event>, now: real): Clock {
    if event.None? then c
    else c.(handshake := true, lastEvent := now, firstTurn := c.firstTurn || event.value.TurnComplete?)
  }

  function Expired(c: Clock, t: Option<Timeouts>, now: real): Option<Watchdog> {
    if t.None? then None
    else
      var elapsed, gap := now - c.runStart, now - c.lastEvent;
      if !c.handshake && elapsed >= t.value.handshake then Some(Handshake)
      else if c.handshake && !c.firstTurn && gap >= t.value.firstTurn then Some(FirstTurn)
      else if c.handshake && gap >= t.value.inactivity then Some(Inactivity)
      else if elapsed >= t.value.total then Some(Total)
      else if gap >= t.value.idle then Some(Idle)
      else None
  }

  function TimeoutReason(w: Watchdog): string {
    match w
    case Handshake => "handshake_timeout"
    case FirstTurn => "first_turn_timeout"
    case Inactivity => "inactivity_timeout"
    case Total => "total_timeout"
    case Idle => "idle_watchdog_timeout"
  }

  function Watched(s: State, t: Option<Timeouts>, event: Option<Event>, now: real): (State, Flow) {
    var clock := Marked(s.clock, event, now);
    match Expired(clock, t, now)
    case None => (s.(clock := clock), Proceed)
    case Some(w) => (s.(clock := clock, session := Closed(s.session, Failed, TimeoutReason(w))), Leave(TimedOut(w)))
  }

  function Entered(s: State, it: Iteration): (State, Flow) {
    var (s, stop) := Drained(s, it.before);
    if stop then (s, Leave(Stopped))
    else if !s.session.paused then (s, Proceed)
    else
      var (g, flow) := Gated(s, it.polls);
      (g.(clock := Shifted(g.clock, it.pausedFor)), flow)
  }

  function Tail(s: State, t: Option<Timeouts>, it: Iteration): (State, Flow) {
    var (s, flow) := Watched(s, t, it.event, it.now);
    if flow.Leave? then (s, flow)
    else
      var (s, stop) := Drained(s, it.after);
      (s, if stop then Leave(Stopped) else Proceed)
  }

  function Body(s: State, t: Option<Timeouts>, it: Iteration): (State, Flow) {
    var (s, flow) := if it.event.None? then (s, Proceed) else Handled(s, it.event.value);
    if flow.Proceed? then Tail(s, t, it) else (s, flow)
  }

  function Iterated(s: State, t: Option<Timeouts>, it: Iteration): (State, Flow) {
    var (s, flow) := Entered(s, it);
    if flow.Leave? then (s, flow) else Body(s, t, it)
  }

  /** How the loop ends: the state, the exit taken and the iterations it never started. */
  datatype End = End(state: State, exit: Exit, left: seq<Iteration>)

  function Looped(s: State, t: Option<Timeouts>, trace: seq<Iteration>): End
    decreases |trace|
  {
    if trace == [] then End(s, StreamEnd, [])
    else
      var (s, flow) := Iterated(s, t, trace[0]);
      if flow.Leave? then End(s, flow.exit, trace[1..]) else Looped(s, t, trace[1..])
  }

  /** The block after the loop: a stored intermediate frame becomes the terminal one. */
  function Reprocessed(s: State): State {
    if s.stored.None? then s
    else s.(stored := None, session := Judged(s.session, Resolved(s.stored.value, s.error)))
  }

  function Processed(s: State, t: Option<Timeouts>, trace: seq<Iteration>): End {
    var end := Looped(s, t, trace);
    if end.exit.Held? then end else end.(state := Reprocessed(end.state))
  }

  /** The state in which the loop starts, around whatever the session holds. */
  function Start(session: Session, now: real): State {
    State(session, Clock(now, now, false, false), Guards(0, 0, false, false), None, false, None, [], [], [])
  }
}
