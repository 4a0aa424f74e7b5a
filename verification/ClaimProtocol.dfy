/** Dispatchers that claim pending sessions from one shared table.

    A claim is a transaction: `SELECT ... FOR UPDATE SKIP LOCKED` takes the row
    lock of the oldest pending row nobody else holds, the status flips, and the
    commit publishes the flip and releases the lock.  A state is the committed
    table, where each dispatcher stands, and the log of runner invocations; a run
    is any list of enabled steps.  Dispatchers start and crash at will. */
module ClaimProtocol {

  type Id = nat
  type Dispatcher = nat

  datatype Status = Pending | Running | Paused | Stopped | Completed | Failed

  datatype Row = Row(status: Status, createdAt: int)

  datatype Phase =
    | Idle
    | Locked(id: Id)                    // row lock held, flip not committed
    | Claimed(id: Id)                   // committed, runner not invoked yet
    | Invoking(id: Id)                  // runner invoked
    | Finishing(id: Id, ok: bool)         // runner returned, terminal write due
    | Guarding(id: Id)                  // dispatch raised, guard write due

  datatype System = System(
    rows: map<Id, Row>,
    used: set<Id>,                      // ids ever created, never reused
    phases: map<Dispatcher, Phase>,     // live dispatchers
    invoked: seq<(Dispatcher, Id)>
  )

  datatype Step =
    | Create(id: Id, createdAt: int)
    | Start(d: Dispatcher)
    | SelectLock(d: Dispatcher, id: Id)
    | Commit(d: Dispatcher)
    | CommitAckLost(d: Dispatcher)      // committed, but the client saw an error
    | ClaimFails(d: Dispatcher)         // error before commit: rolled back
    | Invoke(d: Dispatcher)
    | PromptFails(d: Dispatcher)        // reading the first message raised
    | Return(d: Dispatcher, ok: bool)   // runner returned or raised
    | FlushFails(d: Dispatcher)
    | Terminal(d: Dispatcher)
    | TerminalFails(d: Dispatcher)
    | Guard(d: Dispatcher)
    | Crash(d: Dispatcher)
    | External(id: Id, status: Status)  // session-control endpoints
    | Delete(id: Id)

  // ------------------------------------------------------------------
  // Steps
  // ------------------------------------------------------------------

  predicate IsLocked(s: System, id: Id) {
    exists d :: d in s.phases && s.phases[d] == Locked(id)
  }

  predicate Claimable(s: System, id: Id) {
    id in s.rows && s.rows[id].status == Pending && !IsLocked(s, id)
  }

  predicate Enabled(s: System, step: Step) {
    match step
    case Create(id, _) => id !in s.used
    case Start(d) => d !in s.phases
    case SelectLock(d, id) =>
      && d in s.phases && s.phases[d] == Idle && Claimable(s, id)
      && forall other :: other in s.rows && Claimable(s, other) ==> s.rows[id].createdAt <= s.rows[other].createdAt
    case Commit(d) => d in s.phases && s.phases[d].Locked?
    case CommitAckLost(d) => d in s.phases && s.phases[d].Locked?
    case ClaimFails(d) => d in s.phases && s.phases[d].Locked?
    case Invoke(d) => d in s.phases && s.phases[d].Claimed?
    case PromptFails(d) => d in s.phases && s.phases[d].Claimed?
    case Return(d, _) => d in s.phases && s.phases[d].Invoking?
    case FlushFails(d) => d in s.phases && s.phases[d].Finishing?
    case Terminal(d) => d in s.phases && s.phases[d].Finishing?
    case TerminalFails(d) => d in s.phases && s.phases[d].Finishing?
    case Guard(d) => d in s.phases && s.phases[d].Guarding?
    case Crash(d) => d in s.phases
    // pause, resume and stop all read a row that has left "pending"; their
    // write is not conditional on what they read
    case External(id, status) =>
      id in s.rows && s.rows[id].status != Pending && status in {Paused, Running, Stopped}
    case Delete(id) => id in s.rows && !IsLocked(s, id)
  }

  function SetStatus(rows: map<Id, Row>, id: Id, status: Status): map<Id, Row> {
    if id in rows then rows[id := rows[id].(status := status)] else rows
  }

  function Outcome(ok: bool): Status {
    if ok then Completed else Failed
  }

  /** The guarded terminal write: only a row that is still running changes. */
  function WriteTerminal(rows: map<Id, Row>, id: Id, status: Status): map<Id, Row> {
    if id in rows && rows[id].status == Running then SetStatus(rows, id, status) else rows
  }

  function Apply(s: System, step: Step): System
    requires Enabled(s, step)
  {
    match step
    case Create(id, at) => s.(rows := s.rows[id := Row(Pending, at)], used := s.used + {id})
    case Start(d) => s.(phases := s.phases[d := Idle])
    case SelectLock(d, id) => s.(phases := s.phases[d := Locked(id)])
    case Commit(d) =>
      s.(rows := SetStatus(s.rows, s.phases[d].id, Running), phases := s.phases[d := Claimed(s.phases[d].id)])
    case CommitAckLost(d) =>
      s.(rows := SetStatus(s.rows, s.phases[d].id, Running), phases := s.phases[d := Idle])
    case ClaimFails(d) => s.(phases := s.phases[d := Idle])
    case Invoke(d) =>
      s.(invoked := s.invoked + [(d, s.phases[d].id)], phases := s.phases[d := Invoking(s.phases[d].id)])
    case PromptFails(d) => s.(phases := s.phases[d := Guarding(s.phases[d].id)])
    case Return(d, ok) =>
      s.(phases := s.phases[d := Finishing(s.phases[d].id, ok)])
    case FlushFails(d) => s.(phases := s.phases[d := Guarding(s.phases[d].id)])
    case Terminal(d) =>
      s.(rows := WriteTerminal(s.rows, s.phases[d].id, Outcome(s.phases[d].ok)), phases := s.phases[d := Idle])
    case TerminalFails(d) => s.(phases := s.phases[d := Guarding(s.phases[d].id)])
    case Guard(d) =>
      s.(rows := WriteTerminal(s.rows, s.phases[d].id, Failed), phases := s.phases[d := Idle])
    case Crash(d) => s.(phases := s.phases - {d})
    case External(id, status) => s.(rows := SetStatus(s.rows, id, status))
    case Delete(id) => s.(rows := s.rows - {id})
  }

  const EMPTY := System(map[], {}, map[], [])

  predicate Runs(s: System, steps: seq<Step>)
    decreases |steps|
  {
    steps == [] || (Enabled(s, steps[0]) && Runs(Apply(s, steps[0]), steps[1..]))
  }

  function Final(s: System, steps: seq<Step>): System
    requires Runs(s, steps)
    decreases |steps|
  {
    if steps == [] then s else Final(Apply(s, steps[0]), steps[1..])
  }

  // ------------------------------------------------------------------
  // What every step keeps
  // ------------------------------------------------------------------

  /** The dispatcher works on `id`: it holds its lock or committed its claim. */
  predicate Owns(s: System, d: Dispatcher, id: Id) {
    d in s.phases && s.phases[d] != Idle && s.phases[d].id == id
  }

  /** The row was claimed by a commit at some point. */
  predicate Left(s: System, id: Id) {
    id in s.used && (id in s.rows ==> s.rows[id].status != Pending)
  }

  ghost predicate Inv(s: System) {
    && s.rows.Keys <= s.used
    && (forall d, e, id :: Owns(s, d, id) && Owns(s, e, id) ==> d == e)
    && (forall d, id :: Owns(s, d, id) ==>
          if s.phases[d].Locked? then id in s.rows && s.rows[id].status == Pending else Left(s, id))
    && (forall i :: 0 <= i < |s.invoked| ==> Left(s, s.invoked[i].1))
    && (forall d, i :: d in s.phases && s.phases[d].Claimed? && 0 <= i < |s.invoked| ==>
          s.invoked[i].1 != s.phases[d].id)
    && (forall i, j :: 0 <= i < j < |s.invoked| ==> s.invoked[i].1 != s.invoked[j].1)
  }

  lemma StepKeepsInv(s: System, step: Step)
    requires Inv(s) && Enabled(s, step)
    ensures Inv(Apply(s, step))
  {
    match step
    case SelectLock(d, id) => SelectKeepsInv(s, d, id);
    case Commit(d) => CommitKeepsInv(s, d, Apply(s, step));
    case CommitAckLost(d) => CommitKeepsInv(s, d, Apply(s, step));
    case Invoke(d) => InvokeKeepsInv(s, d);
    case Delete(id) => DeleteKeepsInv(s, id);
    case _ => OtherKeepsInv(s, step);
  }

  lemma SelectKeepsInv(s: System, d: Dispatcher, id: Id)
    requires Inv(s) && Enabled(s, SelectLock(d, id))
    ensures Inv(Apply(s, SelectLock(d, id)))
  {
    var t := Apply(s, SelectLock(d, id));
    assert forall e :: !Owns(s, e, id);
    assert forall e, x :: Owns(t, e, x) <==> (if e == d then x == id else Owns(s, e, x));
  }

  lemma InvokeKeepsInv(s: System, d: Dispatcher)
    requires Inv(s) && Enabled(s, Invoke(d))
    ensures Inv(Apply(s, Invoke(d)))
  {
    var t, id := Apply(s, Invoke(d)), s.phases[d].id;
    assert Owns(s, d, id);
    assert forall e, x :: Owns(t, e, x) ==> Owns(s, e, x);
    forall e | e in t.phases && t.phases[e].Claimed? ensures t.phases[e].id != id {
      assert Owns(t, e, t.phases[e].id);
    }
  }

  lemma DeleteKeepsInv(s: System, id: Id)
    requires Inv(s) && Enabled(s, Delete(id))
    ensures Inv(Apply(s, Delete(id)))
  {
    var t := Apply(s, Delete(id));
    assert forall e, x :: Owns(t, e, x) ==> Owns(s, e, x);
    assert forall x :: Left(s, x) ==> Left(t, x);
    forall e, x | Owns(t, e, x) && t.phases[e].Locked? ensures x != id {
      assert s.phases[e] == Locked(x);
    }
  }

  /** The other steps give no session an owner and take no row back to pending. */
  lemma OtherKeepsInv(s: System, step: Step)
    requires Inv(s) && Enabled(s, step)
    requires !step.SelectLock? && !step.Commit? && !step.CommitAckLost? && !step.Invoke? && !step.Delete?
    ensures Inv(Apply(s, step))
  {
    var t := Apply(s, step);
    assert forall e, x :: Owns(t, e, x) ==> Owns(s, e, x);
    assert forall x :: Left(s, x) ==> Left(t, x);
  }

  lemma CommitKeepsInv(s: System, d: Dispatcher, t: System)
    requires Inv(s) && d in s.phases && s.phases[d].Locked?
    requires t == Apply(s, Commit(d)) || t == Apply(s, CommitAckLost(d))
    ensures Inv(t)
  {
    var id := s.phases[d].id;
    assert Owns(s, d, id);
    assert forall e, x :: Owns(t, e, x) ==> Owns(s, e, x);
    assert forall x :: Left(s, x) ==> Left(t, x);
    forall i | 0 <= i < |s.invoked| ensures s.invoked[i].1 != id {
      assert Left(s, s.invoked[i].1);
    }
    forall e, x | Owns(t, e, x) && t.phases[e].Locked? ensures x != id {
      assert Owns(s, e, x);
    }
  }

  lemma {:induction false} RunKeepsInv(s: System, steps: seq<Step>)
    requires Inv(s) && Runs(s, steps)
    ensures Inv(Final(s, steps))
    decreases |steps|
  {
    if steps != [] {
      StepKeepsInv(s, steps[0]);
      RunKeepsInv(Apply(s, steps[0]), steps[1..]);
    }
  }

  // ------------------------------------------------------------------
  // Whole runs
  // ------------------------------------------------------------------

  /** No session is handed to a runner twice, whichever dispatchers live, crash
      or restart, and whatever the control endpoints write. */
  lemma AtMostOnce(steps: seq<Step>)
    requires Runs(EMPTY, steps)
    ensures forall i, j :: 0 <= i < j < |Final(EMPTY, steps).invoked| ==>
              Final(EMPTY, steps).invoked[i].1 != Final(EMPTY, steps).invoked[j].1
  {
    RunKeepsInv(EMPTY, steps);
  }

  /** A row keeps the time it was created with. */
  lemma {:induction false} CreationTold(s: System, steps: seq<Step>, id: Id)
    requires Runs(s, steps) && id in Final(s, steps).rows
    ensures (id in s.rows && Final(s, steps).rows[id].createdAt == s.rows[id].createdAt)
         || Create(id, Final(s, steps).rows[id].createdAt) in steps
    decreases |steps|
  {
    if steps != [] {
      CreationTold(Apply(s, steps[0]), steps[1..], id);
      assert steps == [steps[0]] + steps[1..];
    }
  }

  /** Sessions are taken in order of creation: when one is taken, every older one still pending is being taken
      by another dispatcher. */
  lemma OldestFirst(steps: seq<Step>, d: Dispatcher, taken: Id, older: Id)
    requires Runs(EMPTY, steps + [SelectLock(d, taken)]) && Runs(EMPTY, steps)
    requires var s := Final(EMPTY, steps);
      taken in s.rows && older in s.rows && s.rows[older].status == Pending && s.rows[older].createdAt < s.rows[taken].createdAt
    ensures var s := Final(EMPTY, steps); exists e :: e != d && e in s.phases && s.phases[e] == Locked(older)
  {
    LastEnabled(EMPTY, steps, SelectLock(d, taken));
  }

  /** Only what waits and nobody holds is taken, and it is held from then on. */
  lemma TakenWasFree(steps: seq<Step>, d: Dispatcher, taken: Id)
    requires Runs(EMPTY, steps + [SelectLock(d, taken)]) && Runs(EMPTY, steps)
    ensures var s, t := Final(EMPTY, steps), Final(EMPTY, steps + [SelectLock(d, taken)]);
      && taken in s.rows && s.rows[taken].status == Pending && Owns(t, d, taken) && t.rows == s.rows
      && forall e :: !Owns(s, e, taken)
  {
    LastEnabled(EMPTY, steps, SelectLock(d, taken));
    RunKeepsInv(EMPTY, steps);
  }

  lemma {:induction false} LastEnabled(s: System, steps: seq<Step>, step: Step)
    requires Runs(s, steps + [step])
    ensures Runs(s, steps) && Enabled(Final(s, steps), step) && Final(s, steps + [step]) == Apply(Final(s, steps), step)
    decreases |steps|
  {
    if steps == [] {
      assert [] + [step] == [step] && [step][1..] == [];
    } else {
      assert (steps + [step])[1..] == steps[1..] + [step];
      LastEnabled(Apply(s, steps[0]), steps[1..], step);
    }
  }

  /** A crash or an error that loses the claim transaction leaves the row pending and free; after an error the
      dispatcher can try again. */
  lemma CrashBeforeCommitLeavesPending(steps: seq<Step>, d: Dispatcher)
    requires Runs(EMPTY, steps)
    requires d in Final(EMPTY, steps).phases && Final(EMPTY, steps).phases[d].Locked?
    ensures var s := Final(EMPTY, steps);
            Apply(s, Crash(d)).rows == s.rows && Claimable(Apply(s, Crash(d)), s.phases[d].id)
    ensures var s := Final(EMPTY, steps); var t := Apply(s, ClaimFails(d));
            t.rows == s.rows && Claimable(t, s.phases[d].id) && t.phases[d] == Idle
  {
    RunKeepsInv(EMPTY, steps);
    var s := Final(EMPTY, steps);
    assert Owns(s, d, s.phases[d].id);
    forall e | e in s.phases && s.phases[e] == Locked(s.phases[d].id) ensures e == d {
      assert Owns(s, e, s.phases[d].id);
    }
  }

  predicate Untouched(steps: seq<Step>, id: Id) {
    forall i :: 0 <= i < |steps| ==> (steps[i].External? || steps[i].Delete? ==> steps[i].id != id)
  }

  /** A row moved off "running" from outside keeps that status against every
      dispatcher, for as long as nothing outside writes it again. */
  lemma {:induction false} TerminalWriteNeverOverwrites(s: System, steps: seq<Step>, id: Id)
    requires Inv(s) && Runs(s, steps) && Untouched(steps, id)
    requires id in s.rows && s.rows[id].status != Pending && s.rows[id].status != Running
    ensures id in Final(s, steps).rows && Final(s, steps).rows[id] == s.rows[id]
    decreases |steps|
  {
    if steps != [] {
      var t := Apply(s, steps[0]);
      StepKeepsInv(s, steps[0]);
      assert !(steps[0].External? || steps[0].Delete?) || steps[0].id != id;
      if steps[0].Commit? || steps[0].CommitAckLost? {
        assert Owns(s, steps[0].d, s.phases[steps[0].d].id);
      }
      assert t.rows[id] == s.rows[id];
      assert Untouched(steps[1..], id);
      TerminalWriteNeverOverwrites(t, steps[1..], id);
    }
  }

  /** The terminal write settles the row exactly when it is not paused. */
  lemma TerminalWriteExact(steps: seq<Step>, d: Dispatcher)
    requires Runs(EMPTY, steps)
    requires d in Final(EMPTY, steps).phases && Final(EMPTY, steps).phases[d].Finishing?
    requires Final(EMPTY, steps).phases[d].id in Final(EMPTY, steps).rows
    ensures var s := Final(EMPTY, steps);
            var before, after := s.rows[s.phases[d].id].status, Apply(s, Terminal(d)).rows[s.phases[d].id].status;
            && (after in {Stopped, Completed, Failed} <==> before != Paused)
            && (before != Running ==> after == before)
            && (before == Running ==> after == if s.phases[d].ok then Completed else Failed)
  {
    RunKeepsInv(EMPTY, steps);
    RunKeepsEvidence(EMPTY, steps);
    var s := Final(EMPTY, steps);
    assert Owns(s, d, s.phases[d].id);
  }

  predicate WasInvoked(s: System, id: Id) {
    exists i :: 0 <= i < |s.invoked| && s.invoked[i].1 == id
  }

  /** Completion has a cause: a finished or completed session was invoked. */
  ghost predicate Evidence(s: System) {
    && (forall d :: d in s.phases && (s.phases[d].Invoking? || s.phases[d].Finishing?) ==> WasInvoked(s, s.phases[d].id))
    && (forall id :: id in s.rows && s.rows[id].status == Completed ==> WasInvoked(s, id))
  }

  lemma {:induction false} RunKeepsEvidence(s: System, steps: seq<Step>)
    requires Evidence(s) && Runs(s, steps)
    ensures Evidence(Final(s, steps))
    decreases |steps|
  {
    if steps != [] {
      var t := Apply(s, steps[0]);
      assert forall i :: 0 <= i < |s.invoked| ==> t.invoked[i] == s.invoked[i];
      if steps[0].Invoke? { assert t.invoked[|s.invoked|].1 == s.phases[steps[0].d].id; }
      assert forall id :: WasInvoked(s, id) ==> WasInvoked(t, id);
      RunKeepsEvidence(t, steps[1..]);
    }
  }

  /** A completed row was handed to a runner once: not zero times, not twice. */
  lemma CompletedWasInvokedExactlyOnce(steps: seq<Step>, id: Id)
    requires Runs(EMPTY, steps)
    requires id in Final(EMPTY, steps).rows && Final(EMPTY, steps).rows[id].status == Completed
    ensures exists i :: 0 <= i < |Final(EMPTY, steps).invoked| && Final(EMPTY, steps).invoked[i].1 == id
                        && forall j :: 0 <= j < |Final(EMPTY, steps).invoked| && j != i ==> Final(EMPTY, steps).invoked[j].1 != id
  {
    RunKeepsInv(EMPTY, steps);
    RunKeepsEvidence(EMPTY, steps);
    var s := Final(EMPTY, steps);
    var i :| 0 <= i < |s.invoked| && s.invoked[i].1 == id;
    assert forall j :: 0 <= j < |s.invoked| && j != i ==> s.invoked[j].1 != id;
  }

  // ------------------------------------------------------------------
  // Rows nobody works on
  // ------------------------------------------------------------------

  predicate Undisturbed(steps: seq<Step>) {
    forall i :: 0 <= i < |steps| ==> !(steps[i].Crash? || steps[i].CommitAckLost? || steps[i].External? || steps[i].Delete?)
  }

  predicate Attended(s: System, id: Id) {
    exists d :: Owns(s, d, id) && d in s.phases && !s.phases[d].Locked?
  }

  ghost predicate RunningIsAttended(s: System) {
    forall id :: id in s.rows ==>
      s.rows[id].status in {Pending, Running, Completed, Failed} && (s.rows[id].status == Running ==> Attended(s, id))
  }

  lemma {:induction false} RunKeepsAttendance(s: System, steps: seq<Step>)
    requires Inv(s) && Evidence(s) && RunningIsAttended(s) && Runs(s, steps) && Undisturbed(steps)
    ensures RunningIsAttended(Final(s, steps))
    decreases |steps|
  {
    if steps != [] {
      var t := Apply(s, steps[0]);
      StepKeepsInv(s, steps[0]);
      RunKeepsEvidence(s, [steps[0]]);
      assert Final(s, [steps[0]]) == t by { assert Final(t, []) == t; }
      forall id | id in t.rows && t.rows[id].status == Running ensures Attended(t, id) {
        StepKeepsAttendance(s, steps[0], id);
      }
      RunKeepsAttendance(t, steps[1..]);
    }
  }

  lemma StepKeepsAttendance(s: System, step: Step, id: Id)
    requires Inv(s) && RunningIsAttended(s) && Enabled(s, step)
    requires !(step.Crash? || step.CommitAckLost? || step.External? || step.Delete?)
    requires id in Apply(s, step).rows && Apply(s, step).rows[id].status == Running
    ensures Attended(Apply(s, step), id)
  {
    var t := Apply(s, step);
    if step.Commit? && s.phases[step.d].id == id {
      assert Owns(t, step.d, id);
    } else {
      var d :| Owns(s, d, id) && !s.phases[d].Locked?;
      assert Owns(t, d, id) && !t.phases[d].Locked?;
    }
  }

  /** Without crashes and outside writes, a moment with every dispatcher idle has
      no session left running: each is pending, completed or failed. */
  lemma IdleMeansSettled(steps: seq<Step>)
    requires Runs(EMPTY, steps) && Undisturbed(steps)
    requires forall d :: d in Final(EMPTY, steps).phases ==> Final(EMPTY, steps).phases[d] == Idle
    ensures forall id :: id in Final(EMPTY, steps).rows ==>
              Final(EMPTY, steps).rows[id].status in {Pending, Completed, Failed}
  {
    RunKeepsAttendance(EMPTY, steps);
  }

  /** A running row that nobody owns is never picked up again. */
  lemma {:induction false} OrphanStaysRunning(s: System, steps: seq<Step>, id: Id)
    requires Inv(s) && Runs(s, steps) && Untouched(steps, id)
    requires id in s.rows && s.rows[id].status == Running && forall d :: !Owns(s, d, id)
    ensures id in Final(s, steps).rows && Final(s, steps).rows[id].status == Running
    ensures forall d :: !Owns(Final(s, steps), d, id)
    decreases |steps|
  {
    if steps != [] {
      var t := Apply(s, steps[0]);
      StepKeepsInv(s, steps[0]);
      assert !(steps[0].External? || steps[0].Delete?) || steps[0].id != id;
      assert forall d, x :: Owns(t, d, x) ==> Owns(s, d, x) || steps[0] == SelectLock(d, x);
      if steps[0].Terminal? || steps[0].Guard? || steps[0].Commit? || steps[0].CommitAckLost? {
        assert Owns(s, steps[0].d, s.phases[steps[0].d].id);
      }
      assert Untouched(steps[1..], id);
      OrphanStaysRunning(t, steps[1..], id);
    }
  }

  /** A session that is paused while its runner returns and is resumed later: the
      dispatcher is done with it, yet the row is running with nobody on it. */
  lemma PausedAtCompletionIsOrphaned(steps: seq<Step>, d: Dispatcher)
    requires Runs(EMPTY, steps)
    requires d in Final(EMPTY, steps).phases && Final(EMPTY, steps).phases[d].Finishing?
    requires Final(EMPTY, steps).phases[d].id in Final(EMPTY, steps).rows
    requires Final(EMPTY, steps).rows[Final(EMPTY, steps).phases[d].id].status == Paused
    ensures var s := Final(EMPTY, steps);
            var id := s.phases[d].id;
            var t := Apply(s, Terminal(d));
            && Enabled(t, External(id, Running))
            && var u := Apply(t, External(id, Running));
               WasInvoked(u, id) && u.rows[id].status == Running && forall e :: !Owns(u, e, id)
  {
    RunKeepsInv(EMPTY, steps);
    RunKeepsEvidence(EMPTY, steps);
    var s := Final(EMPTY, steps);
    assert Owns(s, d, s.phases[d].id);
    var u := Apply(Apply(s, Terminal(d)), External(s.phases[d].id, Running));
    assert forall e, x :: Owns(u, e, x) ==> Owns(s, e, x) && e != d;
  }

  /** Such a moment is reachable with one dispatcher and one session. */
  lemma PausedAtCompletionIsReachable()
    ensures exists steps :: Runs(EMPTY, steps) && 1 in Final(EMPTY, steps).phases && Final(EMPTY, steps).phases[1] == Finishing(7, true)
              && 7 in Final(EMPTY, steps).rows && Final(EMPTY, steps).rows[7].status == Paused
  {
    var claim := [Create(7, 0), Start(1), SelectLock(1, 7), Commit(1)];
    var work := [Invoke(1), External(7, Paused), Return(1, true)];
    ReachClaim();
    ReachFinish();
    RunsAppend(EMPTY, claim, work);
  }

  lemma RunsAppend(s: System, a: seq<Step>, b: seq<Step>)
    requires Runs(s, a) && Runs(Final(s, a), b)
    ensures Runs(s, a + b) && Final(s, a + b) == Final(Final(s, a), b)
    decreases |a|
  {
    if a == [] {
      assert a + b == b;
    } else {
      RunsAppend(Apply(s, a[0]), a[1..], b);
      assert (a + b)[1..] == a[1..] + b;
    }
  }

  lemma ReachClaim()
    ensures Runs(EMPTY, [Create(7, 0), Start(1), SelectLock(1, 7), Commit(1)])
    ensures Final(EMPTY, [Create(7, 0), Start(1), SelectLock(1, 7), Commit(1)])
            == System(map[7 := Row(Running, 0)], {7}, map[1 := Claimed(7)], [])
  {
    var s1 := System(map[7 := Row(Pending, 0)], {7}, map[], []);
    var s2 := s1.(phases := map[1 := Idle]);
    var s3 := s2.(phases := map[1 := Locked(7)]);
    var s4 := System(map[7 := Row(Running, 0)], {7}, map[1 := Claimed(7)], []);
    Chain(s3, Commit(1), s4, []);
    Chain(s2, SelectLock(1, 7), s3, [Commit(1)]);
    Chain(s1, Start(1), s2, [SelectLock(1, 7), Commit(1)]);
    Chain(EMPTY, Create(7, 0), s1, [Start(1), SelectLock(1, 7), Commit(1)]);
  }

  lemma ReachFinish()
    ensures var s := System(map[7 := Row(Running, 0)], {7}, map[1 := Claimed(7)], []);
            && Runs(s, [Invoke(1), External(7, Paused), Return(1, true)])
            && Final(s, [Invoke(1), External(7, Paused), Return(1, true)])
               == System(map[7 := Row(Paused, 0)], {7}, map[1 := Finishing(7, true)], [(1, 7)])
  {
    var s4 := System(map[7 := Row(Running, 0)], {7}, map[1 := Claimed(7)], []);
    var s5 := s4.(phases := map[1 := Invoking(7)], invoked := [(1, 7)]);
    var s6 := s5.(rows := map[7 := Row(Paused, 0)]);
    var s7 := s6.(phases := map[1 := Finishing(7, true)]);
    Chain(s6, Return(1, true), s7, []);
    Chain(s5, External(7, Paused), s6, [Return(1, true)]);
    Chain(s4, Invoke(1), s5, [External(7, Paused), Return(1, true)]);
  }

  lemma Chain(s: System, step: Step, t: System, rest: seq<Step>)
    requires Enabled(s, step) && Apply(s, step) == t && Runs(t, rest)
    ensures Runs(s, [step] + rest) && Final(s, [step] + rest) == Final(t, rest)
  {
    assert ([step] + rest)[1..] == rest;
  }
}
