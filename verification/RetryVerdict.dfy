/** From the end of a run to the retry queue: which runs are tried again, and when an
    operator's stop is undone by the retry scheduler. */
module RetryVerdict {
  import opened Basics
  import opened RunLoop
  import opened RunVerdict
  import Retry = RetryScheduler

  /** What the scheduler is told of a run that ended with `session`. */
  function Report(key: Retry.Key, session: Session, baseMs: nat, now: Retry.Time): Retry.Step {
    if session.status == Completed then Retry.SessionSucceeds(key)
    else Retry.SessionFails(key, session.reason, baseMs, now)
  }

  predicate AttemptsLeft(d: Retry.Daemon, cfg: Retry.Config, key: Retry.Key) {
    cfg.maxAttempts == 0 || Retry.Attempts(d.s, key) < cfg.maxAttempts
  }

  /** The issue of this run is with the scheduler, and the pass is at a point where it awaits. */
  ghost predicate Reportable(d: Retry.Daemon, cfg: Retry.Config, key: Retry.Key) {
    Retry.DaemonInv(d, cfg) && key in d.s.running && !d.phase.Passing?
  }

  lemma ReportQueues(d: Retry.Daemon, cfg: Retry.Config, key: Retry.Key, session: Session, baseMs: nat, now: Retry.Time)
    requires Reportable(d, cfg, key)
    ensures Retry.Waiting(Retry.Do(d, cfg, Report(key, session, baseMs, now)).s, key) <==>
      session.status != Completed && Retry.Retryable(session.reason) && AttemptsLeft(d, cfg, key)
  {
    var e := Retry.Do(d, cfg, Report(key, session, baseMs, now));
    Retry.EndedInv(d, cfg, key, Retry.Failed);
    Retry.WholeHas(d, key);
    Retry.HasMember(Retry.Whole(d).queue, key);
    assert !Retry.Waiting(d.s, key);
    if e.s.queue != d.s.queue {
      assert e.s.queue[|d.s.queue|].key == key;
    }
  }

  /** A run is queued for another attempt exactly when its history gives it a verdict other
      than completed, for a reason that is not the operator's, and attempts remain. */
  lemma RetriedExactly(session: Session, start: real, t: Option<Timeouts>, trace: seq<Iteration>,
                       d: Retry.Daemon, cfg: Retry.Config, key: Retry.Key, baseMs: nat, now: Retry.Time)
    requires Reportable(d, cfg, key) && !Processed(Start(session, start), t, trace).exit.Held?
    ensures var end := Processed(Start(session, start), t, trace);
      var (status, reason) := Verdict(session, end.exit, end.state.log, end.state.seen);
      Retry.Waiting(Retry.Do(d, cfg, Report(key, end.state.session, baseMs, now)).s, key) <==>
        status != Completed && Retry.Retryable(reason) && AttemptsLeft(d, cfg, key)
  {
    FinalVerdict(session, start, t, trace);
    ReportQueues(d, cfg, key, Processed(Start(session, start), t, trace).state.session, baseMs, now);
  }

  predicate LastFrame(seen: seq<Event>, k: nat) {
    k < |seen| && seen[k].SessionComplete? && forall j :: k < j < |seen| ==> !seen[j].SessionComplete?
  }

  /** The frame at `k` fails the run: its own reason is bad, or an error masks a good one. */
  predicate FrameFails(seen: seq<Event>, k: nat)
    requires LastFrame(seen, k)
  {
    !Good(seen[k].reason) || Fatal(LastError(seen[..k])) || Fatal(LastError(seen))
  }

  /** A stopped run is retried exactly when it consumed a SESSION_COMPLETE, the last of
      which fails it for a reason that does not itself name the operator, and attempts remain. */
  lemma StopUndoneExactly(session: Session, start: real, t: Option<Timeouts>, trace: seq<Iteration>,
                          d: Retry.Daemon, cfg: Retry.Config, key: Retry.Key, baseMs: nat, now: Retry.Time)
    requires Reportable(d, cfg, key) && Processed(Start(session, start), t, trace).exit.Stopped?
    ensures var end := Processed(Start(session, start), t, trace); var seen := end.state.seen;
      Retry.Waiting(Retry.Do(d, cfg, Report(key, end.state.session, baseMs, now)).s, key) <==>
        && AttemptsLeft(d, cfg, key)
        && exists k: nat :: LastFrame(seen, k) && FrameFails(seen, k) && seen[k].reason !in Retry.NON_RETRYABLE
  {
    var end := Processed(Start(session, start), t, trace);
    var seen := end.state.seen;
    ReportQueues(d, cfg, key, end.state.session, baseMs, now);
    InterruptionStands(session, start, t, trace);
    if exists e :: e in seen && e.SessionComplete? {
      var k := LastFrameOf(seen);
      CompletedByFrame(session, start, t, trace, k);
      LastCompleteAt(seen, k);
      forall j: nat | LastFrame(seen, j) ensures j == k {}
    }
  }

  lemma {:induction false} LastFrameOf(seen: seq<Event>) returns (k: nat)
    requires exists e :: e in seen && e.SessionComplete?
    ensures LastFrame(seen, k)
  {
    if Last(seen).SessionComplete? {
      k := |seen| - 1;
    } else {
      assert seen == Init(seen) + [Last(seen)];
      k := LastFrameOf(Init(seen));
    }
  }

  /** It happens: the operator stops a run after a follow-up's failing frame, and the issue is
      queued for another attempt. */
  lemma StoppedRunIsRetried(session: Session, d: Retry.Daemon, cfg: Retry.Config, key: Retry.Key, baseMs: nat, now: Retry.Time)
    requires !session.paused && session.pending != [] && Reportable(d, cfg, key) && AttemptsLeft(d, cfg, key)
    ensures var end := Processed(Start(session, 0.0), None,
        [Quick(Some(TurnComplete(1, true, true, true, true)), 1.0), Quick(Some(SessionComplete("failed", [])), 2.0),
         Quick(None, 3.0).(before := [Stop])]);
      end.exit == Stopped && Retry.Waiting(Retry.Do(d, cfg, Report(key, end.state.session, baseMs, now)).s, key)
  {
    var a, b := Quick(Some(TurnComplete(1, true, true, true, true)), 1.0), Quick(Some(SessionComplete("failed", [])), 2.0);
    var c := Quick(None, 3.0).(before := [Stop]);
    var s := Start(session, 0.0);
    var s1 := Iterated(s, None, a).0;
    var s2 := Iterated(s1, None, b).0;
    assert s1.followUp && Iterated(s, None, a).1 == Proceed;
    assert s2.stored == Some("failed") && Iterated(s1, None, b).1 == Skip;
    assert Iterated(s2, None, c).1 == Leave(Stopped);
    assert [a, b, c][1..] == [b, c] && [b, c][1..] == [c];
    assert Looped(s, None, [a, b, c]) == Looped(s1, None, [b, c]) == Looped(s2, None, [c]);
    ReportQueues(d, cfg, key, Processed(s, None, [a, b, c]).state.session, baseMs, now);
  }
}
