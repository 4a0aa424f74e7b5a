/** Waiting for a task with a limit on its active time: intervals that begin paused are not charged. */
module ActiveTimeout {

  /** What a poll finds: the clock, whether the session is paused by then, whether the task is done. */
  datatype Poll = Poll(now: real, paused: bool, finished: bool)

  datatype Verdict = Finished | TimedOut | Waiting

  predicate PausedBefore(paused: bool, polls: seq<Poll>, k: nat)
    requires k < |polls|
  {
    if k == 0 then paused else polls[k - 1].paused
  }

  function TimeBefore(start: real, polls: seq<Poll>, k: nat): real
    requires k < |polls|
  {
    if k == 0 then start else polls[k - 1].now
  }

  /** The length of the first `k` intervals, those that begin paused left out. */
  function Active(start: real, paused: bool, polls: seq<Poll>, k: nat): real
    requires k <= |polls|
  {
    if k == 0 then 0.0
    else
      Active(start, paused, polls, k - 1)
      + (if PausedBefore(paused, polls, k - 1) then 0.0 else polls[k - 1].now - TimeBefore(start, polls, k - 1))
  }

  /** The wait ends at the first poll that finds the task done or, unpaused, its active time used up. */
  method AwaitWithActiveTimeout(start: real, paused: bool, timeout: real, polls: seq<Poll>) returns (verdict: Verdict, k: nat)
    ensures k <= |polls| && (verdict.Waiting? <==> k == |polls|)
    ensures forall j :: 0 <= j < k ==> !polls[j].finished && (polls[j].paused || Active(start, paused, polls, j + 1) < timeout)
    ensures verdict.Finished? ==> polls[k].finished
    ensures verdict.TimedOut? ==> !polls[k].finished && !polls[k].paused && Active(start, paused, polls, k + 1) >= timeout
  {
    var remaining, previous, wasPaused := timeout, start, paused;
    k := 0;
    while k < |polls|
      invariant k <= |polls|
      invariant remaining == timeout - Active(start, paused, polls, k)
      invariant k < |polls| ==> previous == TimeBefore(start, polls, k) && wasPaused == PausedBefore(paused, polls, k)
      invariant forall j :: 0 <= j < k ==> !polls[j].finished && (polls[j].paused || Active(start, paused, polls, j + 1) < timeout)
    {
      var poll := polls[k];
      if !wasPaused {
        remaining := remaining - (poll.now - previous);
      }
      previous, wasPaused := poll.now, poll.paused;
      if poll.finished {
        return Finished, k;
      }
      if remaining <= 0.0 && !poll.paused {
        return TimedOut, k;
      }
      k := k + 1;
    }
    return Waiting, k;
  }

  predicate Monotonic(start: real, polls: seq<Poll>) {
    forall i :: 0 <= i < |polls| ==> TimeBefore(start, polls, i) <= polls[i].now
  }

  /** Paused time is all that is forgiven: without pauses the limit is on elapsed time, with them it is never stricter. */
  lemma {:induction false} ActiveWithinElapsed(start: real, paused: bool, polls: seq<Poll>, k: nat)
    requires Monotonic(start, polls) && 0 < k <= |polls|
    ensures 0.0 <= Active(start, paused, polls, k) <= polls[k - 1].now - start
    ensures (forall i :: 0 <= i < k ==> !PausedBefore(paused, polls, i)) ==> Active(start, paused, polls, k) == polls[k - 1].now - start
  {
    if k == 1 {
      assert Active(start, paused, polls, 0) == 0.0;
    } else {
      ActiveWithinElapsed(start, paused, polls, k - 1);
    }
    assert TimeBefore(start, polls, k - 1) <= polls[k - 1].now;
  }

  /** Polls `i` to `j` find the session in the same state, paused or not. */
  predicate Steady(polls: seq<Poll>, i: nat, j: nat, paused: bool)
    requires i <= j <= |polls|
  {
    forall k :: i <= k < j ==> polls[k].paused == paused
  }

  /** Between poll `i` and poll `j` all the time is charged if every poll before `j` found the session running, and none
      if every one found it paused, whatever poll `j` itself finds. */
  lemma {:induction false} StretchCharged(start: real, paused: bool, polls: seq<Poll>, i: nat, j: nat, found: bool)
    requires i <= j < |polls| && Steady(polls, i, j, found)
    ensures Active(start, paused, polls, j + 1) - Active(start, paused, polls, i + 1) == if found then 0.0 else polls[j].now - polls[i].now
    decreases j - i
  {
    if i < j {
      StretchCharged(start, paused, polls, i, j - 1, found);
    }
  }

  /** The first interval is charged unless the session was paused to begin with. */
  lemma FirstCharged(start: real, paused: bool, polls: seq<Poll>)
    requires polls != []
    ensures Active(start, paused, polls, 1) == if paused then 0.0 else polls[0].now - start
  {
    assert Active(start, paused, polls, 0) == 0.0;
  }
}
