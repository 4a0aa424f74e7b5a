/**
 * A run connection publishes one final frame to current and late subscribers. The lock-protected
 * sections are the steps; the queue writes that follow them outside the lock are steps of their own.
 */
module ChatGateway {

  import opened Basics

  type Queue = nat

  /** `owed` holds the queues a finisher or a late subscriber has still to write the frame to. */
  datatype Connection = Connection(
    subscribers: set<Queue>,
    final: Option<string>,
    owed: set<Queue>,
    received: map<Queue, seq<string>>,
    next: Queue,
    // History: unsubscribed before the end, subscribed at the end, subscribed after it, found full.
    left: set<Queue>,
    present: set<Queue>,
    late: set<Queue>,
    full: set<Queue>)

  datatype Step = Subscribe | Unsubscribe(q: Queue) | Finish(frame: string) | Put(q: Queue, isFull: bool)

  const START := Connection({}, None, {}, map[], 0, {}, {}, {}, {})

  function Subscribed(c: Connection): Connection {
    var c := c.(next := c.next + 1, received := c.received[c.next := []]);
    if c.final.None? then c.(subscribers := c.subscribers + {c.next - 1})
    else c.(owed := c.owed + {c.next - 1}, late := c.late + {c.next - 1})
  }

  function Finished(c: Connection, frame: string): Connection {
    if c.final.Some? then c
    else c.(final := Some(frame), owed := c.subscribers, present := c.subscribers)
  }

  /** A queue that has just been made and is known to nobody else cannot be full. */
  predicate Enabled(c: Connection, step: Step) {
    step.Put? ==> step.q in c.owed && (step.isFull ==> step.q !in c.late) && c.final.Some? && step.q in c.received
  }

  function Next(c: Connection, step: Step): Connection
    requires Enabled(c, step)
  {
    match step
    case Subscribe => Subscribed(c)
    case Unsubscribe(q) =>
      c.(subscribers := c.subscribers - {q},
         left := if c.final.None? && q in c.subscribers then c.left + {q} else c.left)
    case Finish(frame) => Finished(c, frame)
    case Put(q, isFull) =>
      if isFull then c.(owed := c.owed - {q}, full := c.full + {q})
      else c.(owed := c.owed - {q}, received := c.received[q := c.received[q] + [c.final.value]])
  }

  /** Each queue ever made is in one place, and what it holds is determined by that place. */
  ghost predicate Inv(c: Connection) {
    && (forall q: Queue :: q in c.received <==> q < c.next)
    && (forall q: Queue :: q in c.subscribers || q in c.left || q in c.present || q in c.late ==> q < c.next)
    && c.owed <= c.present + c.late && c.full <= c.present && c.owed !! c.full
    && c.left !! c.present && c.left !! c.late && c.present !! c.late
    && (c.final.None? ==> c.present == {} && c.late == {} && c.left !! c.subscribers)
    && (c.final.None? ==> forall q: Queue :: q < c.next ==> c.received[q] == [] && (q in c.subscribers || q in c.left))
    && (c.final.Some? ==> forall q: Queue :: q < c.next ==>
          && (q in c.left || q in c.present || q in c.late)
          && c.received[q] == if (q in c.present || q in c.late) && q !in c.owed && q !in c.full then [c.final.value] else [])
  }

  lemma StartKeeps()
    ensures Inv(START)
  {
  }

  lemma SubscribeKeeps(c: Connection)
    requires Inv(c)
    ensures Inv(Subscribed(c))
  {
  }

  lemma UnsubscribeKeeps(c: Connection, q: Queue)
    requires Inv(c)
    ensures Inv(Next(c, Unsubscribe(q)))
  {
  }

  lemma FinishKeeps(c: Connection, frame: string)
    requires Inv(c)
    ensures Inv(Finished(c, frame))
  {
  }

  lemma PutKeeps(c: Connection, q: Queue, isFull: bool)
    requires Inv(c) && Enabled(c, Put(q, isFull))
    ensures Inv(Next(c, Put(q, isFull)))
  {
  }

  lemma StepKeeps(c: Connection, step: Step)
    requires Inv(c) && Enabled(c, step)
    ensures Inv(Next(c, step)) && (c.final.Some? ==> Next(c, step).final == c.final)
  {
    match step
    case Subscribe => SubscribeKeeps(c);
    case Unsubscribe(q) => UnsubscribeKeeps(c, q);
    case Finish(frame) => FinishKeeps(c, frame);
    case Put(q, isFull) => PutKeeps(c, q, isFull);
  }

  ghost predicate Run(states: seq<Connection>, steps: seq<Step>) {
    && |states| == |steps| + 1 && states[0] == START
    && forall i :: 0 <= i < |steps| ==> Enabled(states[i], steps[i]) && states[i + 1] == Next(states[i], steps[i])
  }

  lemma {:induction false} RunKeeps(states: seq<Connection>, steps: seq<Step>, k: nat)
    requires Run(states, steps) && k <= |steps|
    ensures Inv(states[k])
  {
    StartKeeps();
    if k > 0 {
      RunKeeps(states, steps, k - 1);
      StepKeeps(states[k - 1], steps[k - 1]);
    }
  }

  /** The frame published is the first one and never changes. */
  lemma {:induction false} FinalIsStable(states: seq<Connection>, steps: seq<Step>, i: nat, j: nat)
    requires Run(states, steps) && i <= j <= |steps| && states[i].final.Some?
    ensures states[j].final == states[i].final
    decreases j - i
  {
    if i < j {
      FinalIsStable(states, steps, i, j - 1);
      RunKeeps(states, steps, j - 1);
      StepKeeps(states[j - 1], steps[j - 1]);
    }
  }

  /**
   * However the steps interleave: once nothing is owed any more, a queue subscribed at the end or after
   * it holds the final frame exactly once, unless it was found full; a queue that had left holds none.
   */
  lemma FinalFrameOnce(states: seq<Connection>, steps: seq<Step>, k: nat, q: Queue)
    requires Run(states, steps) && k <= |steps|
    requires var c := states[k]; c.final.Some? && c.owed == {} && q < c.next
    ensures var c := states[k];
      && q in c.received
      && (q in c.left || q in c.present || q in c.late)
      && (q in c.late ==> c.received[q] == [c.final.value])
      && (q in c.present ==> c.received[q] == if q in c.full then [] else [c.final.value])
      && (q in c.left ==> c.received[q] == [])
  {
    RunKeeps(states, steps, k);
  }

  // ---- The same, told from the steps alone ----

  /** Queue `q` was made in step `i`. */
  ghost predicate MadeAt(states: seq<Connection>, steps: seq<Step>, i: nat, q: Queue) {
    i < |steps| && i < |states| && steps[i] == Subscribe && states[i].next == q
  }

  /** Step `f` is the first to finish. */
  ghost predicate FinishedAt(steps: seq<Step>, f: nat) {
    f < |steps| && steps[f].Finish? && forall j :: 0 <= j < f ==> !steps[j].Finish?
  }

  /** `q` was unsubscribed in some step after `i` and before `k`. */
  ghost predicate GoneBetween(steps: seq<Step>, i: nat, k: nat, q: Queue) {
    exists j :: i < j < k && j < |steps| && steps[j] == Unsubscribe(q)
  }

  ghost predicate FoundFull(steps: seq<Step>, k: nat, q: Queue) {
    exists j :: 0 <= j < k && j < |steps| && steps[j] == Put(q, true)
  }

  /** Where `q`, made in step `i`, stands after `k` steps without an end. */
  lemma {:induction false} OpenPlace(states: seq<Connection>, steps: seq<Step>, i: nat, k: nat, q: Queue)
    requires Run(states, steps) && MadeAt(states, steps, i, q) && i < k <= |steps| && forall j :: 0 <= j < k ==> !steps[j].Finish?
    ensures states[k].final.None? && q < states[k].next
    ensures q in states[k].subscribers <==> !GoneBetween(steps, i, k, q)
    ensures q in states[k].left <==> GoneBetween(steps, i, k, q)
  {
    NoFinish(states, steps, k);
    RunKeeps(states, steps, k);
    if k == i + 1 {
      NoFinish(states, steps, i);
    } else {
      OpenPlace(states, steps, i, k - 1, q);
      GoneStep(steps, i, k, q);
    }
  }

  lemma GoneStep(steps: seq<Step>, i: nat, k: nat, q: Queue)
    requires i + 1 < k <= |steps|
    ensures GoneBetween(steps, i, k, q) <==> GoneBetween(steps, i, k - 1, q) || steps[k - 1] == Unsubscribe(q)
  {
    if j :| i < j < k && j < |steps| && steps[j] == Unsubscribe(q) {
      assert j < k - 1 ==> GoneBetween(steps, i, k - 1, q);
    }
  }

  lemma {:induction false} NoFinish(states: seq<Connection>, steps: seq<Step>, k: nat)
    requires Run(states, steps) && k <= |steps| && forall j :: 0 <= j < k ==> !steps[j].Finish?
    ensures states[k].final.None?
  {
    if k > 0 { NoFinish(states, steps, k - 1); }
  }

  /** After the end nothing but a late subscription changes where a queue stands. */
  lemma {:induction false} ClosedPlace(states: seq<Connection>, steps: seq<Step>, i: nat, k: nat, q: Queue)
    requires Run(states, steps) && i <= k <= |steps| && states[i].final.Some? && q < states[i].next
    ensures q < states[k].next && states[k].final == states[i].final
    ensures q in states[k].left <==> q in states[i].left
    ensures q in states[k].present <==> q in states[i].present
    ensures q in states[k].late <==> q in states[i].late
    decreases k - i
  {
    if i < k {
      ClosedPlace(states, steps, i, k - 1, q);
      RunKeeps(states, steps, k - 1);
    }
  }

  lemma {:induction false} FullTold(states: seq<Connection>, steps: seq<Step>, k: nat, q: Queue)
    requires Run(states, steps) && k <= |steps|
    ensures q in states[k].full <==> FoundFull(steps, k, q)
  {
    if k > 0 {
      FullTold(states, steps, k - 1, q);
      if j :| 0 <= j < k && j < |steps| && steps[j] == Put(q, true) {
        assert j < k - 1 ==> FoundFull(steps, k - 1, q);
      }
    }
  }

  /**
   * However the steps interleave, once nothing is owed any more: a queue made before the first finish holds its frame,
   * once, if and only if it was not unsubscribed in between nor found full, and nothing otherwise; a queue made
   * after it holds the frame once.
   */
  lemma FrameByHistory(states: seq<Connection>, steps: seq<Step>, k: nat, f: nat, i: nat, q: Queue)
    requires Run(states, steps) && k <= |steps| && FinishedAt(steps, f) && f < k && MadeAt(states, steps, i, q) && i < k
    requires states[k].owed == {}
    ensures q in states[k].received
    ensures states[k].received[q]
         == if i < f && (GoneBetween(steps, i, f, q) || FoundFull(steps, k, q)) then [] else [steps[f].frame]
  {
    NoFinish(states, steps, f);
    var c := states[f + 1];
    assert c == Next(states[f], steps[f]) && c.final == Some(steps[f].frame);
    FinalIsStable(states, steps, f + 1, k);
    if i < f {
      OpenPlace(states, steps, i, f, q);
      ClosedPlace(states, steps, f + 1, k, q);
    } else {
      FinalIsStable(states, steps, f + 1, i);
      assert states[i + 1] == Next(states[i], steps[i]) && q in states[i + 1].late;
      ClosedPlace(states, steps, i + 1, k, q);
    }
    FullTold(states, steps, k, q);
    RunKeeps(states, steps, k);
    FinalFrameOnce(states, steps, k, q);
  }

  /** Every queue has a step that made it. */
  lemma {:induction false} EveryQueueMade(states: seq<Connection>, steps: seq<Step>, k: nat, q: Queue) returns (i: nat)
    requires Run(states, steps) && k <= |steps| && q < states[k].next
    ensures i < k && MadeAt(states, steps, i, q)
  {
    if q < states[k - 1].next { i := EveryQueueMade(states, steps, k - 1, q); } else { i := k - 1; }
  }
}
