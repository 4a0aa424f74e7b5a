/**
 * The queue of chat messages that could not be sent yet: bounded, without duplicates, flushed in
 * order, and backed off after each rejection.
 */
module Outbound {
  import opened Basics

  /** A message with its envelope; an empty string stands for an absent field. */
  datatype Extra = Extra(metadata: string, replyTo: string, origin: string)

  datatype Entry = Entry(text: string, extra: Extra)

  /** What makes two queued messages the same. */
  datatype Id = Id(text: string, origin: string, replyTo: string)

  function IdOf(e: Entry): Id {
    Id(e.text, e.extra.origin, e.extra.replyTo)
  }

  function Ids(entries: seq<Entry>): seq<Id> {
    seq(|entries|, i requires 0 <= i < |entries| => IdOf(entries[i]))
  }

  predicate Distinct(ids: seq<Id>) {
    forall i, j :: 0 <= i < j < |ids| ==> ids[i] != ids[j]
  }

  // ---- Queueing ----

  /** The place of an equal message, or the length. */
  function Find(entries: seq<Entry>, id: Id): (p: nat)
    ensures p <= |entries| && (p < |entries| ==> IdOf(entries[p]) == id)
    ensures forall i :: 0 <= i < p ==> IdOf(entries[i]) != id
  {
    if entries == [] || IdOf(entries[0]) == id then 0 else 1 + Find(entries[1..], id)
  }

  function Queued(entries: seq<Entry>, limit: nat, e: Entry): seq<Entry>
    requires limit >= 1
  {
    var p := Find(entries, IdOf(e));
    if p < |entries| then entries[p := e]
    else if |entries| >= limit then entries[1..] + [e]
    else entries + [e]
  }

  function QueuedAll(entries: seq<Entry>, limit: nat, arrivals: seq<Entry>): seq<Entry>
    requires limit >= 1
    decreases |arrivals|
  {
    if arrivals == [] then entries else QueuedAll(Queued(entries, limit, arrivals[0]), limit, arrivals[1..])
  }

  // ---- Flushing ----

  datatype Outcome = Acked | AckLost | Nacked | NotConnected | Raised

  predicate Delivers(o: Outcome) {
    o.Acked? || o.AckLost?
  }

  /** One send: what is queued while it is in flight, how it ends and when. */
  datatype Send = Send(arrivals: seq<Entry>, outcome: Outcome, now: real)

  datatype Config = Config(limit: nat, base: real, max: real) {
    predicate Valid() {
      limit >= 1 && 0.0 <= base <= max
    }
  }

  datatype Outbox = Outbox(entries: seq<Entry>, delay: real, nextFlush: real, sent: seq<Entry>)

  function Doubled(c: Config, delay: real): real {
    var next := if delay > 0.0 then delay * 2.0 else c.base;
    if next <= c.max then next else c.max
  }

  function Answered(c: Config, o: Outbox, s: Send): Outbox {
    if Delivers(s.outcome) then o.(delay := c.base, nextFlush := 0.0)
    else if s.outcome.Nacked? then o.(delay := Doubled(c, o.delay), nextFlush := s.now + o.delay)
    else o
  }

  /** Sends from the front until a send fails, the queue is empty or `script` ends. */
  function Flushed(c: Config, o: Outbox, script: seq<Send>): Outbox
    requires c.Valid()
    decreases |script|
  {
    if o.entries == [] || script == [] then o
    else
      var s := script[0];
      var after := Answered(c, o.(entries := QueuedAll(o.entries, c.limit, s.arrivals)), s);
      if Delivers(s.outcome) && after.entries != [] then
        Flushed(c, after.(entries := after.entries[1..], sent := o.sent + [o.entries[0]]), script[1..])
      else after
  }

  /** A flush goes ahead when its head has somewhere to go and the backoff has run out or is overridden. */
  function Attempted(c: Config, o: Outbox, wildcard: string, force: bool, now: real, script: seq<Send>): Outbox
    requires c.Valid()
  {
    if o.entries == [] || (wildcard == "" && o.entries[0].extra.origin == "") then o
    else if force then Flushed(c, o.(delay := c.base, nextFlush := 0.0), script)
    else if o.nextFlush > now then o
    else Flushed(c, o, script)
  }

  /** A new message joins those waiting; with none waiting it is sent at once, and queued if the
      send is refused or cannot start.  An exception other than "not connected" leaves the call, and the
      message is not queued. */
  function Dispatched(c: Config, o: Outbox, wildcard: string, e: Entry, direct: Send, now: real, script: seq<Send>): (Outbox, bool)
    requires c.Valid()
  {
    if e.extra.origin == "" then (o, false)
    else if o.entries != [] then
      (Attempted(c, o.(entries := Queued(o.entries, c.limit, e)), wildcard, false, now, script), false)
    else
      var a := Answered(c, o.(entries := QueuedAll([], c.limit, direct.arrivals)), direct);
      if Delivers(direct.outcome) then (a.(sent := o.sent + [e]), false)
      else if direct.outcome.Raised? then (a, true)
      else (a.(entries := Queued(a.entries, c.limit, e)), false)
  }

  // ---- The queue keeps its shape ----

  predicate Orderly(entries: seq<Entry>, limit: nat) {
    |entries| <= limit && Distinct(Ids(entries))
  }

  lemma FindIds(entries: seq<Entry>, id: Id)
    ensures Find(entries, id) < |entries| <==> id in Ids(entries)
  {
    var p := Find(entries, id);
    if p < |entries| {
      assert Ids(entries)[p] == id;
    }
  }

  /** What queueing does to the identities: nothing to a duplicate, else appends, evicting the oldest when full. */
  lemma QueuedIds(entries: seq<Entry>, limit: nat, e: Entry)
    requires limit >= 1
    ensures Ids(Queued(entries, limit, e))
         == if IdOf(e) in Ids(entries) then Ids(entries)
            else if |entries| >= limit then Ids(entries)[1..] + [IdOf(e)]
            else Ids(entries) + [IdOf(e)]
  {
    FindIds(entries, IdOf(e));
  }

  /** The same text to the same place in answer to the same message. */
  predicate SameMessage(a: Entry, b: Entry) {
    a.text == b.text && a.extra.origin == b.extra.origin && a.extra.replyTo == b.extra.replyTo
  }

  /** A message takes the place of the same message waiting, if there is one, and joins at the end otherwise. */
  lemma QueuedExactly(entries: seq<Entry>, limit: nat, e: Entry)
    requires limit >= 1 && Orderly(entries, limit)
    ensures var q := Queued(entries, limit, e);
      if exists i :: 0 <= i < |entries| && SameMessage(entries[i], e) then
        |q| == |entries| && forall i :: 0 <= i < |entries| ==> q[i] == if SameMessage(entries[i], e) then e else entries[i]
      else q == (if |entries| < limit then entries else entries[1..]) + [e]
  {
    var p := Find(entries, IdOf(e));
    assert forall i :: 0 <= i < |entries| ==> (SameMessage(entries[i], e) <==> Ids(entries)[i] == IdOf(e));
    if p < |entries| {
      assert SameMessage(entries[p], e) && Ids(entries)[p] == IdOf(e);
    }
  }

  lemma DistinctSnoc(ids: seq<Id>, id: Id)
    requires Distinct(ids) && id !in ids
    ensures Distinct(ids + [id])
  {
    assert forall i :: 0 <= i < |ids| ==> ids[i] in ids;
  }

  /** Bounded and free of duplicates, and the message queued is there in its latest form. */
  lemma QueuedOrderly(entries: seq<Entry>, limit: nat, e: Entry)
    requires limit >= 1 && Orderly(entries, limit)
    ensures Orderly(Queued(entries, limit, e), limit) && e in Queued(entries, limit, e)
  {
    var ids, id, p := Ids(entries), IdOf(e), Find(entries, IdOf(e));
    QueuedIds(entries, limit, e);
    FindIds(entries, id);
    if p < |entries| {
      assert entries[p := e][p] == e;
    } else {
      DistinctSnoc(ids, id);
      if |entries| >= limit {
        assert ids[1..] + [id] == (ids + [id])[1..];
      }
    }
  }

  lemma {:induction false} QueuedAllOrderly(entries: seq<Entry>, limit: nat, arrivals: seq<Entry>)
    requires limit >= 1 && Orderly(entries, limit)
    ensures Orderly(QueuedAll(entries, limit, arrivals), limit)
    ensures entries != [] ==> QueuedAll(entries, limit, arrivals) != []
    decreases |arrivals|
  {
    if arrivals != [] {
      QueuedOrderly(entries, limit, arrivals[0]);
      QueuedAllOrderly(Queued(entries, limit, arrivals[0]), limit, arrivals[1..]);
    }
  }

  lemma {:induction false} FlushedOrderly(c: Config, o: Outbox, script: seq<Send>)
    requires c.Valid() && Orderly(o.entries, c.limit)
    ensures Orderly(Flushed(c, o, script).entries, c.limit)
    decreases |script|
  {
    if o.entries != [] && script != [] {
      var q := QueuedAll(o.entries, c.limit, script[0].arrivals);
      QueuedAllOrderly(o.entries, c.limit, script[0].arrivals);
      if Delivers(script[0].outcome) {
        assert Ids(q[1..]) == Ids(q)[1..];
        var after := Answered(c, o.(entries := q), script[0]);
        FlushedOrderly(c, after.(entries := q[1..], sent := o.sent + [o.entries[0]]), script[1..]);
      }
    }
  }

  /** A direct send leaves its message sent or queued if and only if it did not raise, or an equal
      message was queued meanwhile; and the call raises exactly when the send does. */
  lemma DirectSendKeptExactly(c: Config, o: Outbox, wildcard: string, e: Entry, direct: Send, now: real, script: seq<Send>)
    requires c.Valid() && o.entries == [] && e.extra.origin != ""
    ensures var (r, raised) := Dispatched(c, o, wildcard, e, direct, now, script);
      && raised == direct.outcome.Raised?
      && (e in r.entries || r.sent == o.sent + [e] <==> !direct.outcome.Raised? || e in QueuedAll([], c.limit, direct.arrivals))
  {
    var q := QueuedAll([], c.limit, direct.arrivals);
    QueuedAllOrderly([], c.limit, direct.arrivals);
    QueuedOrderly(q, c.limit, e);
    assert |o.sent + [e]| == |o.sent| + 1;
  }

  /** A call raises exactly when it sends at once and the send raises; a message without address changes nothing. */
  lemma SendRaisesExactly(c: Config, o: Outbox, wildcard: string, e: Entry, direct: Send, now: real, script: seq<Send>)
    requires c.Valid()
    ensures var (r, raised) := Dispatched(c, o, wildcard, e, direct, now, script);
      && (raised <==> e.extra.origin != "" && o.entries == [] && direct.outcome == Raised)
      && (e.extra.origin == "" ==> r == o)
  {
    if e.extra.origin != "" && o.entries == [] {
      DirectSendKeptExactly(c, o, wildcard, e, direct, now, script);
    }
  }

  /** With nothing queued meanwhile, the message of a send that raised is gone without a trace. */
  lemma RaisingSendLosesMessage(c: Config, o: Outbox, wildcard: string, e: Entry, now: real)
    requires c.Valid() && o.entries == [] && e.extra.origin != ""
    ensures Dispatched(c, o, wildcard, e, Send([], Raised, now), now, []) == (o, true)
  {
    assert QueuedAll([], c.limit, []) == [];
  }

  // ---- The ledger: what came in, what was evicted, what was sent ----

  predicate Evicts(entries: seq<Entry>, limit: nat, e: Entry) {
    IdOf(e) !in Ids(entries) && |entries| >= limit
  }

  function Added(entries: seq<Entry>, limit: nat, arrivals: seq<Entry>): seq<Id>
    requires limit >= 1
    decreases |arrivals|
  {
    if arrivals == [] then []
    else
      (if IdOf(arrivals[0]) in Ids(entries) then [] else [IdOf(arrivals[0])])
      + Added(Queued(entries, limit, arrivals[0]), limit, arrivals[1..])
  }

  function Evicted(entries: seq<Entry>, limit: nat, arrivals: seq<Entry>): nat
    requires limit >= 1
    decreases |arrivals|
  {
    if arrivals == [] then 0
    else (if Evicts(entries, limit, arrivals[0]) then 1 else 0) + Evicted(Queued(entries, limit, arrivals[0]), limit, arrivals[1..])
  }

  /** `left` is `all` less its first `gone`. */
  predicate Leaves(all: seq<Id>, gone: nat, left: seq<Id>) {
    gone <= |all| && left == all[gone..]
  }

  lemma LedgerStep(a: seq<Id>, own: seq<Id>, k: nat, mid: seq<Id>, more: seq<Id>, rest: nat, left: seq<Id>)
    requires Leaves(a + own, k, mid) && Leaves(mid + more, rest, left)
    ensures Leaves(a + (own + more), k + rest, left)
  {
    assert a + (own + more) == (a + own) + more;
    assert mid + more == ((a + own) + more)[k..];
  }

  /** `sent` is `was` and then the first `k` of `all`. */
  predicate Sends(all: seq<Id>, k: nat, was: seq<Id>, sent: seq<Id>) {
    k <= |all| && sent == was + all[..k]
  }

  lemma FifoStep(a: seq<Id>, own: seq<Id>, mid: seq<Id>, more: seq<Id>, k: nat, was: seq<Id>, via: seq<Id>, sent: seq<Id>)
    requires a != [] && Leaves(a + own, 1, mid) && via == was + [a[0]] && Sends(mid + more, k, via, sent)
    ensures Sends(a + (own + more), k + 1, was, sent)
  {
    var all := a + (own + more);
    assert all == (a + own) + more;
    assert mid + more == all[1..];
    assert [a[0]] + all[1..][..k] == all[..k + 1];
  }

  lemma QueuedLedger(entries: seq<Entry>, limit: nat, e: Entry)
    requires limit >= 1
    ensures var own: seq<Id> := if IdOf(e) in Ids(entries) then [] else [IdOf(e)];
      Leaves(Ids(entries) + own, if Evicts(entries, limit, e) then 1 else 0, Ids(Queued(entries, limit, e)))
  {
    QueuedIds(entries, limit, e);
  }

  /** The queue is always what came in, in order, less a stretch from the front. */
  lemma {:induction false} QueueLedger(entries: seq<Entry>, limit: nat, arrivals: seq<Entry>)
    requires limit >= 1
    ensures Leaves(Ids(entries) + Added(entries, limit, arrivals), Evicted(entries, limit, arrivals),
                   Ids(QueuedAll(entries, limit, arrivals)))
    decreases |arrivals|
  {
    if arrivals == [] {
      assert Ids(entries) + [] == Ids(entries);
    } else {
      var e, q := arrivals[0], Queued(entries, limit, arrivals[0]);
      QueueLedger(q, limit, arrivals[1..]);
      QueuedLedger(entries, limit, e);
      LedgerStep(Ids(entries), if IdOf(e) in Ids(entries) then [] else [IdOf(e)],
                 if Evicts(entries, limit, e) then 1 else 0, Ids(q), Added(q, limit, arrivals[1..]),
                 Evicted(q, limit, arrivals[1..]), Ids(QueuedAll(q, limit, arrivals[1..])));
    }
  }

  function FlushAdded(c: Config, o: Outbox, script: seq<Send>): seq<Id>
    requires c.Valid()
    decreases |script|
  {
    if o.entries == [] || script == [] then []
    else Added(o.entries, c.limit, script[0].arrivals) + (if Goes(c, o, script[0]) then FlushAdded(c, Sent(c, o, script[0]), script[1..]) else [])
  }

  function FlushEvicted(c: Config, o: Outbox, script: seq<Send>): nat
    requires c.Valid()
    decreases |script|
  {
    if o.entries == [] || script == [] then 0
    else Evicted(o.entries, c.limit, script[0].arrivals) + (if Goes(c, o, script[0]) then FlushEvicted(c, Sent(c, o, script[0]), script[1..]) else 0)
  }

  predicate Goes(c: Config, o: Outbox, s: Send)
    requires c.Valid()
  {
    Delivers(s.outcome) && QueuedAll(o.entries, c.limit, s.arrivals) != []
  }

  /** The outbox after a send that went. */
  function Sent(c: Config, o: Outbox, s: Send): Outbox
    requires c.Valid() && o.entries != [] && Goes(c, o, s)
  {
    var after := Answered(c, o.(entries := QueuedAll(o.entries, c.limit, s.arrivals)), s);
    after.(entries := after.entries[1..], sent := o.sent + [o.entries[0]])
  }

  /**
   * One send that goes: the head is sent, and then whatever is in front by that time is removed. With
   * no eviction meanwhile that is the head; with some it is the entry that many places behind it, which
   * is discarded unsent.
   */
  lemma SendLedger(c: Config, o: Outbox, s: Send)
    requires c.Valid() && o.entries != [] && Goes(c, o, s)
    ensures var n := Sent(c, o, s);
      && Leaves(Ids(o.entries) + Added(o.entries, c.limit, s.arrivals), Evicted(o.entries, c.limit, s.arrivals) + 1, Ids(n.entries))
      && Ids(n.sent) == Ids(o.sent) + [Ids(o.entries)[0]]
  {
    var q := QueuedAll(o.entries, c.limit, s.arrivals);
    QueueLedger(o.entries, c.limit, s.arrivals);
    assert Ids(q[1..]) == Ids(q)[1..];
  }

  function Deliveries(c: Config, o: Outbox, script: seq<Send>): nat
    requires c.Valid()
    decreases |script|
  {
    if o.entries == [] || script == [] || !Goes(c, o, script[0]) then 0
    else 1 + Deliveries(c, Sent(c, o, script[0]), script[1..])
  }

  /** Over a whole flush the queue loses one entry per delivery and one per eviction, all from the front. */
  lemma {:induction false} FlushLedger(c: Config, o: Outbox, script: seq<Send>)
    requires c.Valid()
    ensures Leaves(Ids(o.entries) + FlushAdded(c, o, script), Deliveries(c, o, script) + FlushEvicted(c, o, script),
                   Ids(Flushed(c, o, script).entries))
    decreases |script|
  {
    if o.entries == [] || script == [] {
      assert Ids(o.entries) + [] == Ids(o.entries);
    } else if Goes(c, o, script[0]) {
      var s, n := script[0], Sent(c, o, script[0]);
      SendLedger(c, o, s);
      FlushLedger(c, n, script[1..]);
      LedgerStep(Ids(o.entries), Added(o.entries, c.limit, s.arrivals), Evicted(o.entries, c.limit, s.arrivals) + 1,
                 Ids(n.entries), FlushAdded(c, n, script[1..]),
                 Deliveries(c, n, script[1..]) + FlushEvicted(c, n, script[1..]), Ids(Flushed(c, n, script[1..]).entries));
    } else {
      var own := Added(o.entries, c.limit, script[0].arrivals);
      QueueLedger(o.entries, c.limit, script[0].arrivals);
      assert own + [] == own;
    }
  }

  lemma {:induction false} FlushFifo(c: Config, o: Outbox, script: seq<Send>)
    requires c.Valid() && FlushEvicted(c, o, script) == 0
    ensures Sends(Ids(o.entries) + FlushAdded(c, o, script), Deliveries(c, o, script), Ids(o.sent), Ids(Flushed(c, o, script).sent))
    decreases |script|
  {
    if o.entries == [] || script == [] || !Goes(c, o, script[0]) {
      assert Ids(o.sent) + [] == Ids(o.sent);
    } else {
      var s, n := script[0], Sent(c, o, script[0]);
      SendLedger(c, o, s);
      FlushFifo(c, n, script[1..]);
      FifoStep(Ids(o.entries), Added(o.entries, c.limit, s.arrivals), Ids(n.entries), FlushAdded(c, n, script[1..]),
               Deliveries(c, n, script[1..]), Ids(o.sent), Ids(n.sent), Ids(Flushed(c, n, script[1..]).sent));
    }
  }

  // ---- In which form: a message queued again replaces the envelope of the one waiting ----

  /** The last message with this identity. */
  function Newest(history: seq<Entry>, id: Id): Option<Entry> {
    if history == [] then None
    else if IdOf(Last(history)) == id then Some(Last(history))
    else Newest(Init(history), id)
  }

  /** `x` is the last form of its message. */
  predicate IsNewest(history: seq<Entry>, x: Entry) {
    Newest(history, IdOf(x)) == Some(x)
  }

  /** Every message waits in the last form it came in. */
  predicate Current(entries: seq<Entry>, history: seq<Entry>) {
    forall i :: 0 <= i < |entries| ==> IsNewest(history, entries[i])
  }

  lemma NewestSnoc(history: seq<Entry>, e: Entry, id: Id)
    ensures Newest(history + [e], id) == if IdOf(e) == id then Some(e) else Newest(history, id)
  {
    assert Init(history + [e]) == history;
  }

  lemma {:induction false} NewestAppend(history: seq<Entry>, more: seq<Entry>, id: Id)
    ensures Newest(history + more, id) == if Newest(more, id).Some? then Newest(more, id) else Newest(history, id)
    decreases |more|
  {
    if more == [] {
      assert history + more == history;
    } else {
      assert Init(history + more) == history + Init(more);
      NewestAppend(history, Init(more), id);
    }
  }

  lemma {:induction false} NewestIn(history: seq<Entry>, id: Id)
    ensures var x := Newest(history, id); x.Some? ==> x.value in history && IdOf(x.value) == id
  {
    if history != [] {
      assert history == Init(history) + [Last(history)];
      NewestIn(Init(history), id);
    }
  }

  lemma {:induction false} SelfCurrent(entries: seq<Entry>)
    requires Distinct(Ids(entries))
    ensures Current(entries, entries)
  {
    if entries != [] {
      var init, e := Init(entries), Last(entries);
      assert Ids(init) == Init(Ids(entries)) && entries == init + [e];
      SelfCurrent(init);
      forall i | 0 <= i < |entries| ensures IsNewest(entries, entries[i]) {
        NewestSnoc(init, e, IdOf(entries[i]));
        assert Ids(entries)[i] == IdOf(entries[i]) && Ids(entries)[|init|] == IdOf(e);
      }
    }
  }

  lemma QueuedCurrent(entries: seq<Entry>, limit: nat, e: Entry, history: seq<Entry>)
    requires limit >= 1 && Distinct(Ids(entries)) && Current(entries, history)
    ensures Current(Queued(entries, limit, e), history + [e])
  {
    var q, p := Queued(entries, limit, e), Find(entries, IdOf(e));
    forall i | 0 <= i < |q| ensures IsNewest(history + [e], q[i]) {
      NewestSnoc(history, e, IdOf(q[i]));
      if p < |entries| && i != p {
        assert Ids(entries)[i] == IdOf(q[i]) && Ids(entries)[p] == IdOf(e);
      }
    }
  }

  lemma {:induction false} QueuedAllCurrent(entries: seq<Entry>, limit: nat, arrivals: seq<Entry>, history: seq<Entry>)
    requires limit >= 1 && Orderly(entries, limit) && Current(entries, history)
    ensures Current(QueuedAll(entries, limit, arrivals), history + arrivals)
    decreases |arrivals|
  {
    if arrivals == [] {
      assert history + arrivals == history;
    } else {
      QueuedOrderly(entries, limit, arrivals[0]);
      QueuedCurrent(entries, limit, arrivals[0], history);
      QueuedAllCurrent(Queued(entries, limit, arrivals[0]), limit, arrivals[1..], history + [arrivals[0]]);
      assert arrivals == [arrivals[0]] + arrivals[1..];
      Assoc(history, [arrivals[0]], arrivals[1..]);
    }
  }

  /** What came in while the first `j` sends were in flight. */
  function Before(script: seq<Send>, j: nat): seq<Entry>
    requires j <= |script|
  {
    if j == 0 then [] else script[0].arrivals + Before(script[1..], j - 1)
  }

  /** What came in during the whole flush. */
  function Arrived(c: Config, o: Outbox, script: seq<Send>): seq<Entry>
    requires c.Valid()
    decreases |script|
  {
    if o.entries == [] || script == [] then []
    else script[0].arrivals + (if Goes(c, o, script[0]) then Arrived(c, Sent(c, o, script[0]), script[1..]) else [])
  }

  lemma SentCurrent(c: Config, o: Outbox, s: Send, history: seq<Entry>)
    requires c.Valid() && o.entries != [] && Goes(c, o, s) && Orderly(o.entries, c.limit) && Current(o.entries, history)
    ensures Orderly(Sent(c, o, s).entries, c.limit) && Current(Sent(c, o, s).entries, history + s.arrivals)
  {
    var q := QueuedAll(o.entries, c.limit, s.arrivals);
    QueuedAllOrderly(o.entries, c.limit, s.arrivals);
    QueuedAllCurrent(o.entries, c.limit, s.arrivals, history);
    assert Ids(q[1..]) == Ids(q)[1..];
  }

  /** What a flush leaves waits in its last form, evictions or not. */
  lemma {:induction false} FlushCurrent(c: Config, o: Outbox, script: seq<Send>, history: seq<Entry>)
    requires c.Valid() && Orderly(o.entries, c.limit) && Current(o.entries, history)
    ensures Current(Flushed(c, o, script).entries, history + Arrived(c, o, script))
    decreases |script|
  {
    if o.entries == [] || script == [] {
      assert history + [] == history;
    } else if Goes(c, o, script[0]) {
      var s, n := script[0], Sent(c, o, script[0]);
      SentCurrent(c, o, s, history);
      FlushCurrent(c, n, script[1..], history + s.arrivals);
      Assoc(history, s.arrivals, Arrived(c, n, script[1..]));
    } else {
      QueuedAllCurrent(o.entries, c.limit, script[0].arrivals, history);
      assert script[0].arrivals + [] == script[0].arrivals;
    }
  }

  /** Each of `sent`, one per send, is the last form that came in before its own send began. */
  predicate Timely(history: seq<Entry>, script: seq<Send>, sent: seq<Entry>)
    requires |sent| <= |script|
    decreases |sent|
  {
    sent == [] || (IsNewest(history, sent[0]) && Timely(history + script[0].arrivals, script[1..], sent[1..]))
  }

  lemma {:induction false} TimelyAt(history: seq<Entry>, script: seq<Send>, sent: seq<Entry>, j: nat)
    requires j < |sent| <= |script| && Timely(history, script, sent)
    ensures IsNewest(history + Before(script, j), sent[j])
    decreases j
  {
    if j == 0 {
      assert history + [] == history;
    } else {
      TimelyAt(history + script[0].arrivals, script[1..], sent[1..], j - 1);
      Assoc(history, script[0].arrivals, Before(script[1..], j - 1));
    }
  }

  /** What a flush sends, beyond what was sent before. */
  function SentBy(c: Config, o: Outbox, script: seq<Send>): seq<Entry>
    requires c.Valid()
    decreases |script|
  {
    if o.entries == [] || script == [] || !Goes(c, o, script[0]) then []
    else [o.entries[0]] + SentBy(c, Sent(c, o, script[0]), script[1..])
  }

  lemma {:induction false} SentGrows(c: Config, o: Outbox, script: seq<Send>)
    requires c.Valid()
    ensures Flushed(c, o, script).sent == o.sent + SentBy(c, o, script)
    ensures |SentBy(c, o, script)| == Deliveries(c, o, script) <= |script|
    decreases |script|
  {
    if o.entries == [] || script == [] || !Goes(c, o, script[0]) {
      assert o.sent + [] == o.sent;
    } else {
      var n := Sent(c, o, script[0]);
      SentGrows(c, n, script[1..]);
      Assoc(o.sent, [o.entries[0]], SentBy(c, n, script[1..]));
    }
  }

  /** What a flush sends goes out in the last form that came in before its own send began. */
  lemma {:induction false} FlushForms(c: Config, o: Outbox, script: seq<Send>, history: seq<Entry>)
    requires c.Valid() && Orderly(o.entries, c.limit) && Current(o.entries, history) && |SentBy(c, o, script)| <= |script|
    ensures Timely(history, script, SentBy(c, o, script))
    decreases |script|
  {
    if o.entries != [] && script != [] && Goes(c, o, script[0]) {
      var n, rest := Sent(c, o, script[0]), SentBy(c, Sent(c, o, script[0]), script[1..]);
      SentCurrent(c, o, script[0], history);
      FlushForms(c, n, script[1..], history + script[0].arrivals);
      assert ([o.entries[0]] + rest)[1..] == rest;
    }
  }

  /** `r` comes of `o` by `k` sends, each of a message in the last form that came in before its
      own send began. */
  predicate SentInForm(o: Outbox, r: Outbox, script: seq<Send>, k: nat) {
    && k <= |script| && |r.sent| == |o.sent| + k
    && forall j :: 0 <= j < k ==> IsNewest(o.entries + Before(script, j), r.sent[|o.sent| + j])
  }

  lemma FlushInForm(c: Config, o: Outbox, script: seq<Send>)
    requires c.Valid() && Orderly(o.entries, c.limit)
    ensures SentInForm(o, Flushed(c, o, script), script, Deliveries(c, o, script))
    ensures Current(Flushed(c, o, script).entries, o.entries + Arrived(c, o, script))
  {
    SelfCurrent(o.entries);
    FlushCurrent(c, o, script, o.entries);
    SentGrows(c, o, script);
    FlushForms(c, o, script, o.entries);
    var r, sent := Flushed(c, o, script), SentBy(c, o, script);
    forall j | 0 <= j < |sent| ensures IsNewest(o.entries + Before(script, j), r.sent[|o.sent| + j]) {
      TimelyAt(o.entries, script, sent, j);
    }
  }

  /** Without evictions a flush sends a prefix, in order, and leaves the suffix: each message sent
      in the last form it had when its send began, each one left in its last form. */
  lemma FlushIsFifo(c: Config, o: Outbox, script: seq<Send>)
    requires c.Valid() && Orderly(o.entries, c.limit) && FlushEvicted(c, o, script) == 0
    ensures var r := Flushed(c, o, script); var all := Ids(o.entries) + FlushAdded(c, o, script); var k := Deliveries(c, o, script);
      k <= |all| && Ids(r.sent) == Ids(o.sent) + all[..k] && Ids(r.entries) == all[k..]
    ensures SentInForm(o, Flushed(c, o, script), script, Deliveries(c, o, script))
    ensures Current(Flushed(c, o, script).entries, o.entries + Arrived(c, o, script))
  {
    FlushFifo(c, o, script);
    FlushLedger(c, o, script);
    FlushInForm(c, o, script);
  }

  /** A form that came in last waits if and only if its message does. */
  lemma NewestWaits(entries: seq<Entry>, limit: nat, arrivals: seq<Entry>, x: Entry)
    requires limit >= 1 && Orderly(entries, limit) && IsNewest(arrivals, x)
    ensures var q := QueuedAll(entries, limit, arrivals); x in q <==> IdOf(x) in Ids(q)
  {
    var q := QueuedAll(entries, limit, arrivals);
    SelfCurrent(entries);
    QueuedAllCurrent(entries, limit, arrivals, entries);
    NewestAppend(entries, arrivals, IdOf(x));
    if IdOf(x) in Ids(q) {
      var i :| 0 <= i < |Ids(q)| && Ids(q)[i] == IdOf(x);
      assert IsNewest(entries + arrivals, q[i]);
    }
    if x in q {
      var i :| 0 <= i < |q| && q[i] == x;
      assert Ids(q)[i] == IdOf(x);
    }
  }

  lemma BehindTheHead(q: seq<Entry>, x: Entry)
    requires Distinct(Ids(q)) && x in q
    ensures x in q[1..] <==> IdOf(x) != IdOf(q[0])
  {
    var i :| 0 <= i < |q| && q[i] == x;
    if i == 0 {
      forall j | 1 <= j < |q| ensures q[j] != x {
        assert Ids(q)[0] != Ids(q)[j];
      }
    } else {
      assert Ids(q)[0] != Ids(q)[i];
      assert q[1..][i - 1] == x;
    }
  }

  /** A form that comes in last while a send is in flight waits afterwards if and only if its
      message is found past the first n + 1 of all that came in, n being the number of evictions:
      n were evicted, and one more was removed for the one sent. */
  lemma UpdateLostExactly(c: Config, o: Outbox, s: Send, x: Entry)
    requires c.Valid() && o.entries != [] && Goes(c, o, s) && Orderly(o.entries, c.limit) && IsNewest(s.arrivals, x)
    ensures x in Sent(c, o, s).entries
            <==> Behind(Ids(o.entries) + Added(o.entries, c.limit, s.arrivals), Evicted(o.entries, c.limit, s.arrivals) + 1, IdOf(x))
  {
    var q := QueuedAll(o.entries, c.limit, s.arrivals);
    SendLedger(c, o, s);
    NewestWaits(o.entries, c.limit, s.arrivals, x);
    QueuedAllOrderly(o.entries, c.limit, s.arrivals);
    if x in q {
      BehindTheHead(q, x);
    }
    assert Ids(q[1..]) == Ids(q)[1..];
    BehindIds(q, IdOf(x));
  }

  /** `id` occurs past the first `n`. */
  predicate Behind(ids: seq<Id>, n: nat, id: Id) {
    n <= |ids| && id in ids[n..]
  }

  lemma BehindIds(q: seq<Entry>, id: Id)
    requires q != [] && Distinct(Ids(q))
    ensures id in Ids(q)[1..] <==> id in Ids(q) && id != IdOf(q[0])
  {
    var ids := Ids(q);
    assert ids == [ids[0]] + ids[1..];
    forall i | 0 < i < |ids| ensures ids[i] != ids[0] {}
  }

  /** Without evictions only a new form of the very message in flight is lost. */
  lemma UpdateLostInFlight(c: Config, o: Outbox, s: Send, x: Entry)
    requires c.Valid() && o.entries != [] && Goes(c, o, s) && Orderly(o.entries, c.limit)
    requires Evicted(o.entries, c.limit, s.arrivals) == 0 && IsNewest(s.arrivals, x)
    ensures x in Sent(c, o, s).entries <==> IdOf(x) != IdOf(o.entries[0])
  {
    var q := QueuedAll(o.entries, c.limit, s.arrivals);
    ArrivalWaits(o.entries, c.limit, s.arrivals, x);
    QueueLedger(o.entries, c.limit, s.arrivals);
    QueuedAllOrderly(o.entries, c.limit, s.arrivals);
    assert Ids(q)[0] == Ids(o.entries)[0];
    BehindTheHead(q, x);
  }

  lemma ArrivalWaits(entries: seq<Entry>, limit: nat, arrivals: seq<Entry>, x: Entry)
    requires limit >= 1 && Orderly(entries, limit) && Evicted(entries, limit, arrivals) == 0 && IsNewest(arrivals, x)
    ensures x in QueuedAll(entries, limit, arrivals)
  {
    QueueLedger(entries, limit, arrivals);
    NewestIn(arrivals, IdOf(x));
    ArrivalCounted(entries, limit, arrivals, x);
    NewestWaits(entries, limit, arrivals, x);
  }

  lemma {:induction false} ArrivalCounted(entries: seq<Entry>, limit: nat, arrivals: seq<Entry>, e: Entry)
    requires limit >= 1 && e in arrivals
    ensures IdOf(e) in Ids(entries) + Added(entries, limit, arrivals)
    decreases |arrivals|
  {
    var q := Queued(entries, limit, arrivals[0]);
    var own: seq<Id> := if IdOf(arrivals[0]) in Ids(entries) then [] else [IdOf(arrivals[0])];
    if e == arrivals[0] {
      assert IdOf(e) in Ids(entries) || IdOf(e) in own;
    } else {
      assert arrivals == [arrivals[0]] + arrivals[1..];
      ArrivalCounted(q, limit, arrivals[1..], e);
      QueuedLedger(entries, limit, arrivals[0]);
      assert forall id :: id in Ids(q) ==> id in Ids(entries) + own;
    }
  }

  /** A new envelope for the message in flight is never sent. */
  lemma LatestFormNeverSent(c: Config, a: Entry, b: Entry, delay: real)
    requires c.Valid() && IdOf(a) == IdOf(b) && a != b
    ensures var r := Flushed(c, Outbox([a], delay, 0.0, []), [Send([b], Acked, 0.0)]);
      r.sent == [a] && r.entries == []
  {
    assert Queued([a], c.limit, b) == [b];
    assert QueuedAll([a], c.limit, [b]) == [b];
    assert [b][1..] == [];
  }

  // ---- When a flush goes ahead, and what becomes of a message sent while others wait ----

  /** The head has somewhere to go, and the backoff has run out or is overridden. */
  predicate MayFlush(o: Outbox, wildcard: string, force: bool, now: real) {
    o.entries != [] && (wildcard != "" || o.entries[0].extra.origin != "") && (force || o.nextFlush <= now)
  }

  /** Offered a send that is acknowledged, a flush sends the head exactly when it may, and otherwise changes nothing. */
  lemma FlushStartsExactly(c: Config, o: Outbox, wildcard: string, force: bool, now: real, script: seq<Send>)
    requires c.Valid() && Orderly(o.entries, c.limit) && script != [] && (script[0].outcome.Acked? || script[0].outcome.AckLost?)
    ensures var r := Attempted(c, o, wildcard, force, now, script);
      if o.entries != [] && (wildcard != "" || o.entries[0].extra.origin != "") && (force || o.nextFlush <= now)
      then |r.sent| > |o.sent| && r.sent[|o.sent|] == o.entries[0]
      else r == o
  {
    if o.entries != [] {
      var q := if force then o.(delay := c.base, nextFlush := 0.0) else o;
      QueuedAllOrderly(o.entries, c.limit, script[0].arrivals);
      SentGrows(c, q, script);
      assert Goes(c, q, script[0]);
    }
  }

  /** The identities in the queue after a flush that was or was not let go ahead. */
  lemma AttemptLedger(c: Config, o: Outbox, wildcard: string, now: real, script: seq<Send>)
    requires c.Valid()
    ensures var r := Attempted(c, o, wildcard, false, now, script);
      if MayFlush(o, wildcard, false, now) then
        Leaves(Ids(o.entries) + FlushAdded(c, o, script), Deliveries(c, o, script) + FlushEvicted(c, o, script), Ids(r.entries))
        && |r.sent| == |o.sent| + Deliveries(c, o, script)
      else r == o
  {
    FlushLedger(c, o, script);
    SentGrows(c, o, script);
  }

  /** The message itself, unless an equal one waits already. */
  function Own(entries: seq<Entry>, e: Entry): seq<Id> {
    if exists i :: 0 <= i < |entries| && IdOf(entries[i]) == IdOf(e) then [] else [IdOf(e)]
  }

  lemma OwnIs(entries: seq<Entry>, e: Entry)
    ensures Own(entries, e) == if IdOf(e) in Ids(entries) then [] else [IdOf(e)]
  {
    if i :| 0 <= i < |entries| && IdOf(entries[i]) == IdOf(e) { assert Ids(entries)[i] == IdOf(e); }
  }

  /** Those waiting, with `e` among them: in its place if an equal one waits, else last. */
  function With(o: Outbox, limit: nat, e: Entry): Outbox
    requires limit >= 1
  {
    o.(entries := Queued(o.entries, limit, e))
  }

  /**
   * A message sent while others wait joins them: afterwards the queue holds the old messages, then the new one,
   * then what the flush took in, in order, less one from the front per delivery and per eviction.
   */
  lemma WaitingSendLedger(c: Config, o: Outbox, wildcard: string, e: Entry, direct: Send, now: real, script: seq<Send>)
    requires c.Valid() && o.entries != [] && e.extra.origin != ""
    ensures var (r, raised) := Dispatched(c, o, wildcard, e, direct, now, script); var q := With(o, c.limit, e);
      var own, full := Own(o.entries, e), if |o.entries| >= c.limit then |Own(o.entries, e)| else 0;
      && !raised
      && if MayFlush(q, wildcard, false, now) then
           && Leaves((Ids(o.entries) + own) + FlushAdded(c, q, script), full + Deliveries(c, q, script) + FlushEvicted(c, q, script), Ids(r.entries))
           && |r.sent| == |o.sent| + Deliveries(c, q, script)
         else Leaves(Ids(o.entries) + own, full, Ids(r.entries)) && r.sent == o.sent
  {
    var q, own := With(o, c.limit, e), Own(o.entries, e);
    OwnIs(o.entries, e);
    QueuedLedger(o.entries, c.limit, e);
    AttemptLedger(c, q, wildcard, now, script);
    if MayFlush(q, wildcard, false, now) {
      LedgerStep(Ids(o.entries), own, if |o.entries| >= c.limit then |own| else 0, Ids(q.entries), FlushAdded(c, q, script),
                 Deliveries(c, q, script) + FlushEvicted(c, q, script), Ids(Dispatched(c, o, wildcard, e, direct, now, script).0.entries));
      Assoc(Ids(o.entries), own, FlushAdded(c, q, script));
    }
  }

  /** Nothing is evicted when `e` joins and while the flush runs. */
  predicate NoneEvicted(c: Config, o: Outbox, e: Entry, script: seq<Send>)
    requires c.Valid()
  {
    (Own(o.entries, e) == [] || |o.entries| < c.limit) && FlushEvicted(c, With(o, c.limit, e), script) == 0
  }

  lemma SentOrLeft(ids: seq<Id>, k: nat, id: Id)
    requires k <= |ids| && id in ids
    ensures id in ids[..k] || id in ids[k..]
  {
    var i :| 0 <= i < |ids| && ids[i] == id;
    if i < k { assert ids[..k][i] == id; } else { assert ids[k..][i - k] == id; }
  }

  /** What was sent since `o`. */
  function SentSince(o: Outbox, r: Outbox): seq<Entry>
    requires |o.sent| <= |r.sent|
  {
    r.sent[|o.sent|..]
  }

  lemma FlushKeeps(c: Config, q: Outbox, script: seq<Send>, id: Id)
    requires c.Valid() && Orderly(q.entries, c.limit) && FlushEvicted(c, q, script) == 0 && id in Ids(q.entries)
    ensures var r := Flushed(c, q, script);
      |q.sent| <= |r.sent| && (id in Ids(SentSince(q, r)) || id in Ids(r.entries))
  {
    var r := Flushed(c, q, script);
    FlushIsFifo(c, q, script);
    var all, k := Ids(q.entries) + FlushAdded(c, q, script), Deliveries(c, q, script);
    SentOrLeft(all, k, id);
    assert Ids(SentSince(q, r)) == Ids(r.sent)[|q.sent|..] == all[..k];
  }

  lemma QueuedHas(entries: seq<Entry>, limit: nat, e: Entry)
    requires limit >= 1 && Orderly(entries, limit)
    ensures IdOf(e) in Ids(Queued(entries, limit, e)) && Orderly(Queued(entries, limit, e), limit)
  {
    QueuedOrderly(entries, limit, e);
    var q := Queued(entries, limit, e);
    var i :| 0 <= i < |q| && q[i] == e;
    assert Ids(q)[i] == IdOf(e);
  }

  /** Without evictions the message is sent or waits, in the last form it came in by then. */
  lemma WaitingSendKept(c: Config, o: Outbox, wildcard: string, e: Entry, direct: Send, now: real, script: seq<Send>)
    requires c.Valid() && Orderly(o.entries, c.limit) && o.entries != [] && e.extra.origin != "" && NoneEvicted(c, o, e, script)
    ensures var r := Dispatched(c, o, wildcard, e, direct, now, script).0; var q := With(o, c.limit, e);
      var k := |r.sent| - |o.sent|;
      && |o.sent| <= |r.sent| && (IdOf(e) in Ids(SentSince(o, r)) || IdOf(e) in Ids(r.entries))
      && SentInForm(q, r, script, k)
      && Current(r.entries, q.entries + if MayFlush(q, wildcard, false, now) then Arrived(c, q, script) else [])
  {
    var q, r := With(o, c.limit, e), Dispatched(c, o, wildcard, e, direct, now, script).0;
    QueuedHas(o.entries, c.limit, e);
    if MayFlush(q, wildcard, false, now) {
      assert r == Flushed(c, q, script);
      FlushKeeps(c, q, script, IdOf(e));
      FlushInForm(c, q, script);
    } else {
      SelfCurrent(q.entries);
      assert q.entries + [] == q.entries;
    }
  }

  /** If no equal message comes in meanwhile, it is `e` itself that is sent or waits. */
  lemma WaitingSendItself(c: Config, o: Outbox, wildcard: string, e: Entry, direct: Send, now: real, script: seq<Send>)
    requires c.Valid() && Orderly(o.entries, c.limit) && o.entries != [] && e.extra.origin != "" && NoneEvicted(c, o, e, script)
    requires forall j, x :: 0 <= j < |script| && x in script[j].arrivals ==> IdOf(x) != IdOf(e)
    ensures var r := Dispatched(c, o, wildcard, e, direct, now, script).0;
      |o.sent| <= |r.sent| && (e in SentSince(o, r) || e in r.entries)
  {
    var q, r := With(o, c.limit, e), Dispatched(c, o, wildcard, e, direct, now, script).0;
    WaitingSendKept(c, o, wildcard, e, direct, now, script);
    QueuedOrderly(o.entries, c.limit, e);
    SelfCurrent(q.entries);
    var at :| 0 <= at < |q.entries| && q.entries[at] == e;
    assert IsNewest(q.entries, e);
    ArrivedFrom(c, q, script);
    if IdOf(e) in Ids(SentSince(o, r)) {
      var j :| 0 <= j < |Ids(SentSince(o, r))| && Ids(SentSince(o, r))[j] == IdOf(e);
      BeforeFrom(script, j);
      StillNewest(q.entries, Before(script, j), e);
      assert SentSince(o, r)[j] == r.sent[|o.sent| + j];
      assert IsNewest(q.entries + Before(script, j), r.sent[|o.sent| + j]);
    } else {
      var j :| 0 <= j < |Ids(r.entries)| && Ids(r.entries)[j] == IdOf(e);
      StillNewest(q.entries, if MayFlush(q, wildcard, false, now) then Arrived(c, q, script) else [], e);
      assert r.entries[j] == e;
    }
  }

  lemma StillNewest(history: seq<Entry>, more: seq<Entry>, e: Entry)
    requires IsNewest(history, e) && forall x :: x in more ==> IdOf(x) != IdOf(e)
    ensures IsNewest(history + more, e)
  {
    NewestAppend(history, more, IdOf(e));
    NewestIn(more, IdOf(e));
  }

  lemma {:induction false} BeforeFrom(script: seq<Send>, j: nat)
    requires j <= |script|
    ensures forall x :: x in Before(script, j) ==> exists i :: 0 <= i < |script| && x in script[i].arrivals
    decreases j
  {
    if j > 0 {
      BeforeFrom(script[1..], j - 1);
      forall x | x in Before(script, j) ensures exists i :: 0 <= i < |script| && x in script[i].arrivals {
        if x !in script[0].arrivals {
          var i :| 0 <= i < |script[1..]| && x in script[1..][i].arrivals;
          assert x in script[i + 1].arrivals;
        }
      }
    }
  }

  lemma {:induction false} ArrivedFrom(c: Config, o: Outbox, script: seq<Send>)
    requires c.Valid()
    ensures forall x :: x in Arrived(c, o, script) ==> exists i :: 0 <= i < |script| && x in script[i].arrivals
    decreases |script|
  {
    if o.entries != [] && script != [] {
      var goes := Goes(c, o, script[0]);
      if goes { ArrivedFrom(c, Sent(c, o, script[0]), script[1..]); }
      forall x | x in Arrived(c, o, script) ensures exists i :: 0 <= i < |script| && x in script[i].arrivals {
        if x !in script[0].arrivals {
          assert goes && x in Arrived(c, Sent(c, o, script[0]), script[1..]);
          var i :| 0 <= i < |script[1..]| && x in script[1..][i].arrivals;
          assert x in script[i + 1].arrivals;
        }
      }
    }
  }

  /** An eviction while the head is in flight costs an entry that was neither sent nor the oldest. */
  lemma EvictionDiscardsUnsent(c: Config, a: Entry, b: Entry, x: Entry, delay: real)
    requires c.Valid() && c.limit == 2 && Distinct([IdOf(a), IdOf(b), IdOf(x)])
    ensures var r := Flushed(c, Outbox([a, b], delay, 0.0, []), [Send([x], Acked, 0.0)]);
      r.sent == [a] && r.entries == [x]
  {
    var q := [a, b];
    var ids := [IdOf(a), IdOf(b), IdOf(x)];
    assert ids[0] != ids[1] && ids[0] != ids[2] && ids[1] != ids[2];
    assert Find(q, IdOf(x)) == 2;
    assert Queued(q, 2, x) == [b, x];
    assert QueuedAll(q, 2, [x]) == [b, x];
    assert [b, x][1..] == [x];
  }

  // ---- Backoff ----

  function Pow2(k: nat): real {
    if k == 0 then 1.0 else 2.0 * Pow2(k - 1)
  }

  function Deferrals(c: Config, k: nat): real {
    if k == 0 then c.base else Doubled(c, Deferrals(c, k - 1))
  }

  /** The base doubled k times, capped. */
  function Capped(c: Config, k: nat): real {
    if c.base * Pow2(k) <= c.max then c.base * Pow2(k) else c.max
  }

  lemma {:induction false} BackoffExact(c: Config, k: nat)
    requires c.Valid()
    ensures Deferrals(c, k) == Capped(c, k)
    ensures Pow2(k) >= 1.0
  {
    if k == 0 {
      assert c.base * 1.0 == c.base;
    } else {
      BackoffExact(c, k - 1);
      var p := c.base * Pow2(k - 1);
      assert c.base * Pow2(k) == 2.0 * p;
      if c.base > 0.0 {
        assert p > 0.0;
      } else {
        assert p == 0.0;
      }
    }
  }

  /** A series of answers. */
  function AnsweredAll(c: Config, o: Outbox, sends: seq<Send>): Outbox {
    if sends == [] then o else Answered(c, AnsweredAll(c, o, Init(sends)), Last(sends))
  }

  /** The rejections since the last send that was acknowledged or whose acknowledgement got lost. */
  function Rejections(sends: seq<Send>): nat {
    if sends == [] then 0
    else
      match Last(sends).outcome
      case Acked => 0
      case AckLost => 0
      case Nacked => Rejections(Init(sends)) + 1
      case NotConnected => Rejections(Init(sends))
      case Raised => Rejections(Init(sends))
  }

  /** The time of the last rejection, unless a delivery came after it. */
  function LastRejection(sends: seq<Send>): Option<real> {
    if sends == [] then None
    else
      match Last(sends).outcome
      case Acked => None
      case AckLost => None
      case Nacked => Some(Last(sends).now)
      case NotConnected => LastRejection(Init(sends))
      case Raised => LastRejection(Init(sends))
  }

  lemma {:induction false} AnsweredDelay(c: Config, o: Outbox, sends: seq<Send>)
    requires o.delay == c.base
    ensures var r := AnsweredAll(c, o, sends);
      && r.delay == Deferrals(c, Rejections(sends))
      && (LastRejection(sends).Some? <==> Rejections(sends) > 0)
      && (LastRejection(sends).Some? ==> r.nextFlush == LastRejection(sends).value + Deferrals(c, Rejections(sends) - 1))
      && (LastRejection(sends).None? ==> r.nextFlush == o.nextFlush || r.nextFlush == 0.0)
  {
    if sends != [] {
      AnsweredDelay(c, o, Init(sends));
    }
  }

  /**
   * From a reset, whatever the answers: after k rejections since the last delivery the delay is
   * min(base * 2^k, max), and the next flush is the one before it after the last rejection.
   */
  lemma BackoffAfterAnswers(c: Config, o: Outbox, sends: seq<Send>)
    requires c.Valid() && o.delay == c.base
    ensures var r, k := AnsweredAll(c, o, sends), Rejections(sends);
      && r.delay == Capped(c, k) && r.entries == o.entries && r.sent == o.sent
      && (LastRejection(sends).Some? <==> k > 0)
      && (k > 0 ==> r.nextFlush == LastRejection(sends).value + Capped(c, k - 1))
      && (k == 0 ==> r.nextFlush == o.nextFlush || r.nextFlush == 0.0)
  {
    AnsweredDelay(c, o, sends);
    BackoffExact(c, Rejections(sends));
    if Rejections(sends) > 0 { BackoffExact(c, Rejections(sends) - 1); }
    AnsweredFrame(c, o, sends);
  }

  lemma {:induction false} AnsweredFrame(c: Config, o: Outbox, sends: seq<Send>)
    ensures AnsweredAll(c, o, sends).entries == o.entries && AnsweredAll(c, o, sends).sent == o.sent
  {
    if sends != [] { AnsweredFrame(c, o, Init(sends)); }
  }

  // ---- The client ----

  function Zip(texts: seq<string>, extras: seq<Extra>): seq<Entry>
    requires |texts| == |extras|
  {
    seq(|texts|, i requires 0 <= i < |texts| && |texts| == |extras| => Entry(texts[i], extras[i]))
  }

  lemma ZipOperations(texts: seq<string>, extras: seq<Extra>, e: Entry)
    requires |texts| == |extras|
    ensures Zip(texts + [e.text], extras + [e.extra]) == Zip(texts, extras) + [e]
    ensures texts != [] ==> Zip(texts[1..], extras[1..]) == Zip(texts, extras)[1..]
    ensures forall i :: 0 <= i < |texts| && texts[i] == e.text ==> Zip(texts, extras[i := e.extra]) == Zip(texts, extras)[i := e]
  {
  }

  class Client {
    const config: Config
    var wildcard: string
    var texts: seq<string>
    var extras: seq<Extra>
    var delay: real
    var nextFlush: real
    ghost var sent: seq<Entry>

    /** The two deques are aligned, bounded and hold no message twice. */
    ghost predicate Valid()
      reads this
    {
      config.Valid() && |texts| == |extras| && Orderly(Zip(texts, extras), config.limit)
    }

    ghost function View(): Outbox
      reads this
      requires |texts| == |extras|
    {
      Outbox(Zip(texts, extras), delay, nextFlush, sent)
    }

    constructor (origin: string, limit: int, base: real, max: real)
      ensures Valid() && View() == Outbox([], config.base, 0.0, []) && wildcard == origin
      ensures config.limit == (if limit >= 1 then limit else 1) && config.base == (if base >= 0.0 then base else 0.0)
      ensures config.max == if max >= config.base then max else config.base
    {
      var floor := if base >= 0.0 then base else 0.0;
      config := Config(if limit >= 1 then limit else 1, floor, if max >= floor then max else floor);
      wildcard, texts, extras := origin, [], [];
      delay, nextFlush, sent := floor, 0.0, [];
    }

    method QueuePending(text: string, extra: Extra)
      requires Valid()
      modifies this`texts, this`extras
      ensures Valid()
      ensures View() == old(View()).(entries := Queued(old(View()).entries, config.limit, Entry(text, extra)))
    {
      ghost var e, was := Entry(text, extra), Zip(texts, extras);
      QueuedOrderly(was, config.limit, e);
      ZipOperations(texts, extras, e);
      var i := 0;
      while i < |texts|
        invariant 0 <= i <= |texts| && i <= Find(was, IdOf(e))
        invariant texts == old(texts) && extras == old(extras)
      {
        if texts[i] == text && extras[i].origin == extra.origin && extras[i].replyTo == extra.replyTo {
          extras := extras[i := extra];
          assert Zip(texts, extras) == Queued(was, config.limit, e);
          return;
        }
        assert IdOf(was[i]) != IdOf(e);
        i := i + 1;
      }
      if |texts| >= config.limit {
        texts, extras := texts[1..], extras[1..];
      }
      ZipOperations(texts, extras, e);
      texts, extras := texts + [text], extras + [extra];
      assert Zip(texts, extras) == Queued(was, config.limit, e);
    }

    method QueueAll(arrivals: seq<Entry>)
      requires Valid()
      modifies this`texts, this`extras
      ensures Valid()
      ensures View() == old(View()).(entries := QueuedAll(old(View()).entries, config.limit, arrivals))
    {
      for i := 0 to |arrivals|
        invariant Valid()
        invariant QueuedAll(Zip(texts, extras), config.limit, arrivals[i..])
               == QueuedAll(old(View()).entries, config.limit, arrivals)
      {
        assert arrivals[i..][1..] == arrivals[i + 1..];
        var e := arrivals[i];
        QueuePending(e.text, e.extra);
      }
    }

    method ResetBackoff()
      requires Valid()
      modifies this`delay, this`nextFlush
      ensures Valid() && View() == old(View()).(delay := config.base, nextFlush := 0.0)
    {
      delay, nextFlush := config.base, 0.0;
    }

    method Defer(now: real)
      requires Valid()
      modifies this`delay, this`nextFlush
      ensures Valid() && View() == old(View()).(delay := Doubled(config, old(delay)), nextFlush := now + old(delay))
    {
      nextFlush := now + delay;
      var next := if delay > 0.0 then delay * 2.0 else config.base;
      delay := if next <= config.max then next else config.max;
    }

    /** One send: other tasks queue meanwhile, then the answer sets the backoff. */
    method SendToOrigin(s: Send) returns (ok: bool, raised: bool)
      requires Valid()
      modifies this`texts, this`extras, this`delay, this`nextFlush
      ensures Valid() && ok == Delivers(s.outcome) && raised == s.outcome.Raised?
      ensures var o := old(View());
        View() == Answered(config, o.(entries := QueuedAll(o.entries, config.limit, s.arrivals)), s)
    {
      QueueAll(s.arrivals);
      ok, raised := s.outcome.Acked? || s.outcome.AckLost?, s.outcome.Raised?;
      if ok {
        ResetBackoff();
      } else if s.outcome.Nacked? {
        Defer(s.now);
      }
    }

    method PopFront()
      requires Valid() && |texts| > 0
      modifies this`texts, this`extras
      ensures Valid() && View() == old(View()).(entries := old(View()).entries[1..])
    {
      ghost var q := Zip(texts, extras);
      ZipOperations(texts, extras, q[0]);
      assert Ids(q[1..]) == Ids(q)[1..];
      texts, extras := texts[1..], extras[1..];
    }

    /** The flush loop, under its lock. */
    method DrainQueue(script: seq<Send>)
      requires Valid()
      modifies this
      ensures Valid() && wildcard == old(wildcard) && View() == Flushed(config, old(View()), script)
    {
      var i := 0;
      while |texts| > 0 && i < |script|
        invariant Valid() && wildcard == old(wildcard) && 0 <= i <= |script|
        invariant Flushed(config, View(), script[i..]) == Flushed(config, old(View()), script)
        decreases |script| - i
      {
        assert script[i..][1..] == script[i + 1..];
        ghost var before := View();
        QueuedAllOrderly(before.entries, config.limit, script[i].arrivals);
        var ok, raised := SendToOrigin(script[i]);
        if raised || !ok {
          return;
        }
        PopFront();
        sent := sent + [before.entries[0]];
        i := i + 1;
      }
    }

    method FlushPending(force: bool, now: real, script: seq<Send>)
      requires Valid()
      modifies this
      ensures Valid() && wildcard == old(wildcard)
      ensures View() == Attempted(config, old(View()), wildcard, force, now, script)
    {
      if |texts| == 0 || (wildcard == "" && extras[0].origin == "") {
        return;
      }
      if force {
        ResetBackoff();
      } else if nextFlush > now {
        return;
      }
      DrainQueue(script);
    }

    method SendOutbound(text: string, extra: Extra, direct: Send, now: real, script: seq<Send>) returns (raised: bool)
      requires Valid()
      modifies this
      ensures Valid() && wildcard == old(wildcard)
      ensures var e := Entry(text, extra.(origin := if extra.origin == "" then wildcard else extra.origin));
        (View(), raised) == Dispatched(config, old(View()), wildcard, e, direct, now, script)
    {
      raised := false;
      var target := if extra.origin == "" then wildcard else extra.origin;
      if target == "" {
        return;
      }
      var addressed := extra.(origin := target);
      if |texts| > 0 {
        QueuePending(text, addressed);
        FlushPending(false, now, script);
        return;
      }
      var ok;
      ok, raised := SendToOrigin(direct);
      if ok {
        sent := sent + [Entry(text, addressed)];
      } else if !raised {
        QueuePending(text, addressed);
      }
    }
  }
}
