/** Agent text that arrives in fragments is merged per message, keeping only a bounded prefix of it. */
module Coalescing {

  import opened Basics

  const MAX_CHARS := 500
  const ELLIPSIS := "\U{2026}"

  function Truncate(text: string): string {
    if |text| > MAX_CHARS then text[..MAX_CHARS] + ELLIPSIS else text
  }

  datatype Key = Key(runId: string, issueId: string, sourceTs: string, turn: int)

  /** A text event of a message with a source timestamp, or any other event. */
  datatype Event<T> = Text(key: Key, body: T) | Other(payload: string)

  /** The body of a text event as it is sent: what is kept, how long it was, whether that is all. */
  datatype Bounded = Bounded(content: string, count: int, truncated: bool)

  function Emitted(text: string): Bounded {
    Bounded(Truncate(text), |text|, |text| > MAX_CHARS)
  }

  function Joined(a: Bounded, b: Bounded): Bounded {
    Bounded(Truncate(a.content + b.content), a.count + b.count, a.truncated || b.truncated || a.count + b.count > MAX_CHARS)
  }

  function Appended(a: string, b: string): string {
    a + b
  }

  // ---- Coalescing, for any way of joining bodies ----

  function Position<T>(out: seq<Event<T>>, key: Key): (p: nat)
    ensures p <= |out| && (p < |out| ==> out[p].Text? && out[p].key == key)
    ensures forall i :: 0 <= i < p && out[i].Text? ==> out[i].key != key
  {
    if out == [] || (out[0].Text? && out[0].key == key) then 0 else 1 + Position(out[1..], key)
  }

  function Absorb<T>(join: (T, T) -> T, out: seq<Event<T>>, e: Event<T>): seq<Event<T>> {
    if e.Other? then out + [e]
    else
      var p := Position(out, e.key);
      if p == |out| then out + [e] else out[p := Text(e.key, join(out[p].body, e.body))]
  }

  function Coalesced<T>(join: (T, T) -> T, events: seq<Event<T>>): seq<Event<T>> {
    if events == [] then [] else Absorb(join, Coalesced(join, Init(events)), Last(events))
  }

  method Coalesce(events: seq<Event<Bounded>>) returns (out: seq<Event<Bounded>>)
    ensures out == Coalesced(Joined, events)
  {
    out := [];
    var positions: map<Key, nat> := map[];
    for i := 0 to |events|
      invariant out == Coalesced(Joined, events[..i])
      invariant forall key :: key in positions ==> positions[key] < |out| && positions[key] == Position(out, key)
      invariant forall k :: 0 <= k < |out| && out[k].Text? ==> out[k].key in positions
    {
      var e := events[i];
      assert Init(events[..i + 1]) == events[..i] && Last(events[..i + 1]) == e;
      ghost var before := out;
      if e.Other? {
        out := out + [e];
        PositionsGrow(before, e);
      } else if e.key !in positions {
        positions := positions[e.key := |out|];
        out := out + [e];
        PositionsGrow(before, e);
      } else {
        var p := positions[e.key];
        var body := Joined(out[p].body, e.body);
        out := out[p := Text(e.key, body)];
        PositionsStay(before, p, body);
      }
    }
    assert events[..|events|] == events;
  }

  lemma {:induction false} PositionIs<T>(out: seq<Event<T>>, key: Key, p: nat)
    requires p <= |out| && (p < |out| ==> out[p].Text? && out[p].key == key)
    requires forall i :: 0 <= i < p && out[i].Text? ==> out[i].key != key
    ensures Position(out, key) == p
  {
  }

  lemma PositionsGrow<T>(out: seq<Event<T>>, e: Event<T>)
    ensures forall key {:trigger Position(out + [e], key)} ::
      Position(out, key) < |out| ==> Position(out + [e], key) == Position(out, key)
    ensures e.Text? && Position(out, e.key) == |out| ==> Position(out + [e], e.key) == |out|
  {
    forall key | Position(out, key) < |out| ensures Position(out + [e], key) == Position(out, key) {
      PositionIs(out + [e], key, Position(out, key));
    }
    if e.Text? && Position(out, e.key) == |out| {
      PositionIs(out + [e], e.key, |out|);
    }
  }

  lemma PositionsStay<T>(out: seq<Event<T>>, p: nat, body: T)
    requires p < |out| && out[p].Text?
    ensures forall key {:trigger Position(out[p := Text(out[p].key, body)], key)} ::
      Position(out[p := Text(out[p].key, body)], key) == Position(out, key)
  {
    forall key ensures Position(out[p := Text(out[p].key, body)], key) == Position(out, key) {
      PositionIs(out[p := Text(out[p].key, body)], key, Position(out, key));
    }
  }

  // ---- Bounded equals unbounded ----

  function Mapped<A, B>(h: A -> B, e: Event<A>): Event<B> {
    if e.Text? then Text(e.key, h(e.body)) else Other(e.payload)
  }

  function MappedAll<A, B>(h: A -> B, events: seq<Event<A>>): seq<Event<B>> {
    seq(|events|, i requires 0 <= i < |events| => Mapped(h, events[i]))
  }

  ghost predicate Homomorphic<A(!new), B>(h: A -> B, f: (A, A) -> A, g: (B, B) -> B) {
    forall a, b :: h(f(a, b)) == g(h(a), h(b))
  }

  lemma AbsorbMapped<A(!new), B>(h: A -> B, f: (A, A) -> A, g: (B, B) -> B, out: seq<Event<A>>, e: Event<A>)
    requires Homomorphic(h, f, g)
    ensures MappedAll(h, Absorb(f, out, e)) == Absorb(g, MappedAll(h, out), Mapped(h, e))
  {
    if e.Text? {
      PositionIs(MappedAll(h, out), e.key, Position(out, e.key));
    }
  }

  lemma {:induction false} CoalescedMapped<A(!new), B>(h: A -> B, f: (A, A) -> A, g: (B, B) -> B, events: seq<Event<A>>)
    requires Homomorphic(h, f, g)
    ensures Coalesced(g, MappedAll(h, events)) == MappedAll(h, Coalesced(f, events))
  {
    if events != [] {
      CoalescedMapped(h, f, g, Init(events));
      AbsorbMapped(h, f, g, Coalesced(f, Init(events)), Last(events));
      assert Init(MappedAll(h, events)) == MappedAll(h, Init(events));
    }
  }

  /** Truncating before and after joining keeps what truncating once would keep. */
  lemma EmittedJoins(a: string, b: string)
    ensures Emitted(a + b) == Joined(Emitted(a), Emitted(b))
  {
    if |a| > MAX_CHARS {
      assert (Truncate(a) + Truncate(b))[..MAX_CHARS] == (a + b)[..MAX_CHARS];
    } else if |b| > MAX_CHARS {
      assert (a + Truncate(b))[..MAX_CHARS] == (a + b)[..MAX_CHARS];
    }
  }

  /** Folding truncated fragments is truncating the folded text: content, count and flag. */
  lemma BoundedEqualsUnbounded(texts: seq<Event<string>>)
    ensures Coalesced(Joined, MappedAll(Emitted, texts)) == MappedAll(Emitted, Coalesced(Appended, texts))
  {
    forall a, b ensures Emitted(Appended(a, b)) == Joined(Emitted(a), Emitted(b)) {
      EmittedJoins(a, b);
    }
    CoalescedMapped(Emitted, Appended, Joined, texts);
  }

  // ---- What unbounded coalescing gives ----

  function Keys<T>(events: seq<Event<T>>): seq<Key> {
    if events == [] then []
    else if Last(events).Text? then Keys(Init(events)) + [Last(events).key]
    else Keys(Init(events))
  }

  /** The keys in the order of their first occurrence. */
  function FirstKeys<T>(events: seq<Event<T>>): seq<Key> {
    if events == [] then []
    else
      var keys := FirstKeys(Init(events));
      if Last(events).Text? && Last(events).key !in keys then keys + [Last(events).key] else keys
  }

  function Others<T>(events: seq<Event<T>>): seq<string> {
    if events == [] then []
    else if Last(events).Other? then Others(Init(events)) + [Last(events).payload]
    else Others(Init(events))
  }

  /** All the text said under a key, in order. */
  function Said(events: seq<Event<string>>, key: Key): string {
    if events == [] then ""
    else Said(Init(events), key) + (if Last(events).Text? && Last(events).key == key then Last(events).body else "")
  }

  lemma {:induction false} KeysMembers<T>(events: seq<Event<T>>, key: Key)
    ensures key in Keys(events) <==> Position(events, key) < |events|
  {
    if events == [] {
    } else {
      KeysMembers(Init(events), key);
      var p := Position(Init(events), key);
      assert events == Init(events) + [Last(events)];
      if p < |Init(events)| || (Last(events).Text? && Last(events).key == key) {
        PositionIs(events, key, p);
      } else {
        PositionIs(events, key, |events|);
      }
    }
  }

  lemma {:induction false} UpdateKeeps<T>(out: seq<Event<T>>, p: nat, body: T)
    requires p < |out| && out[p].Text?
    ensures var u := out[p := Text(out[p].key, body)]; Keys(u) == Keys(out) && Others(u) == Others(out)
  {
    var u := out[p := Text(out[p].key, body)];
    if p == |out| - 1 {
      assert Init(u) == Init(out);
    } else {
      UpdateKeeps(Init(out), p, body);
      assert Init(u) == Init(out)[p := Text(out[p].key, body)];
    }
  }

  /** One text event per message, in the order messages first spoke; other events untouched, in order. */
  lemma {:induction false} CoalescedShape<T>(join: (T, T) -> T, events: seq<Event<T>>)
    ensures Keys(Coalesced(join, events)) == FirstKeys(events)
    ensures Others(Coalesced(join, events)) == Others(events)
  {
    if events != [] {
      var out, e := Coalesced(join, Init(events)), Last(events);
      CoalescedShape(join, Init(events));
      assert Init(out + [e]) == out && Last(out + [e]) == e;
      if e.Text? {
        KeysMembers(out, e.key);
        var p := Position(out, e.key);
        if p < |out| {
          UpdateKeeps(out, p, join(out[p].body, e.body));
        }
      }
    }
  }

  predicate Distinct(keys: seq<Key>) {
    forall i, j :: 0 <= i < j < |keys| ==> keys[i] != keys[j]
  }

  lemma DistinctSnoc(keys: seq<Key>, key: Key)
    requires Distinct(keys) && key !in keys
    ensures Distinct(keys + [key])
  {
    assert forall i :: 0 <= i < |keys| ==> keys[i] in keys;
  }

  lemma {:induction false} FirstKeysDistinct<T>(events: seq<Event<T>>)
    ensures Distinct(FirstKeys(events))
  {
    if events != [] {
      FirstKeysDistinct(Init(events));
      var before, last := FirstKeys(Init(events)), Last(events);
      if last.Text? && last.key !in before {
        DistinctSnoc(before, last.key);
      }
    }
  }

  lemma {:induction false} NothingSaid(events: seq<Event<string>>, key: Key)
    requires key !in FirstKeys(events)
    ensures Said(events, key) == ""
  {
    if events != [] {
      NothingSaid(Init(events), key);
    }
  }

  /** Each merged message holds everything said under its key. */
  lemma {:induction false} CoalescedText(events: seq<Event<string>>, i: nat)
    requires var out := Coalesced(Appended, events); i < |out| && out[i].Text?
    ensures var out := Coalesced(Appended, events); out[i].body == Said(events, out[i].key)
    decreases |events|
  {
    if events != [] {
      var out, e := Coalesced(Appended, Init(events)), Last(events);
      if i < |out| {
        CoalescedText(Init(events), i);
        if e.Text? && e.key == out[i].key {
          SamePosition(Init(events), i);
        }
      } else {
        CoalescedShape(Appended, Init(events));
        KeysMembers(out, e.key);
        NothingSaid(Init(events), e.key);
      }
    }
  }

  lemma {:induction false} DistinctPositions<T>(out: seq<Event<T>>, i: nat)
    requires i < |out| && out[i].Text?
    requires Distinct(Keys(out))
    ensures Position(out, out[i].key) == i
  {
    var key := out[i].key;
    forall j | 0 <= j < i && out[j].Text? ensures out[j].key != key {
      var a, b := KeysSplit(out, j, i);
    }
    PositionIs(out, key, i);
  }

  lemma {:induction false} KeysSplit<T>(out: seq<Event<T>>, j: nat, i: nat) returns (a: nat, b: nat)
    requires j < i < |out| && out[j].Text? && out[i].Text?
    ensures a < b < |Keys(out)| && Keys(out)[a] == out[j].key && Keys(out)[b] == out[i].key
  {
    var init := Init(out);
    var keys := Keys(init);
    assert Keys(out) == if Last(out).Text? then keys + [Last(out).key] else keys;
    if i == |out| - 1 {
      PositionLE(init, j);
      KeysMembers(init, out[j].key);
      a :| 0 <= a < |keys| && keys[a] == out[j].key;
      b := |keys|;
    } else {
      a, b := KeysSplit(init, j, i);
    }
  }

  lemma PositionLE<T>(out: seq<Event<T>>, j: nat)
    requires j < |out| && out[j].Text?
    ensures Position(out, out[j].key) < |out|
  {
  }

  lemma SamePosition(events: seq<Event<string>>, i: nat)
    requires var out := Coalesced(Appended, events); i < |out| && out[i].Text?
    ensures var out := Coalesced(Appended, events); Position(out, out[i].key) == i
  {
    CoalescedShape(Appended, events);
    FirstKeysDistinct(events);
    DistinctPositions(Coalesced(Appended, events), i);
  }

  /** The bounded output: per key, the truncation, length and overflow flag of all that was said. */
  lemma CoalescedFragments(texts: seq<Event<string>>, i: nat)
    requires i < |Coalesced(Joined, MappedAll(Emitted, texts))|
    ensures var out := Coalesced(Joined, MappedAll(Emitted, texts));
      && (out[i].Text? ==> var all := Said(texts, out[i].key); out[i].body == Bounded(Truncate(all), |all|, |all| > MAX_CHARS))
      && (out[i].Text? ==> forall j :: 0 <= j < i && out[j].Text? ==> out[j].key != out[i].key)
  {
    BoundedEqualsUnbounded(texts);
    var out := Coalesced(Appended, texts);
    if out[i].Text? {
      CoalescedText(texts, i);
      SamePosition(texts, i);
    }
  }

  /** Of everything said under a key the first 500 characters are kept, with an ellipsis if that is not all. */
  lemma CoalescedKeeps(texts: seq<Event<string>>, i: nat)
    requires i < |Coalesced(Joined, MappedAll(Emitted, texts))| && Coalesced(Joined, MappedAll(Emitted, texts))[i].Text?
    ensures var e := Coalesced(Joined, MappedAll(Emitted, texts))[i]; var all := Said(texts, e.key);
      && e.body.count == |all| && (e.body.truncated <==> |all| > 500)
      && e.body.content == if |all| <= 500 then all else all[..500] + ['\U{2026}']
  {
    CoalescedFragments(texts, i);
  }
}
