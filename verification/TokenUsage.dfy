/** Token usage as backends report it, folded onto canonical keys. */
module TokenUsage {

  /** A reported value: only numbers count, fractions are truncated toward zero. */
  datatype Amount = Whole(n: int) | Fraction(r: real) | NotANumber

  datatype Entry = Entry(key: string, amount: Amount)

  function Truncated(r: real): int {
    if r >= 0.0 then r.Floor else -((-r).Floor)
  }

  function Tokens(amount: Amount): int {
    match amount
    case Whole(n) => n
    case Fraction(r) => Truncated(r)
    case NotANumber => 0
  }

  function Canonical(key: string): string {
    if key == "inputTokens" then "input"
    else if key == "outputTokens" then "output"
    else if key == "reasoningTokens" then "reasoning"
    else if key == "cacheReadTokens" then "cache_read"
    else if key == "cacheWriteTokens" then "cache_write"
    else if key == "totalTokens" then "total"
    else key
  }

  function Get(m: map<string, int>, key: string): int {
    if key in m then m[key] else 0
  }

  /** What `usage` reports under `key`, all aliases together. */
  function Reported(usage: seq<Entry>, key: string): int {
    if usage == [] then 0
    else (if Canonical(usage[0].key) == key then Tokens(usage[0].amount) else 0) + Reported(usage[1..], key)
  }

  /** Everything `usage` reports. */
  function Total(usage: seq<Entry>): int {
    if usage == [] then 0 else Tokens(usage[0].amount) + Total(usage[1..])
  }

  ghost function Sum(m: map<string, int>): int {
    if m == map[] then 0 else var key :| key in m; m[key] + Sum(m - {key})
  }

  /** The sum does not depend on the order the keys are visited in. */
  lemma {:induction false} SumRemove(m: map<string, int>, key: string)
    requires key in m
    ensures Sum(m) == m[key] + Sum(m - {key})
    decreases |m|
  {
    var first :| first in m && Sum(m) == m[first] + Sum(m - {first});
    if first != key {
      SumRemove(m - {first}, key);
      SumRemove(m - {key}, first);
      assert m - {first} - {key} == m - {key} - {first};
    }
  }

  lemma SumUpdate(m: map<string, int>, key: string, value: int)
    ensures Sum(m[key := value]) == Sum(m) - Get(m, key) + value
  {
    var u := m[key := value];
    SumRemove(u, key);
    if key in m {
      SumRemove(m, key);
      assert u - {key} == m - {key};
    } else {
      assert u - {key} == m;
    }
  }

  function Count(m: map<string, int>, entry: Entry): map<string, int> {
    if entry.amount.NotANumber? then m
    else m[Canonical(entry.key) := Get(m, Canonical(entry.key)) + Tokens(entry.amount)]
  }

  function Normalized(usage: seq<Entry>): map<string, int> {
    if usage == [] then map[] else Count(Normalized(usage[..|usage| - 1]), usage[|usage| - 1])
  }

  lemma {:induction false} ReportedSnoc(usage: seq<Entry>, entry: Entry, key: string)
    ensures Reported(usage + [entry], key) == Reported(usage, key) + (if Canonical(entry.key) == key then Tokens(entry.amount) else 0)
  {
    if usage != [] {
      ReportedSnoc(usage[1..], entry, key);
      assert (usage + [entry])[1..] == usage[1..] + [entry];
    }
  }

  lemma {:induction false} TotalSnoc(usage: seq<Entry>, entry: Entry)
    ensures Total(usage + [entry]) == Total(usage) + Tokens(entry.amount)
  {
    if usage != [] {
      TotalSnoc(usage[1..], entry);
      assert (usage + [entry])[1..] == usage[1..] + [entry];
    }
  }

  /** Alias collisions add up: a canonical key holds what all its spellings reported. */
  lemma {:induction false} NormalizedGet(usage: seq<Entry>, key: string)
    ensures Get(Normalized(usage), key) == Reported(usage, key)
  {
    if usage != [] {
      var init, last := usage[..|usage| - 1], usage[|usage| - 1];
      assert usage == init + [last];
      NormalizedGet(init, key);
      ReportedSnoc(init, last, key);
    }
  }

  /** Nothing reported is lost or counted twice overall. */
  lemma {:induction false} NormalizedSum(usage: seq<Entry>)
    ensures Sum(Normalized(usage)) == Total(usage)
  {
    if usage != [] {
      var init, last := usage[..|usage| - 1], usage[|usage| - 1];
      assert usage == init + [last];
      NormalizedSum(init);
      TotalSnoc(init, last);
      var m := Normalized(init);
      SumUpdate(m, Canonical(last.key), Get(m, Canonical(last.key)) + Tokens(last.amount));
    }
  }

  method Normalize(usage: seq<Entry>) returns (canonical: map<string, int>)
    ensures canonical == Normalized(usage)
  {
    canonical := map[];
    for i := 0 to |usage|
      invariant canonical == Normalized(usage[..i])
    {
      assert usage[..i + 1][..i] == usage[..i];
      if !usage[i].amount.NotANumber? {
        var name := Canonical(usage[i].key);
        canonical := canonical[name := Get(canonical, name) + Tokens(usage[i].amount)];
      }
    }
    assert usage[..|usage|] == usage;
  }

  /** Key-wise addition. */
  function Merged(a: map<string, int>, b: map<string, int>): map<string, int> {
    map key | key in a.Keys + b.Keys :: Get(a, key) + Get(b, key)
  }

  lemma MergedStep(a: map<string, int>, b: map<string, int>, key: string, tokens: int)
    requires key !in b
    ensures Merged(a, b[key := tokens]) == Merged(a, b)[key := Get(a, key) + tokens]
    ensures Get(Merged(a, b), key) == Get(a, key)
  {
    var wide, narrow := Merged(a, b[key := tokens]), Merged(a, b)[key := Get(a, key) + tokens];
    assert wide.Keys == narrow.Keys;
    assert forall k | k in wide.Keys :: wide[k] == narrow[k];
  }

  lemma MergeProgress(existing: map<string, int>, addition: map<string, int>, todo: set<string>, key: string)
    requires key in todo && todo <= addition.Keys
    ensures Merged(existing, addition - (todo - {key}))
         == Merged(existing, addition - todo)[key := Get(Merged(existing, addition - todo), key) + addition[key]]
  {
    MergedStep(existing, addition - todo, key, addition[key]);
    assert addition - (todo - {key}) == (addition - todo)[key := addition[key]];
  }

  lemma MergeEnds(existing: map<string, int>, addition: map<string, int>)
    ensures Merged(existing, addition - addition.Keys) == existing
    ensures Merged(existing, addition - {}) == Merged(existing, addition)
  {
    assert Merged(existing, map[]) == existing;
    assert addition - addition.Keys == map[];
    assert addition - {} == addition;
  }

  method Merge(existing: map<string, int>, addition: map<string, int>) returns (merged: map<string, int>)
    ensures merged == Merged(existing, addition)
  {
    MergeEnds(existing, addition);
    merged := existing;
    var todo := addition.Keys;
    while todo != {}
      invariant todo <= addition.Keys && merged == Merged(existing, addition - todo)
      decreases todo
    {
      var key :| key in todo;
      MergeProgress(existing, addition, todo, key);
      merged := merged[key := Get(merged, key) + addition[key]];
      todo := todo - {key};
    }
  }

  // ---- The spellings, written out ----

  /** What `usage` reports under any of `names`. */
  function Under(usage: seq<Entry>, names: set<string>): int {
    if usage == [] then 0 else (if usage[0].key in names then Tokens(usage[0].amount) else 0) + Under(usage[1..], names)
  }

  lemma {:induction false} ReportedUnder(usage: seq<Entry>, key: string, names: set<string>)
    requires forall name :: name in names <==> Canonical(name) == key
    ensures Reported(usage, key) == Under(usage, names)
  {
    if usage != [] { ReportedUnder(usage[1..], key, names); }
  }

  const SPELLINGS := ["inputTokens", "outputTokens", "reasoningTokens", "cacheReadTokens", "cacheWriteTokens", "totalTokens"]
  const NAMES := ["input", "output", "reasoning", "cache_read", "cache_write", "total"]

  lemma Spelled(i: nat, name: string)
    requires i < 6
    ensures Canonical(name) == NAMES[i] <==> name == NAMES[i] || name == SPELLINGS[i]
    ensures Canonical(name) != SPELLINGS[i]
  {
  }

  predicate SpelledAs(i: nat, name: string, key: string) {
    i < 6 && name == SPELLINGS[i] && key == NAMES[i]
  }

  lemma CanonicalCases(name: string)
    ensures Canonical(name) == name || exists i: nat :: SpelledAs(i, name, Canonical(name))
  {
    if Canonical(name) != name {
      var i := if name == "inputTokens" then 0 else if name == "outputTokens" then 1 else if name == "reasoningTokens" then 2
               else if name == "cacheReadTokens" then 3 else if name == "cacheWriteTokens" then 4 else 5;
      assert SpelledAs(i, name, Canonical(name));
    }
  }

  lemma StandsAlone(key: string, name: string)
    requires key !in SPELLINGS && key !in NAMES
    ensures Canonical(name) == key <==> name == key
  {
    CanonicalCases(name);
    if i: nat :| SpelledAs(i, name, Canonical(name)) {
      assert NAMES[i] in NAMES && SPELLINGS[i] in SPELLINGS;
    }
  }

  lemma SpellingAddsUp(usage: seq<Entry>, i: nat)
    requires i < 6
    ensures Get(Normalized(usage), NAMES[i]) == Under(usage, {NAMES[i], SPELLINGS[i]})
    ensures Get(Normalized(usage), SPELLINGS[i]) == 0
  {
    forall name ensures Canonical(name) == NAMES[i] <==> name in {NAMES[i], SPELLINGS[i]} { Spelled(i, name); }
    forall name ensures Canonical(name) == SPELLINGS[i] <==> name in {} { Spelled(i, name); }
    NormalizedGet(usage, NAMES[i]);
    ReportedUnder(usage, NAMES[i], {NAMES[i], SPELLINGS[i]});
    NormalizedGet(usage, SPELLINGS[i]);
    ReportedUnder(usage, SPELLINGS[i], {});
    NothingUnder(usage);
  }

  /** Six counts have two spellings each; the long ones do not appear, and every other key stands for itself. */
  lemma SpellingsAddUp(usage: seq<Entry>, key: string)
    ensures forall i :: 0 <= i < 6 ==> Get(Normalized(usage), NAMES[i]) == Under(usage, {NAMES[i], SPELLINGS[i]})
    ensures forall i :: 0 <= i < 6 ==> Get(Normalized(usage), SPELLINGS[i]) == 0
    ensures key !in SPELLINGS && key !in NAMES ==> Get(Normalized(usage), key) == Under(usage, {key})
  {
    forall i | 0 <= i < 6
      ensures Get(Normalized(usage), NAMES[i]) == Under(usage, {NAMES[i], SPELLINGS[i]})
      ensures Get(Normalized(usage), SPELLINGS[i]) == 0
    {
      SpellingAddsUp(usage, i);
    }
    if key !in SPELLINGS && key !in NAMES {
      forall name ensures Canonical(name) == key <==> name in {key} { StandsAlone(key, name); }
      NormalizedGet(usage, key);
      ReportedUnder(usage, key, {key});
    }
  }

  lemma {:induction false} NothingUnder(usage: seq<Entry>)
    ensures Under(usage, {}) == 0
  {
    if usage != [] { NothingUnder(usage[1..]); }
  }

  /** Fractions lose what is behind the point, on either side of zero. */
  lemma TruncatedTowardZero(r: real)
    ensures var n := Tokens(Fraction(r)) as real;
      if r >= 0.0 then n <= r < n + 1.0 else n - 1.0 < r <= n
  {
  }
}
