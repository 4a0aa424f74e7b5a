/** The operator's pause / resume / kill of one agent's process tree, racing
    against processes that keep forking while the tree is being walked.

    The kernel is a value `OS`; `Machine` holds the current one.  Before every
    signal or enumeration the machine lets the processes that are not stopped
    run and fork as often as the fork budget allows, so every contract below
    holds for every interleaving. */
module ProcessControl {

  /** A process identity that survives PID reuse: the pid and the creation time. */
  datatype Handle = Handle(pid: nat, birth: nat)

  /** What the caller may be refused on a process; settled when it is created. */
  datatype Right = ToStop | ToList | ToContinue | ToKill

  datatype OS = OS(
    alive: set<Handle>,
    parent: map<Handle, Handle>,        // kept when a process exits
    suspended: set<Handle>,
    stoppedAt: map<Handle, nat>,        // how much had run when a process was last stopped
    refused: map<Handle, set<Right>>,
    clock: nat,          // every process created so far is older than this
    budget: nat,         // forks the environment may still perform
    ran: seq<Handle>     // which processes were scheduled, oldest first
  )

  /** What one signal to one handle came back with. */
  datatype Signal = Done | Gone | Denied

  /** How a control operation left: normally, or with the exception it raised. */
  datatype Exit = Returned | RuntimeFailure | AccessFailure

  // ------------------------------------------------------------------
  // The kernel
  // ------------------------------------------------------------------

  ghost predicate Sane(os: OS) {
    && os.suspended <= os.alive
    && (forall h :: h in os.alive ==> h.birth < os.clock)
    && (forall h :: h in os.parent ==> h.birth < os.clock)
    && (forall g, h :: g in os.alive && h in os.alive && g.pid == h.pid ==> g == h)
    && (forall h :: h in os.suspended ==> h in os.stoppedAt && QuietSince(os, h, os.stoppedAt[h]))
  }

  ghost predicate QuietSince(os: OS, h: Handle, from: nat) {
    from <= |os.ran| && forall i :: from <= i < |os.ran| ==> os.ran[i] != h
  }

  predicate Refuses(os: OS, h: Handle, right: Right) {
    h in os.refused && right in os.refused[h]
  }

  /** What a call on `h` comes back with. */
  function Answer(os: OS, h: Handle, right: Right): Signal {
    if h !in os.alive then Gone else if Refuses(os, h, right) then Denied else Done
  }

  predicate ChildOf(os: OS, c: Handle, p: Handle) {
    c in os.alive && c in os.parent && os.parent[c] == p
  }

  /** No process of `a` exits, changes its parent or what it refuses; whatever is
      alive in `b` besides was born meanwhile. */
  ghost predicate Keeps(a: OS, b: OS) {
    && a.clock <= b.clock
    && a.alive <= b.alive && |b.alive| + b.budget == |a.alive| + a.budget
    && (forall h :: h in a.parent ==> h in b.parent && b.parent[h] == a.parent[h])
    && (forall h :: h in b.parent && h !in a.parent ==> h in b.alive && h !in a.alive)
    && (forall h :: h in b.alive && h !in a.alive ==> h.birth >= a.clock)
    && (forall h, right :: h in a.alive ==> Refuses(b, h, right) == Refuses(a, h, right))
  }

  /** `b` is reachable from `a` by steps of processes that are not stopped:
      they are scheduled, they fork, none exits. */
  ghost predicate Evolves(a: OS, b: OS) {
    && Sane(a) && Sane(b) && Keeps(a, b)
    && a.suspended == b.suspended && a.stoppedAt == b.stoppedAt
    && (forall c :: c in b.alive && c !in a.alive ==>
          c in b.parent && b.parent[c] in b.alive && b.parent[c] !in a.suspended)
    && a.ran <= b.ran
    && (forall i :: |a.ran| <= i < |b.ran| ==> b.ran[i] in b.alive && b.ran[i] !in a.suspended)
  }

  lemma KeepsTransitive(a: OS, b: OS, c: OS)
    requires Keeps(a, b) && Keeps(b, c)
    ensures Keeps(a, c)
  {
  }

  lemma EvolvesTransitive(a: OS, b: OS, c: OS)
    requires Evolves(a, b) && Evolves(b, c)
    ensures Evolves(a, c)
  {
    KeepsTransitive(a, b, c);
    forall i | |a.ran| <= i < |c.ran|
      ensures c.ran[i] in c.alive && c.ran[i] !in a.suspended
    {
      if i < |b.ran| {
        assert c.ran[i] == b.ran[i];
      }
    }
  }

  function Ran(os: OS, p: Handle): OS {
    os.(ran := os.ran + [p])
  }

  function Born(os: OS, p: Handle, pid: nat, refused: set<Right>): OS
    requires os.budget > 0
  {
    var child := Handle(pid, os.clock);
    os.(alive := os.alive + {child}, parent := os.parent[child := p], refused := os.refused[child := refused],
        clock := os.clock + 1, budget := os.budget - 1)
  }

  lemma RanEvolves(os: OS, p: Handle)
    requires Sane(os) && p in os.alive && p !in os.suspended
    ensures Evolves(os, Ran(os, p))
  {
    var next := Ran(os, p);
    forall h | h in next.suspended ensures h in next.stoppedAt && QuietSince(next, h, next.stoppedAt[h]) {
      assert QuietSince(os, h, os.stoppedAt[h]);
    }
  }

  lemma BornSane(os: OS, p: Handle, pid: nat, refused: set<Right>)
    requires Sane(os) && os.budget > 0 && forall h :: h in os.alive ==> h.pid != pid
    ensures Sane(Born(os, p, pid, refused))
  {
    var next := Born(os, p, pid, refused);
    forall h | h in next.suspended ensures h in next.stoppedAt && QuietSince(next, h, next.stoppedAt[h]) {
      assert QuietSince(os, h, os.stoppedAt[h]);
    }
  }

  lemma BornKeeps(os: OS, p: Handle, pid: nat, refused: set<Right>)
    requires Sane(os) && os.budget > 0
    ensures Keeps(os, Born(os, p, pid, refused))
  {
    assert Handle(pid, os.clock) !in os.alive && Handle(pid, os.clock) !in os.parent;
  }

  lemma BornEvolves(os: OS, p: Handle, pid: nat, refused: set<Right>)
    requires Sane(os) && os.budget > 0 && p in os.alive && p !in os.suspended
    requires forall h :: h in os.alive ==> h.pid != pid
    ensures Evolves(os, Born(os, p, pid, refused))
  {
    BornSane(os, p, pid, refused);
    BornKeeps(os, p, pid, refused);
  }

  class Machine {
    var os: OS

    constructor (initial: OS)
      ensures os == initial
    {
      os := initial;
    }

    /** Any scheduling of the processes that are not stopped. */
    method Interfere()
      requires Sane(os)
      modifies this
      ensures Evolves(old(os), os)
    {
      var moves: nat := *;
      while moves > 0
        invariant Evolves(old(os), os)
      {
        moves := moves - 1;
        var p: Handle := *;
        var forks: bool := *;
        var pid: nat := *;
        var refused: set<Right> := *;
        if p in os.alive && p !in os.suspended {
          ghost var before := os;
          RanEvolves(os, p);
          os := Ran(os, p);
          EvolvesTransitive(old(os), before, os);
          if forks && os.budget > 0 && (forall h :: h in os.alive ==> h.pid != pid) {
            before := os;
            BornEvolves(os, p, pid, refused);
            os := Born(os, p, pid, refused);
            EvolvesTransitive(old(os), before, os);
          }
        }
      }
    }

    /** `mid` is the kernel at the instant before the stop takes effect. */
    method Suspend(h: Handle) returns (r: Signal, ghost mid: OS)
      requires Sane(os)
      modifies this
      ensures Evolves(old(os), mid) && r == Answer(mid, h, ToStop)
      ensures os == if r == Done then Stop(mid, h) else mid
    {
      Interfere();
      mid := os;
      r := Answer(os, h, ToStop);
      if r == Done {
        os := Stop(os, h);
      }
    }

    /** The direct children of `h` at the instant of the call, in any order. */
    method Children(h: Handle) returns (r: Signal, children: seq<Handle>)
      requires Sane(os)
      modifies this
      ensures Evolves(old(os), os) && r == Answer(os, h, ToList)
      ensures r == Done ==> forall c :: c in children <==> ChildOf(os, c, h)
      ensures r != Done ==> children == []
    {
      Interfere();
      children := [];
      r := Answer(os, h, ToList);
      if r != Done {
        return;
      }
      var rest := set c | c in os.alive && ChildOf(os, c, h);
      while rest != {}
        invariant forall c :: c in children || c in rest <==> ChildOf(os, c, h)
        decreases |rest|
      {
        var c :| c in rest;
        children := children + [c];
        rest := rest - {c};
      }
    }

    /** All the live descendants of `h` at one instant, in any order. */
    method Family(h: Handle) returns (r: Signal, family: seq<Handle>)
      requires Sane(os)
      modifies this
      ensures Evolves(old(os), os) && (r == Gone <==> h !in os.alive)
      ensures r != Gone ==> forall c :: c in family <==> c != h && Descendant(os, [h], c)
      ensures r == Gone ==> family == []
    {
      Interfere();
      family := [];
      if h !in os.alive {
        return Gone, [];
      }
      ghost var now := os;
      var found := {h};
      var rest := set c | c in os.alive && c !in found && c in os.parent && os.parent[c] in found;
      DescendantRoot(os, h);
      while rest != {}
        invariant os == now
        invariant rest == set c | c in os.alive && c !in found && c in os.parent && os.parent[c] in found
        invariant h in found && found <= os.alive
        invariant forall c :: c in found ==> Descendant(os, [h], c)
        invariant forall c :: c in family <==> c in found && c != h
        decreases os.alive - found
      {
        var c :| c in rest;
        DescendantChild(os, h, os.parent[c], c);
        family := family + [c];
        found := found + {c};
        rest := set c | c in os.alive && c !in found && c in os.parent && os.parent[c] in found;
      }
      forall p, c | p in found && ChildOf(os, c, p) ensures c in found {
        assert c !in rest;
      }
      ClosedFamily(os, h, found);
      r := Done;
    }

    method Continue(h: Handle) returns (r: Signal, ghost mid: OS)
      requires Sane(os)
      modifies this
      ensures Evolves(old(os), mid) && r == Answer(mid, h, ToContinue)
      ensures os == if r == Done then mid.(suspended := mid.suspended - {h}) else mid
    {
      Interfere();
      mid := os;
      r := Answer(os, h, ToContinue);
      if r == Done {
        os := os.(suspended := os.suspended - {h});
      }
    }

    /** SIGKILL needs no resume: the stopped process disappears as it is. */
    method Kill(h: Handle) returns (r: Signal, ghost mid: OS)
      requires Sane(os)
      modifies this
      ensures Evolves(old(os), mid) && r == Answer(mid, h, ToKill)
      ensures os == if r == Done then Without(mid, h) else mid
    {
      Interfere();
      mid := os;
      r := Answer(os, h, ToKill);
      if r == Done {
        os := Without(os, h);
      }
    }

    method AnyRunning(hs: seq<Handle>) returns (any: bool)
      ensures any <==> exists i :: 0 <= i < |hs| && hs[i] in os.alive
    {
      any := exists i :: 0 <= i < |hs| && hs[i] in os.alive;
    }
  }

  /** A process that is stopped already has been so since the first time. */
  function Stop(os: OS, h: Handle): OS {
    os.(suspended := os.suspended + {h},
        stoppedAt := if h in os.suspended then os.stoppedAt else os.stoppedAt[h := |os.ran|])
  }

  function Without(os: OS, h: Handle): OS {
    os.(alive := os.alive - {h}, suspended := os.suspended - {h})
  }

  // ------------------------------------------------------------------
  // What freezing a tree means, without naming the traversal
  // ------------------------------------------------------------------

  /** A chain of live processes, each the child of the one before it, that
      starts at an owned handle. */
  predicate LivePath(os: OS, owned: seq<Handle>, path: seq<Handle>) {
    && |path| > 0
    && path[0] in owned
    && path[0] in os.alive
    && forall i :: 0 < i < |path| ==> ChildOf(os, path[i], path[i - 1])
  }

  ghost predicate Descendant(os: OS, owned: seq<Handle>, h: Handle) {
    exists path :: LivePath(os, owned, path) && path[|path| - 1] == h
  }

  ghost predicate AllFrozen(os: OS, owned: seq<Handle>, frozen: seq<Handle>) {
    forall h :: Descendant(os, owned, h) ==> h in frozen
  }

  /** Another owned handle carries the pid of `h` and is reached before `h`. */
  predicate Shadowed(owned: seq<Handle>, h: Handle) {
    exists i :: 0 <= i < |owned| && owned[i].pid == h.pid && owned[i] != h && h !in owned[..i]
  }

  ghost predicate NoneShadowed(os: OS, owned: seq<Handle>) {
    forall h :: Descendant(os, owned, h) ==> !Shadowed(owned, h)
  }

  lemma PathIsLive(os: OS, owned: seq<Handle>, path: seq<Handle>, i: nat)
    requires LivePath(os, owned, path) && i < |path|
    ensures path[i] in os.alive
  {
    if i > 0 { assert ChildOf(os, path[i], path[i - 1]); }
  }

  lemma DescendantRoot(os: OS, h: Handle)
    requires h in os.alive
    ensures Descendant(os, [h], h)
  {
    assert LivePath(os, [h], [h]) && [h][|[h]| - 1] == h;
  }

  lemma DescendantChild(os: OS, h: Handle, p: Handle, c: Handle)
    requires Descendant(os, [h], p) && ChildOf(os, c, p)
    ensures Descendant(os, [h], c)
  {
    var path :| LivePath(os, [h], path) && path[|path| - 1] == p;
    assert LivePath(os, [h], path + [c]) && (path + [c])[|path + [c]| - 1] == c;
  }

  lemma ClosedFamily(os: OS, h: Handle, found: set<Handle>)
    requires h in found && forall p, c :: p in found && ChildOf(os, c, p) ==> c in found
    ensures forall c :: Descendant(os, [h], c) ==> c in found
  {
    forall c | Descendant(os, [h], c) ensures c in found {
      var path :| LivePath(os, [h], path) && path[|path| - 1] == c;
      PathInside(os, h, found, path);
    }
  }

  lemma {:induction false} PathInside(os: OS, h: Handle, found: set<Handle>, path: seq<Handle>)
    requires h in found && forall p, c :: p in found && ChildOf(os, c, p) ==> c in found
    requires LivePath(os, [h], path)
    ensures path[|path| - 1] in found
    decreases |path|
  {
    if |path| > 1 {
      var shorter := path[..|path| - 1];
      assert LivePath(os, [h], shorter);
      PathInside(os, h, found, shorter);
      assert ChildOf(os, path[|path| - 1], shorter[|shorter| - 1]);
    }
  }

  /** Owned handles that are all alive can shadow nothing: the condition a
      caller can test before pausing. */
  lemma LiveOwnedHandlesShadowNothing(os: OS, owned: seq<Handle>)
    requires Sane(os)
    requires forall i :: 0 <= i < |owned| ==> owned[i] in os.alive
    ensures NoneShadowed(os, owned)
  {
    forall h | Descendant(os, owned, h) ensures !Shadowed(owned, h) {
      var path :| LivePath(os, owned, path) && path[|path| - 1] == h;
      PathIsLive(os, owned, path, |path| - 1);
    }
  }

  /** A live chain on which nothing is shadowed: what a walk can get to. */
  predicate OpenPath(os: OS, owned: seq<Handle>, path: seq<Handle>) {
    LivePath(os, owned, path) && forall i :: 0 <= i < |path| ==> !Shadowed(owned, path[i])
  }

  ghost predicate Reached(os: OS, owned: seq<Handle>, h: Handle) {
    exists path :: OpenPath(os, owned, path) && path[|path| - 1] == h
  }

  /** A process whose suspension or enumeration is refused. */
  predicate Resists(os: OS, h: Handle) {
    Refuses(os, h, ToStop) || Refuses(os, h, ToList)
  }

  lemma DescendantOpen(os: OS, owned: seq<Handle>, path: seq<Handle>)
    requires LivePath(os, owned, path) && NoneShadowed(os, owned)
    ensures OpenPath(os, owned, path)
  {
    forall i | 0 <= i < |path| ensures !Shadowed(owned, path[i]) {
      var shorter := path[..i + 1];
      assert LivePath(os, owned, shorter) && shorter[|shorter| - 1] == path[i];
    }
  }

  lemma ReachedOwned(os: OS, owned: seq<Handle>, h: Handle)
    requires h in owned && h in os.alive && !Shadowed(owned, h)
    ensures Reached(os, owned, h)
  {
    assert OpenPath(os, owned, [h]) && [h][|[h]| - 1] == h;
  }

  lemma ReachedChild(os: OS, owned: seq<Handle>, f: Handle, c: Handle)
    requires Reached(os, owned, f) && ChildOf(os, c, f) && !Shadowed(owned, c)
    ensures Reached(os, owned, c)
  {
    var path :| OpenPath(os, owned, path) && path[|path| - 1] == f;
    assert OpenPath(os, owned, path + [c]) && (path + [c])[|path + [c]| - 1] == c;
  }

  lemma ReachedKeeps(a: OS, b: OS, owned: seq<Handle>, h: Handle)
    requires Keeps(a, b) && Reached(a, owned, h)
    ensures Reached(b, owned, h) && h in b.alive
  {
    var path :| OpenPath(a, owned, path) && path[|path| - 1] == h;
    PathIsLive(a, owned, path, |path| - 1);
    forall i | 0 < i < |path| ensures ChildOf(b, path[i], path[i - 1]) {
      assert ChildOf(a, path[i], path[i - 1]);
    }
    assert OpenPath(b, owned, path);
  }

  // ------------------------------------------------------------------
  // The traversal invariant
  // ------------------------------------------------------------------

  ghost predicate Known(os: OS, hs: seq<Handle>) {
    forall h :: h in hs ==> h.birth < os.clock
  }

  /** `k` of the handles owned at entry, `owned0`, have been popped; the rest
      head the worklist, and what follows them was discovered alive. */
  ghost predicate Worklist(os: OS, owned0: seq<Handle>, k: nat, seen: set<nat>, pending: seq<Handle>) {
    && k <= |owned0| <= |pending| + k
    && pending[..|owned0| - k] == owned0[k..]
    && (forall i :: 0 <= i < k ==> owned0[i].pid in seen)
    && (forall i :: |owned0| - k <= i < |pending| ==> pending[i] in os.alive)
  }

  /** A pid is met through an owned handle or through a process then frozen. */
  ghost predicate Met(owned0: seq<Handle>, frozen: seq<Handle>, pid: nat) {
    || (exists i :: 0 <= i < |owned0| && owned0[i].pid == pid)
    || (exists f :: f in frozen && f.pid == pid)
  }

  /** Every owned handle is pending or its pid was met; a live one whose pid was
      met is frozen, unless shadowed; frozen parents have no unknown children. */
  ghost predicate Marks(os: OS, owned0: seq<Handle>, owned: seq<Handle>,
                        frozen: seq<Handle>, seen: set<nat>, pending: seq<Handle>)
  {
    && (forall h :: h in owned0 ==> h in owned)
    && (forall h :: h in owned ==> h.birth < os.clock)
    && (forall h :: h in pending ==> h in owned)
    && (forall h :: h in owned ==> h.pid in seen || h in pending)
    && (forall f :: f in frozen ==> f in os.suspended && f in owned && f.pid in seen)
    && (forall f :: f in frozen ==> !Shadowed(owned0, f))
    && (forall f, c :: f in frozen && ChildOf(os, c, f) ==> c in owned)
    && (forall h :: h in os.alive && h.pid in seen ==> h in frozen || Shadowed(owned0, h))
    && (forall p :: p in seen ==> Met(owned0, frozen, p))
  }

  ghost predicate Walk(os: OS, owned0: seq<Handle>, k: nat, owned: seq<Handle>,
                       frozen: seq<Handle>, seen: set<nat>, pending: seq<Handle>)
  {
    Sane(os) && Worklist(os, owned0, k, seen, pending) && Marks(os, owned0, owned, frozen, seen, pending)
  }

  ghost function Unseen(os: OS, seen: set<nat>): set<Handle> {
    set h | h in os.alive && h.pid !in seen
  }

  lemma WalkSurvivesForks(a: OS, b: OS, owned0: seq<Handle>, k: nat, owned: seq<Handle>,
                          frozen: seq<Handle>, seen: set<nat>, pending: seq<Handle>)
    requires Walk(a, owned0, k, owned, frozen, seen, pending)
    requires Evolves(a, b)
    ensures Walk(b, owned0, k, owned, frozen, seen, pending)
    ensures b.budget + |Unseen(b, seen)| <= a.budget + |Unseen(a, seen)|
  {
    forall f, c | f in frozen && ChildOf(b, c, f) ensures c in owned {
      assert c in a.alive;
      assert ChildOf(a, c, f);
    }
    forall h | h in b.alive && h.pid in seen ensures h in frozen || Shadowed(owned0, h) {
      if h !in a.alive {
        assert Met(owned0, frozen, h.pid);
        assert h !in owned0;
      }
    }
    UnseenGrowth(a, b, seen);
  }

  lemma UnseenGrowth(a: OS, b: OS, seen: set<nat>)
    requires a.alive <= b.alive
    ensures |Unseen(b, seen)| <= |Unseen(a, seen)| + |b.alive| - |a.alive|
  {
    var added := b.alive - a.alive;
    assert a.alive + added == b.alive && a.alive !! added;
    assert |b.alive| == |a.alive| + |added|;
    assert Unseen(b, seen) <= Unseen(a, seen) + added;
    SubsetSize(Unseen(b, seen), Unseen(a, seen) + added);
    assert |Unseen(a, seen) + added| <= |Unseen(a, seen)| + |added|;
  }

  lemma SubsetSize<T>(a: set<T>, b: set<T>)
    requires a <= b
    ensures |a| <= |b|
  {
    assert b == a + (b - a);
  }

  /** Popping the head: either its pid was met before, or nothing owned at
      entry carries that pid ahead of it. */
  lemma Pop(os: OS, owned0: seq<Handle>, k: nat, owned: seq<Handle>,
            frozen: seq<Handle>, seen: set<nat>, pending: seq<Handle>) returns (k': nat)
    requires Walk(os, owned0, k, owned, frozen, seen, pending)
    requires |pending| > 0
    ensures k <= k' <= |owned0| && (k < |owned0| ==> k' == k + 1 && pending[0] == owned0[k])
    ensures k == |owned0| ==> k' == k
    ensures |pending| - 1 >= |owned0| - k' && pending[1..][..|owned0| - k'] == owned0[k'..]
    ensures pending[0] in owned
    ensures pending[0].pid !in seen ==> !Shadowed(owned0, pending[0])
  {
    var h := pending[0];
    k' := if k < |owned0| then k + 1 else k;
    if k < |owned0| {
      var n := |owned0| - k;
      assert pending[..n][0] == owned0[k..][0];
      assert pending[1..][..n - 1] == pending[..n][1..];
      assert owned0[k..][1..] == owned0[k + 1..];
    }
  }

  lemma WalkSkip(os: OS, owned0: seq<Handle>, k: nat, owned: seq<Handle>,
                 frozen: seq<Handle>, seen: set<nat>, pending: seq<Handle>) returns (k': nat)
    requires Walk(os, owned0, k, owned, frozen, seen, pending)
    requires |pending| > 0 && pending[0].pid in seen
    ensures Walk(os, owned0, k', owned, frozen, seen, pending[1..])
  {
    k' := Pop(os, owned0, k, owned, frozen, seen, pending);
    assert forall h :: h in pending ==> h == pending[0] || h in pending[1..];
  }

  lemma WalkGone(os: OS, owned0: seq<Handle>, k: nat, owned: seq<Handle>,
                 frozen: seq<Handle>, seen: set<nat>, pending: seq<Handle>) returns (k': nat)
    requires Walk(os, owned0, k, owned, frozen, seen, pending)
    requires |pending| > 0 && pending[0].pid !in seen && pending[0] !in os.alive
    ensures Walk(os, owned0, k', owned, frozen, seen + {pending[0].pid}, pending[1..])
    ensures |Unseen(os, seen + {pending[0].pid})| <= |Unseen(os, seen)|
  {
    var h := pending[0];
    k' := Pop(os, owned0, k, owned, frozen, seen, pending);
    assert forall g :: g in pending ==> g == h || g in pending[1..];
    SubsetSize(Unseen(os, seen + {h.pid}), Unseen(os, seen));
    forall g | g in os.alive && g.pid in seen + {h.pid}
      ensures g in frozen || Shadowed(owned0, g)
    {
      if g.pid == h.pid {
        StaleHandleShadows(os, owned0, k, owned, frozen, seen, pending, g);
      }
    }
  }

  /** A dead handle that is popped first hides a live one with its pid. */
  lemma StaleHandleShadows(os: OS, owned0: seq<Handle>, k: nat, owned: seq<Handle>,
                           frozen: seq<Handle>, seen: set<nat>, pending: seq<Handle>, g: Handle)
    requires Walk(os, owned0, k, owned, frozen, seen, pending)
    requires |pending| > 0 && pending[0].pid !in seen && pending[0] !in os.alive
    requires g in os.alive && g.pid == pending[0].pid
    ensures Shadowed(owned0, g)
  {
    var k' := Pop(os, owned0, k, owned, frozen, seen, pending);
    assert owned0[k].pid == g.pid && owned0[k] != g && g !in owned0[..k];
  }

  function AppendMissing(owned: seq<Handle>, children: seq<Handle>): seq<Handle>
    decreases |children|
  {
    if children == [] then owned
    else AppendMissing(if children[0] in owned then owned else owned + [children[0]], children[1..])
  }

  lemma AppendMissingCovers(owned: seq<Handle>, children: seq<Handle>)
    ensures owned <= AppendMissing(owned, children)
    ensures forall h :: h in AppendMissing(owned, children) <==> h in owned || h in children
    decreases |children|
  {
    if children != [] {
      var owned' := if children[0] in owned then owned else owned + [children[0]];
      AppendMissingCovers(owned', children[1..]);
      assert forall h :: h in children <==> h == children[0] || h in children[1..];
    }
  }

  /** Stop the head, then enumerate: whatever it forked before the stop is in
      `children`, and it can fork nothing afterwards. */
  lemma WalkFreeze(a: OS, mid: OS, c: OS, owned0: seq<Handle>, k: nat, owned: seq<Handle>,
                   frozen: seq<Handle>, seen: set<nat>, pending: seq<Handle>, children: seq<Handle>)
    returns (k': nat)
    requires Walk(a, owned0, k, owned, frozen, seen, pending)
    requires |pending| > 0 && pending[0].pid !in seen
    requires Stopped(a, mid, c, pending[0], children)
    ensures Walk(c, owned0, k', AppendMissing(owned, children), frozen + [pending[0]],
                 seen + {pending[0].pid}, pending[1..] + children)
    ensures c.budget + |Unseen(c, seen + {pending[0].pid})| < a.budget + |Unseen(a, seen)|
  {
    WalkSurvivesStop(a, mid, c, owned0, k, owned, frozen, seen, pending, children);
    k' := Pop(c, owned0, k, owned, frozen, seen, pending);
    WorklistFreeze(c, owned0, k, k', seen, pending, children);
    MarksFreeze(c, owned0, owned, frozen, seen, pending, children);
    UnseenShrinks(c, pending[0], seen);
  }

  lemma WalkSurvivesStop(a: OS, mid: OS, c: OS, owned0: seq<Handle>, k: nat, owned: seq<Handle>,
                         frozen: seq<Handle>, seen: set<nat>, pending: seq<Handle>, children: seq<Handle>)
    requires Walk(a, owned0, k, owned, frozen, seen, pending)
    requires |pending| > 0 && Stopped(a, mid, c, pending[0], children)
    ensures Walk(c, owned0, k, owned, frozen, seen, pending)
    ensures c.budget + |Unseen(c, seen)| <= a.budget + |Unseen(a, seen)|
    ensures pending[0] in c.suspended && forall g :: g in children ==> g in c.alive
  {
    WalkSurvivesForks(a, mid, owned0, k, owned, frozen, seen, pending);
    var b := Stop(mid, pending[0]);
    assert Unseen(b, seen) == Unseen(mid, seen);
    assert forall f, g :: ChildOf(b, f, g) <==> ChildOf(mid, f, g);
    WalkSurvivesForks(b, c, owned0, k, owned, frozen, seen, pending);
  }

  lemma UnseenShrinks(c: OS, h: Handle, seen: set<nat>)
    requires h in c.alive && h.pid !in seen
    ensures |Unseen(c, seen + {h.pid})| < |Unseen(c, seen)|
  {
    assert h in Unseen(c, seen) && Unseen(c, seen + {h.pid}) <= Unseen(c, seen) - {h};
    SubsetSize(Unseen(c, seen + {h.pid}), Unseen(c, seen) - {h});
  }

  /** From `a`, `h` was stopped in `mid`, and `children` are its children in `c`. */
  ghost predicate Stopped(a: OS, mid: OS, c: OS, h: Handle, children: seq<Handle>) {
    && Evolves(a, mid) && h in mid.alive
    && Evolves(Stop(mid, h), c)
    && forall g :: g in children <==> ChildOf(c, g, h)
  }

  lemma WorklistFreeze(c: OS, owned0: seq<Handle>, k: nat, k': nat, seen: set<nat>,
                       pending: seq<Handle>, children: seq<Handle>)
    requires |pending| > 0 && Worklist(c, owned0, k, seen, pending)
    requires k' == if k < |owned0| then k + 1 else k
    requires forall g :: g in children ==> g in c.alive
    ensures Worklist(c, owned0, k', seen + {pending[0].pid}, pending[1..] + children)
  {
    var rest := pending[1..] + children;
    var n := |owned0| - k;
    if n > 0 {
      assert pending[..n][0] == owned0[k..][0] == owned0[k];
      assert rest[..n - 1] == pending[..n][1..];
      assert owned0[k..][1..] == owned0[k + 1..];
    }
  }

  lemma MarksFreeze(c: OS, owned0: seq<Handle>, owned: seq<Handle>, frozen: seq<Handle>,
                    seen: set<nat>, pending: seq<Handle>, children: seq<Handle>)
    requires Sane(c) && Marks(c, owned0, owned, frozen, seen, pending)
    requires |pending| > 0 && pending[0].pid !in seen && !Shadowed(owned0, pending[0])
    requires pending[0] in c.suspended
    requires forall h :: h in children <==> ChildOf(c, h, pending[0])
    ensures Marks(c, owned0, AppendMissing(owned, children), frozen + [pending[0]],
                  seen + {pending[0].pid}, pending[1..] + children)
  {
    AppendMissingCovers(owned, children);
    var h := pending[0];
    assert forall g :: g in pending ==> g == h || g in pending[1..];
    assert forall f :: f in frozen ==> f in frozen + [h];
    assert h in frozen + [h];
    forall p | p in seen + {h.pid} ensures Met(owned0, frozen + [h], p) {
      if p in seen { assert Met(owned0, frozen, p); }
    }
  }

  /** An emptied worklist is the answer: everything within reach is frozen, and that
      is every live descendant exactly when no owned handle shadows one. */
  lemma WalkDone(os: OS, owned0: seq<Handle>, k: nat, owned: seq<Handle>,
                 frozen: seq<Handle>, seen: set<nat>)
    requires Walk(os, owned0, k, owned, frozen, seen, [])
    ensures forall h :: Reached(os, owned0, h) ==> h in frozen
    ensures AllFrozen(os, owned0, frozen) <==> NoneShadowed(os, owned0)
  {
    forall h | Reached(os, owned0, h) ensures h in frozen {
      var path :| OpenPath(os, owned0, path) && path[|path| - 1] == h;
      PathFrozen(os, owned0, k, owned, frozen, seen, path);
    }
    if NoneShadowed(os, owned0) {
      forall h | Descendant(os, owned0, h) ensures h in frozen {
        var path :| LivePath(os, owned0, path) && path[|path| - 1] == h;
        DescendantOpen(os, owned0, path);
      }
    }
  }

  lemma {:induction false} PathFrozen(os: OS, owned0: seq<Handle>, k: nat, owned: seq<Handle>,
                                      frozen: seq<Handle>, seen: set<nat>, path: seq<Handle>)
    requires Walk(os, owned0, k, owned, frozen, seen, [])
    requires OpenPath(os, owned0, path)
    ensures path[|path| - 1] in frozen
    decreases |path|
  {
    var last := path[|path| - 1];
    PathIsLive(os, owned0, path, |path| - 1);
    if |path| > 1 {
      var shorter := path[..|path| - 1];
      assert OpenPath(os, owned0, shorter);
      PathFrozen(os, owned0, k, owned, frozen, seen, shorter);
      assert ChildOf(os, last, shorter[|shorter| - 1]);
    }
  }

  /** Everything frozen is within reach, and everything pending was owned at entry
      or is the child of something frozen. */
  ghost predicate Sources(os: OS, owned0: seq<Handle>, frozen: seq<Handle>, pending: seq<Handle>) {
    && (forall f :: f in frozen ==> Reached(os, owned0, f))
    && (forall h :: h in pending ==> h in owned0 || Adopted(os, frozen, h))
  }

  ghost predicate Adopted(os: OS, frozen: seq<Handle>, h: Handle) {
    exists f :: f in frozen && ChildOf(os, h, f)
  }

  lemma SourcesKeep(a: OS, b: OS, owned0: seq<Handle>, frozen: seq<Handle>, pending: seq<Handle>)
    requires Keeps(a, b) && Sources(a, owned0, frozen, pending)
    ensures Sources(b, owned0, frozen, pending)
  {
    forall f | f in frozen ensures Reached(b, owned0, f) {
      ReachedKeeps(a, b, owned0, f);
    }
    forall h | h in pending && h !in owned0 ensures Adopted(b, frozen, h) {
      var f :| f in frozen && ChildOf(a, h, f);
      assert ChildOf(b, h, f);
    }
  }

  lemma SourcesReach(os: OS, owned0: seq<Handle>, frozen: seq<Handle>, pending: seq<Handle>, h: Handle)
    requires Sources(os, owned0, frozen, pending) && h in pending && h in os.alive && !Shadowed(owned0, h)
    ensures Reached(os, owned0, h)
  {
    if h in owned0 {
      ReachedOwned(os, owned0, h);
    } else {
      var f :| f in frozen && ChildOf(os, h, f);
      ReachedChild(os, owned0, f, h);
    }
  }

  lemma SourcesFreeze(os: OS, owned0: seq<Handle>, frozen: seq<Handle>, pending: seq<Handle>, children: seq<Handle>)
    requires Sources(os, owned0, frozen, pending) && pending != []
    requires pending[0] in os.alive && !Shadowed(owned0, pending[0])
    requires forall c :: c in children ==> ChildOf(os, c, pending[0])
    ensures Sources(os, owned0, frozen + [pending[0]], pending[1..] + children)
  {
    var h := pending[0];
    SourcesReach(os, owned0, frozen, pending, h);
    forall g | g in pending[1..] + children ensures g in owned0 || Adopted(os, frozen + [h], g) {
      if g in children {
        assert h in frozen + [h] && ChildOf(os, g, h);
      } else if g !in owned0 {
        var f :| f in frozen && ChildOf(os, g, f);
        assert f in frozen + [h];
      }
    }
  }

  // ------------------------------------------------------------------
  // Resume and kill bookkeeping
  // ------------------------------------------------------------------

  /** The live handles that refuse a signal, in their original order. */
  function Stuck(os: OS, hs: seq<Handle>, right: Right): (r: seq<Handle>)
    ensures forall h :: h in r <==> h in hs && Answer(os, h, right) == Denied
  {
    if hs == [] then []
    else (if Answer(os, hs[0], right) == Denied then [hs[0]] else []) + Stuck(os, hs[1..], right)
  }

  function Reversed(hs: seq<Handle>): seq<Handle> {
    if hs == [] then [] else Reversed(hs[1..]) + [hs[0]]
  }

  lemma ReversedAppend(hs: seq<Handle>, h: Handle)
    ensures Reversed(hs + [h]) == [h] + Reversed(hs)
  {
    if hs != [] {
      ReversedAppend(hs[1..], h);
      assert (hs + [h])[1..] == hs[1..] + [h];
    }
  }

  /** One more handle at the front of the already signalled suffix. */
  lemma StuckStep(os: OS, hs: seq<Handle>, i: nat, right: Right, failed: seq<Handle>)
    requires i < |hs| && Reversed(failed) == Stuck(os, hs[i + 1..], right)
    ensures Reversed(if Answer(os, hs[i], right) == Denied then failed + [hs[i]] else failed) == Stuck(os, hs[i..], right)
  {
    assert hs[i..][1..] == hs[i + 1..];
    ReversedAppend(failed, hs[i]);
  }

  /** The handles on which a signal takes effect, as far as they are alive. */
  function Movable(os: OS, hs: seq<Handle>, right: Right): set<Handle> {
    set h | h in hs && !Refuses(os, h, right)
  }

  lemma AnswerStays(a: OS, b: OS, h: Handle, right: Right)
    requires Keeps(a, b) && h.birth < a.clock
    ensures Answer(b, h, right) == Answer(a, h, right)
  {
  }

  /** Of the processes of `a`, those in `hs` that did not refuse are dead in `b`. */
  ghost predicate Killed(a: OS, b: OS, hs: seq<Handle>) {
    && a.clock <= b.clock
    && (forall h: Handle :: h.birth < a.clock ==> (h in b.alive <==> h in a.alive && h !in Movable(a, hs, ToKill)))
    && (forall h: Handle :: h.birth < a.clock && h in b.alive ==> Refuses(b, h, ToKill) == Refuses(a, h, ToKill))
  }

  lemma KilledStep(start: OS, a: OS, mid: OS, b: OS, hs: seq<Handle>, i: nat)
    requires i < |hs| && Known(start, hs) && Killed(start, a, hs[i + 1..]) && Evolves(a, mid)
    requires b == if Answer(mid, hs[i], ToKill) == Done then Without(mid, hs[i]) else mid
    ensures Answer(mid, hs[i], ToKill) == Denied <==> Answer(start, hs[i], ToKill) == Denied
    ensures Killed(start, b, hs[i..])
  {
    assert hs[i..] == [hs[i]] + hs[i + 1..];
    assert hs[i] in hs;
    assert Movable(start, hs[i..], ToKill) == Movable(start, hs[i + 1..], ToKill) + Movable(start, [hs[i]], ToKill);
  }

  /** Nothing in `hs` can be scheduled: each is stopped or dead. */
  ghost predicate Halted(os: OS, hs: seq<Handle>) {
    forall h :: h in hs ==> h in os.suspended || h !in os.alive
  }

  /** `b` is a later kernel in which no old handle came back to life, nothing in
      `halted` was scheduled since `a` and nothing in `halted` has forked since. */
  ghost predicate Succeeds(a: OS, b: OS, halted: seq<Handle>) {
    && a.clock <= b.clock && a.stoppedAt == b.stoppedAt
    && (forall h :: h in b.alive && h.birth < a.clock ==> h in a.alive)
    && (forall h :: h in a.parent ==> h in b.parent && b.parent[h] == a.parent[h])
    && (forall h :: h in b.parent && h !in a.parent ==> h.birth >= a.clock && b.parent[h] !in halted)
    && a.ran <= b.ran
    && (forall i :: |a.ran| <= i < |b.ran| ==> b.ran[i] !in halted)
  }

  /** Nothing in `hs` has run or forked since `a`, nor can it run now. */
  ghost predicate Quiet(a: OS, b: OS, hs: seq<Handle>) {
    Halted(b, hs) && Succeeds(a, b, hs)
  }

  /** Killing or failing to kill a halted process lets no halted process run. */
  lemma KillStep(start: OS, a: OS, mid: OS, halted: seq<Handle>, h: Handle)
    requires Sane(a) && Known(start, halted) && Quiet(start, a, halted) && Evolves(a, mid)
    ensures Quiet(start, mid, halted) && Quiet(start, Without(mid, h), halted)
  {
    forall i | |start.ran| <= i < |mid.ran| ensures mid.ran[i] !in halted {
      if i < |a.ran| { assert mid.ran[i] == a.ran[i]; }
    }
  }

  lemma SucceedsAfterDelay(a: OS, b: OS, c: OS, halted: seq<Handle>)
    requires Evolves(a, b) && Succeeds(b, c, halted)
    requires Known(a, halted) && Halted(a, halted)
    ensures Succeeds(a, c, halted)
  {
    forall i | |a.ran| <= i < |c.ran| ensures c.ran[i] !in halted {
      if i < |b.ran| { assert c.ran[i] == b.ran[i]; }
    }
  }

  /** A line of descent from an owned handle, on which nothing is shadowed and
      nothing had exited before `a`; its members may be dead in `b`. */
  predicate Lineage(a: OS, b: OS, owned: seq<Handle>, path: seq<Handle>) {
    && |path| > 0
    && path[0] in owned
    && (forall i :: 0 <= i < |path| ==> !Shadowed(owned, path[i]) && (path[i] in a.alive || path[i].birth >= a.clock))
    && forall i :: 0 < i < |path| ==> path[i] in b.parent && b.parent[path[i]] == path[i - 1]
  }

  /** Every process that descends from an owned handle and lived at `a` or later is
      dead, and was not scheduled any more once it had been suspended. */
  ghost predicate Extinct(a: OS, b: OS, owned: seq<Handle>) {
    forall path :: Lineage(a, b, owned, path) ==>
      var last := path[|path| - 1]; last !in b.alive && last in b.stoppedAt && QuietSince(b, last, b.stoppedAt[last])
  }

  /** Once everything within reach at `s`, stopped there, is dead, the tree is extinct. */
  lemma Extinction(a: OS, s: OS, b: OS, owned: seq<Handle>, frozen: seq<Handle>)
    requires Sane(a) && Sane(s) && Keeps(a, s) && Known(a, owned)
    requires forall h :: Reached(s, owned, h) ==> h in frozen
    requires Succeeds(s, b, frozen) && forall h :: h in frozen ==> h in s.suspended && h !in b.alive
    ensures Extinct(a, b, owned)
  {
    forall path | Lineage(a, b, owned, path)
      ensures var last := path[|path| - 1]; last !in b.alive && last in b.stoppedAt && QuietSince(b, last, b.stoppedAt[last])
    {
      LineageReached(a, s, b, owned, frozen, path);
      StillQuiet(s, b, frozen, path[|path| - 1]);
    }
  }

  lemma StillQuiet(a: OS, b: OS, halted: seq<Handle>, h: Handle)
    requires Sane(a) && Succeeds(a, b, halted) && h in halted && h in a.suspended
    ensures QuietSince(b, h, a.stoppedAt[h])
  {
    assert QuietSince(a, h, a.stoppedAt[h]);
    forall i | a.stoppedAt[h] <= i < |b.ran| ensures b.ran[i] != h {
      if i < |a.ran| { assert b.ran[i] == a.ran[i]; }
    }
  }

  lemma {:induction false} LineageReached(a: OS, s: OS, b: OS, owned: seq<Handle>, frozen: seq<Handle>, path: seq<Handle>)
    requires Sane(a) && Sane(s) && Keeps(a, s) && Known(a, owned)
    requires forall h :: Reached(s, owned, h) ==> h in frozen
    requires Succeeds(s, b, frozen) && Lineage(a, b, owned, path)
    ensures Reached(s, owned, path[|path| - 1])
    decreases |path|
  {
    var last := path[|path| - 1];
    if |path| == 1 {
      ReachedOwned(s, owned, last);
    } else {
      var shorter := path[..|path| - 1];
      assert Lineage(a, b, owned, shorter);
      LineageReached(a, s, b, owned, frozen, shorter);
      var parent := shorter[|shorter| - 1];
      assert b.parent[last] == parent && parent in frozen;
      assert last in s.parent;
      assert last in s.alive;
      ReachedChild(s, owned, parent, last);
    }
  }

  // ------------------------------------------------------------------
  // The tree an agent invocation owns
  // ------------------------------------------------------------------

  ghost predicate Walking(os: OS, owned0: seq<Handle>, k: nat, owned: seq<Handle>,
                          frozen: seq<Handle>, seen: set<nat>, pending: seq<Handle>)
  {
    && Walk(os, owned0, k, owned, frozen, seen, pending)
    && Sources(os, owned0, frozen, pending)
    && NoneResists(os, frozen)
  }

  ghost predicate NoneResists(os: OS, hs: seq<Handle>) {
    forall h :: h in hs ==> !Resists(os, h)
  }

  /** What holds of a walk from `a` whether or not something resisted. */
  ghost predicate Progress(a: OS, b: OS, owned0: seq<Handle>, owned: seq<Handle>, frozen: seq<Handle>) {
    && Keeps(a, b)
    && (forall h :: h in owned0 ==> h in owned)
    && (forall h :: h in frozen ==> h in b.suspended && Reached(b, owned0, h))
    && (forall h :: h in b.suspended ==> h in a.suspended || h in frozen)
  }

  lemma WalkingFreeze(a: OS, mid: OS, c: OS, owned0: seq<Handle>, k: nat, owned: seq<Handle>,
                      frozen: seq<Handle>, seen: set<nat>, pending: seq<Handle>, children: seq<Handle>)
    returns (k': nat)
    requires Walking(a, owned0, k, owned, frozen, seen, pending)
    requires |pending| > 0 && pending[0].pid !in seen
    requires Stopped(a, mid, c, pending[0], children) && Keeps(a, c) && !Resists(c, pending[0])
    ensures Walking(c, owned0, k', AppendMissing(owned, children), frozen + [pending[0]],
                    seen + {pending[0].pid}, pending[1..] + children)
    ensures c.budget + |Unseen(c, seen + {pending[0].pid})| < a.budget + |Unseen(a, seen)|
  {
    assert !Shadowed(owned0, pending[0]) by {
      var _ := Pop(a, owned0, k, owned, frozen, seen, pending);
    }
    assert pending[0] in c.alive by {
      StoppedKeeps(a, mid, c, pending[0]);
    }
    SourcesAfter(a, c, owned0, frozen, pending, children);
    ResistanceStays(a, c, frozen);
    ResistanceAdds(c, frozen, pending[0]);
    k' := WalkFreeze(a, mid, c, owned0, k, owned, frozen, seen, pending, children);
  }

  lemma SourcesAfter(a: OS, c: OS, owned0: seq<Handle>, frozen: seq<Handle>, pending: seq<Handle>, children: seq<Handle>)
    requires Keeps(a, c) && Sources(a, owned0, frozen, pending) && pending != []
    requires pending[0] in c.alive && !Shadowed(owned0, pending[0])
    requires forall h :: h in children ==> ChildOf(c, h, pending[0])
    ensures Sources(c, owned0, frozen + [pending[0]], pending[1..] + children)
  {
    SourcesKeep(a, c, owned0, frozen, pending);
    SourcesFreeze(c, owned0, frozen, pending, children);
  }

  lemma ResistanceAdds(os: OS, hs: seq<Handle>, h: Handle)
    requires NoneResists(os, hs) && !Resists(os, h)
    ensures NoneResists(os, hs + [h])
  {
  }

  lemma WalkingGone(a: OS, b: OS, owned0: seq<Handle>, k: nat, owned: seq<Handle>,
                    frozen: seq<Handle>, seen: set<nat>, pending: seq<Handle>)
    returns (k': nat)
    requires Walking(a, owned0, k, owned, frozen, seen, pending) && Evolves(a, b)
    requires |pending| > 0 && pending[0].pid !in seen && pending[0] !in b.alive
    ensures Walking(b, owned0, k', owned, frozen, seen + {pending[0].pid}, pending[1..])
    ensures b.budget + |Unseen(b, seen + {pending[0].pid})| <= a.budget + |Unseen(a, seen)|
  {
    WalkSurvivesForks(a, b, owned0, k, owned, frozen, seen, pending);
    k' := WalkGone(b, owned0, k, owned, frozen, seen, pending);
    SourcesKeep(a, b, owned0, frozen, pending);
    ResistanceStays(a, b, frozen);
  }

  /** Progress after the head of the worklist was dealt with, however that went. */
  lemma WalkedOn(start: OS, a: OS, b: OS, owned0: seq<Handle>, k: nat, owned: seq<Handle>, owned': seq<Handle>,
                 frozen: seq<Handle>, frozen': seq<Handle>, seen: set<nat>, pending: seq<Handle>)
    requires Progress(start, a, owned0, owned, frozen) && Walking(a, owned0, k, owned, frozen, seen, pending)
    requires |pending| > 0 && pending[0].pid !in seen && Keeps(a, b)
    requires forall h :: h in owned ==> h in owned'
    requires a.suspended <= b.suspended <= a.suspended + (set h | h in frozen')
    requires frozen' == frozen || (frozen' == frozen + [pending[0]] && pending[0] in b.suspended && pending[0] in b.alive)
    ensures Progress(start, b, owned0, owned', frozen')
    ensures pending[0] in b.alive ==> Reached(b, owned0, pending[0])
  {
    var k' := Pop(a, owned0, k, owned, frozen, seen, pending);
    KeepsTransitive(start, a, b);
    SourcesKeep(a, b, owned0, frozen, pending);
    if pending[0] in b.alive {
      SourcesReach(b, owned0, frozen, pending, pending[0]);
    }
  }

  /** There is something within reach, and nothing within reach resists. */
  ghost predicate Yields(os: OS, owned: seq<Handle>) {
    (exists h :: Reached(os, owned, h)) && forall h :: Reached(os, owned, h) ==> !Resists(os, h)
  }

  /** The frozen processes are stopped, they are those within reach, and they are all the
      live descendants exactly when no descendant is shadowed. */
  ghost predicate Frozen(os: OS, owned0: seq<Handle>, owned: seq<Handle>, frozen: seq<Handle>) {
    && (forall h :: h in frozen <==> Reached(os, owned0, h))
    && (forall h :: h in frozen ==> h in os.suspended && h in owned)
    && (AllFrozen(os, owned0, frozen) <==> NoneShadowed(os, owned0))
    && (forall f, c :: f in frozen && ChildOf(os, c, f) ==> c in owned)
  }

  /** What is still listed as frozen could not be continued. */
  ghost predicate Released(os: OS, owned0: seq<Handle>, frozen: seq<Handle>) {
    forall h :: h in frozen ==> h in os.suspended && Reached(os, owned0, h) && Refuses(os, h, ToContinue)
  }

  ghost predicate NoneAlive(os: OS, owned: seq<Handle>) {
    forall h :: h in owned ==> h !in os.alive
  }

  /** What a kill reaches and may kill, in the kernel as the pause left it. */
  ghost predicate Mortal(stopped: OS, owned: seq<Handle>, h: Handle) {
    Reached(stopped, owned, h) && !Refuses(stopped, h, ToKill)
  }

  /** A kill of an unfrozen tree returns normally exactly when nothing owned is alive, or
      everything within reach yields and is mortal. */
  ghost predicate KillReturns(stopped: OS, owned: seq<Handle>) {
    || NoneAlive(stopped, owned)
    || (Yields(stopped, owned) && forall h :: Reached(stopped, owned, h) ==> Mortal(stopped, owned, h))
  }

  /** If everything within reach yielded, exactly the mortal ones are dead; otherwise nothing
      was killed. */
  ghost predicate Culled(stopped: OS, os: OS, owned: seq<Handle>) {
    if Yields(stopped, owned) then
      forall h: Handle :: h.birth < stopped.clock ==> (h in os.alive <==> h in stopped.alive && !Mortal(stopped, owned, h))
    else os == stopped
  }

  /** What is still listed after a kill: what refused to die, or else to be continued. */
  ghost predicate Listed(stopped: OS, owned: seq<Handle>, frozen: seq<Handle>) {
    if Yields(stopped, owned) then forall h :: h in frozen <==> Reached(stopped, owned, h) && !Mortal(stopped, owned, h)
    else Released(stopped, owned, frozen)
  }

  lemma KilledAll(stopped: OS, owned: seq<Handle>, caught: seq<Handle>, left: seq<Handle>)
    requires Yields(stopped, owned) && forall h :: h in caught <==> Reached(stopped, owned, h)
    requires left == Stuck(stopped, caught, ToKill)
    ensures Listed(stopped, owned, left) && (left == [] <==> KillReturns(stopped, owned))
  {
    forall h | Reached(stopped, owned, h) ensures h in stopped.alive {
      ReachedLives(stopped, owned, h);
    }
    if left != [] {
      assert left[0] in left;
    }
    var h :| Reached(stopped, owned, h);
    ReachedFromOwned(stopped, owned, h);
  }

  lemma KilledCulls(stopped: OS, os: OS, owned: seq<Handle>, caught: seq<Handle>)
    requires Yields(stopped, owned) && forall h :: h in caught <==> Reached(stopped, owned, h)
    requires Killed(stopped, os, caught)
    ensures Culled(stopped, os, owned)
  {
    forall h: Handle ensures h in Movable(stopped, caught, ToKill) <==> Mortal(stopped, owned, h) {
    }
  }

  lemma ReachedFromOwned(os: OS, owned: seq<Handle>, h: Handle)
    requires Reached(os, owned, h)
    ensures !NoneAlive(os, owned)
  {
    var path :| OpenPath(os, owned, path) && path[|path| - 1] == h;
    assert path[0] in owned && path[0] in os.alive;
  }

  /** A pause that raised, and the test whether anything owned still runs. */
  lemma KillAborted(stopped: OS, owned0: seq<Handle>, owned: seq<Handle>, frozen: seq<Handle>, returned: bool)
    requires !Yields(stopped, owned0) && Released(stopped, owned0, frozen) && forall h :: h in owned0 ==> h in owned
    requires (forall h :: !Reached(stopped, owned0, h)) ==> owned == owned0
    requires returned <==> NoneAlive(stopped, owned)
    ensures Listed(stopped, owned0, frozen) && (returned <==> KillReturns(stopped, owned0))
  {
    if h :| Reached(stopped, owned0, h) {
      ReachedFromOwned(stopped, owned0, h);
    }
  }

  lemma ReturnedFrozen(os: OS, owned0: seq<Handle>, k: nat, owned: seq<Handle>, frozen: seq<Handle>, seen: set<nat>)
    requires Walking(os, owned0, k, owned, frozen, seen, []) && frozen != []
    ensures Frozen(os, owned0, owned, frozen) && Yields(os, owned0)
  {
    WalkDone(os, owned0, k, owned, frozen, seen);
    assert frozen[0] in frozen;
  }

  lemma RaisedEmpty(os: OS, owned0: seq<Handle>, k: nat, owned: seq<Handle>, seen: set<nat>)
    requires Walking(os, owned0, k, owned, [], seen, [])
    ensures forall h :: !Reached(os, owned0, h)
  {
    WalkDone(os, owned0, k, owned, [], seen);
  }

  lemma RaisedRefused(a: OS, b: OS, c: OS, owned0: seq<Handle>, caught: seq<Handle>, left: seq<Handle>, culprit: Handle)
    requires Keeps(a, b) && Keeps(b, c) && Reached(b, owned0, culprit) && Resists(b, culprit)
    requires forall h :: h in caught ==> h in b.suspended && h in b.alive && Reached(b, owned0, h)
    requires left == Stuck(b, caught, ToContinue) && c.suspended == b.suspended - Movable(b, caught, ToContinue)
    ensures Released(c, owned0, left) && Reached(c, owned0, culprit) && Resists(c, culprit)
    ensures forall h :: h in c.suspended ==> h in b.suspended && (h in caught ==> h in left)
  {
    ReachedKeeps(b, c, owned0, culprit);
    ReachedLives(b, owned0, culprit);
    forall h | h in left ensures Reached(c, owned0, h) {
      ReachedKeeps(b, c, owned0, h);
    }
  }

  lemma ReachedLives(os: OS, owned: seq<Handle>, h: Handle)
    requires Reached(os, owned, h)
    ensures h in os.alive
  {
    var path :| OpenPath(os, owned, path) && path[|path| - 1] == h;
    PathIsLive(os, owned, path, |path| - 1);
  }

  class ProcessTree {
    const machine: Machine
    const root: Handle
    var frozen: seq<Handle>
    var owned: seq<Handle>

    ghost predicate Valid()
      reads this, machine
    {
      Sane(machine.os) && Known(machine.os, owned) && Known(machine.os, frozen)
    }

    constructor (machine: Machine, root: Handle)
      requires Sane(machine.os) && root.birth < machine.os.clock
      ensures this.machine == machine && this.root == root && frozen == [] && owned == [root]
      ensures Valid()
    {
      this.machine, this.root := machine, root;
      frozen := [];
      owned := [root];
    }

    /** Keep the handles given, once each. */
    method Own(handles: seq<Handle>)
      modifies this
      ensures owned == AppendMissing(old(owned), handles)
      ensures frozen == old(frozen)
    {
      for i := 0 to |handles|
        invariant AppendMissing(owned, handles[i..]) == AppendMissing(old(owned), handles)
        invariant frozen == old(frozen)
      {
        assert handles[i..][1..] == handles[i + 1..];
        if handles[i] !in owned {
          owned := owned + [handles[i]];
        }
      }
    }

    /** Before a graceful shutdown: afterwards every live descendant of the root is owned,
        and nothing else besides what was; a root that is gone changes nothing. */
    method RememberDescendants()
      requires Valid()
      modifies this, machine
      ensures Valid() && Evolves(old(machine.os), machine.os) && frozen == old(frozen) && old(owned) <= owned
      ensures root !in machine.os.alive ==> owned == old(owned)
      ensures root in machine.os.alive ==>
                forall h :: h in owned <==> h in old(owned) || (h != root && Descendant(machine.os, [root], h))
    {
      var signal, family := machine.Family(root);
      AppendMissingCovers(owned, family);
      if signal != Gone {
        forall h | Descendant(machine.os, [root], h) ensures h in machine.os.alive {
          var path :| LivePath(machine.os, [root], path) && path[|path| - 1] == h;
          PathIsLive(machine.os, [root], path, |path| - 1);
        }
        Own(family);
      }
    }

    /** Stop one process and only then list its children; it counts as frozen even
        when its children may not be listed. */
    method Freeze(process: Handle) returns (signal: Signal, children: seq<Handle>, ghost mid: OS)
      requires Valid()
      modifies this, machine
      ensures Valid()
      ensures signal == Done ==>
                && Stopped(old(machine.os), mid, machine.os, process, children)
                && !Resists(machine.os, process)
                && frozen == old(frozen) + [process]
                && owned == AppendMissing(old(owned), children)
      ensures signal == Gone ==> Evolves(old(machine.os), machine.os) && process !in machine.os.alive && frozen == old(frozen)
      ensures signal == Denied ==>
                && process in machine.os.alive && Resists(machine.os, process)
                && (frozen == old(frozen) || (frozen == old(frozen) + [process] && process in machine.os.suspended))
      ensures signal != Done ==> owned == old(owned) && children == []
      ensures old(machine.os.suspended) <= machine.os.suspended <= old(machine.os.suspended) + (set h | h in frozen)
      ensures Keeps(old(machine.os), machine.os)
      ensures forall h :: h in old(owned) ==> h in owned
    {
      children := [];
      signal, mid := machine.Suspend(process);
      if signal == Done {
        frozen := frozen + [process];
        StopSane(mid, process);
        signal, children := machine.Children(process);
        StoppedKeeps(old(machine.os), mid, machine.os, process);
        AppendMissingCovers(owned, children);
        Own(children);
      }
    }

    /** Stops the whole tree.  A normal return means that the processes within reach,
        of which there are some, are exactly the frozen ones, and stopped; they are all
        the live descendants of the handles owned at entry if and only if none of those
        is shadowed by a stale handle.  The call returns normally exactly when there is
        something within reach and nothing within reach resists; otherwise it raises,
        and of what it had stopped just the processes that refuse to be continued are
        still stopped and listed.  Terminates under the fork budget. */
    method Pause() returns (exit: Exit)
      requires Valid()
      modifies this, machine
      ensures Valid() && Keeps(old(machine.os), machine.os)
      ensures old(frozen) != [] ==> exit == Returned && frozen == old(frozen) && owned == old(owned) && machine.os == old(machine.os)
      ensures forall h :: h in old(owned) ==> h in owned
      ensures old(frozen) == [] ==> (exit == Returned <==> Yields(machine.os, old(owned)))
      ensures old(frozen) == [] && exit == Returned ==> Frozen(machine.os, old(owned), owned, frozen)
      ensures old(frozen) == [] && exit != Returned ==> Released(machine.os, old(owned), frozen)
      ensures old(frozen) == [] ==> forall h :: h in machine.os.suspended ==> h in old(machine.os.suspended) || h in frozen
      ensures exit == AccessFailure ==> exists h :: Reached(machine.os, old(owned), h)
      ensures (forall h :: !Reached(machine.os, old(owned), h)) ==> owned == old(owned)
    {
      if frozen != [] {
        return Returned;
      }
      ghost var owned0 := owned;
      var refused, culprit, k, seen := WalkTree();
      ghost var walked, caught := machine.os, frozen;
      if refused || frozen == [] {
        var failure := Resume();
        if refused {
          RaisedRefused(old(machine.os), walked, machine.os, owned0, caught, frozen, culprit);
        } else {
          RaisedEmpty(walked, owned0, k, owned, seen);
        }
        KeepsTransitive(old(machine.os), walked, machine.os);
        return if failure != Returned then failure else if refused then AccessFailure else RuntimeFailure;
      }
      ReturnedFrozen(machine.os, owned0, k, owned, frozen, seen);
      exit := Returned;
    }

    /** One process of the walk, met for the first time. */
    method Visit(ghost start: OS, ghost owned0: seq<Handle>, ghost k: nat, met: set<nat>, pending: seq<Handle>)
      returns (signal: Signal, children: seq<Handle>, ghost k': nat)
      requires Valid() && pending != [] && pending[0].pid !in met
      requires Progress(start, machine.os, owned0, owned, frozen) && Walking(machine.os, owned0, k, owned, frozen, met, pending)
      modifies this, machine
      ensures Valid() && Progress(start, machine.os, owned0, owned, frozen)
      ensures frozen == [] ==> owned == old(owned) && old(frozen) == []
      ensures signal == Denied ==> Reached(machine.os, owned0, pending[0]) && Resists(machine.os, pending[0])
      ensures signal != Denied ==>
                Walking(machine.os, owned0, k', owned, frozen, met + {pending[0].pid}, pending[1..] + children)
      ensures var left := machine.os.budget + |Unseen(machine.os, met + {pending[0].pid})|;
              var before := old(machine.os).budget + |Unseen(old(machine.os), met)|;
              (signal == Done ==> left < before) && (signal == Gone ==> children == [] && left <= before)
    {
      ghost var before, owned', frozen' := machine.os, owned, frozen;
      ghost var mid;
      signal, children, mid := Freeze(pending[0]);
      WalkedOn(start, before, machine.os, owned0, k, owned', owned, frozen', frozen, met, pending);
      k' := k;
      if signal == Done {
        k' := WalkingFreeze(before, mid, machine.os, owned0, k, owned', frozen', met, pending, children);
      } else if signal == Gone {
        assert pending[1..] + children == pending[1..];
        k' := WalkingGone(before, machine.os, owned0, k, owned, frozen, met, pending);
      }
    }

    /** The walk itself: stops and lists from the front of the worklist until it is
        empty or something resists. */
    method WalkTree() returns (refused: bool, ghost culprit: Handle, ghost k: nat, ghost seen: set<nat>)
      requires Valid() && frozen == []
      modifies this, machine
      ensures Valid() && Progress(old(machine.os), machine.os, old(owned), owned, frozen)
      ensures refused ==> Reached(machine.os, old(owned), culprit) && Resists(machine.os, culprit)
      ensures !refused ==> Walking(machine.os, old(owned), k, owned, frozen, seen, [])
      ensures frozen == [] ==> owned == old(owned)
    {
      ghost var owned0 := owned;
      k, culprit, refused := 0, Handle(0, 0), false;
      var pending := owned;
      var met: set<nat> := {};
      while pending != [] && !refused
        invariant Valid() && Progress(old(machine.os), machine.os, owned0, owned, frozen)
        invariant refused ==> Reached(machine.os, owned0, culprit) && Resists(machine.os, culprit)
        invariant !refused ==> Walking(machine.os, owned0, k, owned, frozen, met, pending)
        invariant frozen == [] ==> owned == owned0
        decreases !refused, machine.os.budget + |Unseen(machine.os, met)|, |pending|
      {
        var process := pending[0];
        if process.pid in met {
          k := WalkSkip(machine.os, owned0, k, owned, frozen, met, pending);
          pending := pending[1..];
          continue;
        }
        var signal, children, k' := Visit(old(machine.os), owned0, k, met, pending);
        k := k';
        if signal == Denied {
          refused, culprit := true, process;
        } else {
          pending := pending[1..] + children;
          met := met + {process.pid};
        }
      }
      seen := met;
    }

    /** Continues the frozen processes, children first.  `frozen` becomes exactly the
        live ones that refuse, in original order, and all the others run again. */
    method Resume() returns (exit: Exit)
      requires Valid()
      modifies this, machine
      ensures Valid() && owned == old(owned) && Keeps(old(machine.os), machine.os)
      ensures frozen == Stuck(old(machine.os), old(frozen), ToContinue)
      ensures machine.os.suspended == old(machine.os.suspended) - Movable(old(machine.os), old(frozen), ToContinue)
      ensures exit == if frozen == [] then Returned else RuntimeFailure
      ensures old(frozen) == [] ==> machine.os == old(machine.os)
    {
      var failed := [];
      var i := |frozen|;
      ghost var start := machine.os;
      assert frozen[i..] == [];
      while i > 0
        invariant 0 <= i <= |frozen| && frozen == old(frozen) && owned == old(owned)
        invariant Valid() && Keeps(start, machine.os)
        invariant Reversed(failed) == Stuck(start, frozen[i..], ToContinue)
        invariant machine.os.suspended == start.suspended - Movable(start, frozen[i..], ToContinue)
        invariant i == |frozen| ==> machine.os == start
      {
        i := i - 1;
        ghost var before := machine.os;
        var signal, mid := machine.Continue(frozen[i]);
        ContinueStep(start, before, mid, machine.os, frozen, i);
        StuckStep(start, frozen, i, ToContinue, failed);
        if signal == Denied {
          failed := failed + [frozen[i]];
        }
      }
      assert frozen[0..] == frozen;
      frozen := Reversed(failed);
      exit := if frozen == [] then Returned else RuntimeFailure;
    }

    /** SIGKILLs the frozen processes, children first, without continuing them.
        `frozen` becomes exactly the live ones that refuse, and those alone survive; if
        all were stopped, none of them is scheduled again. */
    method KillFrozen() returns (exit: Exit)
      requires Valid()
      modifies this, machine
      ensures Valid() && owned == old(owned)
      ensures frozen == Stuck(old(machine.os), old(frozen), ToKill)
      ensures Killed(old(machine.os), machine.os, old(frozen))
      ensures exit == if frozen == [] then Returned else RuntimeFailure
      ensures old(Halted(machine.os, frozen)) ==> Succeeds(old(machine.os), machine.os, old(frozen))
    {
      var failed := [];
      var i := |frozen|;
      ghost var start, halted := machine.os, Halted(machine.os, frozen);
      assert frozen[i..] == [];
      while i > 0
        invariant 0 <= i <= |frozen| && frozen == old(frozen) && owned == old(owned)
        invariant Valid()
        invariant halted ==> Quiet(start, machine.os, frozen)
        invariant Reversed(failed) == Stuck(start, frozen[i..], ToKill)
        invariant Killed(start, machine.os, frozen[i..])
      {
        i := i - 1;
        ghost var before := machine.os;
        var signal, mid := machine.Kill(frozen[i]);
        KilledSane(mid, machine.os, frozen[i]);
        if halted { KillStep(start, before, mid, frozen, frozen[i]); }
        KilledStep(start, before, mid, machine.os, frozen, i);
        StuckStep(start, frozen, i, ToKill, failed);
        if signal == Denied {
          failed := failed + [frozen[i]];
        }
      }
      assert frozen[0..] == frozen;
      frozen := Reversed(failed);
      exit := if frozen == [] then Returned else RuntimeFailure;
    }

    /** Operator stop.  An unfrozen tree is frozen first, which leaves the kernel `stopped`;
        what becomes of it from there, and whether the call returns, is settled.  A normal
        return leaves nothing alive that descends from an owned handle without being
        shadowed, none of it having run once suspended.  A frozen tree is killed as it stands. */
    method Kill() returns (exit: Exit, ghost stopped: OS)
      requires Valid()
      modifies this, machine
      ensures Valid() && Keeps(old(machine.os), stopped)
      ensures old(frozen) == [] ==> (exit == Returned <==> KillReturns(stopped, old(owned)))
      ensures old(frozen) == [] ==> Culled(stopped, machine.os, old(owned)) && Listed(stopped, old(owned), frozen)
      ensures old(frozen) == [] && exit == Returned ==> Extinct(old(machine.os), machine.os, old(owned))
      ensures old(frozen) != [] ==> frozen == Stuck(old(machine.os), old(frozen), ToKill)
      ensures old(frozen) != [] ==> Killed(old(machine.os), machine.os, old(frozen))
      ensures old(frozen) != [] ==> (exit == Returned <==> frozen == [])
      ensures old(frozen != [] && Halted(machine.os, frozen)) ==> Succeeds(old(machine.os), machine.os, old(frozen))
    {
      ghost var roots, began := owned, frozen == [];
      stopped := machine.os;
      if frozen == [] {
        exit := Pause();
        stopped := machine.os;
        if exit != Returned {
          if exit == RuntimeFailure {
            var any := machine.AnyRunning(owned);
            if !any {
              NoRootsNoLineage(old(machine.os), machine.os, roots);
              exit := Returned;
            }
          } else {
            ghost var h :| Reached(stopped, roots, h);
            ReachedFromOwned(stopped, roots, h);
          }
          KillAborted(stopped, roots, owned, frozen, exit == Returned);
          return;
        }
      }
      ghost var caught := frozen;
      exit := KillFrozen();
      if began {
        KilledAll(stopped, roots, caught, frozen);
        KilledCulls(stopped, machine.os, roots, caught);
        if exit == Returned {
          Extinction(old(machine.os), stopped, machine.os, roots, caught);
        }
      }
    }
  }

  lemma StopSane(os: OS, h: Handle)
    requires Sane(os) && h in os.alive
    ensures Sane(Stop(os, h)) && Keeps(os, Stop(os, h))
  {
    forall g | g in Stop(os, h).suspended ensures QuietSince(Stop(os, h), g, Stop(os, h).stoppedAt[g]) {
      if g in os.suspended {
        assert QuietSince(os, g, os.stoppedAt[g]);
      }
    }
  }

  lemma StoppedKeeps(a: OS, mid: OS, c: OS, h: Handle)
    requires Evolves(a, mid) && Evolves(Stop(mid, h), c) && h in mid.alive && !Refuses(mid, h, ToStop)
    ensures Keeps(a, c) && h in c.alive && h in c.suspended
    ensures Resists(c, h) <==> Refuses(c, h, ToList)
  {
    StopSane(mid, h);
    KeepsTransitive(a, mid, Stop(mid, h));
    KeepsTransitive(a, Stop(mid, h), c);
  }

  lemma ContinueSane(os: OS, h: Handle)
    requires Sane(os)
    ensures var next := os.(suspended := os.suspended - {h}); Sane(next) && Keeps(os, next)
  {
    var next := os.(suspended := os.suspended - {h});
    forall g | g in next.suspended ensures QuietSince(next, g, next.stoppedAt[g]) {
      assert QuietSince(os, g, os.stoppedAt[g]);
    }
  }

  lemma ContinueStep(start: OS, a: OS, mid: OS, b: OS, hs: seq<Handle>, i: nat)
    requires i < |hs| && Known(start, hs) && Keeps(start, a) && Evolves(a, mid)
    requires a.suspended == start.suspended - Movable(start, hs[i + 1..], ToContinue)
    requires b == if Answer(mid, hs[i], ToContinue) == Done then mid.(suspended := mid.suspended - {hs[i]}) else mid
    ensures Sane(b) && Keeps(start, b) && Answer(mid, hs[i], ToContinue) == Answer(start, hs[i], ToContinue)
    ensures b.suspended == start.suspended - Movable(start, hs[i..], ToContinue)
  {
    var h := hs[i];
    assert hs[i..] == [h] + hs[i + 1..] && h in hs;
    assert Keeps(start, mid) by {
      KeepsTransitive(start, a, mid);
    }
    assert Answer(mid, h, ToContinue) == Answer(start, h, ToContinue) by {
      AnswerStays(start, mid, h, ToContinue);
    }
    assert Sane(b) && Keeps(start, b) by {
      ContinueSane(mid, h);
      KeepsTransitive(start, mid, b);
    }
    assert Movable(start, hs[i..], ToContinue) == Movable(start, hs[i + 1..], ToContinue) + Movable(start, [h], ToContinue);
  }

  lemma KilledSane(os: OS, next: OS, h: Handle)
    requires Sane(os) && (next == os || next == Without(os, h))
    ensures Sane(next)
  {
    forall g | g in next.suspended ensures QuietSince(next, g, next.stoppedAt[g]) {
      assert QuietSince(os, g, os.stoppedAt[g]);
    }
  }

  lemma ResistanceStays(a: OS, b: OS, hs: seq<Handle>)
    requires Keeps(a, b) && (forall h :: h in hs ==> h in a.alive) && NoneResists(a, hs)
    ensures NoneResists(b, hs)
  {
  }

  lemma NoRootsNoLineage(a: OS, b: OS, owned: seq<Handle>)
    requires Known(a, owned) && Keeps(a, b) && forall h :: h in owned ==> h !in b.alive
    ensures Extinct(a, b, owned)
  {
    forall path ensures !Lineage(a, b, owned, path) {
    }
  }

  /** Pause, any delay, then an error-free kill: nothing unshadowed that descends
      from an owned handle is left, and none of it was scheduled after it was
      suspended. */
  method PauseThenKill(tree: ProcessTree) returns (exit: Exit)
    requires tree.Valid() && tree.frozen == []
    modifies tree, tree.machine
    ensures exit == Returned ==> Extinct(old(tree.machine.os), tree.machine.os, old(tree.owned))
  {
    ghost var roots, began := tree.owned, tree.machine.os;
    exit := tree.Pause();
    if exit == Returned {
      ghost var stopped, frozen := tree.machine.os, tree.frozen;
      tree.machine.Interfere();
      ghost var later := tree.machine.os;
      ghost var killed;
      exit, killed := tree.Kill();
      if exit == Returned {
        SucceedsAfterDelay(stopped, later, tree.machine.os, frozen);
        Extinction(began, stopped, tree.machine.os, roots, frozen);
      }
    }
  }

  /** A stale handle whose pid was reused: pausing returns normally and leaves
      the live child running, outside `frozen`. */
  method ReusedPidEscapesFreeze() returns (exit: Exit, tree: ProcessTree, child: Handle)
    ensures child in tree.machine.os.alive && Descendant(tree.machine.os, [Handle(1, 0), Handle(7, 1)], child)
    ensures exit == Returned && child !in tree.frozen && child !in tree.machine.os.suspended
  {
    var root, stale := Handle(1, 0), Handle(7, 1);
    child := Handle(7, 2);
    var machine := new Machine(OS({root, child}, map[child := root], {}, map[], map[], 3, 0, []));
    ghost var start := machine.os;
    tree := new ProcessTree(machine, root);
    tree.Own([stale]);
    ghost var owned0 := tree.owned;
    assert owned0 == [root, stale];
    exit := tree.Pause();
    StaleExample(start, machine.os, owned0, root, stale, child);
  }

  lemma StaleExample(a: OS, b: OS, owned: seq<Handle>, root: Handle, stale: Handle, child: Handle)
    requires Keeps(a, b) && owned == [root, stale] && root.pid != stale.pid && stale.pid == child.pid && stale != child
    requires a.alive == {root, child} && a.budget == 0 && a.refused == map[]
    requires child in a.parent && a.parent[child] == root
    ensures Descendant(b, owned, child) && !Reached(b, owned, child)
    ensures Reached(b, owned, root) && forall h :: Reached(b, owned, h) ==> !Resists(b, h)
  {
    assert LivePath(b, owned, [root, child]) && [root, child][1] == child;
    assert owned[1].pid == child.pid && child !in owned[..1];
    assert Shadowed(owned, child);
    ReachedOwned(b, owned, root);
    assert b.alive == a.alive + (b.alive - a.alive);
    forall h | Reached(b, owned, h) ensures !Resists(b, h) {
      var path :| OpenPath(b, owned, path) && path[|path| - 1] == h;
      PathIsLive(b, owned, path, |path| - 1);
      assert !Refuses(a, h, ToStop) && !Refuses(a, h, ToList);
    }
  }

  // ------------------------------------------------------------------
  // Backends that spawn one child per turn
  // ------------------------------------------------------------------

  datatype Pid = NoPid | Pid(root: Handle)

  class TurnProcessControl {
    const machine: Machine
    var tree: ProcessTree?
    var stops: nat       // stop commands fired so far

    ghost predicate Valid()
      reads this, machine, tree
    {
      && Sane(machine.os)
      && (tree != null ==> tree.machine == machine && tree.Valid())
    }

    constructor (machine: Machine)
      requires Sane(machine.os)
      ensures Valid() && this.machine == machine && tree == null && stops == 0
    {
      this.machine := machine;
      tree := null;
      stops := 0;
    }

    /** A normal return means the tree is frozen exactly when no earlier pause
        left an unfrozen tree behind; a pause that raised does leave one. */
    method Pause(provided: Pid) returns (exit: Exit)
      requires Valid() && (provided.Pid? ==> provided.root.birth < machine.os.clock)
      modifies this, machine, tree
      ensures Valid() && stops == old(stops)
      ensures Keeps(old(machine.os), machine.os)
      ensures old(tree) != null ==> exit == Returned && tree == old(tree) && machine.os == old(machine.os)
      ensures old(tree) != null ==> tree.frozen == old(tree.frozen)
      ensures old(tree) == null && (provided.NoPid? || provided.root !in old(machine.os.alive)) ==> exit == RuntimeFailure && tree == null
      ensures old(tree) == null && provided.Pid? && provided.root in old(machine.os.alive) ==>
                && tree != null && fresh(tree)
                && (exit != Returned ==> Released(machine.os, [provided.root], tree.frozen))
                && forall h :: h in machine.os.suspended ==> h in old(machine.os.suspended) || h in tree.frozen
      ensures exit == Returned ==> tree != null
      ensures exit == Returned ==> (tree.frozen != [] <==> old(tree == null || tree.frozen != []))
      ensures old(tree) == null && provided.Pid? && provided.root in old(machine.os.alive) ==>
                (exit == Returned <==> Yields(machine.os, [provided.root]))
    {
      if tree != null {
        return Returned;
      }
      if provided.NoPid? || provided.root !in machine.os.alive {
        return RuntimeFailure;
      }
      tree := new ProcessTree(machine, provided.root);
      exit := tree.Pause();
    }

    /** Continues a paused tree and forgets it only when nothing was refused. */
    method Resume() returns (exit: Exit)
      requires Valid()
      modifies this, machine, tree
      ensures Valid() && stops == old(stops)
      ensures old(tree) == null ==> exit == Returned && tree == null && machine.os == old(machine.os)
      ensures old(tree) != null ==> (tree == null <==> exit == Returned)
      ensures old(tree) != null ==> (exit == Returned <==> old(tree).frozen == [])
      ensures old(tree) != null ==> old(tree).frozen == Stuck(old(machine.os), old(tree.frozen), ToContinue)
    {
      if tree == null {
        return Returned;
      }
      var failure := tree.Resume();
      exit := failure;
      if exit == Returned {
        tree := null;
      }
    }

    /** Whatever happens to the tree, it is forgotten and one stop is fired. */
    method Kill(provided: Pid) returns (exit: Exit, ghost stopped: OS)
      requires Valid() && (provided.Pid? ==> provided.root.birth < machine.os.clock)
      modifies this, machine, tree
      ensures Valid() && tree == null && stops == old(stops) + 1 && Keeps(old(machine.os), stopped)
      ensures old(tree) == null && (provided.NoPid? || provided.root !in old(machine.os.alive)) ==>
                exit == Returned && machine.os == old(machine.os)
      ensures old(tree) == null && provided.Pid? && provided.root in old(machine.os.alive) ==>
                && (exit == Returned <==> KillReturns(stopped, [provided.root])) && Culled(stopped, machine.os, [provided.root])
                && (exit == Returned ==> Extinct(old(machine.os), machine.os, [provided.root]))
      ensures old(tree) != null && old(tree.frozen) == [] ==>
                && (exit == Returned <==> KillReturns(stopped, old(tree.owned))) && Culled(stopped, machine.os, old(tree.owned))
                && (exit == Returned ==> Extinct(old(machine.os), machine.os, old(tree.owned)))
      ensures old(tree) != null && old(tree.frozen) != [] ==>
                && Killed(old(machine.os), machine.os, old(tree.frozen))
                && (exit == Returned <==> Stuck(old(machine.os), old(tree.frozen), ToKill) == [])
    {
      exit, stopped := Returned, machine.os;
      if tree != null {
        exit, stopped := tree.Kill();
      } else if provided.Pid? && provided.root in machine.os.alive {
        var current := new ProcessTree(machine, provided.root);
        exit, stopped := current.Kill();
      }
      tree := null;
      stops := stops + 1;
    }
  }

  /** A pause that raises leaves its tree behind, so the operator's second
      attempt reports success without signalling anything. */
  method RetriedPauseStopsNothing(control: TurnProcessControl, provided: Pid)
    returns (first: Exit, second: Exit, ghost between: OS)
    requires control.Valid() && control.tree == null
    requires provided.Pid? && provided.root in control.machine.os.alive
    modifies control, control.machine
    ensures Keeps(old(control.machine.os), between) && (first == Returned <==> Yields(between, [provided.root]))
    ensures second == Returned && control.machine.os == between && control.tree != null
    ensures first != Returned ==> forall h :: h in between.suspended ==>
              h in old(control.machine.os.suspended) || Refuses(between, h, ToContinue)
  {
    first := control.Pause(provided);
    between := control.machine.os;
    second := control.Pause(provided);
  }

  /** One agent process that may not be stopped: the first pause raises, the second
      reports success, and the process runs on. */
  method UnstoppableRootReportedPaused() returns (first: Exit, second: Exit, control: TurnProcessControl, root: Handle)
    ensures first != Returned && second == Returned
    ensures root in control.machine.os.alive && root !in control.machine.os.suspended
  {
    root := Handle(1, 0);
    var machine := new Machine(OS({root}, map[], {}, map[], map[root := {ToStop}], 1, 0, []));
    control := new TurnProcessControl(machine);
    ghost var between;
    first, second, between := RetriedPauseStopsNothing(control, Pid(root));
    ReachedOwned(between, [root], root);
  }
}
