/** Failed issues waiting for another attempt: an in-memory queue, and a retry plan
    persisted on each issue's registry record from which a restart rebuilds it. */
module RetryScheduler {
  import opened Basics

  type Key = nat
  type Time = real      // seconds

  datatype RetryItem = RetryItem(key: Key, attempt: nat, delay: Time, scheduledAt: Time, requeues: nat)

  datatype Status = Pending | Running | Completed | Failed | Abandoned

  /** The registry fields that matter here; `plan` is `next_retry_at`. */
  datatype Record = Record(status: Status, retryCount: nat, plan: Option<Time>)

  datatype Config = Config(maxAttempts: nat, maxBackoffMs: nat, maxConcurrent: nat)

  datatype Sys = Sys(
    queue: seq<RetryItem>,
    attempts: map<Key, nat>,
    running: set<Key>,
    completed: set<Key>,
    registry: map<Key, Record>
  )

  const FAILURE_RETRY_BASE_MS := 10_000

  function Due(item: RetryItem): Time {
    item.scheduledAt + item.delay
  }

  function Max(a: Time, b: Time): Time {
    if a >= b then a else b
  }

  // ------------------------------------------------------------------
  // Pure retry policy
  // ------------------------------------------------------------------

  function Pow2(n: nat): nat {
    if n == 0 then 1 else 2 * Pow2(n - 1)
  }

  function Seconds(ms: nat): Time {
    ms as real / 1000.0
  }

  /** Exponential backoff, capped. */
  function RetryDelayMs(attempt: nat, baseMs: nat, maxMs: nat): nat
    requires attempt >= 1
  {
    var ms := baseMs * Pow2(attempt - 1);
    if ms <= maxMs then ms else maxMs
  }

  function RequeueLimit(cfg: Config): nat {
    if cfg.maxAttempts == 0 then 5 else cfg.maxAttempts
  }

  /** Doubled, capped delay counted from `now`; false once the ceiling is passed. */
  function Requeued(item: RetryItem, now: Time, cfg: Config): (RetryItem, bool) {
    var cap := Seconds(cfg.maxBackoffMs);
    var counted := item.(requeues := item.requeues + 1);
    if counted.requeues > RequeueLimit(cfg) then (counted, false)
    else (counted.(delay := if 2.0 * item.delay <= cap then 2.0 * item.delay else cap, scheduledAt := now), true)
  }

  function Ready(queue: seq<RetryItem>, now: Time): seq<RetryItem> {
    if queue == [] then []
    else if now >= Due(queue[0]) then [queue[0]] + Ready(queue[1..], now) else Ready(queue[1..], now)
  }

  function NotReady(queue: seq<RetryItem>, now: Time): seq<RetryItem> {
    if queue == [] then []
    else if now >= Due(queue[0]) then NotReady(queue[1..], now) else [queue[0]] + NotReady(queue[1..], now)
  }

  function Without(queue: seq<RetryItem>, key: Key): seq<RetryItem> {
    if queue == [] then []
    else if queue[0].key == key then Without(queue[1..], key) else [queue[0]] + Without(queue[1..], key)
  }

  // ------------------------------------------------------------------
  // Registry
  // ------------------------------------------------------------------

  predicate Planned(registry: map<Key, Record>, key: Key) {
    key in registry && registry[key].plan.Some?
  }

  function ClearPlan(registry: map<Key, Record>, key: Key): map<Key, Record> {
    if key in registry then registry[key := registry[key].(plan := None)] else registry
  }

  function PersistPlan(registry: map<Key, Record>, key: Key, count: nat, at: Time): map<Key, Record> {
    if key in registry then registry[key := registry[key].(retryCount := count, plan := Some(at))] else registry
  }

  function SetStatus(registry: map<Key, Record>, key: Key, status: Status): map<Key, Record> {
    if key in registry then registry[key := registry[key].(status := status)] else registry
  }

  /** A launch registers the issue afresh: the retry count is carried over, the
      retry plan is not. */
  function Register(registry: map<Key, Record>, key: Key): map<Key, Record> {
    registry[key := Record(Pending, if key in registry then registry[key].retryCount else 0, None)]
  }

  // ------------------------------------------------------------------
  // Scheduling, cancelling
  // ------------------------------------------------------------------

  function Attempts(s: Sys, key: Key): nat {
    if key in s.attempts then s.attempts[key] else 0
  }

  /** Ends brought about by the operator, which no retry may undo. */
  const NON_RETRYABLE := {"operator_stop", "operator_takeover", "operator_stopped"}

  predicate Retryable(reason: Option<string>) {
    reason.None? || reason.value !in NON_RETRYABLE
  }

  /** A session of `key` ended without success, for `reason`.  `baseMs` is the backoff base. */
  function Schedule(s: Sys, cfg: Config, key: Key, reason: Option<string>, baseMs: nat, now: Time): (Sys, bool) {
    var attempt := Attempts(s, key) + 1;
    if !Retryable(reason) then
      (s, false)
    else if cfg.maxAttempts != 0 && attempt > cfg.maxAttempts then
      (s.(attempts := s.attempts[key := attempt], registry := SetStatus(s.registry, key, Abandoned)), false)
    else
      var item := RetryItem(key, attempt, Seconds(RetryDelayMs(attempt, baseMs, cfg.maxBackoffMs)), now, 0);
      (s.(attempts := s.attempts[key := attempt], queue := s.queue + [item],
          registry := PersistPlan(s.registry, key, attempt, Due(item))), true)
  }

  predicate Has(queue: seq<RetryItem>, key: Key) {
    exists i :: 0 <= i < |queue| && queue[i].key == key
  }

  predicate Waiting(s: Sys, key: Key) {
    Has(s.queue, key)
  }

  function Cancel(s: Sys, key: Key): Sys {
    s.(queue := Without(s.queue, key), registry := ClearPlan(s.registry, key))
  }

  /** Operator stop or takeover of an issue that is not running. */
  function StopWaiting(s: Sys, key: Key): (Sys, bool) {
    if Waiting(s, key) || Planned(s.registry, key) then
      (Cancel(s, key).(attempts := s.attempts - {key}), true)
    else (s, false)
  }

  // ------------------------------------------------------------------
  // The daemon: a retry pass is suspended wherever it awaits
  // ------------------------------------------------------------------

  /** Where the retry pass is.  Other tasks run while it fetches or launches. */
  datatype Phase =
    | Idle
    | Passing(now: Time)                                         // between two items
    | Fetching(item: RetryItem, now: Time)
    | Launching(item: RetryItem, now: Time, registered: bool)

  /** `held` are the ready items the pass has taken out of the queue and not yet looked at. */
  datatype Daemon = Daemon(s: Sys, held: seq<RetryItem>, phase: Phase)

  datatype Fetch =
    | Missing                                    // fetched, issue not listed
    | FetchFails
    | Inactive                                   // listed in a closed state
    | Active

  datatype Launch = Launched | Gated(completes: bool) | Raises

  datatype Step =
    | LaunchCandidate(key: Key)                                  // new work found by the poll
    | SessionFails(key: Key, reason: Option<string>, baseMs: nat, now: Time)
    | SessionSucceeds(key: Key)
    | Stop(key: Key)                                             // stop or takeover
    | Reset(key: Key)                                            // operator retry
    | Restart(at: Time)
    | PassBegins(at: Time)
    | NextItem
    | Fetched(answer: Fetch)
    | Registers
    | LaunchEnds(outcome: Launch)

  function Held(d: Daemon): seq<RetryItem> {
    if d.phase.Fetching? || d.phase.Launching? then [d.phase.item] + d.held else d.held
  }

  predicate HeldKey(d: Daemon, key: Key) {
    Has(Held(d), key)
  }

  /** The same state with the items in `rest` put back at the end of the queue. */
  function Holding(s: Sys, rest: seq<RetryItem>): Sys {
    s.(queue := s.queue + rest)
  }

  /** The queue and what the pass holds, together. */
  function Whole(d: Daemon): Sys {
    Holding(d.s, Held(d))
  }

  function Ended(s: Sys, key: Key, status: Status): Sys {
    s.(running := s.running - {key}, registry := SetStatus(s.registry, key, status))
  }

  /** The persisted plan is left alone. */
  function ResetIssue(s: Sys, key: Key): Sys {
    s.(queue := Without(s.queue, key), attempts := s.attempts - {key},
       completed := s.completed - {key}, registry := SetStatus(s.registry, key, Pending))
  }

  predicate AlreadyDone(s: Sys, key: Key) {
    key in s.running || key in s.completed
  }

  function TakeNext(d: Daemon, cfg: Config): Daemon
    requires d.phase.Passing?
  {
    if d.held == [] then d.(phase := Idle)
    else
      var item, d := d.held[0], d.(held := d.held[1..]);
      if AlreadyDone(d.s, item.key) then d
      else if |d.s.running| >= cfg.maxConcurrent then d.(s := d.s.(queue := d.s.queue + [item]))
      else d.(phase := Fetching(item, d.phase.now))
  }

  function Answered(d: Daemon, cfg: Config, answer: Fetch): Daemon
    requires d.phase.Fetching?
  {
    var item, now := d.phase.item, d.phase.now;
    match answer
    case Inactive => d.(s := d.s.(registry := ClearPlan(d.s.registry, item.key)), phase := Passing(now))
    case Active => d.(phase := Launching(item, now, false))
    case _ =>
      var (again, fits) := Requeued(item, now, cfg);
      d.(phase := Passing(now),
         s := if fits then d.s.(queue := d.s.queue + [again]) else d.s.(registry := ClearPlan(d.s.registry, item.key)))
  }

  function LaunchEnded(d: Daemon, outcome: Launch): Daemon
    requires d.phase.Launching?
  {
    var item, now, s := d.phase.item, d.phase.now, d.s;
    match outcome
    case Launched =>
      Daemon(s.(running := s.running + {item.key},
                registry := ClearPlan(SetStatus(s.registry, item.key, Running), item.key)), d.held, Passing(now))
    case Gated(completes) =>
      Daemon(s.(queue := s.queue + [item], completed := if completes then s.completed + {item.key} else s.completed),
             d.held, Passing(now))
    case Raises => Daemon(s, [], Idle)
  }

  /** Between two items the pass does not await, and nothing else runs. */
  predicate Can(d: Daemon, cfg: Config, step: Step) {
    match step
    case LaunchCandidate(key) => d.phase.Idle? && key !in d.s.running && !Waiting(d.s, key)
    case SessionFails(key, _, _, _) => !d.phase.Passing? && key in d.s.running
    case SessionSucceeds(key) => !d.phase.Passing? && key in d.s.running
    case Stop(_) => !d.phase.Passing?
    case Reset(_) => !d.phase.Passing?
    case Restart(_) => true
    case PassBegins(_) => d.phase.Idle?
    case NextItem => d.phase.Passing?
    case Fetched(_) => d.phase.Fetching?
    case Registers => d.phase.Launching? && !d.phase.registered
    case LaunchEnds(outcome) => d.phase.Launching? && (outcome.Launched? ==> d.phase.registered)
  }

  /** The effect of a step other than a restart. */
  function Do(d: Daemon, cfg: Config, step: Step): Daemon
    requires Can(d, cfg, step)
  {
    match step
    case LaunchCandidate(key) =>
      d.(s := d.s.(running := d.s.running + {key}, registry := SetStatus(Register(d.s.registry, key), key, Running)))
    case SessionFails(key, reason, baseMs, now) => d.(s := Schedule(Ended(d.s, key, Failed), cfg, key, reason, baseMs, now).0)
    case SessionSucceeds(key) => d.(s := Ended(d.s, key, Completed).(completed := d.s.completed + {key}))
    case Stop(key) => d.(s := StopWaiting(d.s, key).0)
    case Reset(key) => d.(s := ResetIssue(d.s, key))
    case Restart(_) => d
    case PassBegins(now) => Daemon(d.s.(queue := NotReady(d.s.queue, now)), Ready(d.s.queue, now), Passing(now))
    case NextItem => TakeNext(d, cfg)
    case Fetched(answer) => Answered(d, cfg, answer)
    case Registers =>
      d.(s := d.s.(registry := Register(d.s.registry, d.phase.item.key)), phase := d.phase.(registered := true))
    case LaunchEnds(outcome) => LaunchEnded(d, outcome)
  }

  // ------------------------------------------------------------------
  // Plan / queue agreement
  // ------------------------------------------------------------------

  ghost predicate DistinctKeys(queue: seq<RetryItem>) {
    forall i, j :: 0 <= i < j < |queue| ==> queue[i].key != queue[j].key
  }

  /** The persisted plan of `item` comes due no later than the item itself. */
  predicate Covered(registry: map<Key, Record>, item: RetryItem) {
    Planned(registry, item.key) && registry[item.key].plan.value <= Due(item)
  }

  /** What runs is registered, has no plan, and alone is recorded as running. */
  ghost predicate Consistent(s: Sys) {
    && (forall key :: key in s.running ==> key in s.registry && !Planned(s.registry, key))
    && (forall key :: key in s.registry && s.registry[key].status == Running ==> key in s.running)
  }

  ghost predicate Sound(s: Sys) {
    && DistinctKeys(s.queue) && Consistent(s)
    && (forall i :: 0 <= i < |s.queue| ==> s.queue[i].delay >= 0.0 && s.queue[i].key !in s.running)
  }

  /** Every queued retry is planned, and none is planned later than it is queued for. */
  ghost predicate Agreement(s: Sys) {
    Sound(s) && forall i :: 0 <= i < |s.queue| ==> Covered(s.registry, s.queue[i])
  }

  /** No plan is later than its item; an item may have none. */
  ghost predicate Honest(s: Sys) {
    Sound(s) && forall i :: 0 <= i < |s.queue| ==> Planned(s.registry, s.queue[i].key) ==> Covered(s.registry, s.queue[i])
  }

  /** `key` has an item, queued or held, and no plan. */
  predicate Bare(s: Sys, key: Key) {
    Waiting(s, key) && !Planned(s.registry, key)
  }

  lemma AgreementIsHonestNoneBare(s: Sys)
    ensures Agreement(s) <==> Honest(s) && forall key: Key :: !Bare(s, key)
  {
    if Honest(s) && forall key: Key :: !Bare(s, key) {
      forall i | 0 <= i < |s.queue| ensures Covered(s.registry, s.queue[i]) {
        assert !Bare(s, s.queue[i].key);
      }
    }
  }

  lemma {:induction false} SplitMembers(queue: seq<RetryItem>, now: Time)
    ensures forall x :: x in queue <==> x in Ready(queue, now) || x in NotReady(queue, now)
    ensures forall x :: x in Ready(queue, now) ==> Due(x) <= now
    ensures forall x :: x in NotReady(queue, now) ==> now < Due(x)
    ensures |Ready(queue, now)| + |NotReady(queue, now)| == |queue|
  {
    if queue != [] { SplitMembers(queue[1..], now); }
  }

  lemma {:induction false} SplitDistinct(queue: seq<RetryItem>, now: Time)
    requires DistinctKeys(queue)
    ensures DistinctKeys(NotReady(queue, now) + Ready(queue, now))
  {
    if queue != [] {
      var x, rest := queue[0], queue[1..];
      SplitDistinct(rest, now);
      assert forall y :: y in NotReady(rest, now) + Ready(rest, now) ==> y.key != x.key by {
        SplitMembers(rest, now);
        assert forall y :: y in rest ==> y.key != x.key;
      }
      InsertDistinct(NotReady(rest, now), Ready(rest, now), x);
      if now < Due(x) {
        Assoc([x], NotReady(rest, now), Ready(rest, now));
      }
    }
  }

  lemma InsertDistinct(a: seq<RetryItem>, b: seq<RetryItem>, x: RetryItem)
    requires DistinctKeys(a + b) && forall y :: y in a + b ==> y.key != x.key
    ensures DistinctKeys(a + ([x] + b)) && DistinctKeys([x] + (a + b))
  {
    var c := a + ([x] + b);
    forall i, j | 0 <= i < j < |c| ensures c[i].key != c[j].key {
      var i' := if i <= |a| then i else i - 1;
      var j' := if j <= |a| then j else j - 1;
      if i != |a| && j != |a| {
        assert c[i] == (a + b)[i'] && c[j] == (a + b)[j'];
      } else if i == |a| {
        assert c[j] == (a + b)[j'];
      } else {
        assert c[i] == (a + b)[i'];
      }
    }
  }

  // ------------------------------------------------------------------
  // Restart
  // ------------------------------------------------------------------

  /** Records left "running" by the dead process get a first-attempt plan. */
  function Recovered(registry: map<Key, Record>, cfg: Config, now: Time): map<Key, Record> {
    map key | key in registry ::
      if registry[key].status == Running
      then Record(Failed, 1, Some(now + Seconds(RetryDelayMs(1, FAILURE_RETRY_BASE_MS, cfg.maxBackoffMs))))
      else registry[key]
  }

  function CountOrOne(record: Record): nat {
    if record.retryCount == 0 then 1 else record.retryCount
  }

  predicate FromPlan(registry: map<Key, Record>, item: RetryItem, now: Time) {
    && Planned(registry, item.key)
    && item.attempt == CountOrOne(registry[item.key])
    && item.delay == Max(0.0, registry[item.key].plan.value - now)
    && item.scheduledAt >= now
    && item.requeues == 0
  }

  /** `t` is a fresh process started at `now` over the registry of `s`. */
  ghost predicate RestartOf(s: Sys, cfg: Config, now: Time, t: Sys) {
    && t.running == {}
    && t.registry == Recovered(s.registry, cfg, now)
    && DistinctKeys(t.queue)
    && (forall key :: Planned(t.registry, key) ==> Waiting(t, key))
    && (forall i :: 0 <= i < |t.queue| ==> FromPlan(t.registry, t.queue[i], now))
    && (forall i :: 0 <= i < |t.queue| ==> Attempts(t, t.queue[i].key) == t.queue[i].attempt)
    && (forall key :: key in t.attempts ==> Waiting(t, key))
  }

  /** A restart agrees, whatever the old memory held. */
  lemma RestartAgrees(s: Sys, cfg: Config, now: Time, t: Sys)
    requires RestartOf(s, cfg, now, t)
    ensures Agreement(t)
  {
    forall i | 0 <= i < |t.queue| ensures Covered(t.registry, t.queue[i]) && t.queue[i].delay >= 0.0 {
      assert FromPlan(t.registry, t.queue[i], now);
    }
  }

  /** Every agreed retry comes back once, under its attempt number, at the planned
      time or at once if that has passed: never later than it was queued for. */
  lemma RestartRebuilds(s: Sys, cfg: Config, now: Time, t: Sys, i: nat)
    requires Agreement(s) && RestartOf(s, cfg, now, t) && i < |s.queue|
    ensures exists j :: 0 <= j < |t.queue| && t.queue[j].key == s.queue[i].key
              && (forall k :: 0 <= k < |t.queue| && t.queue[k].key == s.queue[i].key ==> k == j)
              && Due(t.queue[j]) == Max(now, s.registry[s.queue[i].key].plan.value) + (t.queue[j].scheduledAt - now)
              && Due(t.queue[j]) <= Max(now, Due(s.queue[i])) + (t.queue[j].scheduledAt - now)
              && t.queue[j].attempt == CountOrOne(s.registry[s.queue[i].key])
  {
    var item := s.queue[i];
    assert Covered(s.registry, item);
    assert t.registry[item.key] == s.registry[item.key];
    assert Planned(t.registry, item.key);
    var j :| 0 <= j < |t.queue| && t.queue[j].key == item.key;
    assert FromPlan(t.registry, t.queue[j], now);
  }

  /** Exactly the unplanned waiting retries are lost by a restart. */
  lemma RestartLosesExactlyTheUnplanned(s: Sys, cfg: Config, now: Time, t: Sys, i: nat)
    requires Sound(s) && RestartOf(s, cfg, now, t) && i < |s.queue|
    ensures Waiting(t, s.queue[i].key) <==> Planned(s.registry, s.queue[i].key)
  {
    var key := s.queue[i].key;
    assert key in s.registry ==> t.registry[key] == s.registry[key];
    if Waiting(t, key) {
      var j :| 0 <= j < |t.queue| && t.queue[j].key == key;
      assert FromPlan(t.registry, t.queue[j], now);
    }
  }

  // ------------------------------------------------------------------
  // Queues without repeated keys
  // ------------------------------------------------------------------

  lemma DistinctDrop(a: seq<RetryItem>, x: RetryItem, b: seq<RetryItem>)
    requires DistinctKeys(a + [x] + b)
    ensures DistinctKeys(a + b) && forall y :: y in a + b ==> y.key != x.key
  {
    var q, p := a + b, a + [x] + b;
    forall i | 0 <= i < |q| ensures q[i] == p[if i < |a| then i else i + 1] && q[i].key != x.key {
      assert p[|a|] == x;
    }
  }

  lemma DistinctReplace(a: seq<RetryItem>, x: RetryItem, y: RetryItem, b: seq<RetryItem>)
    requires DistinctKeys(a + [x] + b) && y.key == x.key
    ensures DistinctKeys(a + [y] + b)
  {
    var q, p := a + [y] + b, a + [x] + b;
    forall i | 0 <= i < |q| ensures q[i].key == p[i].key {
    }
  }

  lemma DistinctPrefix(a: seq<RetryItem>, b: seq<RetryItem>)
    requires DistinctKeys(a + b)
    ensures DistinctKeys(a)
  {
    forall i | 0 <= i < |a| ensures a[i] == (a + b)[i] {
    }
  }

  lemma {:induction false} DistinctWithout(a: seq<RetryItem>, b: seq<RetryItem>, key: Key)
    requires DistinctKeys(a + b)
    ensures DistinctKeys(Without(a, key) + b)
  {
    if a == [] {
      assert Without(a, key) + b == a + b;
    } else {
      var x, rest := a[0], a[1..];
      assert a + b == [] + [x] + (rest + b);
      DistinctDrop([], x, rest + b);
      assert [] + (rest + b) == rest + b;
      DistinctWithout(rest, b, key);
      if x.key != key {
        WithoutMembers(rest, key);
        InsertDistinct([], Without(rest, key) + b, x);
        assert [] + (Without(rest, key) + b) == Without(rest, key) + b;
        assert Without(a, key) + b == [x] + (Without(rest, key) + b);
      }
    }
  }

  lemma {:induction false} WithoutMembers(queue: seq<RetryItem>, key: Key)
    ensures forall x :: x in Without(queue, key) <==> x in queue && x.key != key
  {
    if queue != [] { WithoutMembers(queue[1..], key); }
  }

  /** A state whose items were there before, with no new plan among them, is as honest. */
  lemma HonestFrom(s: Sys, t: Sys)
    requires Honest(s) && DistinctKeys(t.queue) && Consistent(t)
    requires forall x :: x in t.queue ==> x in s.queue && x.key !in t.running && NoNewPlan(s.registry, t.registry, x.key)
    ensures Honest(t)
  {
    forall i | 0 <= i < |t.queue|
      ensures t.queue[i].delay >= 0.0 && t.queue[i].key !in t.running
      ensures Planned(t.registry, t.queue[i].key) ==> Covered(t.registry, t.queue[i])
    {
      assert t.queue[i] in s.queue;
      var j :| 0 <= j < |s.queue| && s.queue[j] == t.queue[i];
    }
  }

  lemma QueuedNotRunning(s: Sys)
    requires Sound(s)
    ensures forall x :: x in s.queue ==> x.key !in s.running && x.delay >= 0.0
  {
  }

  predicate NoNewPlan(a: map<Key, Record>, b: map<Key, Record>, key: Key) {
    Planned(b, key) ==> Planned(a, key) && b[key].plan == a[key].plan
  }

  lemma RequeuedLater(item: RetryItem, now: Time, cfg: Config)
    requires item.delay >= 0.0 && Requeued(item, now, cfg).1
    ensures var y := Requeued(item, now, cfg).0;
            y.key == item.key && y.delay >= 0.0 && (Due(item) <= now ==> Due(y) >= Due(item))
  {
  }

  // ------------------------------------------------------------------
  // What every step keeps
  // ------------------------------------------------------------------

  ghost predicate DaemonInv(d: Daemon, cfg: Config) {
    && Honest(Whole(d))
    && (d.phase.Idle? ==> d.held == [])
    && (!d.phase.Idle? ==> forall x :: x in Held(d) ==> Due(x) <= d.phase.now)
    && (d.phase.Fetching? || d.phase.Launching? ==> |d.s.running| < cfg.maxConcurrent)
    && (d.phase.Launching? && d.phase.registered ==>
          d.phase.item.key in d.s.registry && !Planned(d.s.registry, d.phase.item.key))
  }

  /** `e` follows `d`.  A restart keeps the registry alone. */
  ghost predicate Next(d: Daemon, cfg: Config, step: Step, e: Daemon) {
    && Can(d, cfg, step)
    && if step.Restart? then RestartOf(d.s, cfg, step.at, e.s) && e.held == [] && e.phase == Idle else e == Do(d, cfg, step)
  }

  lemma HeldUncounted(d: Daemon, x: RetryItem)
    requires Honest(Whole(d)) && x in Held(d)
    ensures x.key !in d.s.running && x.delay >= 0.0
  {
    var i :| 0 <= i < |Held(d)| && Held(d)[i] == x;
    assert Whole(d).queue[|d.s.queue| + i] == x;
  }

  lemma CandidateInv(d: Daemon, cfg: Config, key: Key)
    requires DaemonInv(d, cfg) && Can(d, cfg, LaunchCandidate(key))
    ensures DaemonInv(Do(d, cfg, LaunchCandidate(key)), cfg)
  {
    var e := Do(d, cfg, LaunchCandidate(key));
    assert Whole(d).queue == d.s.queue && Whole(e).queue == e.s.queue;
    assert forall x :: x in d.s.queue ==> x.key != key;
    forall x | x in Whole(e).queue ensures x.key !in e.s.running {
      var i :| 0 <= i < |d.s.queue| && d.s.queue[i] == x;
    }
    HonestFrom(Whole(d), Whole(e));
  }

  /** Removing the queued items of an issue, its record changing otherwise. */
  lemma DropKeyInv(d: Daemon, cfg: Config, key: Key, s: Sys)
    requires DaemonInv(d, cfg)
    requires s.queue == Without(d.s.queue, key) && s.running == d.s.running && s.registry.Keys == d.s.registry.Keys
    requires forall k :: k in s.registry && k != key ==> s.registry[k] == d.s.registry[k]
    requires NoNewPlan(d.s.registry, s.registry, key)
    requires key in s.registry && s.registry[key].status == Running ==> key in s.running
    ensures DaemonInv(d.(s := s), cfg)
  {
    var e := d.(s := s);
    DistinctWithout(d.s.queue, Held(d), key);
    WithoutMembers(d.s.queue, key);
    QueuedNotRunning(Whole(d));
    forall x | x in Whole(e).queue ensures x in Whole(d).queue && NoNewPlan(d.s.registry, s.registry, x.key) {
      assert x in d.s.queue || x in Held(d);
    }
    assert Consistent(s);
    HonestFrom(Whole(d), Whole(e));
  }

  lemma EndedInv(d: Daemon, cfg: Config, key: Key, status: Status)
    requires DaemonInv(d, cfg) && key in d.s.running && status != Running
    ensures DaemonInv(d.(s := Ended(d.s, key, status)), cfg)
    ensures key in d.s.registry && !Planned(d.s.registry, key) && forall x :: x in Whole(d).queue ==> x.key != key
  {
    var e := d.(s := Ended(d.s, key, status));
    assert Whole(e).queue == Whole(d).queue;
    QueuedNotRunning(Whole(d));
    HonestFrom(Whole(d), Whole(e));
  }

  lemma ScheduleInv(d: Daemon, cfg: Config, key: Key, reason: Option<string>, baseMs: nat, now: Time)
    requires DaemonInv(d, cfg) && key !in d.s.running && key in d.s.registry
    requires forall x :: x in Whole(d).queue ==> x.key != key
    requires d.s.registry[key].status != Running
    ensures DaemonInv(d.(s := Schedule(d.s, cfg, key, reason, baseMs, now).0), cfg)
  {
    var (t, queued) := Schedule(d.s, cfg, key, reason, baseMs, now);
    var e := d.(s := t);
    if queued {
      var item := t.queue[|d.s.queue|];
      assert Whole(e).queue == d.s.queue + ([item] + Held(d));
      InsertDistinct(d.s.queue, Held(d), item);
      forall i | 0 <= i < |Whole(e).queue|
        ensures Whole(e).queue[i].delay >= 0.0 && Whole(e).queue[i].key !in t.running
        ensures Planned(t.registry, Whole(e).queue[i].key) ==> Covered(t.registry, Whole(e).queue[i])
      {
        if i != |d.s.queue| {
          assert Whole(e).queue[i] == Whole(d).queue[if i < |d.s.queue| then i else i - 1];
          assert Whole(e).queue[i] in Whole(d).queue;
        }
      }
    } else {
      assert Whole(e).queue == Whole(d).queue;
      QueuedNotRunning(Whole(d));
      HonestFrom(Whole(d), Whole(e));
    }
  }

  lemma PassBeginsInv(d: Daemon, cfg: Config, now: Time)
    requires DaemonInv(d, cfg) && d.phase.Idle?
    ensures DaemonInv(Do(d, cfg, PassBegins(now)), cfg)
  {
    var e := Do(d, cfg, PassBegins(now));
    assert Whole(d).queue == d.s.queue;
    SplitMembers(d.s.queue, now);
    SplitDistinct(d.s.queue, now);
    forall x | x in Whole(e).queue ensures x in Whole(d).queue && x.key !in e.s.running {
      assert x in d.s.queue;
      var i :| 0 <= i < |d.s.queue| && d.s.queue[i] == x;
    }
    HonestFrom(Whole(d), Whole(e));
  }

  /** The item being dealt with leaves queue and pass, its record possibly changed. */
  lemma ConsumeInv(d: Daemon, cfg: Config, item: RetryItem, rest: seq<RetryItem>, s: Sys, now: Time)
    requires DaemonInv(d, cfg) && Held(d) == [item] + rest && !d.phase.Idle? && now == d.phase.now
    requires s.queue == d.s.queue && (s.running == d.s.running || s.running == d.s.running + {item.key})
    requires Consistent(s) && forall k :: k != item.key ==> NoNewPlan(d.s.registry, s.registry, k)
    ensures DaemonInv(Daemon(s, rest, Passing(now)), cfg)
    ensures forall x :: x in d.s.queue + rest ==> x.key != item.key
  {
    var e := Daemon(s, rest, Passing(now));
    assert Whole(d).queue == d.s.queue + [item] + rest;
    DistinctDrop(d.s.queue, item, rest);
    QueuedNotRunning(Whole(d));
    forall x | x in Whole(e).queue ensures x in Whole(d).queue && x.key != item.key {
      assert x in d.s.queue || x in rest;
    }
    HonestFrom(Whole(d), Whole(e));
  }

  /** The item being dealt with goes back to the end of the queue. */
  lemma ReturnInv(d: Daemon, cfg: Config, item: RetryItem, again: RetryItem, rest: seq<RetryItem>, s: Sys, now: Time)
    requires DaemonInv(d, cfg) && Held(d) == [item] + rest && !d.phase.Idle? && now == d.phase.now
    requires again.key == item.key && again.delay >= 0.0 && Due(again) >= Due(item)
    requires s.queue == d.s.queue + [again] && s.running == d.s.running && s.registry == d.s.registry
    ensures DaemonInv(Daemon(s, rest, Passing(now)), cfg)
  {
    var e := Daemon(s, rest, Passing(now));
    assert Whole(d).queue == d.s.queue + [item] + rest && Whole(e).queue == d.s.queue + [again] + rest;
    DistinctReplace(d.s.queue, item, again, rest);
    forall i | 0 <= i < |Whole(e).queue|
      ensures Whole(e).queue[i].delay >= 0.0 && Whole(e).queue[i].key !in s.running
      ensures Planned(s.registry, Whole(e).queue[i].key) ==> Covered(s.registry, Whole(e).queue[i])
    {
      assert i != |d.s.queue| ==> Whole(e).queue[i] == Whole(d).queue[i];
      assert Whole(d).queue[|d.s.queue|] == item;
    }
  }

  lemma TakeNextInv(d: Daemon, cfg: Config)
    requires DaemonInv(d, cfg) && d.phase.Passing?
    ensures DaemonInv(TakeNext(d, cfg), cfg)
  {
    if d.held != [] {
      var item, rest, now := d.held[0], d.held[1..], d.phase.now;
      assert Held(d) == [item] + rest;
      HeldUncounted(d, item);
      if AlreadyDone(d.s, item.key) {
        ConsumeInv(d, cfg, item, rest, d.s, now);
      } else if |d.s.running| >= cfg.maxConcurrent {
        ReturnInv(d, cfg, item, item, rest, d.s.(queue := d.s.queue + [item]), now);
      } else {
        assert Held(TakeNext(d, cfg)) == Held(d);
      }
    }
  }

  lemma AnsweredInv(d: Daemon, cfg: Config, answer: Fetch)
    requires DaemonInv(d, cfg) && d.phase.Fetching?
    ensures DaemonInv(Answered(d, cfg, answer), cfg)
  {
    var item, now, e := d.phase.item, d.phase.now, Answered(d, cfg, answer);
    HeldUncounted(d, item);
    if answer.Active? {
      assert Held(e) == Held(d);
    } else if !answer.Inactive? && Requeued(item, now, cfg).1 {
      RequeuedLater(item, now, cfg);
      ReturnInv(d, cfg, item, Requeued(item, now, cfg).0, d.held, e.s, now);
    } else {
      ConsumeInv(d, cfg, item, d.held, e.s, now);
    }
  }

  lemma RegistersInv(d: Daemon, cfg: Config)
    requires DaemonInv(d, cfg) && d.phase.Launching?
    ensures var key := d.phase.item.key;
      DaemonInv(d.(s := d.s.(registry := Register(d.s.registry, key)), phase := d.phase.(registered := true)), cfg)
  {
    var key := d.phase.item.key;
    var e := d.(s := d.s.(registry := Register(d.s.registry, key)), phase := d.phase.(registered := true));
    HeldUncounted(d, d.phase.item);
    assert Held(e) == Held(d) && Whole(e).queue == Whole(d).queue;
    QueuedNotRunning(Whole(d));
    HonestFrom(Whole(d), Whole(e));
  }

  lemma LaunchEndedInv(d: Daemon, cfg: Config, outcome: Launch)
    requires DaemonInv(d, cfg) && Can(d, cfg, LaunchEnds(outcome))
    ensures DaemonInv(LaunchEnded(d, outcome), cfg)
  {
    var item, now, e := d.phase.item, d.phase.now, LaunchEnded(d, outcome);
    HeldUncounted(d, item);
    match outcome
    case Launched => ConsumeInv(d, cfg, item, d.held, e.s, now);
    case Gated(_) => ReturnInv(d, cfg, item, item, d.held, e.s, now);
    case Raises =>
      assert Whole(e).queue == d.s.queue;
      DistinctPrefix(d.s.queue, Held(d));
      forall x | x in Whole(e).queue ensures x in Whole(d).queue && x.key !in e.s.running {
        var i :| 0 <= i < |d.s.queue| && d.s.queue[i] == x;
        assert Whole(d).queue[i] == x;
      }
      HonestFrom(Whole(d), Whole(e));
  }

  /** No key is queued or held twice or while it runs, and no plan is later than its
      item: kept by every step. */
  lemma StepInv(d: Daemon, cfg: Config, step: Step, e: Daemon)
    requires DaemonInv(d, cfg) && Next(d, cfg, step, e)
    ensures DaemonInv(e, cfg)
  {
    match step
    case LaunchCandidate(key) => CandidateInv(d, cfg, key);
    case SessionFails(key, reason, baseMs, now) =>
      EndedInv(d, cfg, key, Failed);
      ScheduleInv(d.(s := Ended(d.s, key, Failed)), cfg, key, reason, baseMs, now);
    case SessionSucceeds(key) =>
      EndedInv(d, cfg, key, Completed);
      assert Whole(e).queue == Whole(d).queue;
    case Stop(key) =>
      WithoutNobody(d.s, key);
      DropKeyInv(d, cfg, key, e.s);
    case Reset(key) => DropKeyInv(d, cfg, key, e.s);
    case Restart(now) =>
      RestartAgrees(d.s, cfg, now, e.s);
      assert Whole(e).queue == e.s.queue;
    case PassBegins(now) => PassBeginsInv(d, cfg, now);
    case NextItem => TakeNextInv(d, cfg);
    case Fetched(answer) => AnsweredInv(d, cfg, answer);
    case Registers => RegistersInv(d, cfg);
    case LaunchEnds(outcome) => LaunchEndedInv(d, cfg, outcome);
  }

  /** A stop that finds nothing to cancel would have removed nothing. */
  lemma WithoutNobody(s: Sys, key: Key)
    ensures !Waiting(s, key) ==> Without(s.queue, key) == s.queue
    ensures !Planned(s.registry, key) ==> ClearPlan(s.registry, key) == s.registry
  {
    if !Waiting(s, key) { WithoutAbsent(s.queue, key); }
  }

  lemma {:induction false} WithoutAbsent(queue: seq<RetryItem>, key: Key)
    requires !Has(queue, key)
    ensures Without(queue, key) == queue
  {
    if queue != [] {
      assert queue[0].key != key;
      forall i | 0 <= i < |queue[1..]| ensures queue[1..][i].key != key { assert queue[1..][i] == queue[i + 1]; }
      WithoutAbsent(queue[1..], key);
    }
  }


  // ------------------------------------------------------------------
  // Exactly when a queued retry has no plan
  // ------------------------------------------------------------------

  lemma HasConcat(a: seq<RetryItem>, b: seq<RetryItem>, key: Key)
    ensures Has(a + b, key) <==> Has(a, key) || Has(b, key)
  {
    if Has(a, key) {
      var i :| 0 <= i < |a| && a[i].key == key;
      assert (a + b)[i].key == key;
    }
    if Has(b, key) {
      var i :| 0 <= i < |b| && b[i].key == key;
      assert (a + b)[|a| + i].key == key;
    }
    if Has(a + b, key) {
      var i :| 0 <= i < |a + b| && (a + b)[i].key == key;
      assert if i < |a| then a[i].key == key else b[i - |a|].key == key;
    }
  }

  lemma HasMember(queue: seq<RetryItem>, key: Key)
    ensures Has(queue, key) <==> exists x :: x in queue && x.key == key
  {
    if x :| x in queue && x.key == key {
      var i :| 0 <= i < |queue| && queue[i] == x;
      assert queue[i].key == key;
    }
    if Has(queue, key) {
      var i :| 0 <= i < |queue| && queue[i].key == key;
      assert queue[i] in queue;
    }
  }

  lemma HasWithout(queue: seq<RetryItem>, gone: Key, key: Key)
    ensures Has(Without(queue, gone), key) <==> Has(queue, key) && key != gone
  {
    WithoutMembers(queue, gone);
    HasMember(queue, key);
    HasMember(Without(queue, gone), key);
  }

  lemma WholeHas(d: Daemon, key: Key)
    ensures Waiting(Whole(d), key) <==> Waiting(d.s, key) || HeldKey(d, key)
  {
    HasConcat(d.s.queue, Held(d), key);
  }

  /** The fetch ends the retry: the issue is closed, or was missed too often. */
  predicate Closes(d: Daemon, cfg: Config, answer: Fetch)
    requires d.phase.Fetching?
  {
    answer.Inactive? || (!answer.Active? && !Requeued(d.phase.item, d.phase.now, cfg).1)
  }

  /** Whether `key` is bare after a step, given whether it was before.  It becomes so when
      it is registered for launch or stopped while the pass holds it; it stays so until its
      item is used up, taken off the queue by the operator, or lost in a restart. */
  predicate StaysBare(d: Daemon, cfg: Config, step: Step, key: Key, before: bool) {
    match step
    case Stop(k) => if k == key then HeldKey(d, key) else before
    case Reset(k) => before && (k == key ==> HeldKey(d, key))
    case Restart(_) => false
    case Registers => before || (d.phase.Launching? && d.phase.item.key == key)
    case NextItem => before && !(d.held != [] && d.held[0].key == key && AlreadyDone(d.s, key))
    case Fetched(answer) => before && !(d.phase.Fetching? && d.phase.item.key == key && Closes(d, cfg, answer))
    case LaunchEnds(Launched) => before && !(d.phase.Launching? && d.phase.item.key == key)
    case LaunchEnds(Raises) => before && !HeldKey(d, key)
    case _ => before
  }

  lemma BareAfterEvent(d: Daemon, cfg: Config, step: Step, key: Key)
    requires DaemonInv(d, cfg) && Can(d, cfg, step)
    requires step.LaunchCandidate? || step.SessionFails? || step.SessionSucceeds? || step.Stop? || step.Reset?
    ensures Bare(Whole(Do(d, cfg, step)), key) <==> StaysBare(d, cfg, step, key, Bare(Whole(d), key))
  {
    var e := Do(d, cfg, step);
    assert Held(e) == Held(d);
    WholeHas(d, key);
    WholeHas(e, key);
    match step
    case LaunchCandidate(k) =>
      WholeHas(d, k);
    case SessionFails(k, reason, baseMs, now) => BareAfterFailure(d, cfg, step, key);
    case SessionSucceeds(k) =>
    case Stop(k) =>
      WithoutNobody(d.s, k);
      HasWithout(d.s.queue, k, key);
    case Reset(k) =>
      HasWithout(d.s.queue, k, key);
  }

  lemma BareAfterFailure(d: Daemon, cfg: Config, step: Step, key: Key)
    requires DaemonInv(d, cfg) && Can(d, cfg, step) && step.SessionFails?
    ensures Bare(Whole(Do(d, cfg, step)), key) <==> Bare(Whole(d), key)
  {
    var e, k := Do(d, cfg, step), step.key;
    WholeHas(d, key);
    WholeHas(e, key);
    EndedInv(d, cfg, k, Failed);
    HasMember(Whole(d).queue, k);
    WholeHas(d, k);
    var (t, queued) := Schedule(Ended(d.s, k, Failed), cfg, k, step.reason, step.baseMs, step.now);
    if queued {
      var item := t.queue[|d.s.queue|];
      HasConcat(d.s.queue, [item], key);
      assert [item][0].key == k;
    }
  }

  lemma BareAfterPassStep(d: Daemon, cfg: Config, step: Step, key: Key)
    requires DaemonInv(d, cfg) && Can(d, cfg, step)
    requires step.PassBegins? || step.NextItem? || step.Fetched? || step.Registers? || step.LaunchEnds?
    ensures Bare(Whole(Do(d, cfg, step)), key) <==> StaysBare(d, cfg, step, key, Bare(Whole(d), key))
  {
    var e := Do(d, cfg, step);
    WholeHas(d, key);
    WholeHas(e, key);
    match step
    case PassBegins(now) =>
      SplitMembers(d.s.queue, now);
      HasMember(d.s.queue, key);
      HasMember(NotReady(d.s.queue, now), key);
      HasMember(Ready(d.s.queue, now), key);
    case NextItem => if d.held != [] { BareNext(d, cfg, key); }
    case Fetched(answer) => BareFetched(d, cfg, answer, key);
    case Registers =>
      assert Held(e) == Held(d);
      BareHandled(d, d.phase.item, key);
    case LaunchEnds(outcome) => BareLaunched(d, cfg, outcome, key);
  }

  lemma BareFetched(d: Daemon, cfg: Config, answer: Fetch, key: Key)
    requires DaemonInv(d, cfg) && d.phase.Fetching?
    ensures Bare(Whole(Answered(d, cfg, answer)), key) <==> StaysBare(d, cfg, Fetched(answer), key, Bare(Whole(d), key))
  {
    var e := Answered(d, cfg, answer);
    WholeHas(d, key);
    WholeHas(e, key);
    BareHandled(d, d.phase.item, key);
    if answer.Active? {
      assert Held(e) == Held(d);
    }
  }

  lemma BareLaunched(d: Daemon, cfg: Config, outcome: Launch, key: Key)
    requires DaemonInv(d, cfg) && Can(d, cfg, LaunchEnds(outcome))
    ensures Bare(Whole(LaunchEnded(d, outcome)), key) <==> StaysBare(d, cfg, LaunchEnds(outcome), key, Bare(Whole(d), key))
  {
    WholeHas(d, key);
    WholeHas(LaunchEnded(d, outcome), key);
    BareHandled(d, d.phase.item, key);
    if outcome.Raises? && HeldKey(d, key) {
      HeldNotQueued(d, key);
    }
  }

  lemma HeldNotQueued(d: Daemon, key: Key)
    requires Honest(Whole(d)) && HeldKey(d, key)
    ensures !Waiting(d.s, key)
  {
    var i :| 0 <= i < |Held(d)| && Held(d)[i].key == key;
    forall j | 0 <= j < |d.s.queue| ensures d.s.queue[j].key != key {
      assert Whole(d).queue[j] == d.s.queue[j] && Whole(d).queue[|d.s.queue| + i] == Held(d)[i];
    }
  }

  /** Where the keys are when the first held item has been dealt with. */
  lemma BareHandled(d: Daemon, item: RetryItem, key: Key)
    requires Honest(Whole(d)) && Held(d) == [item] + d.held
    ensures Has(Held(d), key) <==> item.key == key || Has(d.held, key)
    ensures Waiting(Whole(d), item.key) && !Has(d.s.queue, item.key) && !Has(d.held, item.key)
    ensures forall x: RetryItem :: x.key == item.key ==> (Has(d.s.queue + [x], key) <==> Has(d.s.queue, key) || key == item.key)
  {
    HasConcat([item], d.held, key);
    assert [item][0].key == item.key;
    assert Whole(d).queue == d.s.queue + [item] + d.held;
    DistinctDrop(d.s.queue, item, d.held);
    HasMember(d.s.queue, item.key);
    HasMember(d.held, item.key);
    WholeHas(d, item.key);
    HasConcat([item], d.held, item.key);
    forall x: RetryItem | x.key == item.key ensures Has(d.s.queue + [x], key) <==> Has(d.s.queue, key) || key == item.key {
      HasConcat(d.s.queue, [x], key);
      assert [x][0].key == item.key;
    }
  }

  lemma BareNext(d: Daemon, cfg: Config, key: Key)
    requires DaemonInv(d, cfg) && d.phase.Passing? && d.held != []
    ensures Bare(Whole(TakeNext(d, cfg)), key) <==> StaysBare(d, cfg, NextItem, key, Bare(Whole(d), key))
  {
    var item, rest, e := d.held[0], d.held[1..], TakeNext(d, cfg);
    var f := Daemon(d.s, rest, Fetching(item, d.phase.now));
    assert Held(f) == Held(d);
    if e.phase.Fetching? {
      assert Whole(e) == Whole(d);
    } else {
      BareHandled(f, item, key);
      WholeHas(d, key);
      WholeHas(e, key);
    }
  }

  lemma StepBare(d: Daemon, cfg: Config, step: Step, e: Daemon, key: Key)
    requires DaemonInv(d, cfg) && Next(d, cfg, step, e)
    ensures Bare(Whole(e), key) <==> StaysBare(d, cfg, step, key, Bare(Whole(d), key))
  {
    if step.Restart? {
      RestartAgrees(d.s, cfg, step.at, e.s);
      AgreementIsHonestNoneBare(e.s);
      assert Whole(e).queue == e.s.queue;
      assert !Bare(e.s, key);
    } else if step.PassBegins? || step.NextItem? || step.Fetched? || step.Registers? || step.LaunchEnds? {
      BareAfterPassStep(d, cfg, step, key);
    } else {
      BareAfterEvent(d, cfg, step, key);
    }
  }

  // ------------------------------------------------------------------
  // Whole runs of the daemon
  // ------------------------------------------------------------------

  /** `states` is a run of `steps`. */
  ghost predicate Trace(states: seq<Daemon>, steps: seq<Step>, cfg: Config) {
    && |states| == |steps| + 1
    && forall i :: 0 <= i < |steps| ==> Next(states[i], cfg, steps[i], states[i + 1])
  }

  const FRESH := Daemon(Sys([], map[], {}, {}, map[]), [], Idle)

  /** A starting point: nothing in progress, every queued retry planned. */
  ghost predicate Settled(d: Daemon) {
    d.phase.Idle? && d.held == [] && Agreement(d.s)
  }

  lemma {:induction false} RunInv(states: seq<Daemon>, steps: seq<Step>, cfg: Config, n: nat)
    requires Trace(states, steps, cfg) && Settled(states[0]) && n < |states|
    ensures DaemonInv(states[n], cfg)
  {
    if n == 0 {
      assert Whole(states[0]).queue == states[0].s.queue;
    } else {
      RunInv(states, steps, cfg, n - 1);
      StepInv(states[n - 1], cfg, steps[n - 1], states[n]);
    }
  }

  /** Whether `key` is bare after `n` steps, told from the steps alone. */
  predicate LeftBare(states: seq<Daemon>, steps: seq<Step>, cfg: Config, n: nat, key: Key)
    requires n <= |steps| < |states|
  {
    n > 0 && StaysBare(states[n - 1], cfg, steps[n - 1], key, LeftBare(states, steps, cfg, n - 1, key))
  }

  lemma {:induction false} RunBare(states: seq<Daemon>, steps: seq<Step>, cfg: Config, n: nat, key: Key)
    requires Trace(states, steps, cfg) && Settled(states[0]) && n < |states|
    ensures Bare(Whole(states[n]), key) <==> LeftBare(states, steps, cfg, n, key)
  {
    if n == 0 {
      AgreementIsHonestNoneBare(states[0].s);
      assert Whole(states[0]).queue == states[0].s.queue;
      assert !Bare(states[0].s, key);
    } else {
      RunBare(states, steps, cfg, n - 1, key);
      RunInv(states, steps, cfg, n - 1);
      StepBare(states[n - 1], cfg, steps[n - 1], states[n], key);
    }
  }

  /**
   * Over every run, whatever happens while a pass awaits, no issue is queued or held twice or
   * while it runs; and every retry is covered by a plan due no later if and only if no key
   * has been left bare.
   */
  lemma AgreementOverRuns(states: seq<Daemon>, steps: seq<Step>, cfg: Config, n: nat)
    requires Trace(states, steps, cfg) && Settled(states[0]) && n < |states|
    ensures Sound(Whole(states[n]))
    ensures Agreement(Whole(states[n])) <==> forall key: Key :: !LeftBare(states, steps, cfg, n, key)
  {
    RunInv(states, steps, cfg, n);
    var w := Whole(states[n]);
    AgreementIsHonestNoneBare(w);
    if Agreement(w) {
      forall key: Key ensures !LeftBare(states, steps, cfg, n, key) {
        RunBare(states, steps, cfg, n, key);
        assert !Bare(w, key);
      }
    } else {
      var key: Key :| Bare(w, key);
      RunBare(states, steps, cfg, n, key);
      assert LeftBare(states, steps, cfg, n, key);
    }
  }

  /** The only two causes: a stop of an issue the pass holds, and a registration. */
  predicate Bares(d: Daemon, step: Step, key: Key) {
    || (step == Stop(key) && HeldKey(d, key))
    || (step.Registers? && d.phase.Launching? && d.phase.item.key == key)
  }

  lemma {:induction false} BareHasCause(states: seq<Daemon>, steps: seq<Step>, cfg: Config, n: nat, key: Key)
    requires Trace(states, steps, cfg) && Settled(states[0]) && n < |states| && LeftBare(states, steps, cfg, n, key)
    ensures exists i :: 0 <= i < n && Bares(states[i], steps[i], key)
  {
    if !Bares(states[n - 1], steps[n - 1], key) {
      BareHasCause(states, steps, cfg, n - 1, key);
    }
  }

  // ------------------------------------------------------------------
  // Conservation: every item is accounted for at every step
  // ------------------------------------------------------------------

  /** The step uses up item `x`, or takes it away. */
  predicate Disposes(d: Daemon, cfg: Config, step: Step, x: RetryItem) {
    match step
    case Stop(key) => key == x.key && x in d.s.queue
    case Reset(key) => key == x.key && x in d.s.queue
    case Restart(_) => true
    case NextItem => d.held != [] && d.held[0] == x && AlreadyDone(d.s, x.key)
    case Fetched(answer) => d.phase.Fetching? && d.phase.item == x && Closes(d, cfg, answer)
    case LaunchEnds(Launched) => d.phase.Launching? && d.phase.item == x
    case LaunchEnds(Raises) => x in Held(d)
    case _ => false
  }

  /** The step puts `x` back with a longer delay. */
  predicate Renews(d: Daemon, cfg: Config, step: Step, x: RetryItem) {
    step.Fetched? && d.phase.Fetching? && d.phase.item == x && !step.answer.Active? && !Closes(d, cfg, step.answer)
  }

  function Renewed(d: Daemon, cfg: Config, step: Step, x: RetryItem): RetryItem {
    if Renews(d, cfg, step, x) then Requeued(x, d.phase.now, cfg).0 else x
  }

  lemma PassConserves(d: Daemon, cfg: Config, step: Step, e: Daemon, x: RetryItem)
    requires step.NextItem? || step.Fetched? || step.LaunchEnds?
    requires Next(d, cfg, step, e) && x in Whole(d).queue
    ensures Renewed(d, cfg, step, x) in Whole(e).queue || Disposes(d, cfg, step, x)
  {
    assert x in d.s.queue || x in Held(d);
    if step.NextItem? && d.held != [] {
      assert d.held == [d.held[0]] + d.held[1..];
    }
  }

  /** Whatever is queued or held stays so, renewed if it was missed, unless the step disposes of it. */
  lemma StepConserves(d: Daemon, cfg: Config, step: Step, e: Daemon, x: RetryItem)
    requires DaemonInv(d, cfg) && Next(d, cfg, step, e) && x in Whole(d).queue
    ensures Renewed(d, cfg, step, x) in Whole(e).queue || Disposes(d, cfg, step, x)
  {
    if step.NextItem? || step.Fetched? || step.LaunchEnds? {
      PassConserves(d, cfg, step, e, x);
    } else {
      assert x in d.s.queue || x in Held(d);
      match step
      case Stop(key) => WithoutMembers(d.s.queue, key); WithoutNobody(d.s, key);
      case Reset(key) => WithoutMembers(d.s.queue, key);
      case PassBegins(now) => SplitMembers(d.s.queue, now);
      case _ =>
    }
  }

  /** Nothing else gets in: an item that is new was scheduled by its session's failure,
      renewed, or rebuilt from a plan. */
  lemma StepInventsNothing(d: Daemon, cfg: Config, step: Step, e: Daemon, y: RetryItem)
    requires DaemonInv(d, cfg) && Next(d, cfg, step, e) && y in Whole(e).queue && y !in Whole(d).queue
    ensures || step.Restart?
            || (step.SessionFails? && step.key == y.key)
            || (d.phase.Fetching? && Renews(d, cfg, step, d.phase.item) && y == Renewed(d, cfg, step, d.phase.item))
  {
    assert y in e.s.queue || y in Held(e);
    match step
    case Stop(key) => WithoutMembers(d.s.queue, key); WithoutNobody(d.s, key);
    case Reset(key) => WithoutMembers(d.s.queue, key);
    case PassBegins(now) => SplitMembers(d.s.queue, now);
    case NextItem =>
      assert d.held != [] ==> forall y :: y in d.held[1..] ==> y in d.held;
    case _ =>
  }

  /** What becomes of an issue whose item the pass uses up: launched, already done, or its plan cleared;
      after a launch that raised, the items not yet reached are out of memory and keep their plans. */
  lemma DisposedIsSettled(d: Daemon, cfg: Config, step: Step, e: Daemon, x: RetryItem)
    requires DaemonInv(d, cfg) && Next(d, cfg, step, e) && x in Whole(d).queue
    requires Disposes(d, cfg, step, x) && !step.Restart?
    ensures !Waiting(Whole(e), x.key)
    ensures step.NextItem? ==> AlreadyDone(e.s, x.key)
    ensures step.Stop? || step.Fetched? || step == LaunchEnds(Launched) ==> !Planned(e.s.registry, x.key)
    ensures step == LaunchEnds(Launched) ==> x.key in e.s.running
    ensures step == LaunchEnds(Raises) ==> e.s == d.s
  {
    WholeHas(e, x.key);
    match step
    case Stop(key) => WithoutNobody(d.s, key); HasWithout(d.s.queue, key, key); QueuedNotHeld(d, x);
    case Reset(key) => HasWithout(d.s.queue, key, key); QueuedNotHeld(d, x);
    case NextItem =>
      var f := Daemon(d.s, d.held[1..], Fetching(d.held[0], d.phase.now));
      assert Held(f) == Held(d);
      BareHandled(f, d.held[0], x.key);
    case Fetched(answer) => BareHandled(d, d.phase.item, x.key);
    case LaunchEnds(outcome) =>
      BareHandled(d, d.phase.item, x.key);
      HasMember(Held(d), x.key);
      HeldNotQueued(d, x.key);
    case _ =>
  }

  lemma QueuedNotHeld(d: Daemon, x: RetryItem)
    requires Honest(Whole(d)) && x in d.s.queue
    ensures !HeldKey(d, x.key)
  {
    HasMember(d.s.queue, x.key);
    if HeldKey(d, x.key) {
      HeldNotQueued(d, x.key);
      assert false;
    }
  }

  /** A pass fills free slots only. */
  lemma StepWithinCap(d: Daemon, cfg: Config, step: Step, e: Daemon)
    requires DaemonInv(d, cfg) && Next(d, cfg, step, e) && !step.LaunchCandidate?
    ensures |e.s.running| <= |d.s.running| || |e.s.running| <= cfg.maxConcurrent
  {
    if step.SessionFails? || step.SessionSucceeds? {
      assert e.s.running == d.s.running - {step.key};
    }
  }

  /** Over any stretch of a run: a retry that was queued or held is still there under its
      attempt number, or some step in between disposed of it. */
  lemma {:induction false} RunConserves(states: seq<Daemon>, steps: seq<Step>, cfg: Config, i: nat, j: nat, x: RetryItem)
    requires Trace(states, steps, cfg) && Settled(states[0]) && i <= j < |states| && x in Whole(states[i]).queue
    ensures (exists y :: y in Whole(states[j]).queue && y.key == x.key && y.attempt == x.attempt)
         || (exists m, y: RetryItem :: i <= m < j && y.key == x.key && y.attempt == x.attempt && Disposes(states[m], cfg, steps[m], y))
    decreases j - i
  {
    if i < j {
      RunInv(states, steps, cfg, i);
      StepConserves(states[i], cfg, steps[i], states[i + 1], x);
      if !Disposes(states[i], cfg, steps[i], x) {
        var z := Renewed(states[i], cfg, steps[i], x);
        RunConserves(states, steps, cfg, i + 1, j, z);
      }
    }
  }

  // ------------------------------------------------------------------
  // Exactly when an operator's stop holds
  // ------------------------------------------------------------------

  /** Nothing is under way for `key`: not queued, not held, not planned, not running. */
  predicate Dormant(d: Daemon, key: Key) {
    !Waiting(d.s, key) && !HeldKey(d, key) && !Planned(d.s.registry, key) && key !in d.s.running
  }

  /** A stop of an issue that is not running takes effect at once if and only if the pass
      does not hold the issue. */
  lemma StopExact(d: Daemon, cfg: Config, key: Key)
    requires DaemonInv(d, cfg) && Can(d, cfg, Stop(key)) && key !in d.s.running
    ensures Dormant(Do(d, cfg, Stop(key)), key) <==> !HeldKey(d, key)
    ensures !Planned(Do(d, cfg, Stop(key)).s.registry, key) && (HeldKey(Do(d, cfg, Stop(key)), key) <==> HeldKey(d, key))
  {
    var e := Do(d, cfg, Stop(key));
    assert Held(e) == Held(d);
    WithoutNobody(d.s, key);
    HasWithout(d.s.queue, key, key);
  }

  /** Steps that end the pass's hold on a held `key` without running or requeueing it. */
  predicate Consumes(d: Daemon, cfg: Config, step: Step, key: Key) {
    || (step.NextItem? && AlreadyDone(d.s, key))
    || (step.Fetched? && d.phase.Fetching? && Closes(d, cfg, step.answer))
    || step == LaunchEnds(Raises)
    || step.Restart?
  }

  lemma HeldStaysUnplanned(d: Daemon, cfg: Config, step: Step, e: Daemon, key: Key)
    requires DaemonInv(d, cfg) && Next(d, cfg, step, e)
    requires HeldKey(d, key) && HeldKey(e, key) && !Planned(d.s.registry, key)
    ensures !Planned(e.s.registry, key)
  {
    HeldOutOfRuns(d, cfg, key);
    if !step.Restart? {
      StepPlans(d, cfg, step, e, key);
    }
  }

  lemma UnheldExact(d: Daemon, cfg: Config, step: Step, e: Daemon, key: Key)
    requires DaemonInv(d, cfg) && Next(d, cfg, step, e)
    requires HeldKey(d, key) && !HeldKey(e, key) && !Planned(d.s.registry, key)
    ensures Dormant(e, key) <==> Consumes(d, cfg, step, key)
    ensures Waiting(e.s, key) || key in e.s.running || Consumes(d, cfg, step, key)
  {
    HeldNotQueued(d, key);
    HeldOutOfRuns(d, cfg, key);
    match step
    case Restart(now) => RestartForgets(d.s, cfg, now, e.s, key);
    case NextItem => UnheldByNext(d, cfg, key);
    case Fetched(_) => BareHandled(d, d.phase.item, key);
    case LaunchEnds(_) => BareHandled(d, d.phase.item, key);
    case _ =>
  }

  lemma UnheldByNext(d: Daemon, cfg: Config, key: Key)
    requires DaemonInv(d, cfg) && d.phase.Passing? && HeldKey(d, key) && !HeldKey(TakeNext(d, cfg), key)
    requires !Waiting(d.s, key)
    ensures var e := TakeNext(d, cfg);
      && e.s.registry == d.s.registry && e.s.running == d.s.running
      && (Waiting(e.s, key) <==> !AlreadyDone(d.s, key))
  {
    var f := Daemon(d.s, d.held[1..], Fetching(d.held[0], d.phase.now));
    assert Held(f) == Held(d);
    BareHandled(f, d.held[0], key);
  }

  lemma RestartForgets(s: Sys, cfg: Config, now: Time, t: Sys, key: Key)
    requires RestartOf(s, cfg, now, t) && !Planned(s.registry, key)
    requires key in s.registry ==> s.registry[key].status != Running
    ensures !Waiting(t, key) && !Planned(t.registry, key) && key !in t.running
  {
    forall j | 0 <= j < |t.queue| ensures t.queue[j].key != key {
      assert FromPlan(t.registry, t.queue[j], now);
    }
  }

  /**
   * A stop of an issue the pass holds: when the pass lets go of the issue, the stop has held if
   * and only if the pass used the item up without a launch.  Otherwise the issue is queued
   * again or running.
   */
  lemma {:induction false} StopDuringPassExact(states: seq<Daemon>, steps: seq<Step>, cfg: Config, a: nat, b: nat, key: Key)
    requires Trace(states, steps, cfg) && Settled(states[0]) && a + 1 < b < |states|
    requires steps[a] == Stop(key) && !HeldKey(states[b], key)
    requires forall i :: a <= i < b ==> HeldKey(states[i], key)
    ensures Dormant(states[b], key) <==> Consumes(states[b - 1], cfg, steps[b - 1], key)
    ensures Waiting(states[b].s, key) || key in states[b].s.running || Consumes(states[b - 1], cfg, steps[b - 1], key)
  {
    StoppedUnplanned(states, steps, cfg, a, b - 1, key);
    LetGo(states, steps, cfg, b - 1, key);
  }

  lemma LetGo(states: seq<Daemon>, steps: seq<Step>, cfg: Config, b: nat, key: Key)
    requires Trace(states, steps, cfg) && Settled(states[0]) && b < |steps|
    requires HeldKey(states[b], key) && !HeldKey(states[b + 1], key) && !Planned(states[b].s.registry, key)
    ensures Dormant(states[b + 1], key) <==> Consumes(states[b], cfg, steps[b], key)
    ensures Waiting(states[b + 1].s, key) || key in states[b + 1].s.running || Consumes(states[b], cfg, steps[b], key)
  {
    RunInv(states, steps, cfg, b);
    UnheldExact(states[b], cfg, steps[b], states[b + 1], key);
  }

  lemma StoppedUnplanned(states: seq<Daemon>, steps: seq<Step>, cfg: Config, a: nat, b: nat, key: Key)
    requires Trace(states, steps, cfg) && Settled(states[0]) && a < b < |states| && steps[a] == Stop(key)
    requires forall i :: a <= i <= b ==> HeldKey(states[i], key)
    ensures !Planned(states[b].s.registry, key)
  {
    RunInv(states, steps, cfg, a);
    HeldOutOfRuns(states[a], cfg, key);
    assert Next(states[a], cfg, steps[a], states[a + 1]);
    StopExact(states[a], cfg, key);
    UnplannedSince(states, steps, cfg, a + 1, b, key);
  }

  lemma HeldOutOfRuns(d: Daemon, cfg: Config, key: Key)
    requires DaemonInv(d, cfg) && HeldKey(d, key)
    ensures key !in d.s.running
  {
    HasMember(Held(d), key);
    var x :| x in Held(d) && x.key == key;
    HeldUncounted(d, x);
  }

  lemma {:induction false} UnplannedSince(states: seq<Daemon>, steps: seq<Step>, cfg: Config, a: nat, b: nat, key: Key)
    requires Trace(states, steps, cfg) && Settled(states[0]) && a <= b < |states|
    requires (forall i :: a <= i <= b ==> HeldKey(states[i], key)) && !Planned(states[a].s.registry, key)
    ensures !Planned(states[b].s.registry, key)
    decreases b - a
  {
    if a < b {
      RunInv(states, steps, cfg, a);
      HeldStaysUnplanned(states[a], cfg, steps[a], states[a + 1], key);
      UnplannedSince(states, steps, cfg, a + 1, b, key);
    }
  }

  /** Only the failure of its session gives `key` an item where it had none. */
  lemma StepWaits(d: Daemon, cfg: Config, step: Step, e: Daemon, key: Key)
    requires DaemonInv(d, cfg) && Next(d, cfg, step, e) && !step.Restart? && !(step.SessionFails? && step.key == key)
    ensures Waiting(Whole(e), key) ==> Waiting(Whole(d), key)
  {
    HasMember(Whole(d).queue, key);
    HasMember(Whole(e).queue, key);
    if x :| x in Whole(e).queue && x.key == key {
      if x !in Whole(d).queue {
        StepInventsNothing(d, cfg, step, e, x);
        assert Held(d)[0] == d.phase.item && d.phase.item in Whole(d).queue;
      }
    }
  }

  /** Only the failure of its session plans `key` or raises its count. */
  lemma StepPlans(d: Daemon, cfg: Config, step: Step, e: Daemon, key: Key)
    requires Next(d, cfg, step, e) && !step.Restart? && !(step.SessionFails? && step.key == key)
    ensures Planned(e.s.registry, key) ==> Planned(d.s.registry, key) && CountOrOne(e.s.registry[key]) == CountOrOne(d.s.registry[key])
    ensures Attempts(e.s, key) == Attempts(d.s, key) || (Resets(d, step, key) && Attempts(e.s, key) == 0)
  {
  }

  lemma DormantStays(d: Daemon, cfg: Config, step: Step, e: Daemon, key: Key)
    requires DaemonInv(d, cfg) && Next(d, cfg, step, e) && Dormant(d, key) && step != LaunchCandidate(key)
    ensures Dormant(e, key)
  {
    WholeHas(d, key);
    WholeHas(e, key);
    if step.Restart? {
      RestartForgets(d.s, cfg, step.at, e.s, key);
    } else {
      StepWaits(d, cfg, step, e, key);
      StepPlans(d, cfg, step, e, key);
      if step.LaunchEnds? {
        assert Held(d)[0] == d.phase.item;
      }
    }
  }

  /** A stop that has held goes on holding until the issue is launched afresh. */
  lemma {:induction false} DormantUntilLaunched(states: seq<Daemon>, steps: seq<Step>, cfg: Config, a: nat, b: nat, key: Key)
    requires Trace(states, steps, cfg) && Settled(states[0]) && a <= b < |states|
    requires Dormant(states[a], key) && forall i :: a <= i < b ==> steps[i] != LaunchCandidate(key)
    ensures Dormant(states[b], key)
    decreases b - a
  {
    if a < b {
      RunInv(states, steps, cfg, a);
      DormantStays(states[a], cfg, steps[a], states[a + 1], key);
      DormantUntilLaunched(states, steps, cfg, a + 1, b, key);
    }
  }

  /**
   * The states the next three lemmas speak of are reached: an issue is launched and fails, its
   * retry comes due, and the pass fetches, decides to launch and registers it.
   */
  lemma LaunchingRetryIsReachable(cfg: Config, key: Key, now: Time) returns (states: seq<Daemon>, steps: seq<Step>)
    requires cfg.maxConcurrent >= 1
    ensures Trace(states, steps, cfg) && |steps| == 6 && states[0] == FRESH && Settled(FRESH)
    ensures DaemonInv(states[4], cfg) && states[4].phase.Fetching? && states[4].phase.item.key == key && Planned(states[4].s.registry, key)
    ensures DaemonInv(states[6], cfg) && states[6].phase.Launching? && states[6].phase.registered && states[6].phase.item.key == key
  {
    var b, s1, item := FailedOnce(cfg, key, now);
    var at := Due(item);
    OneReady(item, at);
    var c := Do(b[2], cfg, PassBegins(at));
    assert c == Daemon(b[2].s.(queue := []), [item], Passing(at));
    var d := Do(c, cfg, NextItem);
    assert [item][1..] == [] && d == Daemon(c.s, [], Fetching(item, at));
    var e := Do(d, cfg, Fetched(Active));
    var f := Do(e, cfg, Registers);
    states, steps := b + [c, d, e, f], s1 + [PassBegins(at), NextItem, Fetched(Active), Registers];
    assert states[2] == b[2] && states[3] == c && states[4] == d && states[5] == e && states[6] == f;
    RunInv(states, steps, cfg, 4);
    RunInv(states, steps, cfg, 6);
  }

  lemma FailedOnce(cfg: Config, key: Key, now: Time) returns (states: seq<Daemon>, steps: seq<Step>, item: RetryItem)
    ensures Trace(states, steps, cfg) && |steps| == 2 && states[0] == FRESH && Settled(FRESH)
    ensures var d := states[2];
      && item.key == key && d.s.queue == [item] && d.held == [] && d.phase == Idle && d.s.running == {} && d.s.completed == {}
      && Planned(d.s.registry, key)
  {
    var fails := SessionFails(key, None, 0, now);
    var a := Do(FRESH, cfg, LaunchCandidate(key));
    var b := Do(a, cfg, fails);
    states, steps, item := [FRESH, a, b], [LaunchCandidate(key), fails], b.s.queue[0];
  }

  lemma OneReady(item: RetryItem, now: Time)
    requires now >= Due(item)
    ensures Ready([item], now) == [item] && NotReady([item], now) == []
  {
    assert [item][1..] == [];
  }

  /** The operator's stop during the fetch finds the plan, reports the retry cancelled, and
      the issue is launched all the same. */
  lemma StopDuringFetchIsDefeated(d: Daemon, cfg: Config)
    requires DaemonInv(d, cfg) && d.phase.Fetching? && Planned(d.s.registry, d.phase.item.key)
    ensures var key := d.phase.item.key; var e := Do(d, cfg, Stop(key)); var f := Answered(e, cfg, Active);
      && StopWaiting(d.s, key).1
      && Can(f, cfg, Registers)
      && var g := Do(f, cfg, Registers); Can(g, cfg, LaunchEnds(Launched)) && key in Do(g, cfg, LaunchEnds(Launched)).s.running
  {
  }

  /** After the registration a stop finds nothing to cancel and changes nothing. */
  lemma StopAfterRegistrationIsUnheard(d: Daemon, cfg: Config)
    requires DaemonInv(d, cfg) && d.phase.Launching? && d.phase.registered
    ensures StopWaiting(d.s, d.phase.item.key) == (d.s, false)
  {
    BareHandled(d, d.phase.item, d.phase.item.key);
  }

  /** A retry whose launch was gated after registering is queued again, and the next
      restart forgets it. */
  lemma LateGateThenRestartLoses(d: Daemon, cfg: Config, completes: bool, now: Time, t: Sys)
    requires DaemonInv(d, cfg) && d.phase.Launching? && d.phase.registered
    requires RestartOf(LaunchEnded(d, Gated(completes)).s, cfg, now, t)
    ensures Waiting(LaunchEnded(d, Gated(completes)).s, d.phase.item.key) && !Waiting(t, d.phase.item.key)
  {
    var key, e := d.phase.item.key, LaunchEnded(d, Gated(completes));
    assert e.s.queue[|d.s.queue|].key == key;
    HeldUncounted(d, d.phase.item);
    RestartForgets(e.s, cfg, now, t, key);
  }

  // ------------------------------------------------------------------
  // How often one issue is queued
  // ------------------------------------------------------------------

  /** The step queued another attempt of `key`. */
  predicate Queues(d: Daemon, cfg: Config, step: Step, key: Key) {
    step.SessionFails? && step.key == key && Schedule(Ended(d.s, key, Failed), cfg, key, step.reason, step.baseMs, step.now).1
  }

  /** The operator started `key` over. */
  predicate Resets(d: Daemon, step: Step, key: Key) {
    step == Reset(key) || (step == Stop(key) && StopWaiting(d.s, key).1)
  }

  /** Attempts queued for `key` in the first `n` steps since the last reset. */
  function QueuedSinceReset(states: seq<Daemon>, steps: seq<Step>, cfg: Config, key: Key, n: nat): nat
    requires n <= |steps| < |states|
  {
    if n == 0 then 0
    else
      var before := QueuedSinceReset(states, steps, cfg, key, n - 1);
      if Queues(states[n - 1], cfg, steps[n - 1], key) then before + 1
      else if Resets(states[n - 1], steps[n - 1], key) then 0
      else before
  }

  /** A restart at which the counter of `key` survives, or was zero anyway. */
  predicate KeepsCounter(d: Daemon, step: Step, key: Key) {
    step.Restart? ==>
      (Waiting(Whole(d), key) && Planned(d.s.registry, key) && d.s.registry[key].status != Running) || Attempts(d.s, key) == 0
  }

  /** The record of a planned retry counts at least as many attempts as memory does. */
  ghost predicate CountsKept(d: Daemon, cfg: Config, key: Key) {
    && DaemonInv(d, cfg)
    && (Waiting(Whole(d), key) && Planned(d.s.registry, key) ==> CountOrOne(d.s.registry[key]) >= Attempts(d.s, key))
  }

  lemma StepCounts(d: Daemon, cfg: Config, step: Step, e: Daemon, key: Key)
    requires CountsKept(d, cfg, key) && Next(d, cfg, step, e) && KeepsCounter(d, step, key)
    ensures CountsKept(e, cfg, key)
    ensures Attempts(e.s, key) >= Attempts(d.s, key) || Resets(d, step, key)
    ensures Queues(d, cfg, step, key) ==>
              Retryable(step.reason) && Attempts(e.s, key) == Attempts(d.s, key) + 1 && (cfg.maxAttempts != 0 ==> Attempts(e.s, key) <= cfg.maxAttempts)
  {
    StepInv(d, cfg, step, e);
    if step.Restart? {
      RestartCounter(d.s, cfg, step.at, e.s, key);
      assert Whole(e).queue == e.s.queue;
    } else if step.SessionFails? && step.key == key {
      EndedInv(d, cfg, key, Failed);
    } else {
      StepWaits(d, cfg, step, e, key);
      StepPlans(d, cfg, step, e, key);
    }
  }

  /** Across a restart a waiting issue keeps its count, a running one is put back to
      one attempt, and any other issue's count is forgotten. */
  lemma RestartCounter(s: Sys, cfg: Config, now: Time, t: Sys, key: Key)
    requires RestartOf(s, cfg, now, t)
    ensures Attempts(t, key) == if key in s.registry && s.registry[key].status == Running then 1
                                else if Planned(s.registry, key) then CountOrOne(s.registry[key])
                                else 0
    ensures Waiting(t, key) ==> Planned(t.registry, key) && Attempts(t, key) == CountOrOne(t.registry[key])
  {
    if Waiting(t, key) {
      var j :| 0 <= j < |t.queue| && t.queue[j].key == key;
      assert FromPlan(t.registry, t.queue[j], now);
    }
    assert Planned(t.registry, key) ==> Waiting(t, key);
  }

  /** Between operator resets, an issue whose restarts find it waiting is queued at
      most `maxAttempts` times, whatever else the daemon does, and never for a session
      whose end reason is an operator's. */
  lemma {:induction false} AttemptBound(states: seq<Daemon>, steps: seq<Step>, cfg: Config, key: Key, n: nat)
    requires Trace(states, steps, cfg) && states[0] == FRESH && n < |states|
    requires forall i :: 0 <= i < n ==> KeepsCounter(states[i], steps[i], key)
    ensures CountsKept(states[n], cfg, key)
    ensures QueuedSinceReset(states, steps, cfg, key, n) <= Attempts(states[n].s, key)
    ensures cfg.maxAttempts != 0 ==> QueuedSinceReset(states, steps, cfg, key, n) <= cfg.maxAttempts
    ensures forall i :: 0 <= i < n && Queues(states[i], cfg, steps[i], key) ==> Retryable(steps[i].reason)
  {
    if n > 0 {
      AttemptBound(states, steps, cfg, key, n - 1);
      StepCounts(states[n - 1], cfg, steps[n - 1], states[n], key);
    }
  }

  // ------------------------------------------------------------------
  // How long a retry waits
  // ------------------------------------------------------------------

  function Least(a: Time, b: Time): Time {
    if a <= b then a else b
  }

  /** 2 to the n. */
  function Doubling(n: nat): Time {
    if n == 0 then 1.0 else Doubling(n - 1) + Doubling(n - 1)
  }

  lemma {:induction false} DoublingIsPow2(n: nat)
    ensures Doubling(n) == Pow2(n) as real && Doubling(n) >= 1.0
  {
    if n > 0 { DoublingIsPow2(n - 1); }
  }

  /** min(base * 2^n, cap). */
  function Backoff(base: Time, n: nat, cap: Time): Time {
    Least(base * Doubling(n), cap)
  }

  /** The delay of attempt `k`, in seconds. */
  function WaitOf(k: nat, baseMs: nat, maxMs: nat): Time
    requires k >= 1
  {
    Backoff(baseMs as real, k - 1, maxMs as real) / 1000.0
  }

  lemma {:induction false} BackoffGrows(base: Time, n: nat, cap: Time)
    requires base >= 0.0 && cap >= 0.0
    ensures 0.0 <= Backoff(base, n, cap) <= Backoff(base, n + 1, cap) <= cap
    ensures Backoff(base, n + 1, cap) == Least(2.0 * Backoff(base, n, cap), cap)
    ensures Backoff(base, 0, cap) == Least(base, cap)
  {
    DoublingIsPow2(n);
    var p := Doubling(n);
    assert base * (p + p) == base * p + base * p;
    assert base * p >= 0.0;
    assert base * 1.0 == base;
  }

  lemma WaitIs(k: nat, baseMs: nat, maxMs: nat)
    requires k >= 1
    ensures Seconds(RetryDelayMs(k, baseMs, maxMs)) == WaitOf(k, baseMs, maxMs)
  {
    DoublingIsPow2(k - 1);
    var p := Pow2(k - 1);
    assert (baseMs * p) as real == baseMs as real * p as real;
  }

  /** The delay never exceeds the cap and never falls from one attempt to the next: each is twice the one before, capped. */
  lemma WaitsGrow(k: nat, baseMs: nat, maxMs: nat)
    requires k >= 1
    ensures var delay, next, cap := Seconds(RetryDelayMs(k, baseMs, maxMs)), Seconds(RetryDelayMs(k + 1, baseMs, maxMs)), Seconds(maxMs);
      0.0 <= delay <= next <= cap && next == Least(2.0 * delay, cap)
    ensures Seconds(RetryDelayMs(1, baseMs, maxMs)) == Least(Seconds(baseMs), Seconds(maxMs))
  {
    WaitIs(k, baseMs, maxMs);
    WaitIs(k + 1, baseMs, maxMs);
    WaitIs(1, baseMs, maxMs);
    BackoffGrows(baseMs as real, k - 1, maxMs as real);
  }

  /** Failures of `key`'s sessions for a reason that is not an operator's, in the first `n` steps since the last reset. */
  function FailuresSinceReset(states: seq<Daemon>, steps: seq<Step>, key: Key, n: nat): nat
    requires n <= |steps| < |states|
  {
    if n == 0 then 0
    else
      var before, step := FailuresSinceReset(states, steps, key, n - 1), steps[n - 1];
      if step.SessionFails? && step.key == key && Retryable(step.reason) then before + 1
      else if Resets(states[n - 1], step, key) then 0
      else before
  }

  /** Without restarts the counter of an issue is the number of its failures since the last reset. */
  lemma {:induction false} FailuresCounted(states: seq<Daemon>, steps: seq<Step>, cfg: Config, key: Key, n: nat)
    requires Trace(states, steps, cfg) && states[0] == FRESH && n < |states| && forall i :: 0 <= i < n ==> !steps[i].Restart?
    ensures Attempts(states[n].s, key) == FailuresSinceReset(states, steps, key, n)
  {
    if n > 0 {
      FailuresCounted(states, steps, cfg, key, n - 1);
      assert Next(states[n - 1], cfg, steps[n - 1], states[n]);
    }
  }

  /** The item and the plan of attempt `k`, failed at `now`. */
  predicate WaitsOut(s: Sys, key: Key, k: nat, baseMs: nat, maxMs: nat, now: Time)
    requires k >= 1
  {
    var delay := WaitOf(k, baseMs, maxMs);
    && s.queue != [] && Last(s.queue) == RetryItem(key, k, delay, now, 0)
    && key in s.registry && s.registry[key].retryCount == k && s.registry[key].plan == Some(now + delay)
  }

  predicate ByOperator(reason: Option<string>) {
    && reason.Some?
    && (reason.value == "operator_stop" || reason.value == "operator_takeover" || reason.value == "operator_stopped")
  }

  lemma ScheduledWaits(s: Sys, cfg: Config, key: Key, reason: Option<string>, baseMs: nat, now: Time)
    requires key in s.registry
    ensures var (t, queued) := Schedule(s, cfg, key, reason, baseMs, now); var k := Attempts(s, key) + 1;
      && (queued <==> !ByOperator(reason) && (cfg.maxAttempts == 0 || k <= cfg.maxAttempts))
      && (queued ==> |t.queue| == |s.queue| + 1 && Init(t.queue) == s.queue && WaitsOut(t, key, k, baseMs, cfg.maxBackoffMs, now))
      && (!queued ==> t.queue == s.queue && (Planned(t.registry, key) <==> Planned(s.registry, key)))
  {
    var k := Attempts(s, key) + 1;
    WaitIs(k, baseMs, cfg.maxBackoffMs);
  }

  /**
   * A failure that is the k-th since a reset queues a retry if and only if the operator did not cause it and k is
   * within the limit.  The retry waits min(base * 2^(k-1), cap), and its plan is due when it is.
   */
  lemma FailureQueues(d: Daemon, cfg: Config, key: Key, reason: Option<string>, baseMs: nat, now: Time)
    requires DaemonInv(d, cfg) && Can(d, cfg, SessionFails(key, reason, baseMs, now))
    ensures var e, k := Do(d, cfg, SessionFails(key, reason, baseMs, now)), Attempts(d.s, key) + 1;
      if !ByOperator(reason) && (cfg.maxAttempts == 0 || k <= cfg.maxAttempts)
      then |e.s.queue| == |d.s.queue| + 1 && Init(e.s.queue) == d.s.queue && WaitsOut(e.s, key, k, baseMs, cfg.maxBackoffMs, now)
      else e.s.queue == d.s.queue && !Waiting(Whole(e), key) && !Planned(e.s.registry, key)
  {
    var e := Do(d, cfg, SessionFails(key, reason, baseMs, now));
    EndedInv(d, cfg, key, Failed);
    ScheduledWaits(Ended(d.s, key, Failed), cfg, key, reason, baseMs, now);
    HasMember(Whole(d).queue, key);
    if e.s.queue == d.s.queue {
      assert Whole(e).queue == Whole(d).queue;
    }
  }

  /** So the k-th failure since a reset, in a run without restarts, waits min(base * 2^(k-1), cap). */
  lemma KthFailureWaits(states: seq<Daemon>, steps: seq<Step>, cfg: Config, n: nat)
    requires Trace(states, steps, cfg) && states[0] == FRESH && n < |steps| && forall i :: 0 <= i < n ==> !steps[i].Restart?
    requires steps[n].SessionFails? && Queues(states[n], cfg, steps[n], steps[n].key)
    ensures var step := steps[n]; var k := FailuresSinceReset(states, steps, step.key, n) + 1;
      WaitsOut(states[n + 1].s, step.key, k, step.baseMs, cfg.maxBackoffMs, step.now)
  {
    var step := steps[n];
    RunInv(states, steps, cfg, n);
    FailuresCounted(states, steps, cfg, step.key, n);
    assert Next(states[n], cfg, step, states[n + 1]);
    FailureQueues(states[n], cfg, step.key, step.reason, step.baseMs, step.now);
  }

  predicate FirstAttempt(item: RetryItem, key: Key, delay: Time) {
    item.key == key && item.attempt == 1 && item.requeues == 0 && item.delay == delay
  }

  /** An issue a dead process left running comes back as a first attempt after the shortest wait: ten seconds, or the cap. */
  lemma StaleRunWaits(s: Sys, cfg: Config, now: Time, t: Sys, key: Key)
    requires RestartOf(s, cfg, now, t) && key in s.registry && s.registry[key].status == Running
    ensures exists i :: 0 <= i < |t.queue| && FirstAttempt(t.queue[i], key, Least(10.0, cfg.maxBackoffMs as real / 1000.0))
    ensures t.registry[key].status == Failed
  {
    WaitsGrow(1, FAILURE_RETRY_BASE_MS, cfg.maxBackoffMs);
    assert Seconds(FAILURE_RETRY_BASE_MS) == 10.0;
    assert Planned(t.registry, key);
    var i :| 0 <= i < |t.queue| && t.queue[i].key == key;
    assert FromPlan(t.registry, t.queue[i], now);
  }

  /** An item missed at the given times, one after the other. */
  function Missed(item: RetryItem, times: seq<Time>, cfg: Config): RetryItem {
    if times == [] then item else Requeued(Missed(item, Init(times), cfg), Last(times), cfg).0
  }

  /** How often an item may be missed. */
  function Patience(cfg: Config): nat {
    if cfg.maxAttempts == 0 then 5 else cfg.maxAttempts
  }

  /**
   * An item missed n times waits min(2^n times its delay, cap) from the last time; it is given up
   * exactly when it has been missed more often than it may.
   */
  lemma {:induction false} MissedWaits(item: RetryItem, times: seq<Time>, cfg: Config)
    requires item.delay >= 0.0 && item.requeues + |times| <= Patience(cfg) && times != []
    ensures var m := Missed(item, times, cfg);
      && m == item.(delay := Backoff(item.delay, |times|, Seconds(cfg.maxBackoffMs)),
                    scheduledAt := Last(times), requeues := item.requeues + |times|)
      && forall now :: Requeued(m, now, cfg).1 <==> item.requeues + |times| < Patience(cfg)
  {
    BackoffGrows(item.delay, |times| - 1, Seconds(cfg.maxBackoffMs));
    if |times| == 1 {
      assert Init(times) == [];
      BackoffGrows(item.delay, 0, Seconds(cfg.maxBackoffMs));
    } else {
      MissedWaits(item, Init(times), cfg);
    }
  }

  // ------------------------------------------------------------------
  // What the registry and memory say of an issue, from the steps
  // ------------------------------------------------------------------

  /** A run of one process, from a fresh start to `n` steps on. */
  ghost predicate Uninterrupted(states: seq<Daemon>, steps: seq<Step>, cfg: Config, n: nat) {
    Trace(states, steps, cfg) && states[0] == FRESH && n < |states| && forall i :: 0 <= i < n ==> !steps[i].Restart?
  }

  predicate PassOn(d: Daemon, key: Key) {
    d.phase.Launching? && d.phase.item.key == key
  }

  /** The status a step leaves an issue with, none if the registry does not know it; `failures` is their
      number since the last reset. */
  function StatusBy(d: Daemon, cfg: Config, step: Step, key: Key, before: Option<Status>, failures: nat): Option<Status> {
    match step
    case LaunchCandidate(k) => if k == key then Some(Running) else before
    case SessionSucceeds(k) => if k == key then Some(Completed) else before
    case SessionFails(k, reason, _, _) =>
      if k != key then before
      else if !ByOperator(reason) && 0 < cfg.maxAttempts <= failures then Some(Abandoned)
      else Some(Failed)
    case Reset(k) => if k == key && before.Some? then Some(Pending) else before
    case Registers => if PassOn(d, key) then Some(Pending) else before
    case LaunchEnds(Launched) => if PassOn(d, key) then Some(Running) else before
    case _ => before
  }

  function StatusTold(states: seq<Daemon>, steps: seq<Step>, cfg: Config, key: Key, n: nat): Option<Status>
    requires n <= |steps| < |states|
  {
    if n == 0 then None
    else StatusBy(states[n - 1], cfg, steps[n - 1], key, StatusTold(states, steps, cfg, key, n - 1), FailuresSinceReset(states, steps, key, n - 1))
  }

  function StatusIn(registry: map<Key, Record>, key: Key): Option<Status> {
    if key in registry then Some(registry[key].status) else None
  }

  function CountIn(registry: map<Key, Record>, key: Key): nat {
    if key in registry then registry[key].retryCount else 0
  }

  lemma EventRecord(d: Daemon, cfg: Config, step: Step, key: Key)
    requires DaemonInv(d, cfg) && Can(d, cfg, step)
    requires step.LaunchCandidate? || step.SessionFails? || step.SessionSucceeds? || step.Stop? || step.Reset?
    ensures StatusIn(Do(d, cfg, step).s.registry, key) == StatusBy(d, cfg, step, key, StatusIn(d.s.registry, key), Attempts(d.s, key))
    ensures CountIn(Do(d, cfg, step).s.registry, key) == if Queues(d, cfg, step, key) then Attempts(d.s, key) + 1 else CountIn(d.s.registry, key)
  {
  }

  lemma PassRecord(d: Daemon, cfg: Config, step: Step, key: Key)
    requires DaemonInv(d, cfg) && Can(d, cfg, step) && !step.Restart?
    requires step.PassBegins? || step.NextItem? || step.Fetched? || step.Registers? || step.LaunchEnds?
    ensures StatusIn(Do(d, cfg, step).s.registry, key) == StatusBy(d, cfg, step, key, StatusIn(d.s.registry, key), Attempts(d.s, key))
    ensures CountIn(Do(d, cfg, step).s.registry, key) == CountIn(d.s.registry, key)
  {
  }

  /** What a step makes of an issue's record, given the number of failures. */
  predicate Recorded(d: Daemon, cfg: Config, step: Step, e: Daemon, key: Key, failures: nat) {
    && StatusIn(e.s.registry, key) == StatusBy(d, cfg, step, key, StatusIn(d.s.registry, key), failures)
    && CountIn(e.s.registry, key) == if Queues(d, cfg, step, key) then failures + 1 else CountIn(d.s.registry, key)
  }

  lemma StepRecord(d: Daemon, cfg: Config, step: Step, e: Daemon, key: Key, failures: nat)
    requires DaemonInv(d, cfg) && Next(d, cfg, step, e) && !step.Restart? && Attempts(d.s, key) == failures
    ensures Recorded(d, cfg, step, e, key, failures)
  {
    if step.LaunchCandidate? || step.SessionFails? || step.SessionSucceeds? || step.Stop? || step.Reset? {
      EventRecord(d, cfg, step, key);
    } else {
      PassRecord(d, cfg, step, key);
    }
  }

  lemma UninterruptedStep(states: seq<Daemon>, steps: seq<Step>, cfg: Config, n: nat)
    requires Uninterrupted(states, steps, cfg, n) && n > 0
    ensures Uninterrupted(states, steps, cfg, n - 1) && DaemonInv(states[n - 1], cfg)
    ensures Next(states[n - 1], cfg, steps[n - 1], states[n]) && !steps[n - 1].Restart?
  {
    RunInv(states, steps, cfg, n - 1);
  }

  lemma RecordStep(states: seq<Daemon>, steps: seq<Step>, cfg: Config, key: Key, n: nat)
    requires Uninterrupted(states, steps, cfg, n) && n > 0
    ensures Recorded(states[n - 1], cfg, steps[n - 1], states[n], key, FailuresSinceReset(states, steps, key, n - 1))
  {
    UninterruptedStep(states, steps, cfg, n);
    FailuresCounted(states, steps, cfg, key, n - 1);
    StepRecord(states[n - 1], cfg, steps[n - 1], states[n], key, FailuresSinceReset(states, steps, key, n - 1));
  }

  lemma StatusNext(states: seq<Daemon>, steps: seq<Step>, cfg: Config, key: Key, n: nat)
    requires 0 < n <= |steps| < |states| && StatusIn(states[n - 1].s.registry, key) == StatusTold(states, steps, cfg, key, n - 1)
    requires Recorded(states[n - 1], cfg, steps[n - 1], states[n], key, FailuresSinceReset(states, steps, key, n - 1))
    ensures StatusIn(states[n].s.registry, key) == StatusTold(states, steps, cfg, key, n)
  {
  }

  /** The status on record is the one the steps dictate. */
  lemma {:induction false} StatusExact(states: seq<Daemon>, steps: seq<Step>, cfg: Config, key: Key, n: nat)
    requires Uninterrupted(states, steps, cfg, n)
    ensures StatusIn(states[n].s.registry, key) == StatusTold(states, steps, cfg, key, n)
  {
    if n > 0 {
      StatusExact(states, steps, cfg, key, n - 1);
      RecordStep(states, steps, cfg, key, n);
      StatusNext(states, steps, cfg, key, n);
    }
  }

  /** The issue is done: its session succeeded, or a gate of its launch found it so. */
  predicate Finishes(d: Daemon, step: Step, key: Key) {
    step == SessionSucceeds(key) || (step == LaunchEnds(Gated(true)) && PassOn(d, key))
  }

  /** Some step among the first `n` finished the issue, and the operator has not reset it since. */
  ghost predicate DoneTold(states: seq<Daemon>, steps: seq<Step>, key: Key, n: nat)
    requires n <= |steps| < |states|
  {
    exists j :: 0 <= j < n && Finishes(states[j], steps[j], key) && forall i :: j < i < n ==> steps[i] != Reset(key)
  }

  lemma {:induction false} DoneExact(states: seq<Daemon>, steps: seq<Step>, cfg: Config, key: Key, n: nat)
    requires Uninterrupted(states, steps, cfg, n)
    ensures key in states[n].s.completed <==> DoneTold(states, steps, key, n)
  {
    if n > 0 {
      DoneExact(states, steps, cfg, key, n - 1);
      assert Next(states[n - 1], cfg, steps[n - 1], states[n]);
      DoneStep(states, steps, key, n);
    }
  }

  lemma DoneStep(states: seq<Daemon>, steps: seq<Step>, key: Key, n: nat)
    requires 0 < n <= |steps| < |states|
    ensures DoneTold(states, steps, key, n) <==>
      Finishes(states[n - 1], steps[n - 1], key) || (DoneTold(states, steps, key, n - 1) && steps[n - 1] != Reset(key))
  {
    if DoneTold(states, steps, key, n) && !Finishes(states[n - 1], steps[n - 1], key) {
      var j :| 0 <= j < n && Finishes(states[j], steps[j], key) && forall i :: j < i < n ==> steps[i] != Reset(key);
      assert j < n - 1;
    }
    if DoneTold(states, steps, key, n - 1) && steps[n - 1] != Reset(key) {
      var j :| 0 <= j < n - 1 && Finishes(states[j], steps[j], key) && forall i :: j < i < n - 1 ==> steps[i] != Reset(key);
    }
  }

  /** The number of the attempt last queued for an issue. */
  function LastQueued(states: seq<Daemon>, steps: seq<Step>, cfg: Config, key: Key, n: nat): nat
    requires n <= |steps| < |states|
  {
    if n == 0 then 0
    else if Queues(states[n - 1], cfg, steps[n - 1], key) then FailuresSinceReset(states, steps, key, n - 1) + 1
    else LastQueued(states, steps, cfg, key, n - 1)
  }

  /** The record keeps that number through launches and resets. */
  lemma {:induction false} CountExact(states: seq<Daemon>, steps: seq<Step>, cfg: Config, key: Key, n: nat)
    requires Uninterrupted(states, steps, cfg, n)
    ensures CountIn(states[n].s.registry, key) == LastQueued(states, steps, cfg, key, n)
  {
    if n > 0 {
      CountExact(states, steps, cfg, key, n - 1);
      RecordStep(states, steps, cfg, key, n);
    }
  }

  /** The pass drops an item whose issue runs or is done, puts it back when every slot is taken, and otherwise
      asks the tracker; each exactly then. */
  lemma NextItemExact(d: Daemon, cfg: Config)
    requires DaemonInv(d, cfg) && d.phase.Passing? && d.held != []
    ensures var e, item := Do(d, cfg, NextItem), d.held[0]; var done := item.key in d.s.running || item.key in d.s.completed;
      && e.held == d.held[1..]
      && (e.phase == Fetching(item, d.phase.now) <==> !done && |d.s.running| < cfg.maxConcurrent)
      && (item in e.s.queue <==> !done && |d.s.running| >= cfg.maxConcurrent)
      && (done ==> e.s == d.s)
  {
    var item := d.held[0];
    assert item in Held(d) && Held(d)[0].key == item.key;
    HeldNotQueued(d, item.key);
    assert forall i :: 0 <= i < |d.s.queue| ==> d.s.queue[i].key != item.key;
  }

  // ------------------------------------------------------------------
  // The scheduler object
  // ------------------------------------------------------------------

  lemma {:induction false} SplitSnoc(queue: seq<RetryItem>, item: RetryItem, now: Time)
    ensures Ready(queue + [item], now) == Ready(queue, now) + (if now >= Due(item) then [item] else [])
    ensures NotReady(queue + [item], now) == NotReady(queue, now) + (if now >= Due(item) then [] else [item])
  {
    if queue != [] {
      SplitSnoc(queue[1..], item, now);
      assert (queue + [item])[1..] == queue[1..] + [item];
    }
  }

  /** Ready and waiting items, both in queue order. */
  method SplitReady(queue: seq<RetryItem>, now: Time) returns (ready: seq<RetryItem>, notReady: seq<RetryItem>)
    ensures ready == Ready(queue, now) && notReady == NotReady(queue, now)
  {
    ready, notReady := [], [];
    for i := 0 to |queue|
      invariant ready == Ready(queue[..i], now) && notReady == NotReady(queue[..i], now)
    {
      assert queue[..i + 1] == queue[..i] + [queue[i]];
      SplitSnoc(queue[..i], queue[i], now);
      if now >= Due(queue[i]) {
        ready := ready + [queue[i]];
      } else {
        notReady := notReady + [queue[i]];
      }
    }
    assert queue[..|queue|] == queue;
  }

  /** `steps`, none of them a restart, lead from `d` to `e`. */
  ghost predicate Leads(d: Daemon, cfg: Config, steps: seq<Step>, e: Daemon)
    decreases |steps|
  {
    if steps == [] then e == d
    else Can(d, cfg, steps[0]) && !steps[0].Restart? && Leads(Do(d, cfg, steps[0]), cfg, steps[1..], e)
  }

  lemma {:induction false} LeadsOn(d: Daemon, cfg: Config, steps: seq<Step>, e: Daemon, step: Step)
    requires Leads(d, cfg, steps, e) && Can(e, cfg, step) && !step.Restart?
    ensures Leads(d, cfg, steps + [step], Do(e, cfg, step))
    decreases |steps|
  {
    if steps == [] {
      assert ([] + [step])[1..] == [];
    } else {
      assert (steps + [step])[1..] == steps[1..] + [step];
      LeadsOn(Do(d, cfg, steps[0]), cfg, steps[1..], e, step);
    }
  }

  lemma {:induction false} LeadsOnAll(d: Daemon, cfg: Config, steps: seq<Step>, mid: Daemon, more: seq<Step>, e: Daemon)
    requires Leads(d, cfg, steps, mid) && Leads(mid, cfg, more, e)
    ensures Leads(d, cfg, steps + more, e)
    decreases |steps|
  {
    if steps == [] {
      assert steps + more == more;
    } else {
      assert (steps + more)[1..] == steps[1..] + more;
      LeadsOnAll(Do(d, cfg, steps[0]), cfg, steps[1..], mid, more, e);
    }
  }

  /** Every such run is a run in the sense of the theorems above. */
  lemma {:induction false} LeadsIsTrace(d: Daemon, cfg: Config, steps: seq<Step>, e: Daemon) returns (states: seq<Daemon>)
    requires Leads(d, cfg, steps, e)
    ensures Trace(states, steps, cfg) && states[0] == d && states[|steps|] == e
    decreases |steps|
  {
    if steps == [] {
      states := [d];
    } else {
      var rest := LeadsIsTrace(Do(d, cfg, steps[0]), cfg, steps[1..], e);
      states := [d] + rest;
      forall i | 0 <= i < |steps| ensures Next(states[i], cfg, steps[i], states[i + 1]) {
        if i > 0 {
          assert Next(rest[i - 1], cfg, steps[1..][i - 1], rest[i]);
        }
      }
    }
  }

  class Orchestrator {
    const cfg: Config
    var queue: seq<RetryItem>
    var attempts: map<Key, nat>
    var running: set<Key>
    var completed: set<Key>
    var registry: map<Key, Record>
    // Where the retry pass stands while it awaits.
    var held: seq<RetryItem>
    var phase: Phase

    function Memory(): Sys
      reads this
    {
      Sys(queue, attempts, running, completed, registry)
    }

    function View(): Daemon
      reads this
    {
      Daemon(Memory(), held, phase)
    }

    constructor (cfg: Config, registry: map<Key, Record>)
      ensures this.cfg == cfg && Memory() == FRESH.s.(registry := registry) && held == [] && phase == Idle
    {
      this.cfg := cfg;
      this.registry := registry;
      queue, attempts, running, completed := [], map[], {}, {};
      held, phase := [], Idle;
    }

    method ScheduleRetry(key: Key, reason: Option<string>, baseMs: nat, now: Time) returns (queued: bool)
      modifies this`queue, this`attempts, this`registry
      ensures (Memory(), queued) == Schedule(old(Memory()), cfg, key, reason, baseMs, now)
    {
      if reason.Some? && reason.value in NON_RETRYABLE {
        return false;
      }
      var attempt := (if key in attempts then attempts[key] else 0) + 1;
      attempts := attempts[key := attempt];
      if cfg.maxAttempts != 0 && attempt > cfg.maxAttempts {
        registry := SetStatus(registry, key, Abandoned);
        return false;
      }
      var delayMs := RetryDelayMs(attempt, baseMs, cfg.maxBackoffMs);
      var item := RetryItem(key, attempt, Seconds(delayMs), now, 0);
      queue := queue + [item];
      registry := PersistPlan(registry, key, attempt, Due(item));
      queued := true;
    }

    method RequeueRetry(item: RetryItem, now: Time) returns (requeued: bool)
      modifies this`queue, this`registry
      ensures requeued == Requeued(item, now, cfg).1
      ensures Memory() == if requeued then old(Memory()).(queue := old(queue) + [Requeued(item, now, cfg).0])
                          else old(Memory()).(registry := ClearPlan(old(registry), item.key))
    {
      var (again, fits) := Requeued(item, now, cfg);
      if !fits {
        registry := ClearPlan(registry, item.key);
        return false;
      }
      queue := queue + [again];
      requeued := true;
    }

    method CancelPendingRetry(key: Key) returns (cancelled: bool)
      modifies this`queue, this`registry
      ensures cancelled == (Waiting(old(Memory()), key) || Planned(old(registry), key))
      ensures Memory() == if cancelled then Cancel(old(Memory()), key) else old(Memory())
    {
      WithoutNobody(Memory(), key);
      var inQueue := exists i :: 0 <= i < |queue| && queue[i].key == key;
      if inQueue {
        queue := Without(queue, key);
      }
      var hadPlan := Planned(registry, key);
      if hadPlan {
        registry := ClearPlan(registry, key);
      }
      cancelled := inQueue || hadPlan;
    }

    method StopOrTakeover(key: Key) returns (cancelled: bool)
      modifies this`queue, this`registry, this`attempts
      ensures (Memory(), cancelled) == StopWaiting(old(Memory()), key)
    {
      cancelled := CancelPendingRetry(key);
      if cancelled {
        attempts := attempts - {key};
      }
    }

    /** What other tasks do while the pass awaits: sessions end and the operator acts, any
        number of times. */
    method Await() returns (ghost steps: seq<Step>)
      requires !phase.Passing?
      modifies this`queue, this`attempts, this`running, this`completed, this`registry
      ensures Leads(old(View()), cfg, steps, View())
    {
      steps := [];
      var events: nat := *;
      while events > 0
        invariant Leads(old(View()), cfg, steps, View()) && held == old(held) && phase == old(phase)
      {
        events := events - 1;
        var key: Key := *;
        var reason: Option<string> := *;
        var baseMs: nat := *;
        var now: Time := *;
        var kind: nat := *;
        ghost var before := View();
        ghost var step := Stop(key);
        if key in running && kind == 0 {
          step := SessionFails(key, reason, baseMs, now);
          running := running - {key};
          registry := SetStatus(registry, key, Failed);
          var queued := ScheduleRetry(key, reason, baseMs, now);
        } else if key in running && kind == 1 {
          step := SessionSucceeds(key);
          running, completed := running - {key}, completed + {key};
          registry := SetStatus(registry, key, Completed);
        } else if kind == 2 {
          step := Reset(key);
          queue, attempts, completed := Without(queue, key), attempts - {key}, completed - {key};
          registry := SetStatus(registry, key, Pending);
        } else {
          var cancelled := StopOrTakeover(key);
        }
        LeadsOn(old(View()), cfg, steps, before, step);
        steps := steps + [step];
      }
    }

    /** The queue is rewritten before any item is looked at. */
    method BeginPass(now: Time)
      requires phase.Idle?
      modifies this`queue, this`held, this`phase
      ensures View() == Do(old(View()), cfg, PassBegins(now))
    {
      var ready, notReady := SplitReady(queue, now);
      queue, held, phase := notReady, ready, Passing(now);
    }

    method TakeNextItem()
      requires phase.Passing?
      modifies this`queue, this`held, this`phase
      ensures View() == TakeNext(old(View()), cfg)
    {
      if held == [] {
        phase := Idle;
        return;
      }
      var item := held[0];
      held := held[1..];
      if item.key in running || item.key in completed {
        return;
      }
      if |running| >= cfg.maxConcurrent {
        queue := queue + [item];
        return;
      }
      phase := Fetching(item, phase.now);
    }

    method FetchReturned(answer: Fetch)
      requires phase.Fetching?
      modifies this`queue, this`registry, this`phase
      ensures View() == Answered(old(View()), cfg, answer)
    {
      var item, now := phase.item, phase.now;
      if answer.Active? {
        phase := Launching(item, now, false);
        return;
      }
      phase := Passing(now);
      if answer.Inactive? {
        registry := ClearPlan(registry, item.key);
      } else {
        var requeued := RequeueRetry(item, now);
      }
    }

    method IssueRegistered()
      requires phase.Launching? && !phase.registered
      modifies this`registry, this`phase
      ensures View() == Do(old(View()), cfg, Registers)
    {
      registry := Register(registry, phase.item.key);
      phase := phase.(registered := true);
    }

    method LaunchReturned(outcome: Launch)
      requires phase.Launching? && (outcome.Launched? ==> phase.registered)
      modifies this`queue, this`running, this`completed, this`registry, this`held, this`phase
      ensures View() == LaunchEnded(old(View()), outcome)
    {
      var item, now := phase.item, phase.now;
      phase := Passing(now);
      match outcome
      case Launched =>
        running := running + {item.key};
        registry := ClearPlan(SetStatus(registry, item.key, Running), item.key);
      case Gated(completes) =>
        if completes {
          completed := completed + {item.key};
        }
        queue := queue + [item];
      case Raises =>
        held, phase := [], Idle;
    }

    /** The whole pass, with whatever other tasks do while it awaits: a run of the daemon's
        steps from its beginning to the point where nothing is held any more. */
    method ProcessRetryQueue(now: Time) returns (ghost steps: seq<Step>)
      requires phase.Idle?
      modifies this
      ensures steps != [] && steps[0] == PassBegins(now)
      ensures Leads(old(View()), cfg, steps, View()) && phase.Idle?
    {
      ghost var d := View();
      BeginPass(now);
      steps := [PassBegins(now)];
      assert steps[1..] == [];
      while !phase.Idle?
        invariant phase.Idle? || phase.Passing?
        invariant steps != [] && steps[0] == PassBegins(now) && Leads(d, cfg, steps, View())
        decreases if phase.Idle? then 0 else 1 + |held|
      {
        LeadsOn(d, cfg, steps, View(), NextItem);
        steps := steps + [NextItem];
        TakeNextItem();
        if phase.Fetching? {
          ghost var mid := View();
          var more := FetchAndLaunch();
          LeadsOnAll(d, cfg, steps, mid, more, View());
          steps := steps + more;
        }
      }
    }

    /** One issue is fetched and perhaps launched, other tasks running at every await. */
    method FetchAndLaunch() returns (ghost steps: seq<Step>)
      requires phase.Fetching?
      modifies this
      ensures Leads(old(View()), cfg, steps, View()) && (phase.Idle? || phase.Passing?) && |held| <= |old(held)|
    {
      ghost var d := View();
      steps := Await();
      var answer: Fetch := *;
      LeadsOn(d, cfg, steps, View(), Fetched(answer));
      steps := steps + [Fetched(answer)];
      FetchReturned(answer);
      if phase.Launching? {
        ghost var mid := View();
        var more := Await();
        LeadsOnAll(d, cfg, steps, mid, more, View());
        steps := steps + more;
        var registers: bool := *;
        if registers {
          LeadsOn(d, cfg, steps, View(), Registers);
          steps := steps + [Registers];
          IssueRegistered();
          mid := View();
          more := Await();
          LeadsOnAll(d, cfg, steps, mid, more, View());
          steps := steps + more;
        }
        var outcome: Launch := *;
        if outcome.Launched? && !registers {
          outcome := Raises;
        }
        LeadsOn(d, cfg, steps, View(), LaunchEnds(outcome));
        steps := steps + [LaunchEnds(outcome)];
        LaunchReturned(outcome);
      }
    }

    method RecoverStaleRunningRecords(now: Time)
      modifies this
      ensures View() == old(View()).(s := old(Memory()).(registry := Recovered(old(registry), cfg, now)))
    {
      var stale := set key | key in registry && registry[key].status == Running;
      var todo := stale;
      while todo != {}
        invariant todo <= stale && stale <= registry.Keys && registry.Keys == old(registry).Keys
        invariant queue == old(queue) && attempts == old(attempts) && running == old(running) && completed == old(completed)
        invariant held == old(held) && phase == old(phase)
        invariant forall key :: key in registry ==>
                    registry[key] == if key in stale && key !in todo then Recovered(old(registry), cfg, now)[key] else old(registry)[key]
        decreases |todo|
      {
        var key :| key in todo;
        var delayMs := RetryDelayMs(1, FAILURE_RETRY_BASE_MS, cfg.maxBackoffMs);
        registry := registry[key := Record(Failed, 1, Some(now + Seconds(delayMs)))];
        todo := todo - {key};
      }
      assert registry == Recovered(old(registry), cfg, now);
    }

    /** Rebuild the queue from the plans; `time.time()` is read again for each item,
        at or after `now`. */
    method RecoverPendingRetries(now: Time)
      requires queue == [] && attempts == map[]
      modifies this
      ensures registry == old(registry) && running == old(running) && completed == old(completed)
      ensures held == old(held) && phase == old(phase)
      ensures DistinctKeys(queue)
      ensures forall key :: Planned(registry, key) <==> Waiting(Memory(), key)
      ensures forall i :: 0 <= i < |queue| ==> FromPlan(registry, queue[i], now) && Attempts(Memory(), queue[i].key) == queue[i].attempt
      ensures forall key :: key in attempts ==> Waiting(Memory(), key)
    {
      var todo: set<Key> := set key | key in registry.Keys && registry[key].plan.Some?;
      while todo != {}
        invariant registry == old(registry) && running == old(running) && completed == old(completed)
        invariant held == old(held) && phase == old(phase)
        invariant forall key :: key in todo ==> Planned(registry, key) && key !in attempts
        invariant forall key :: Planned(registry, key) ==> key in todo || key in attempts
        invariant Rebuilt(Memory(), now)
        decreases |todo|
      {
        var key :| key in todo;
        var stamp: Time := *;
        var item := RetryItem(key, CountOrOne(registry[key]), Max(0.0, registry[key].plan.value - now), Max(now, stamp), 0);
        RebuiltSnoc(Memory(), item, now);
        queue := queue + [item];
        attempts := attempts[key := item.attempt];
        todo := todo - {key};
      }
    }
  }

  /** The queue holds one item, built from its plan, for each restored counter. */
  ghost predicate Rebuilt(s: Sys, now: Time) {
    && DistinctKeys(s.queue)
    && (forall i :: 0 <= i < |s.queue| ==> FromPlan(s.registry, s.queue[i], now))
    && (forall i :: 0 <= i < |s.queue| ==> s.queue[i].key in s.attempts && s.attempts[s.queue[i].key] == s.queue[i].attempt)
    && (forall key :: key in s.attempts ==> Waiting(s, key))
  }

  lemma RebuiltSnoc(s: Sys, item: RetryItem, now: Time)
    requires Rebuilt(s, now) && item.key !in s.attempts && FromPlan(s.registry, item, now)
    ensures Rebuilt(s.(queue := s.queue + [item], attempts := s.attempts[item.key := item.attempt]), now)
  {
    var t := s.(queue := s.queue + [item], attempts := s.attempts[item.key := item.attempt]);
    forall i | 0 <= i < |t.queue| ensures t.queue[i] == if i < |s.queue| then s.queue[i] else item {}
    forall key | key in t.attempts ensures Waiting(t, key) {
      if key == item.key {
        assert t.queue[|s.queue|].key == key;
      } else {
        var i :| 0 <= i < |s.queue| && s.queue[i].key == key;
        assert t.queue[i].key == key;
      }
    }
  }

  /** A daemon start over a registry is a restart in the sense used above. */
  method StartDaemon(cfg: Config, s: Sys, now: Time) returns (o: Orchestrator)
    ensures fresh(o) && RestartOf(s, cfg, now, o.Memory()) && o.held == [] && o.phase == Idle
  {
    o := new Orchestrator(cfg, s.registry);
    o.RecoverStaleRunningRecords(now);
    o.RecoverPendingRetries(now);
  }
}
