/**
 The runtime pool of internal/daemon/lifecycle.go: language runtimes keyed by
 workspace, counted calls, least recently used eviction, idle reaping and the
 memory bounds.

 A runtime is a handle; `info` holds what a managedRuntime holds.  Times are
 integers in nanoseconds, and process memory is sampled by the caller.
 */
module RuntimePool {
  import opened Common

  type Key = string
  type Rid = nat
  type CallId = nat

  const MEM_CACHE_TTL: nat := 10_000_000_000

  datatype Info = Info(active: int, lastUsed: int, memory: nat, cachedAt: int)

  datatype Pool = Pool(
    runtimes: map<Key, Rid>,
    info: map<Rid, Info>,       // every runtime ever made
    calls: map<CallId, Rid>,    // calls in flight
    retired: set<Rid>,          // closed by eviction, reaping or a memory bound
    broken: set<Rid>)           // closed by a failed Kotlin call or by Shutdown

  // ---------------------------------------------------------------- what the critical sections do

  predicate IsIdle(p: Pool, key: Key) {
    key in p.runtimes && p.runtimes[key] in p.info && p.info[p.runtimes[key]].active <= 0
  }

  function LastUsed(p: Pool, key: Key): int {
    if key in p.runtimes && p.runtimes[key] in p.info then p.info[p.runtimes[key]].lastUsed else 0
  }

  function Used(p: Pool, r: Rid, now: int): Pool
    requires r in p.info
  {
    p.(info := p.info[r := p.info[r].(lastUsed := now)])
  }

  function BeginCall(p: Pool, c: CallId, r: Rid): Pool
    requires r in p.info
  {
    p.(info := p.info[r := p.info[r].(active := p.info[r].active + 1)], calls := p.calls[c := r])
  }

  function EndCall(p: Pool, c: CallId): Pool
    requires c in p.calls && p.calls[c] in p.info
  {
    var r := p.calls[c];
    p.(info := p.info[r := p.info[r].(active := p.info[r].active - 1)], calls := p.calls - {c})
  }

  function Add(p: Pool, key: Key, r: Rid, now: int, memory: nat): Pool {
    p.(runtimes := p.runtimes[key := r], info := p.info[r := Info(0, now, memory, now)])
  }

  function Retire(p: Pool, keys: set<Key>): Pool {
    p.(runtimes := p.runtimes - keys,
       retired := p.retired + set k | k in keys && k in p.runtimes :: p.runtimes[k])
  }

  function Break(p: Pool, keys: set<Key>, r: set<Rid>): Pool {
    p.(runtimes := p.runtimes - keys, broken := p.broken + r)
  }

  // ---------------------------------------------------------------- invariant

  ghost function InFlight(calls: map<CallId, Rid>, r: Rid): set<CallId> {
    set c | c in calls && calls[c] == r
  }

  ghost predicate Inv(p: Pool) {
    && (forall k :: k in p.runtimes ==> p.runtimes[k] in p.info && p.runtimes[k] !in p.retired)
    && (forall k, l :: k in p.runtimes && l in p.runtimes && p.runtimes[k] == p.runtimes[l] ==> k == l)
    && (forall c :: c in p.calls ==> p.calls[c] in p.info && p.calls[c] !in p.retired)
    && (forall r :: r in p.info ==> p.info[r].active == |InFlight(p.calls, r)|)
    && p.retired <= p.info.Keys
  }

  lemma InFlightBegin(calls: map<CallId, Rid>, c: CallId, r: Rid, q: Rid)
    requires c !in calls
    ensures |InFlight(calls[c := r], q)| == |InFlight(calls, q)| + if q == r then 1 else 0
  {
    assert InFlight(calls[c := r], q) == InFlight(calls, q) + if q == r then {c} else {};
  }

  lemma InFlightEnd(calls: map<CallId, Rid>, c: CallId, q: Rid)
    requires c in calls
    ensures |InFlight(calls - {c}, q)| == |InFlight(calls, q)| - if q == calls[c] then 1 else 0
  {
    assert InFlight(calls - {c}, q) == InFlight(calls, q) - {c};
    assert c in InFlight(calls, q) <==> q == calls[c];
  }

  lemma BeginCallKeeps(p: Pool, c: CallId, key: Key)
    requires Inv(p) && c !in p.calls && key in p.runtimes
    ensures Inv(BeginCall(p, c, p.runtimes[key]))
  {
    forall r | r in p.info
      ensures BeginCall(p, c, p.runtimes[key]).info[r].active == |InFlight(p.calls[c := p.runtimes[key]], r)|
    {
      InFlightBegin(p.calls, c, p.runtimes[key], r);
    }
  }

  lemma EndCallKeeps(p: Pool, c: CallId)
    requires Inv(p) && c in p.calls
    ensures Inv(EndCall(p, c))
  {
    forall r | r in p.info ensures EndCall(p, c).info[r].active == |InFlight(p.calls - {c}, r)| {
      InFlightEnd(p.calls, c, r);
    }
  }

  lemma AddKeeps(p: Pool, key: Key, r: Rid, now: int, memory: nat)
    requires Inv(p) && key !in p.runtimes && r !in p.info
    ensures Inv(Add(p, key, r, now, memory))
  {
    assert InFlight(p.calls, r) == {};
  }

  // A runtime with a call in flight is not idle, so retiring idle ones strands no call.
  lemma RetireKeeps(p: Pool, keys: set<Key>)
    requires Inv(p) && forall k :: k in keys ==> IsIdle(p, k)
    ensures Inv(Retire(p, keys))
  {
    var p' := Retire(p, keys);
    forall c | c in p.calls ensures p.calls[c] !in p'.retired {
      assert c in InFlight(p.calls, p.calls[c]);
    }
  }

  lemma RetireNone(p: Pool)
    ensures Retire(p, {}) == p
  {
    assert p.runtimes - {} == p.runtimes;
  }

  lemma RetireMore(p: Pool, gone: set<Key>, key: Key)
    requires key in p.runtimes && key !in gone
    ensures Retire(Retire(p, gone), {key}) == Retire(p, gone + {key})
    ensures IsIdle(Retire(p, gone), key) <==> IsIdle(p, key)
  {
    var q := Retire(p, gone);
    assert q.runtimes - {key} == p.runtimes - (gone + {key});
    assert Retire(q, {key}).retired == Retire(p, gone + {key}).retired;
  }

  lemma StillIdle(p: Pool, gone: set<Key>)
    ensures forall k :: IsIdle(Retire(p, gone), k) <==> IsIdle(p, k) && k !in gone
    ensures forall k :: k !in gone ==> LastUsed(Retire(p, gone), k) == LastUsed(p, k)
  {
  }

  // ---------------------------------------------------------------- choosing a victim

  ghost predicate AllBusy(p: Pool) {
    forall k :: k in p.runtimes ==> !IsIdle(p, k)
  }

  // `key` is idle and no idle runtime was used before it.
  ghost predicate IsVictim(p: Pool, key: Key) {
    IsIdle(p, key) && forall k :: IsIdle(p, k) ==> LastUsed(p, key) <= LastUsed(p, k)
  }

  // What leastRecentlyUsedIdleRuntime may answer.
  ghost predicate IsVictimOrNone(p: Pool, victim: Option<Key>) {
    if victim.Some? then IsVictim(p, victim.value) else AllBusy(p)
  }

  function Evicted(victim: Option<Key>): set<Key> {
    if victim.Some? then {victim.value} else {}
  }

  // ---------------------------------------------------------------- memory

  function Fresh(i: Info, now: int, sample: nat): Info {
    if now - i.cachedAt > MEM_CACHE_TTL then i.(memory := sample, cachedAt := now) else i
  }

  function SampleAt(sample: map<Rid, nat>, r: Rid): nat {
    if r in sample then sample[r] else 0
  }

  // Every runtime of the pool after refreshManagedMemory.
  function Refreshed(p: Pool, now: int, sample: map<Rid, nat>): Pool {
    p.(info := map r | r in p.info ::
                 if r in p.runtimes.Values then Fresh(p.info[r], now, SampleAt(sample, r)) else p.info[r])
  }

  function MemoryOf(p: Pool, key: Key): nat {
    if key in p.runtimes && p.runtimes[key] in p.info then p.info[p.runtimes[key]].memory else 0
  }

  ghost function Total(p: Pool, keys: set<Key>): nat {
    if keys == {} then 0 else var k :| k in keys; MemoryOf(p, k) + Total(p, keys - {k})
  }

  lemma {:induction false} TotalRemove(p: Pool, keys: set<Key>, key: Key)
    requires key in keys
    ensures Total(p, keys) == MemoryOf(p, key) + Total(p, keys - {key})
    decreases keys
  {
    var k :| k in keys && Total(p, keys) == MemoryOf(p, k) + Total(p, keys - {k});
    if k != key {
      TotalRemove(p, keys - {k}, key);
      TotalRemove(p, keys - {key}, k);
      assert keys - {k} - {key} == keys - {key} - {k};
    }
  }

  lemma {:induction false} TotalSame(p: Pool, q: Pool, keys: set<Key>)
    requires forall k :: k in keys ==> MemoryOf(p, k) == MemoryOf(q, k)
    ensures Total(p, keys) == Total(q, keys)
    decreases keys
  {
    if keys != {} {
      var k :| k in keys;
      TotalRemove(p, keys, k);
      TotalRemove(q, keys, k);
      TotalSame(p, q, keys - {k});
    }
  }

  lemma RefreshKeeps(p: Pool, now: int, sample: map<Rid, nat>)
    requires Inv(p)
    ensures Inv(Refreshed(p, now, sample))
    ensures forall k :: IsIdle(Refreshed(p, now, sample), k) <==> IsIdle(p, k)
  {
  }

  // The pool when refreshManagedMemory has seen the runtimes in `seen`.
  function RefreshSome(p: Pool, seen: set<Rid>, now: int, sample: map<Rid, nat>): Pool {
    p.(info := map r | r in p.info :: if r in seen then Fresh(p.info[r], now, SampleAt(sample, r)) else p.info[r])
  }

  lemma RefreshNone(p: Pool, now: int, sample: map<Rid, nat>)
    ensures RefreshSome(p, {}, now, sample) == p
  {
    assert RefreshSome(p, {}, now, sample).info == p.info;
  }

  lemma RefreshMore(p: Pool, seen: set<Rid>, r: Rid, now: int, sample: map<Rid, nat>)
    requires r in p.info && r !in seen
    ensures var q := RefreshSome(p, seen, now, sample);
            RefreshSome(p, seen + {r}, now, sample)
              == q.(info := q.info[r := Fresh(q.info[r], now, SampleAt(sample, r))])
  {
    var q := RefreshSome(p, seen, now, sample);
    assert RefreshSome(p, seen + {r}, now, sample).info == q.info[r := Fresh(q.info[r], now, SampleAt(sample, r))];
  }

  // No runtime of the pool is due for another sample.
  ghost predicate AllFresh(p: Pool, now: int) {
    forall k :: k in p.runtimes && p.runtimes[k] in p.info ==> now - p.info[p.runtimes[k]].cachedAt <= MEM_CACHE_TTL
  }

  lemma RefreshedIsFresh(p: Pool, now: int, sample: map<Rid, nat>, keys: set<Key>)
    ensures AllFresh(Retire(Refreshed(p, now, sample), keys), now)
  {
  }

  // So the total loop, which samples again each time round, reads what the first round read.
  lemma RefreshAgain(p: Pool, now: int, sample: map<Rid, nat>)
    requires AllFresh(p, now)
    ensures Refreshed(p, now, sample) == p
  {
    assert Refreshed(p, now, sample).info == p.info;
  }

  // Idle runtimes whose last use is more than `timeout` ago.
  function Expired(p: Pool, now: int, timeout: int): set<Key> {
    set k | k in p.runtimes && IsIdle(p, k) && now - LastUsed(p, k) > timeout
  }

  // Idle runtimes that hold more than `limit` bytes.
  function Oversized(p: Pool, limit: nat): set<Key> {
    set k | k in p.runtimes && IsIdle(p, k) && MemoryOf(p, k) > limit
  }

  // `gone` was evicted from `p` oldest first, until the total fits or only busy runtimes remain,
  // and no further: without the last of them the total was still too large.
  ghost predicate FitsTotal(p: Pool, gone: set<Key>, limit: nat) {
    && (forall k :: k in gone ==> IsIdle(p, k))
    && (forall g, k :: g in gone && k !in gone && IsIdle(p, k) ==> LastUsed(p, g) <= LastUsed(p, k))
    && (Total(p, p.runtimes.Keys - gone) <= limit || forall k :: IsIdle(p, k) ==> k in gone)
    && (Total(p, p.runtimes.Keys) <= limit ==> gone == {})
    && (gone != {} ==> exists g :: IsLastOf(p, gone, g) && Total(p, p.runtimes.Keys - (gone - {g})) > limit)
  }

  // Of the runtimes in `gone`, none was used after that of `g`.
  ghost predicate IsLastOf(p: Pool, gone: set<Key>, g: Key) {
    g in gone && forall k :: k in gone ==> LastUsed(p, k) <= LastUsed(p, g)
  }

  // The total loop has evicted `gone` so far, `last` at the end.
  ghost predicate SoFar(p: Pool, gone: set<Key>, last: Key, limit: nat) {
    && (forall k :: k in gone ==> IsIdle(p, k))
    && (forall g, k :: g in gone && k !in gone && IsIdle(p, k) ==> LastUsed(p, g) <= LastUsed(p, k))
    && (gone != {} ==> IsLastOf(p, gone, last) && Total(p, p.runtimes.Keys - (gone - {last})) > limit)
    && (Total(p, p.runtimes.Keys) <= limit ==> gone == {})
  }

  lemma SoFarMore(p: Pool, gone: set<Key>, last: Key, limit: nat, v: Key)
    requires SoFar(p, gone, last, limit) && IsVictim(Retire(p, gone), v) && Total(p, p.runtimes.Keys - gone) > limit
    ensures SoFar(p, gone + {v}, v, limit)
  {
    StillIdle(p, gone);
    assert v !in gone;
    assert gone + {v} - {v} == gone;
    assert gone == {} ==> p.runtimes.Keys - gone == p.runtimes.Keys;
  }

  lemma SoFarFits(p: Pool, gone: set<Key>, last: Key, limit: nat)
    requires SoFar(p, gone, last, limit)
    requires Total(p, p.runtimes.Keys - gone) <= limit || AllBusy(Retire(p, gone))
    ensures FitsTotal(p, gone, limit)
  {
    StillIdle(p, gone);
  }

  // The pool after the memory bounds, when the total has cost it `gone`.
  function Bounded(p: Pool, now: int, sample: map<Rid, nat>, maxBytes: nat, gone: set<Key>): Pool {
    var q := Refreshed(p, now, sample);
    Retire(Retire(q, Oversized(q, maxBytes)), gone)
  }

  // enforceIdleMemoryBoundsLocked turned `p` into `p'`; a total limit of 0 means none.
  ghost predicate Enforced(p: Pool, now: int, sample: map<Rid, nat>, maxBytes: nat, totalBytes: nat, gone: set<Key>,
                           p': Pool) {
    var q := Retire(Refreshed(p, now, sample), Oversized(Refreshed(p, now, sample), maxBytes));
    p' == Retire(q, gone) && if totalBytes == 0 then gone == {} else FitsTotal(q, gone, totalBytes)
  }

  /** After the memory bounds no idle runtime is over the per-runtime limit, and the
      total is within its limit or every runtime that is left is busy; every busy
      runtime is still in the pool. */
  lemma MemoryBoundsHold(p: Pool, now: int, sample: map<Rid, nat>, maxBytes: nat, totalBytes: nat, gone: set<Key>,
                         p': Pool)
    requires Inv(p) && Enforced(p, now, sample, maxBytes, totalBytes, gone, p')
    ensures Inv(p')
    ensures forall k :: IsIdle(p', k) ==> MemoryOf(p', k) <= maxBytes
    ensures totalBytes > 0 ==> Total(p', p'.runtimes.Keys) <= totalBytes || AllBusy(p')
    ensures forall k :: k in p.runtimes && !IsIdle(p, k) ==> k in p'.runtimes && p'.runtimes[k] == p.runtimes[k]
  {
    var r := Refreshed(p, now, sample);
    var q := Retire(r, Oversized(r, maxBytes));
    RefreshKeeps(p, now, sample);
    RetireKeeps(r, Oversized(r, maxBytes));
    StillIdle(r, Oversized(r, maxBytes));
    RetireKeeps(q, gone);
    StillIdle(q, gone);
    assert p'.runtimes.Keys == q.runtimes.Keys - gone;
    TotalSame(q, p', p'.runtimes.Keys);
  }

  // ---------------------------------------------------------------- whole runs

  datatype Step =
    | Reuse(key: Key, now: int, c: Option<CallId>)
    | Make(key: Key, victim: Option<Key>, r: Rid, now: int, memory: nat, c: Option<CallId>)
    | MakeFails(key: Key, victim: Option<Key>)
    | Reap(now: int, timeout: int)
    | Enforce(now: int, sample: map<Rid, nat>, maxBytes: nat, totalBytes: nat, gone: set<Key>)
    | MarkUsed(r: Rid, now: int)
    | End(call: CallId)
    | Broken(keys: set<Key>, rs: set<Rid>)

  // The victim getOrCreateLocked evicts before it makes a runtime.
  ghost predicate RoomMade(p: Pool, max: nat, victim: Option<Key>) {
    if |p.runtimes| >= max then IsVictimOrNone(p, victim) else victim.None?
  }

  ghost predicate Enabled(p: Pool, max: nat, step: Step) {
    match step
    case Reuse(key, _, c) => key in p.runtimes && p.runtimes[key] in p.info && (c.Some? ==> c.value !in p.calls)
    case Make(key, victim, r, _, _, c) =>
      key !in p.runtimes && RoomMade(p, max, victim) && r !in p.info && (c.Some? ==> c.value !in p.calls)
    case MakeFails(key, victim) => key !in p.runtimes && RoomMade(p, max, victim)
    case Reap(_, _) => true
    case Enforce(now, sample, maxBytes, totalBytes, gone) =>
      Enforced(p, now, sample, maxBytes, totalBytes, gone, Bounded(p, now, sample, maxBytes, gone))
    case MarkUsed(r, _) => r in p.info
    case End(c) => c in p.calls && p.calls[c] in p.info
    case Broken(_, rs) => true
  }

  function Called(p: Pool, c: Option<CallId>, r: Rid): Pool
    requires r in p.info
  {
    if c.Some? then BeginCall(p, c.value, r) else p
  }

  ghost function Apply(p: Pool, max: nat, step: Step): Pool
    requires Enabled(p, max, step)
  {
    match step
    case Reuse(key, now, c) => Called(Used(p, p.runtimes[key], now), c, p.runtimes[key])
    case Make(key, victim, r, now, memory, c) => Called(Add(Retire(p, Evicted(victim)), key, r, now, memory), c, r)
    case MakeFails(_, victim) => Retire(p, Evicted(victim))
    case Reap(now, timeout) => Retire(p, Expired(p, now, timeout))
    case Enforce(now, sample, maxBytes, _, gone) => Bounded(p, now, sample, maxBytes, gone)
    case MarkUsed(r, now) => Used(p, r, now)
    case End(c) => EndCall(p, c)
    case Broken(keys, rs) => Break(p, keys, rs)
  }

  lemma CalledKeeps(p: Pool, c: Option<CallId>, key: Key)
    requires Inv(p) && key in p.runtimes && (c.Some? ==> c.value !in p.calls)
    ensures Inv(Called(p, c, p.runtimes[key]))
  {
    if c.Some? { BeginCallKeeps(p, c.value, key); }
  }

  lemma StepKeepsInv(p: Pool, max: nat, step: Step)
    requires Inv(p) && Enabled(p, max, step)
    ensures Inv(Apply(p, max, step))
  {
    match step
    case Reuse(key, now, c) => CalledKeeps(Used(p, p.runtimes[key], now), c, key);
    case Make(key, victim, r, now, memory, c) =>
      RetireKeeps(p, Evicted(victim));
      AddKeeps(Retire(p, Evicted(victim)), key, r, now, memory);
      CalledKeeps(Add(Retire(p, Evicted(victim)), key, r, now, memory), c, key);
    case MakeFails(_, victim) => RetireKeeps(p, Evicted(victim));
    case Reap(now, timeout) => RetireKeeps(p, Expired(p, now, timeout));
    case Enforce(now, sample, maxBytes, totalBytes, gone) =>
      MemoryBoundsHold(p, now, sample, maxBytes, totalBytes, gone, Bounded(p, now, sample, maxBytes, gone));
    case MarkUsed(_, _) =>
    case End(c) => EndCallKeeps(p, c);
    case Broken(_, _) =>
  }

  ghost predicate IsRun(pools: seq<Pool>, max: nat, steps: seq<Step>) {
    && |pools| == |steps| + 1
    && pools[0] == Pool(map[], map[], map[], {}, {})
    && (forall k {:trigger steps[k]} :: 0 <= k < |steps| ==>
          Enabled(pools[k], max, steps[k]) && pools[k + 1] == Apply(pools[k], max, steps[k]))
  }

  lemma {:induction false} RunKeepsInv(pools: seq<Pool>, max: nat, steps: seq<Step>, k: nat)
    requires IsRun(pools, max, steps) && k < |pools|
    ensures Inv(pools[k])
  {
    if k > 0 {
      RunKeepsInv(pools, max, steps, k - 1);
      StepKeepsInv(pools[k - 1], max, steps[k - 1]);
    }
  }

  /** In every run activeCalls is the number of calls in flight, and eviction, idle
      reaping and the memory bounds never close a runtime that has one. */
  lemma CallsAreNeverStranded(pools: seq<Pool>, max: nat, steps: seq<Step>, k: nat, r: Rid)
    requires IsRun(pools, max, steps) && k < |pools| && r in pools[k].info
    ensures pools[k].info[r].active == |InFlight(pools[k].calls, r)|
    ensures r in pools[k].retired ==> pools[k].info[r].active == 0
    ensures r in pools[k].retired ==> forall key :: key in pools[k].runtimes ==> pools[k].runtimes[key] != r
  {
    RunKeepsInv(pools, max, steps, k);
    if r in pools[k].retired { assert InFlight(pools[k].calls, r) == {}; }
  }

  lemma SizeAfterMake(runtimes: map<Key, Rid>, victim: Option<Key>, key: Key, r: Rid)
    requires key !in runtimes && (victim.Some? ==> victim.value in runtimes)
    ensures |(runtimes - Evicted(victim))[key := r]| == if victim.Some? then |runtimes| else |runtimes| + 1
  {
    InsertCard(runtimes - Evicted(victim), key, r);
    if victim.Some? { RemoveCard(runtimes, victim.value); }
    else { assert runtimes - Evicted(victim) == runtimes; }
  }

  lemma SizeOtherwise(p: Pool, max: nat, step: Step)
    requires Enabled(p, max, step) && !step.Make?
    ensures |Apply(p, max, step).runtimes| <= |p.runtimes|
  {
    var runtimes := Apply(p, max, step).runtimes;
    assert runtimes.Keys <= p.runtimes.Keys;
    SubsetCard(runtimes.Keys, p.runtimes.Keys);
  }

  lemma GrowthStep(p: Pool, max: nat, step: Step)
    requires Enabled(p, max, step)
    ensures var n, n' := |p.runtimes|, |Apply(p, max, step).runtimes|; n' > n && n' > max ==> AllBusy(p)
  {
    if step.Make? { SizeAfterMake(p.runtimes, step.victim, step.key, step.r); } else { SizeOtherwise(p, max, step); }
  }

  /** The pool grows past maxWorkers only when every runtime in it is busy. */
  lemma GrowsPastLimitOnlyWhenBusy(pools: seq<Pool>, max: nat, steps: seq<Step>, k: nat)
    requires IsRun(pools, max, steps) && k < |steps|
    requires |pools[k + 1].runtimes| > |pools[k].runtimes| && |pools[k + 1].runtimes| > max
    ensures AllBusy(pools[k])
  {
    GrowthStep(pools[k], max, steps[k]);
  }

  // ---------------------------------------------------------------- what the steps of a run say of a runtime

  // A step that uses runtime `r`, at the time it gives.
  ghost predicate Uses(p: Pool, step: Step, r: Rid) {
    || (step.Make? && step.r == r)
    || (step.Reuse? && step.key in p.runtimes && p.runtimes[step.key] == r)
    || (step.MarkUsed? && step.r == r)
  }

  // When runtime `r` was last used in the first `k` steps.
  ghost function LastUse(pools: seq<Pool>, steps: seq<Step>, r: Rid, k: nat): Option<int>
    requires |pools| == |steps| + 1 && k < |pools|
  {
    if k == 0 then None
    else if Uses(pools[k - 1], steps[k - 1], r) then Some(steps[k - 1].now)
    else LastUse(pools, steps, r, k - 1)
  }

  lemma UseStep(p: Pool, max: nat, step: Step, r: Rid)
    requires Enabled(p, max, step) && r in Apply(p, max, step).info
    ensures Uses(p, step, r) ==> Apply(p, max, step).info[r].lastUsed == step.now
    ensures !Uses(p, step, r) ==> r in p.info && Apply(p, max, step).info[r].lastUsed == p.info[r].lastUsed
  {
    if step.Enforce? { BoundedInfo(p, step.now, step.sample, step.maxBytes, step.gone, r); }
  }

  /** The time kept for a runtime is that of its latest use: when it was made, reused or marked. */
  lemma {:induction false} LastUsedIsLastUse(pools: seq<Pool>, max: nat, steps: seq<Step>, r: Rid, k: nat)
    requires IsRun(pools, max, steps) && k < |pools| && r in pools[k].info
    ensures LastUse(pools, steps, r, k) == Some(pools[k].info[r].lastUsed)
  {
    if k > 0 {
      var step := steps[k - 1];
      UseStep(pools[k - 1], max, step, r);
      if !Uses(pools[k - 1], step, r) { LastUsedIsLastUse(pools, max, steps, r, k - 1); }
    }
  }

  // The runtime that call `c` is using after the first `k` steps, if it has begun and not ended.
  ghost function CallOn(pools: seq<Pool>, steps: seq<Step>, c: CallId, k: nat): Option<Rid>
    requires |pools| == |steps| + 1 && k < |pools|
  {
    if k == 0 then None
    else
      var p, step := pools[k - 1], steps[k - 1];
      if step.Make? && step.c == Some(c) then Some(step.r)
      else if step.Reuse? && step.c == Some(c) && step.key in p.runtimes then Some(p.runtimes[step.key])
      else if step.End? && step.call == c then None
      else CallOn(pools, steps, c, k - 1)
  }

  function RuntimeOf(p: Pool, c: CallId): Option<Rid> {
    if c in p.calls then Some(p.calls[c]) else None
  }

  lemma CallStep(p: Pool, max: nat, step: Step, c: CallId)
    requires Enabled(p, max, step)
    ensures RuntimeOf(Apply(p, max, step), c)
            == if step.Make? && step.c == Some(c) then Some(step.r)
               else if step.Reuse? && step.c == Some(c) then Some(p.runtimes[step.key])
               else if step.End? && step.call == c then None
               else RuntimeOf(p, c)
  {
  }

  /** A call is in flight exactly from the step that took its runtime to the step that released it. */
  lemma {:induction false} InFlightExactly(pools: seq<Pool>, max: nat, steps: seq<Step>, c: CallId, k: nat)
    requires IsRun(pools, max, steps) && k < |pools|
    ensures RuntimeOf(pools[k], c) == CallOn(pools, steps, c, k)
  {
    if k > 0 {
      var step := steps[k - 1];
      CallStep(pools[k - 1], max, step, c);
      InFlightExactly(pools, max, steps, c, k - 1);
    }
  }

  // The runtime of `key` has no call in flight.
  ghost predicate Spare(p: Pool, key: Key) {
    key in p.runtimes && InFlight(p.calls, p.runtimes[key]) == {}
  }

  // When the runtime of `key` was last used.
  ghost function UseOf(pools: seq<Pool>, steps: seq<Step>, key: Key, k: nat): int
    requires |pools| == |steps| + 1 && k < |pools|
  {
    if key in pools[k].runtimes && LastUse(pools, steps, pools[k].runtimes[key], k).Some?
    then LastUse(pools, steps, pools[k].runtimes[key], k).value else 0
  }

  lemma KeyFacts(pools: seq<Pool>, max: nat, steps: seq<Step>, k: nat, key: Key)
    requires IsRun(pools, max, steps) && k < |pools|
    ensures IsIdle(pools[k], key) <==> Spare(pools[k], key)
    ensures UseOf(pools, steps, key, k) == LastUsed(pools[k], key)
  {
    RunKeepsInv(pools, max, steps, k);
    var p := pools[k];
    if key in p.runtimes {
      assert p.info[p.runtimes[key]].active == |InFlight(p.calls, p.runtimes[key])|;
      LastUsedIsLastUse(pools, max, steps, p.runtimes[key], k);
    }
  }

  lemma AllKeyFacts(pools: seq<Pool>, max: nat, steps: seq<Step>, k: nat)
    requires IsRun(pools, max, steps) && k < |pools|
    ensures forall key :: IsIdle(pools[k], key) <==> Spare(pools[k], key)
    ensures forall key :: UseOf(pools, steps, key, k) == LastUsed(pools[k], key)
  {
    forall key ensures (IsIdle(pools[k], key) <==> Spare(pools[k], key))
                       && UseOf(pools, steps, key, k) == LastUsed(pools[k], key)
    {
      KeyFacts(pools, max, steps, k, key);
    }
  }

  /** Room is made exactly when the pool is full and some runtime has no call in flight, and the runtime
      that goes had its latest use no later than any other without a call. */
  lemma EvictionTakesLeastRecentlyUsed(pools: seq<Pool>, max: nat, steps: seq<Step>, k: nat)
    requires IsRun(pools, max, steps) && k < |steps| && (steps[k].Make? || steps[k].MakeFails?)
    ensures steps[k].victim.Some? <==> |pools[k].runtimes| >= max && exists key :: Spare(pools[k], key)
    ensures steps[k].victim.Some? ==>
              var v := steps[k].victim.value;
              && Spare(pools[k], v) && (v in pools[k + 1].runtimes ==> pools[k + 1].runtimes[v] != pools[k].runtimes[v])
              && forall key :: Spare(pools[k], key) ==> UseOf(pools, steps, v, k) <= UseOf(pools, steps, key, k)
  {
    var step := steps[k];
    AllKeyFacts(pools, max, steps, k);
    RunKeepsInv(pools, max, steps, k);
    assert RoomMade(pools[k], max, step.victim);
  }

  /** Reaping takes away exactly the runtimes without a call whose latest use is more than the timeout ago. */
  lemma ReapingIsExact(pools: seq<Pool>, max: nat, steps: seq<Step>, k: nat, key: Key)
    requires IsRun(pools, max, steps) && k < |steps| && steps[k].Reap? && key in pools[k].runtimes
    ensures key !in pools[k + 1].runtimes <==>
              Spare(pools[k], key) && steps[k].now - UseOf(pools, steps, key, k) > steps[k].timeout
    ensures key in pools[k + 1].runtimes ==> pools[k + 1].runtimes[key] == pools[k].runtimes[key]
  {
    var step := steps[k];
    KeyFacts(pools, max, steps, k, key);
  }

  lemma BoundedIdle(p: Pool, now: int, sample: map<Rid, nat>, maxBytes: nat)
    requires Inv(p)
    ensures var r := Refreshed(p, now, sample);
            var q := Retire(r, Oversized(r, maxBytes));
            forall key :: LastUsed(r, key) == LastUsed(p, key)
                          && (IsIdle(q, key) ==> IsIdle(p, key) && LastUsed(q, key) == LastUsed(p, key))
                          && (IsIdle(p, key) && key in q.runtimes ==> IsIdle(q, key))
  {
    var r := Refreshed(p, now, sample);
    RefreshKeeps(p, now, sample);
    StillIdle(r, Oversized(r, maxBytes));
    assert forall key :: LastUsed(r, key) == LastUsed(p, key);
  }

  /** The total takes runtimes by latest use: one that goes for it was used no later than any spare one that stays. */
  lemma TotalTakesLeastRecentlyUsed(pools: seq<Pool>, max: nat, steps: seq<Step>, k: nat, g: Key, key: Key)
    requires IsRun(pools, max, steps) && k < |steps| && steps[k].Enforce? && g in steps[k].gone
    requires Spare(pools[k], key) && key in pools[k + 1].runtimes
    ensures Spare(pools[k], g) && UseOf(pools, steps, g, k) <= UseOf(pools, steps, key, k)
  {
    var step := steps[k];
    KeyFacts(pools, max, steps, k, key);
    KeyFacts(pools, max, steps, k, g);
    RunKeepsInv(pools, max, steps, k);
    EnforceStep(pools[k], max, step, g, key);
  }

  lemma EnforceStep(p: Pool, max: nat, step: Step, g: Key, key: Key)
    requires Inv(p) && Enabled(p, max, step) && step.Enforce? && g in step.gone
    requires IsIdle(p, key) && key in Apply(p, max, step).runtimes
    ensures IsIdle(p, g) && LastUsed(p, g) <= LastUsed(p, key)
  {
    BoundedIdle(p, step.now, step.sample, step.maxBytes);
  }

  /** The memory bounds take away exactly the spare runtimes over their own limit and those that go for the total. */
  lemma BoundsTakeExactly(pools: seq<Pool>, max: nat, steps: seq<Step>, k: nat, key: Key)
    requires IsRun(pools, max, steps) && k < |steps| && steps[k].Enforce? && key in pools[k].runtimes
    ensures key !in pools[k + 1].runtimes <==>
              || key in steps[k].gone
              || (Spare(pools[k], key)
                  && MemoryOf(Refreshed(pools[k], steps[k].now, steps[k].sample), key) > steps[k].maxBytes)
  {
    var step := steps[k];
    KeyFacts(pools, max, steps, k, key);
    RunKeepsInv(pools, max, steps, k);
    RefreshKeeps(pools[k], step.now, step.sample);
  }

  datatype Sample = Sample(memory: nat, at: int)

  // The sample a step takes of runtime `r`, whose latest one so far is `last`: when it is made, and when the bounds
  // are enforced on it more than the cache's time after `last`.
  ghost function SampledBy(p: Pool, step: Step, r: Rid, last: Option<Sample>): Option<Sample> {
    if step.Make? && step.r == r then Some(Sample(step.memory, step.now))
    else if step.Enforce? && r in p.runtimes.Values && last.Some? && step.now - last.value.at > MEM_CACHE_TTL
    then Some(Sample(SampleAt(step.sample, r), step.now))
    else last
  }

  // The latest sample of runtime `r` in the first `k` steps.
  ghost function LastSample(pools: seq<Pool>, steps: seq<Step>, r: Rid, k: nat): Option<Sample>
    requires |pools| == |steps| + 1 && k < |pools|
  {
    if k == 0 then None else SampledBy(pools[k - 1], steps[k - 1], r, LastSample(pools, steps, r, k - 1))
  }

  function SampleOf(p: Pool, r: Rid): Option<Sample> {
    if r in p.info then Some(Sample(p.info[r].memory, p.info[r].cachedAt)) else None
  }

  lemma BoundedInfo(p: Pool, now: int, sample: map<Rid, nat>, maxBytes: nat, gone: set<Key>, r: Rid)
    requires r in Bounded(p, now, sample, maxBytes, gone).info
    ensures r in p.info
    ensures Bounded(p, now, sample, maxBytes, gone).info[r]
            == if r in p.runtimes.Values then Fresh(p.info[r], now, SampleAt(sample, r)) else p.info[r]
  {
  }

  lemma BoundedSample(p: Pool, max: nat, step: Step, r: Rid)
    requires Enabled(p, max, step) && step.Enforce?
    ensures SampleOf(Apply(p, max, step), r) == SampledBy(p, step, r, SampleOf(p, r))
  {
    if r in p.info { BoundedInfo(p, step.now, step.sample, step.maxBytes, step.gone, r); }
  }

  lemma OtherSample(p: Pool, max: nat, step: Step, r: Rid)
    requires Enabled(p, max, step) && !step.Enforce?
    ensures SampleOf(Apply(p, max, step), r) == SampledBy(p, step, r, SampleOf(p, r))
  {
  }

  /** The memory kept for a runtime is its latest sample, with the time it was taken. */
  lemma {:induction false} MemoryIsLastSample(pools: seq<Pool>, max: nat, steps: seq<Step>, r: Rid, k: nat)
    requires IsRun(pools, max, steps) && k < |pools|
    ensures SampleOf(pools[k], r) == LastSample(pools, steps, r, k)
  {
    if k > 0 {
      var step := steps[k - 1];
      MemoryIsLastSample(pools, max, steps, r, k - 1);
      if step.Enforce? { BoundedSample(pools[k - 1], max, step, r); } else { OtherSample(pools[k - 1], max, step, r); }
    }
  }

  lemma WeighedAs(p: Pool, max: nat, step: Step, key: Key)
    requires Inv(p) && Enabled(p, max, step) && step.Enforce? && key in p.runtimes
    ensures var last := SampleOf(Apply(p, max, step), p.runtimes[key]);
            && last.Some? && last.value.memory == MemoryOf(Refreshed(p, step.now, step.sample), key)
            && step.now - last.value.at <= MEM_CACHE_TTL
  {
  }

  /** What the memory bounds weigh a runtime by is its latest sample, taken no longer ago than the cache keeps it. */
  lemma BoundsWeighRecentSamples(pools: seq<Pool>, max: nat, steps: seq<Step>, k: nat, key: Key)
    requires IsRun(pools, max, steps) && k < |steps| && steps[k].Enforce? && key in pools[k].runtimes
    ensures var last := LastSample(pools, steps, pools[k].runtimes[key], k + 1);
            && last.Some? && last.value.memory == MemoryOf(Refreshed(pools[k], steps[k].now, steps[k].sample), key)
            && steps[k].now - last.value.at <= MEM_CACHE_TTL
  {
    var step := steps[k];
    RunKeepsInv(pools, max, steps, k);
    WeighedAs(pools[k], max, step, key);
    MemoryIsLastSample(pools, max, steps, pools[k].runtimes[key], k + 1);
  }

  lemma BusyWhenMarked(p: Pool, key: Key, c: CallId)
    requires Inv(p) && key in p.runtimes && c in p.calls && p.calls[c] == p.runtimes[key]
    ensures !IsIdle(p, key)
  {
    assert c in InFlight(p.calls, p.runtimes[key]);
  }

  // ---------------------------------------------------------------- the object

  /** The pool object.  `calls`, `retired` and `broken` only record what happened. */
  class Manager {
    const maxWorkers: nat
    var runtimes: map<Key, Rid>
    var info: map<Rid, Info>
    var made: nat
    ghost var calls: map<CallId, Rid>
    ghost var retired: set<Rid>
    ghost var broken: set<Rid>

    ghost function View(): Pool
      reads this
    {
      Pool(runtimes, info, calls, retired, broken)
    }

    ghost predicate Valid()
      reads this
    {
      Inv(View()) && forall r :: r in info ==> r < made
    }

    constructor (maxWorkers: nat)
      ensures Valid() && View() == Pool(map[], map[], map[], {}, {}) && this.maxWorkers == maxWorkers
    {
      this.maxWorkers := maxWorkers;
      runtimes, info, made := map[], map[], 0;
      calls, retired, broken := map[], {}, {};
    }

    // Go ranges over the map in any order.
    method LeastRecentlyUsedIdleRuntime() returns (victim: Option<Key>)
      requires Valid()
      ensures IsVictimOrNone(View(), victim)
    {
      victim := None;
      var rest := runtimes.Keys;
      while rest != {}
        invariant rest <= runtimes.Keys
        invariant victim.None? ==> forall k :: k in runtimes && k !in rest ==> !IsIdle(View(), k)
        invariant victim.Some? ==> IsIdle(View(), victim.value) && victim.value !in rest
        invariant victim.Some? ==>
          forall k :: IsIdle(View(), k) && k !in rest ==> LastUsed(View(), victim.value) <= LastUsed(View(), k)
        decreases rest
      {
        var key :| key in rest;
        rest := rest - {key};
        var candidate := info[runtimes[key]];
        if candidate.active > 0 { continue; }
        if victim.None? || candidate.lastUsed < info[runtimes[victim.value]].lastUsed {
          victim := Some(key);
        }
      }
    }

    // client.Close and delete(m.runtimes, key)
    method CloseRuntime(key: Key)
      requires Valid() && IsIdle(View(), key)
      modifies this`runtimes, this`retired
      ensures Valid() && View() == Retire(old(View()), {key})
    {
      RetireKeeps(View(), {key});
      retired := retired + {runtimes[key]};
      runtimes := runtimes - {key};
      assert View() == Retire(old(View()), {key});
    }

    method EvictLeastRecentlyUsed() returns (ghost victim: Option<Key>)
      requires Valid()
      modifies this`runtimes, this`retired
      ensures Valid() && IsVictimOrNone(old(View()), victim)
      ensures View() == Retire(old(View()), Evicted(victim))
    {
      var found := LeastRecentlyUsedIdleRuntime();
      victim := found;
      if found.Some? {
        CloseRuntime(found.value);
      } else {
        assert runtimes - {} == runtimes && retired + {} == retired;
      }
    }

    method RefreshAll(now: int, sample: map<Rid, nat>)
      requires Valid()
      modifies this`info
      ensures Valid() && View() == Refreshed(old(View()), now, sample)
    {
      RefreshKeeps(View(), now, sample);
      info := map r | r in info :: if r in runtimes.Values then Fresh(info[r], now, SampleAt(sample, r)) else info[r];
    }

    // The loop of reapIdle and the per-runtime memory loop: close what is idle and chosen.
    method CloseIdleWhere(chosen: set<Key>)
      requires Valid()
      modifies this`runtimes, this`retired
      ensures Valid()
      ensures View() == Retire(old(View()), set k | k in chosen && IsIdle(old(View()), k))
    {
      var rest := runtimes.Keys;
      ghost var was, gone: set<Key> := View(), {};
      RetireNone(was);
      while rest != {}
        invariant Valid() && rest <= was.runtimes.Keys && gone !! rest && View() == Retire(was, gone)
        invariant forall k :: k in gone <==> k in chosen && IsIdle(was, k) && k !in rest
        decreases rest
      {
        var key :| key in rest;
        rest := rest - {key};
        RetireMore(was, gone, key);
        if info[runtimes[key]].active == 0 && key in chosen {
          CloseRuntime(key);
          gone := gone + {key};
        }
      }
      assert gone == set k | k in chosen && IsIdle(was, k);
    }

    method RuntimeMemoryTotal(now: int, sample: map<Rid, nat>) returns (total: nat)
      requires Valid()
      modifies this`info
      ensures Valid() && View() == Refreshed(old(View()), now, sample) && total == Total(View(), runtimes.Keys)
    {
      total := 0;
      var rest := runtimes.Keys;
      ghost var was, goal, seen: set<Rid> := View(), Refreshed(View(), now, sample), {};
      RefreshKeeps(was, now, sample);
      RefreshNone(was, now, sample);
      while rest != {}
        invariant rest <= runtimes.Keys && View() == RefreshSome(was, seen, now, sample)
        invariant seen <= runtimes.Values && forall k :: k in runtimes ==> (runtimes[k] in seen <==> k !in rest)
        invariant total + Total(goal, rest) == Total(goal, runtimes.Keys)
        decreases rest
      {
        var key :| key in rest;
        var r := runtimes[key];
        TotalRemove(goal, rest, key);
        RefreshMore(was, seen, r, now, sample);
        info := info[r := Fresh(info[r], now, SampleAt(sample, r))];
        total := total + info[r].memory;
        rest := rest - {key};
        seen := seen + {r};
      }
      assert seen == runtimes.Values;
    }

    method EnforceTotal(limit: nat, now: int, sample: map<Rid, nat>) returns (ghost gone: set<Key>)
      requires Valid()
      modifies this`runtimes, this`retired, this`info
      ensures var p := Refreshed(old(View()), now, sample);
              Valid() && View() == Retire(p, gone) && FitsTotal(p, gone, limit)
    {
      var total := RuntimeMemoryTotal(now, sample);
      ghost var was, last: Key := View(), "";
      gone := {};
      RetireNone(was);
      while total > limit
        invariant Valid() && gone <= was.runtimes.Keys && View() == Retire(was, gone)
        invariant total == Total(was, was.runtimes.Keys - gone)
        invariant SoFar(was, gone, last, limit)
        decreases runtimes.Keys
      {
        var victim := LeastRecentlyUsedIdleRuntime();
        if victim.None? {
          SoFarFits(was, gone, last, limit);
          return;
        }
        SoFarMore(was, gone, last, limit, victim.value);
        RetireMore(was, gone, victim.value);
        CloseRuntime(victim.value);
        last := victim.value;
        gone := gone + {last};
        RefreshedIsFresh(old(View()), now, sample, gone);
        RefreshAgain(View(), now, sample);
        total := RuntimeMemoryTotal(now, sample);
        assert runtimes.Keys == was.runtimes.Keys - gone;
        TotalSame(was, View(), runtimes.Keys);
      }
      SoFarFits(was, gone, last, limit);
    }

    method CloseOversized(maxRuntimeBytes: nat)
      requires Valid()
      modifies this`runtimes, this`retired
      ensures Valid() && View() == Retire(old(View()), Oversized(old(View()), maxRuntimeBytes))
    {
      var chosen := set k | k in runtimes && info[runtimes[k]].memory > maxRuntimeBytes;
      assert (set k | k in chosen && IsIdle(View(), k)) == Oversized(View(), maxRuntimeBytes);
      CloseIdleWhere(chosen);
    }

    method CloseExpired(now: int, timeout: int)
      requires Valid()
      modifies this`runtimes, this`retired
      ensures Valid() && View() == Retire(old(View()), Expired(old(View()), now, timeout))
    {
      var chosen := set k | k in runtimes && now - info[runtimes[k]].lastUsed > timeout;
      assert (set k | k in chosen && IsIdle(View(), k)) == Expired(View(), now, timeout);
      CloseIdleWhere(chosen);
    }

    method EnforceIdleMemoryBounds(now: int, sample: map<Rid, nat>, maxRuntimeBytes: nat, totalRuntimeBytes: nat)
        returns (ghost gone: set<Key>)
      requires Valid()
      modifies this`runtimes, this`retired, this`info
      ensures Valid() && Enforced(old(View()), now, sample, maxRuntimeBytes, totalRuntimeBytes, gone, View())
    {
      RefreshAll(now, sample);
      CloseOversized(maxRuntimeBytes);
      gone := {};
      if totalRuntimeBytes == 0 {
        RetireNone(View());
        return;
      }
      RefreshedIsFresh(old(View()), now, sample, Oversized(Refreshed(old(View()), now, sample), maxRuntimeBytes));
      RefreshAgain(View(), now, sample);
      gone := EnforceTotal(totalRuntimeBytes, now, sample);
    }

    method ReapIdle(now: int, idleTimeout: nat, underPressure: bool,
                    sample: map<Rid, nat>, maxRuntimeBytes: nat, totalRuntimeBytes: nat)
        returns (ghost gone: set<Key>)
      requires Valid()
      modifies this`runtimes, this`retired, this`info
      ensures Valid()
      ensures var p := old(View());
              var expired := Expired(p, now, if underPressure then idleTimeout / 2 else idleTimeout);
              Enforced(Retire(p, expired), now, sample, maxRuntimeBytes, totalRuntimeBytes, gone, View())
    {
      if underPressure {
        CloseExpired(now, idleTimeout / 2);
      } else {
        CloseExpired(now, idleTimeout);
      }
      gone := EnforceIdleMemoryBounds(now, sample, maxRuntimeBytes, totalRuntimeBytes);
    }

    // getOrCreateLocked up to the memory bounds; `ok` tells whether the client starts.
    method TakeOrMake(key: Key, markActive: bool, ghost c: CallId, ok: bool, now: int, memory: nat)
        returns (managed: Option<Rid>, ghost step: Step)
      requires Valid() && c !in calls
      modifies this
      ensures Valid() && Enabled(old(View()), maxWorkers, step) && View() == Apply(old(View()), maxWorkers, step)
      ensures if key in old(runtimes) then step.Reuse? else if ok then step.Make? else step.MakeFails?
      ensures managed.Some? <==> key in old(runtimes) || ok
      ensures managed.Some? ==> key in runtimes && runtimes[key] == managed.value && managed.value !in retired
      ensures managed.Some? && markActive ==> c in calls && calls[c] == managed.value
      ensures key in old(runtimes) ==> managed == Some(old(runtimes)[key])
    {
      ghost var call := if markActive then Some(c) else None;
      if key in runtimes {
        step := Reuse(key, now, call);
        StepKeepsInv(View(), maxWorkers, step);
        var r := runtimes[key];
        info := info[r := info[r].(lastUsed := now)];
        if markActive { Mark(r, c); }
        return Some(r), step;
      }
      ghost var p := View();
      ghost var victim: Option<Key> := None;
      RetireNone(View());
      if |runtimes| >= maxWorkers { victim := EvictLeastRecentlyUsed(); }
      if !ok { return None, MakeFails(key, victim); }
      step := Make(key, victim, made, now, memory, call);
      StepKeepsInv(p, maxWorkers, step);
      var r := made;
      runtimes, info, made := runtimes[key := r], info[r := Info(0, now, memory, now)], made + 1;
      if markActive { Mark(r, c); }
      managed := Some(r);
    }

    // The whole critical section.  A runtime made for a warm-up is idle, so the memory bounds may close it at once.
    method GetOrCreate(key: Key, markActive: bool, ghost c: CallId, ok: bool, now: int, memory: nat,
                       sample: map<Rid, nat>, maxRuntimeBytes: nat, totalRuntimeBytes: nat)
        returns (managed: Option<Rid>, ghost step: Step, ghost gone: set<Key>)
      requires Valid() && c !in calls
      modifies this
      ensures Valid() && Enabled(old(View()), maxWorkers, step)
      ensures if key in old(runtimes) then step.Reuse? else if ok then step.Make? else step.MakeFails?
      ensures var p := Apply(old(View()), maxWorkers, step);
              if step.Make? then Enforced(p, now, sample, maxRuntimeBytes, totalRuntimeBytes, gone, View())
              else View() == p
      ensures managed.Some? <==> key in old(runtimes) || ok
      ensures managed.Some? && markActive ==> c in calls && calls[c] == managed.value
      ensures managed.Some? && (markActive || step.Reuse?) ==>
              key in runtimes && runtimes[key] == managed.value && managed.value !in retired
      ensures key in old(runtimes) ==> managed == Some(old(runtimes)[key])
    {
      gone := {};
      var present := key in runtimes;
      managed, step := TakeOrMake(key, markActive, c, ok, now, memory);
      if !present && ok {
        ghost var p := View();
        if markActive { BusyWhenMarked(p, key, c); }
        gone := EnforceIdleMemoryBounds(now, sample, maxRuntimeBytes, totalRuntimeBytes);
        MemoryBoundsHold(p, now, sample, maxRuntimeBytes, totalRuntimeBytes, gone, View());
      }
    }

    method Mark(r: Rid, ghost c: CallId)
      requires r in info
      modifies this`info, this`calls
      ensures View() == BeginCall(old(View()), c, r)
    {
      info := info[r := info[r].(active := info[r].active + 1)];
      calls := calls[c := r];
    }

    method ReleaseRuntime(r: Rid, ghost c: CallId)
      requires Valid() && c in calls && calls[c] == r
      modifies this`info, this`calls
      ensures Valid() && View() == EndCall(old(View()), c)
    {
      EndCallKeeps(View(), c);
      info := info[r := info[r].(active := info[r].active - 1)];
      calls := calls - {c};
    }
  }
}
