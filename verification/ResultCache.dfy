/**
 The result cache of internal/daemon/result_cache.go: a bounded map with expiry
 and least recently used eviction, compared with a plain map that never forgets.
 */
module ResultCache {
  import opened Common
  import opened Recency

  type Key = string
  type Bytes = string

  const MAX_SIZE: nat := 256

  datatype Entry = Entry(envelope: Bytes, expiresAt: int)

  datatype Cache = Cache(entries: map<Key, Entry>, lru: seq<Key>, hits: nat, misses: nat)

  const EMPTY := Cache(map[], [], 0, 0)

  // ---------------------------------------------------------------- get and set

  predicate Hits(c: Cache, key: Key, now: int) {
    key in c.entries && now <= c.entries[key].expiresAt
  }

  function AfterGet(c: Cache, key: Key, now: int): Cache {
    if key !in c.entries then c.(misses := c.misses + 1)
    else if now > c.entries[key].expiresAt then
      c.(entries := c.entries - {key}, lru := RemoveFirst(c.lru, key), misses := c.misses + 1)
    else c.(lru := Touch(c.lru, key), hits := c.hits + 1)
  }

  function Room(c: Cache): Cache {
    if |c.lru| >= MAX_SIZE then c.(entries := c.entries - {c.lru[0]}, lru := c.lru[1..]) else c
  }

  function AfterSet(c: Cache, key: Key, e: Entry): Cache {
    if key in c.entries then c.(entries := c.entries[key := e], lru := Touch(c.lru, key))
    else
      var r := Room(c);
      r.(entries := r.entries[key := e], lru := r.lru + [key])
  }

  // ---------------------------------------------------------------- histories

  // MI_LSP_DAEMON_RESULT_CACHE=0 disables set, so a disabled set is no operation at all.
  datatype Op = GetOp(key: Key, now: int) | SetOp(key: Key, e: Entry)

  function Run(ops: seq<Op>): Cache {
    if ops == [] then EMPTY
    else
      var c := Run(ops[..|ops| - 1]);
      match ops[|ops| - 1]
      case GetOp(key, now) => AfterGet(c, key, now)
      case SetOp(key, e) => AfterSet(c, key, e)
  }

  // The plain map: the latest set of every key.
  function Latest(ops: seq<Op>): map<Key, Entry> {
    if ops == [] then map[]
    else
      var m := Latest(ops[..|ops| - 1]);
      match ops[|ops| - 1]
      case GetOp(_, _) => m
      case SetOp(key, e) => m[key := e]
  }

  // Position of the last set or hit of every key.
  function LastUse(ops: seq<Op>): map<Key, nat> {
    if ops == [] then map[]
    else
      var n := |ops| - 1;
      var m := LastUse(ops[..n]);
      match ops[n]
      case GetOp(key, now) => if Hits(Run(ops[..n]), key, now) then m[key := n] else m
      case SetOp(key, _) => m[key := n]
  }

  // Keys that a get found past the expiry of their latest set.
  function FoundExpired(ops: seq<Op>): set<Key> {
    if ops == [] then {}
    else
      var n := |ops| - 1;
      var x := FoundExpired(ops[..n]);
      match ops[n]
      case GetOp(key, now) => if key in Latest(ops[..n]) && now > Latest(ops[..n])[key].expiresAt then x + {key} else x
      case SetOp(key, _) => x - {key}
  }

  function Gets(ops: seq<Op>): nat {
    if ops == [] then 0 else Gets(ops[..|ops| - 1]) + if ops[|ops| - 1].GetOp? then 1 else 0
  }

  // Keys used after the last use of `key`.
  ghost function Later(stamp: map<Key, nat>, key: Key): set<Key> {
    set k | k in stamp && key in stamp && stamp[k] > stamp[key]
  }

  // ---------------------------------------------------------------- invariant

  ghost predicate Shape(c: Cache, stamp: map<Key, nat>, clock: nat) {
    && Elements(c.lru) == c.entries.Keys
    && |c.lru| <= MAX_SIZE
    && Ordered(c.lru, stamp)
    && Before(c.lru, stamp, clock)
    && (forall k :: k in stamp ==> stamp[k] < clock)
  }

  ghost predicate Agrees(c: Cache, m: map<Key, Entry>, stamp: map<Key, nat>, expired: set<Key>) {
    && (forall k :: k in c.entries ==> k in m && c.entries[k] == m[k] && k !in expired)
    && (forall k :: k in m && k !in c.entries ==> k in stamp && (k in expired || |Later(stamp, k)| >= MAX_SIZE))
  }

  lemma ShapeTouch(c: Cache, stamp: map<Key, nat>, clock: nat, key: Key)
    requires Shape(c, stamp, clock) && key in c.entries
    ensures Elements(Touch(c.lru, key)) == c.entries.Keys && |Touch(c.lru, key)| <= MAX_SIZE
    ensures Ordered(Touch(c.lru, key), stamp[key := clock]) && Before(Touch(c.lru, key), stamp[key := clock], clock + 1)
  {
    assert key in Elements(c.lru);
    TouchOrdered(c.lru, key, stamp, clock);
  }

  lemma ShapeGet(c: Cache, stamp: map<Key, nat>, clock: nat, key: Key, now: int)
    requires Shape(c, stamp, clock)
    ensures Shape(AfterGet(c, key, now), if Hits(c, key, now) then stamp[key := clock] else stamp, clock + 1)
  {
    if Hits(c, key, now) { ShapeTouch(c, stamp, clock, key); }
    else if key in c.entries {
      RemoveFirstOrdered(c.lru, key, stamp);
      forall i | 0 <= i < |RemoveFirst(c.lru, key)| ensures stamp[RemoveFirst(c.lru, key)[i]] < clock {
        assert RemoveFirst(c.lru, key)[i] in Elements(RemoveFirst(c.lru, key));
      }
    }
  }

  lemma ShapeRoom(c: Cache, stamp: map<Key, nat>, clock: nat)
    requires Shape(c, stamp, clock)
    ensures Shape(Room(c), stamp, clock) && |Room(c).lru| < MAX_SIZE
  {
    if |c.lru| >= MAX_SIZE { DropFirstOrdered(c.lru, stamp); }
  }

  lemma ShapeSet(c: Cache, stamp: map<Key, nat>, clock: nat, key: Key, e: Entry)
    requires Shape(c, stamp, clock)
    ensures Shape(AfterSet(c, key, e), stamp[key := clock], clock + 1)
  {
    if key in c.entries {
      ShapeTouch(c, stamp, clock, key);
    } else {
      ShapeRoom(c, stamp, clock);
      var r := Room(c);
      assert key !in Elements(r.lru);
      RemoveFirstAbsent(r.lru, key);
      TouchOrdered(r.lru, key, stamp, clock);
      assert r.lru + [key] == Touch(r.lru, key);
    }
  }

  // Using a key does not make any other key look more recently used.
  lemma LaterGrows(stamp: map<Key, nat>, clock: nat, key: Key, k: Key)
    requires k != key && k in stamp && forall x :: x in stamp ==> stamp[x] < clock
    ensures |Later(stamp[key := clock], k)| >= |Later(stamp, k)|
  {
    SubsetCard(Later(stamp, k), Later(stamp[key := clock], k));
  }

  // Everything after the first of an ordered list was used later.
  lemma RestIsLater(lru: seq<Key>, stamp: map<Key, nat>, clock: nat, key: Key)
    requires lru != [] && Ordered(lru, stamp) && Before(lru, stamp, clock) && key !in lru
    ensures Elements(lru[1..]) + {key} <= Later(stamp[key := clock], lru[0])
  {
    forall x | x in lru[1..] ensures x in Later(stamp[key := clock], lru[0]) {
      var i :| 0 <= i < |lru[1..]| && lru[1..][i] == x;
      assert lru[i + 1] == x;
    }
  }

  // When the oldest of a full list makes room for `key`, MAX_SIZE other keys have been used since.
  lemma EvictedIsOldest(lru: seq<Key>, stamp: map<Key, nat>, clock: nat, key: Key)
    requires |lru| == MAX_SIZE && Ordered(lru, stamp) && Before(lru, stamp, clock) && key !in lru
    ensures |Later(stamp[key := clock], lru[0])| >= MAX_SIZE
  {
    RestIsLater(lru, stamp, clock, key);
    DropFirstOrdered(lru, stamp);
    OrderedListsOnce(lru[1..], stamp);
    assert key !in Elements(lru[1..]);
    SubsetCard(Elements(lru[1..]) + {key}, Later(stamp[key := clock], lru[0]));
  }

  // Using a key that is then present keeps every other absence explained.
  lemma AgreesUse(c: Cache, m: map<Key, Entry>, stamp: map<Key, nat>, clock: nat, expired: set<Key>, key: Key)
    requires Agrees(c, m, stamp, expired) && forall x :: x in stamp ==> stamp[x] < clock
    ensures forall k :: k in m && k !in c.entries && k != key ==>
              k in stamp && (k in expired || |Later(stamp[key := clock], k)| >= MAX_SIZE)
  {
    forall k | k in m && k !in c.entries && k != key
      ensures k in stamp && (k in expired || |Later(stamp[key := clock], k)| >= MAX_SIZE)
    {
      LaterGrows(stamp, clock, key, k);
    }
  }

  lemma AgreesSet(c: Cache, m: map<Key, Entry>, stamp: map<Key, nat>, clock: nat, expired: set<Key>, key: Key, e: Entry)
    requires Shape(c, stamp, clock) && Agrees(c, m, stamp, expired)
    ensures Agrees(AfterSet(c, key, e), m[key := e], stamp[key := clock], expired - {key})
  {
    AgreesUse(c, m, stamp, clock, expired, key);
    if key !in c.entries {
      assert key !in Elements(c.lru);
      if |c.lru| >= MAX_SIZE {
        assert c.lru[0] in Elements(c.lru);
        EvictedIsOldest(c.lru, stamp, clock, key);
      }
    }
  }

  lemma AgreesGet(c: Cache, m: map<Key, Entry>, stamp: map<Key, nat>, clock: nat, expired: set<Key>, key: Key, now: int)
    requires Shape(c, stamp, clock) && Agrees(c, m, stamp, expired)
    ensures Agrees(AfterGet(c, key, now), m,
                   if Hits(c, key, now) then stamp[key := clock] else stamp,
                   if key in m && now > m[key].expiresAt then expired + {key} else expired)
  {
    AgreesUse(c, m, stamp, clock, expired, key);
    assert key in c.entries ==> key in Elements(c.lru);
  }

  // ---------------------------------------------------------------- theorems

  ghost predicate Inv(ops: seq<Op>) {
    && Shape(Run(ops), LastUse(ops), |ops|)
    && Agrees(Run(ops), Latest(ops), LastUse(ops), FoundExpired(ops))
    && Run(ops).hits + Run(ops).misses == Gets(ops)
  }

  /** Every history of gets and sets. */
  lemma {:induction false} EveryHistoryKeepsInv(ops: seq<Op>)
    ensures Inv(ops)
  {
    if ops != [] {
      var n := |ops| - 1;
      var before := ops[..n];
      EveryHistoryKeepsInv(before);
      match ops[n]
      case GetOp(key, now) =>
        ShapeGet(Run(before), LastUse(before), n, key, now);
        AgreesGet(Run(before), Latest(before), LastUse(before), n, FoundExpired(before), key, now);
      case SetOp(key, e) =>
        ShapeSet(Run(before), LastUse(before), n, key, e);
        AgreesSet(Run(before), Latest(before), LastUse(before), n, FoundExpired(before), key, e);
    }
  }

  /** A hit gives the bytes of the latest set, which no get has yet found past its expiry. */
  lemma HitIsLatest(ops: seq<Op>, key: Key, now: int)
    requires Hits(Run(ops), key, now)
    ensures key in Latest(ops) && Run(ops).entries[key] == Latest(ops)[key]
    ensures now <= Latest(ops)[key].expiresAt && key !in FoundExpired(ops)
  {
    EveryHistoryKeepsInv(ops);
  }

  /**
   A get that misses although the plain map would answer: either a get has already found that
   set past its expiry, or at least MAX_SIZE other keys were set or hit since the key last was.
   */
  lemma MissIsExplained(ops: seq<Op>, key: Key, now: int)
    requires !Hits(Run(ops), key, now) && key in Latest(ops) && now <= Latest(ops)[key].expiresAt
    ensures key in FoundExpired(ops) || |Later(LastUse(ops), key)| >= MAX_SIZE
  {
    EveryHistoryKeepsInv(ops);
  }

  // No get was made after `now`.
  ghost predicate NoLater(ops: seq<Op>, now: int) {
    forall i :: 0 <= i < |ops| && ops[i].GetOp? ==> ops[i].now <= now
  }

  lemma {:induction false} FoundExpiredIsPast(ops: seq<Op>, key: Key, now: int)
    requires NoLater(ops, now) && key in FoundExpired(ops)
    ensures key in Latest(ops) && now > Latest(ops)[key].expiresAt
  {
    var n := |ops| - 1;
    var before := ops[..n];
    if key in FoundExpired(before) {
      assert forall i :: 0 <= i < n ==> before[i] == ops[i];
      FoundExpiredIsPast(before, key, now);
    }
  }

  /** As long as the clock does not run backwards, every such miss is an eviction. */
  lemma MissIsEviction(ops: seq<Op>, key: Key, now: int)
    requires NoLater(ops, now)
    requires !Hits(Run(ops), key, now) && key in Latest(ops) && now <= Latest(ops)[key].expiresAt
    ensures |Later(LastUse(ops), key)| >= MAX_SIZE
  {
    MissIsExplained(ops, key, now);
    if key in FoundExpired(ops) { FoundExpiredIsPast(ops, key, now); }
  }

  /** The list names every cached key exactly once, oldest use first, and is never too long. */
  lemma ListIsTheKeysByLastUse(ops: seq<Op>)
    ensures var c := Run(ops);
            && |c.lru| == |c.entries| <= MAX_SIZE
            && (forall k :: k in c.entries <==> k in c.lru)
            && (forall i :: 0 <= i < |c.lru| ==> c.lru[i] in LastUse(ops))
            && (forall i, j :: 0 <= i < j < |c.lru| ==> LastUse(ops)[c.lru[i]] < LastUse(ops)[c.lru[j]])
  {
    EveryHistoryKeepsInv(ops);
    var c := Run(ops);
    OrderedListsOnce(c.lru, LastUse(ops));
    assert forall k :: k in c.entries <==> k in Elements(c.lru);
  }

  // The gets that were answered.
  function Answered(ops: seq<Op>): nat {
    if ops == [] then 0
    else
      var n := |ops| - 1;
      Answered(ops[..n]) + if ops[n].GetOp? && Hits(Run(ops[..n]), ops[n].key, ops[n].now) then 1 else 0
  }

  /** The hit counter is the number of gets that were answered, and the miss counter that of the others. */
  lemma {:induction false} CountersAreExact(ops: seq<Op>)
    ensures Run(ops).hits == Answered(ops) && Run(ops).misses == Gets(ops) - Answered(ops)
  {
    if ops != [] { CountersAreExact(ops[..|ops| - 1]); }
  }

  lemma CountersAddUp(ops: seq<Op>)
    ensures Run(ops).hits + Run(ops).misses == Gets(ops)
  {
    EveryHistoryKeepsInv(ops);
  }

  // ---------------------------------------------------------------- the cache object

  class ResultCache {
    var entries: map<Key, Entry>
    var lru: seq<Key>
    var hits: nat
    var misses: nat

    ghost function View(): Cache
      reads this
    {
      Cache(entries, lru, hits, misses)
    }

    constructor ()
      ensures View() == EMPTY
    {
      entries, lru, hits, misses := map[], [], 0, 0;
    }

    method DropFromLru(key: Key)
      modifies this`lru
      ensures lru == RemoveFirst(old(lru), key)
    {
      var i := 0;
      while i < |lru|
        invariant i <= |lru| && lru == old(lru) && key !in lru[..i]
      {
        if lru[i] == key {
          RemoveFirstAt(lru, key, i);
          lru := lru[..i] + lru[i + 1..];
          return;
        }
        i := i + 1;
      }
      assert lru[..i] == lru;
      RemoveFirstAbsent(lru, key);
    }

    method Get(key: Key, now: int) returns (r: Option<Bytes>)
      modifies this
      ensures View() == AfterGet(old(View()), key, now)
      ensures r == if Hits(old(View()), key, now) then Some(old(entries)[key].envelope) else None
    {
      if key !in entries {
        misses := misses + 1;
        return None;
      }
      var entry := entries[key];
      if now > entry.expiresAt {
        entries := entries - {key};
        DropFromLru(key);
        misses := misses + 1;
        return None;
      }
      hits := hits + 1;
      DropFromLru(key);
      lru := lru + [key];
      return Some(entry.envelope);
    }

    method Set(key: Key, envelope: Bytes, now: int, ttl: int, enabled: bool)
      modifies this
      ensures View() == if enabled then AfterSet(old(View()), key, Entry(envelope, now + ttl)) else old(View())
    {
      if !enabled {
        return;
      }
      if key in entries {
        entries := entries[key := Entry(envelope, now + ttl)];
        DropFromLru(key);
        lru := lru + [key];
        return;
      }
      if |lru| >= MAX_SIZE {
        var victim := lru[0];
        lru := lru[1..];
        entries := entries - {victim};
      }
      entries := entries[key := Entry(envelope, now + ttl)];
      lru := lru + [key];
    }
  }
}
