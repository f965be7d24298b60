/**
 The file-watcher table of internal/daemon/lifecycle.go: a bounded, least
 recently used table of watchers that are created, started and stopped outside
 the manager's lock, and the transition counter that lets UpdateIdleSnapshot
 tell the truth meanwhile.
 */
module WatcherTable {
  import opened Common
  import opened Recency

  type Tid = nat
  type Key = string
  type Watcher = nat

  datatype Table = Table(watchers: map<Key, Watcher>, roots: seq<Key>, skipped: nat)

  // ---------------------------------------------------------------- critical sections

  function TouchRoot(tb: Table, key: Key): Table {
    tb.(roots := Touch(tb.roots, key))
  }

  // The watcher evictWatcherLocked takes out of the table.
  function Victim(tb: Table): Option<Watcher> {
    if tb.roots != [] && tb.roots[0] in tb.watchers then Some(tb.watchers[tb.roots[0]]) else None
  }

  function Evict(tb: Table): Table {
    if tb.roots == [] then tb
    else if Victim(tb).None? then tb.(roots := tb.roots[1..])
    else Table(tb.watchers - {tb.roots[0]}, tb.roots[1..], tb.skipped + 1)
  }

  function Insert(tb: Table, key: Key, w: Watcher): Table {
    tb.(watchers := tb.watchers[key := w], roots := tb.roots + [key])
  }

  // ---------------------------------------------------------------- state

  // A goroutine that has incremented watcherTransitions and not yet decremented it.
  datatype Window =
    | Starting(key: Key)                // EnsureFileWatcherContext before NewFileWatcher returns
    | Created(key: Key, w: Watcher)     // before StartWithContexts returns
    | Started(key: Key, w: Watcher)     // before the second critical section
    | Stopping(ws: set<Watcher>)        // has these left to stop

  // Where a watcher that exists and is not stopped is kept.
  datatype Owner = InTable(key: Key) | InWindow(t: Tid)

  datatype State = State(
    max: nat,
    tb: Table,
    transitions: int,
    windows: map<Tid, Window>,
    owner: map<Watcher, Owner>,   // the watchers that exist and are not stopped
    made: set<Watcher>,           // every watcher ever made
    stamp: map<Key, nat>,         // when each root was last touched
    clock: nat)

  function Init(max: nat): State {
    State(max, Table(map[], [], 0), 0, map[], map[], {}, map[], 0)
  }

  predicate IdleSnapshot(s: State) {
    |s.tb.watchers| == 0 && s.transitions == 0
  }

  // ---------------------------------------------------------------- steps

  datatype Step =
    | EnsureTouch(key: Key)
    | EnsureEnter(t: Tid, key: Key, g: Tid)          // g: the goroutine that stops an evicted watcher
    | Create(t: Tid, made: Option<Watcher>)
    | Start(t: Tid, ok: bool)
    | EnsureLeave(t: Tid, locked: bool, g: Tid)
    | StopAll(t: Tid)
    | StopOne(t: Tid, w: Watcher)
    | End(t: Tid)

  predicate Enabled(s: State, step: Step) {
    match step
    case EnsureTouch(key) => key in s.tb.watchers
    case EnsureEnter(t, key, g) => key !in s.tb.watchers && t !in s.windows && g !in s.windows && t != g
    case Create(t, made) =>
      t in s.windows && s.windows[t].Starting? && (made.Some? ==> made.value !in s.made)
    case Start(t, _) => t in s.windows && s.windows[t].Created?
    case EnsureLeave(t, _, g) => t in s.windows && s.windows[t].Started? && g !in s.windows
    case StopAll(t) => t !in s.windows
    case StopOne(t, w) => t in s.windows && s.windows[t].Stopping? && w in s.windows[t].ws
    case End(t) => t in s.windows && s.windows[t] == Stopping({})
  }

  function Stamped(s: State, key: Key): State {
    s.(stamp := s.stamp[key := s.clock], clock := s.clock + 1)
  }

  // if len(m.watchers) >= MaxWatchedRoots { evictWatcherLocked() }
  function MakeRoom(s: State, g: Tid): State {
    if |s.tb.watchers| < s.max then s
    else
      var v := Victim(s.tb);
      var s' := s.(tb := Evict(s.tb));
      if v.None? then s'
      else s'.(transitions := s.transitions + 1, windows := s.windows[g := Stopping({v.value})],
               owner := s.owner[v.value := InWindow(g)])
  }

  function Settle(s: State, t: Tid, key: Key, w: Watcher): State {
    Stamped(s.(tb := Insert(s.tb, key, w), windows := s.windows[t := Stopping({})],
               owner := s.owner[w := InTable(key)]), key)
  }

  function Apply(s: State, step: Step): State
    requires Enabled(s, step)
  {
    match step
    case EnsureTouch(key) => Stamped(s.(tb := TouchRoot(s.tb, key)), key)
    case EnsureEnter(t, key, g) =>
      var s' := MakeRoom(s, g);
      s'.(transitions := s'.transitions + 1, windows := s'.windows[t := Starting(key)])
    case Create(t, made) =>
      if made.None? then s.(windows := s.windows[t := Stopping({})])
      else s.(windows := s.windows[t := Created(s.windows[t].key, made.value)],
              owner := s.owner[made.value := InWindow(t)], made := s.made + {made.value})
    case Start(t, ok) =>
      var c := s.windows[t];
      s.(windows := s.windows[t := if ok then Started(c.key, c.w) else Stopping({c.w})])
    case EnsureLeave(t, locked, g) =>
      var c := s.windows[t];
      if !locked then s.(windows := s.windows[t := Stopping({c.w})])
      else if c.key in s.tb.watchers then
        Stamped(s.(tb := TouchRoot(s.tb, c.key), windows := s.windows[t := Stopping({c.w})]), c.key)
      else Settle(MakeRoom(s, g), t, c.key, c.w)
    case StopAll(t) =>
      s.(tb := s.tb.(watchers := map[], roots := []), transitions := s.transitions + 1,
         windows := s.windows[t := Stopping(s.tb.watchers.Values)],
         owner := map w | w in s.owner :: if s.owner[w].InTable? then InWindow(t) else s.owner[w])
    case StopOne(t, w) =>
      s.(windows := s.windows[t := Stopping(s.windows[t].ws - {w})], owner := s.owner - {w})
    case End(t) => s.(transitions := s.transitions - 1, windows := s.windows - {t})
  }

  // ---------------------------------------------------------------- invariant

  ghost predicate TableOk(tb: Table, max: nat, stamp: map<Key, nat>, clock: nat) {
    && Elements(tb.roots) == tb.watchers.Keys
    && |tb.watchers| <= max
    && Ordered(tb.roots, stamp)
    && Before(tb.roots, stamp, clock)
  }

  predicate Holds(c: Window, w: Watcher) {
    match c
    case Starting(_) => false
    case Created(_, x) => w == x
    case Started(_, x) => w == x
    case Stopping(ws) => w in ws
  }

  ghost predicate OwnersOk(watchers: map<Key, Watcher>, windows: map<Tid, Window>, owner: map<Watcher, Owner>,
                           made: set<Watcher>) {
    && owner.Keys <= made
    && (forall k :: k in watchers ==> watchers[k] in owner && owner[watchers[k]] == InTable(k))
    && (forall t, w :: t in windows && Holds(windows[t], w) ==> w in owner && owner[w] == InWindow(t))
    && (forall w :: w in owner && owner[w].InTable? ==> owner[w].key in watchers && watchers[owner[w].key] == w)
    && (forall w :: w in owner && owner[w].InWindow? ==> owner[w].t in windows && Holds(windows[owner[w].t], w))
  }

  ghost predicate Inv(s: State) {
    && s.max > 0
    && TableOk(s.tb, s.max, s.stamp, s.clock)
    && s.transitions == |s.windows|
    && OwnersOk(s.tb.watchers, s.windows, s.owner, s.made)
  }

  lemma ListedOnce(tb: Table, max: nat, stamp: map<Key, nat>, clock: nat)
    requires TableOk(tb, max, stamp, clock)
    ensures |tb.roots| == |tb.watchers|
  {
    OrderedListsOnce(tb.roots, stamp);
  }

  lemma TouchTableOk(tb: Table, max: nat, key: Key, stamp: map<Key, nat>, clock: nat)
    requires TableOk(tb, max, stamp, clock) && key in tb.watchers
    ensures TableOk(TouchRoot(tb, key), max, stamp[key := clock], clock + 1)
  {
    TouchOrdered(tb.roots, key, stamp, clock);
    assert key in Elements(tb.roots);
  }

  lemma EvictTableOk(tb: Table, max: nat, stamp: map<Key, nat>, clock: nat)
    requires TableOk(tb, max, stamp, clock) && |tb.watchers| > 0
    ensures TableOk(Evict(tb), max, stamp, clock)
    ensures |Evict(tb).watchers| == |tb.watchers| - 1
    ensures tb.roots != [] && Victim(tb) == Some(tb.watchers[tb.roots[0]])
  {
    ListedOnce(tb, max, stamp, clock);
    assert tb.roots[0] in Elements(tb.roots);
    DropFirstOrdered(tb.roots, stamp);
    RemoveCard(tb.watchers, tb.roots[0]);
    assert Evict(tb).watchers.Keys == tb.watchers.Keys - {tb.roots[0]};
  }

  lemma InsertTableOk(tb: Table, max: nat, key: Key, w: Watcher, stamp: map<Key, nat>, clock: nat)
    requires TableOk(tb, max, stamp, clock) && |tb.watchers| < max && key !in tb.watchers
    ensures TableOk(Insert(tb, key, w), max, stamp[key := clock], clock + 1)
  {
    assert key !in Elements(tb.roots);
    RemoveFirstAbsent(tb.roots, key);
    TouchOrdered(tb.roots, key, stamp, clock);
    InsertCard(tb.watchers, key, w);
    assert Insert(tb, key, w).roots == Touch(tb.roots, key);
  }

  // ---- ownership, one move at a time

  lemma SameHolding(watchers: map<Key, Watcher>, windows: map<Tid, Window>, owner: map<Watcher, Owner>,
                    made: set<Watcher>, t: Tid, c: Window)
    requires OwnersOk(watchers, windows, owner, made)
    requires forall w :: Holds(c, w) <==> t in windows && Holds(windows[t], w)
    ensures OwnersOk(watchers, windows[t := c], owner, made)
  {
  }

  lemma EvictOwners(watchers: map<Key, Watcher>, windows: map<Tid, Window>, owner: map<Watcher, Owner>,
                    made: set<Watcher>, k: Key, g: Tid)
    requires OwnersOk(watchers, windows, owner, made) && k in watchers && g !in windows
    ensures OwnersOk(watchers - {k}, windows[g := Stopping({watchers[k]})], owner[watchers[k] := InWindow(g)], made)
  {
  }

  lemma CreateOwners(watchers: map<Key, Watcher>, windows: map<Tid, Window>, owner: map<Watcher, Owner>,
                     made: set<Watcher>, t: Tid, w: Watcher)
    requires OwnersOk(watchers, windows, owner, made) && t in windows && windows[t].Starting? && w !in made
    ensures OwnersOk(watchers, windows[t := Created(windows[t].key, w)], owner[w := InWindow(t)], made + {w})
  {
  }

  lemma InsertOwners(watchers: map<Key, Watcher>, windows: map<Tid, Window>, owner: map<Watcher, Owner>,
                     made: set<Watcher>, t: Tid, k: Key)
    requires OwnersOk(watchers, windows, owner, made) && t in windows && windows[t].Started? && k !in watchers
    ensures OwnersOk(watchers[k := windows[t].w], windows[t := Stopping({})], owner[windows[t].w := InTable(k)], made)
  {
    var w, rest := windows[t].w, windows[t := Stopping({})];
    assert Holds(windows[t], w) && owner[w] == InWindow(t);
    forall j | j in watchers ensures watchers[j] != w { assert owner[watchers[j]] == InTable(j); }
    forall u, x | u in rest && Holds(rest[u], x) ensures x in owner && owner[x] == InWindow(u) && x != w {
      assert u != t;
      assert Holds(windows[u], x);
    }
    forall x | x in owner && owner[x].InWindow? && x != w ensures owner[x].t in rest && Holds(rest[owner[x].t], x) {
      assert Holds(windows[owner[x].t], x);
    }
  }

  lemma StopAllOwners(watchers: map<Key, Watcher>, windows: map<Tid, Window>, owner: map<Watcher, Owner>,
                      made: set<Watcher>, t: Tid)
    requires OwnersOk(watchers, windows, owner, made) && t !in windows
    ensures OwnersOk(map[], windows[t := Stopping(watchers.Values)],
                     map w | w in owner :: if owner[w].InTable? then InWindow(t) else owner[w], made)
  {
  }

  lemma StopOneOwners(watchers: map<Key, Watcher>, windows: map<Tid, Window>, owner: map<Watcher, Owner>,
                      made: set<Watcher>, t: Tid, w: Watcher)
    requires OwnersOk(watchers, windows, owner, made) && t in windows && windows[t].Stopping? && w in windows[t].ws
    ensures OwnersOk(watchers, windows[t := Stopping(windows[t].ws - {w})], owner - {w}, made)
  {
    assert Holds(windows[t], w);
    var rest := windows[t := Stopping(windows[t].ws - {w})];
    forall u, x | u in rest && Holds(rest[u], x) ensures Holds(windows[u], x) && x != w {
      if u == t { assert x in windows[t].ws - {w}; } else { assert owner[x] == InWindow(u); }
    }
    assert forall x :: x in owner - {w} && owner[x].InWindow? ==> Holds(windows[owner[x].t], x);
  }

  lemma EndOwners(watchers: map<Key, Watcher>, windows: map<Tid, Window>, owner: map<Watcher, Owner>,
                  made: set<Watcher>, t: Tid)
    requires OwnersOk(watchers, windows, owner, made) && t in windows && windows[t] == Stopping({})
    ensures OwnersOk(watchers, windows - {t}, owner, made)
  {
  }

  lemma MakeRoomKeeps(s: State, g: Tid)
    requires Inv(s) && g !in s.windows
    ensures Inv(MakeRoom(s, g)) && |MakeRoom(s, g).tb.watchers| < s.max
    ensures MakeRoom(s, g).tb.watchers.Keys <= s.tb.watchers.Keys
    ensures forall t :: t != g ==> (t in MakeRoom(s, g).windows <==> t in s.windows)
    ensures forall t :: t in s.windows ==> MakeRoom(s, g).windows[t] == s.windows[t]
  {
    if |s.tb.watchers| >= s.max {
      EvictTableOk(s.tb, s.max, s.stamp, s.clock);
      InsertCard(s.windows, g, Stopping({Victim(s.tb).value}));
      EvictOwners(s.tb.watchers, s.windows, s.owner, s.made, s.tb.roots[0], g);
    }
  }

  lemma EnterKeeps(s: State, t: Tid, key: Key, g: Tid)
    requires Inv(s) && Enabled(s, EnsureEnter(t, key, g))
    ensures Inv(Apply(s, EnsureEnter(t, key, g)))
  {
    MakeRoomKeeps(s, g);
    var r := MakeRoom(s, g);
    InsertCard(r.windows, t, Starting(key));
    SameHolding(r.tb.watchers, r.windows, r.owner, r.made, t, Starting(key));
  }

  lemma SettleKeeps(r: State, t: Tid, key: Key, w: Watcher)
    requires Inv(r) && |r.tb.watchers| < r.max && key !in r.tb.watchers && t in r.windows
             && r.windows[t] == Started(key, w)
    ensures Inv(Settle(r, t, key, w))
  {
    InsertTableOk(r.tb, r.max, key, w, r.stamp, r.clock);
    InsertOwners(r.tb.watchers, r.windows, r.owner, r.made, t, key);
    InsertCard(r.windows, t, Stopping({}));
  }

  // The watcher that is not wanted stays with its call, which stops it.
  lemma GiveUpKeeps(s: State, t: Tid)
    requires Inv(s) && t in s.windows && s.windows[t].Started?
    ensures Inv(s.(windows := s.windows[t := Stopping({s.windows[t].w})]))
  {
    var c := Stopping({s.windows[t].w});
    InsertCard(s.windows, t, c);
    SameHolding(s.tb.watchers, s.windows, s.owner, s.made, t, c);
  }

  lemma TouchKeeps(s: State, key: Key)
    requires Inv(s) && key in s.tb.watchers
    ensures Inv(Stamped(s.(tb := TouchRoot(s.tb, key)), key))
  {
    TouchTableOk(s.tb, s.max, key, s.stamp, s.clock);
  }

  lemma LeaveKeeps(s: State, t: Tid, locked: bool, g: Tid)
    requires Inv(s) && Enabled(s, EnsureLeave(t, locked, g))
    ensures Inv(Apply(s, EnsureLeave(t, locked, g)))
  {
    var c := s.windows[t];
    if locked && c.key !in s.tb.watchers {
      MakeRoomKeeps(s, g);
      SettleKeeps(MakeRoom(s, g), t, c.key, c.w);
    } else {
      GiveUpKeeps(s, t);
      if locked { TouchKeeps(s.(windows := s.windows[t := Stopping({c.w})]), c.key); }
    }
  }

  lemma EnsureKeeps(s: State, step: Step)
    requires Inv(s) && Enabled(s, step)
    requires step.EnsureTouch? || step.EnsureEnter? || step.EnsureLeave?
    ensures Inv(Apply(s, step))
  {
    match step
    case EnsureTouch(key) => TouchKeeps(s, key);
    case EnsureEnter(t, key, g) => EnterKeeps(s, t, key, g);
    case EnsureLeave(t, locked, g) => LeaveKeeps(s, t, locked, g);
  }

  lemma WindowKeeps(s: State, step: Step)
    requires Inv(s) && Enabled(s, step)
    requires step.Create? || step.Start? || step.StopAll? || step.StopOne? || step.End?
    ensures Inv(Apply(s, step))
  {
    var t := step.t;
    var s' := Apply(s, step);
    if step.End? { RemoveCard(s.windows, t); } else { InsertCard(s.windows, t, s'.windows[t]); }
    match step
    case Create(_, made) =>
      if made.Some? { CreateOwners(s.tb.watchers, s.windows, s.owner, s.made, t, made.value); }
      else { SameHolding(s.tb.watchers, s.windows, s.owner, s.made, t, Stopping({})); }
    case Start(_, ok) => SameHolding(s.tb.watchers, s.windows, s.owner, s.made, t, s'.windows[t]);
    case StopAll(_) => StopAllOwners(s.tb.watchers, s.windows, s.owner, s.made, t);
    case StopOne(_, w) => StopOneOwners(s.tb.watchers, s.windows, s.owner, s.made, t, w);
    case End(_) => EndOwners(s.tb.watchers, s.windows, s.owner, s.made, t);
  }

  lemma StepKeepsInv(s: State, step: Step)
    requires Inv(s) && Enabled(s, step)
    ensures Inv(Apply(s, step))
  {
    if step.EnsureTouch? || step.EnsureEnter? || step.EnsureLeave? { EnsureKeeps(s, step); }
    else { WindowKeeps(s, step); }
  }

  // ---------------------------------------------------------------- whole runs

  ghost predicate Next(s: State, step: Step, s': State) {
    Enabled(s, step) && s' == Apply(s, step)
  }

  // NormalizeStartOptions makes MaxWatchedRoots positive.
  ghost predicate IsRun(states: seq<State>, steps: seq<Step>) {
    && |states| == |steps| + 1
    && (exists max: nat :: max > 0 && states[0] == Init(max))
    && (forall k {:trigger steps[k]} :: 0 <= k < |steps| ==> Next(states[k], steps[k], states[k + 1]))
  }

  lemma NextKeepsInv(s: State, step: Step, s': State)
    ensures Inv(s) && Next(s, step, s') ==> Inv(s')
  {
    if Inv(s) && Next(s, step, s') { StepKeepsInv(s, step); }
  }

  lemma InitInv(max: nat)
    requires max > 0
    ensures Inv(Init(max))
  {
    assert Elements(Init(max).tb.roots) == {};
  }

  lemma RunStarts(states: seq<State>, steps: seq<Step>)
    requires IsRun(states, steps)
    ensures Inv(states[0])
  {
    var max: nat :| max > 0 && states[0] == Init(max);
    InitInv(max);
  }

  lemma {:induction false} RunKeepsInv(states: seq<State>, steps: seq<Step>, k: nat)
    requires IsRun(states, steps) && k < |states|
    ensures Inv(states[k])
  {
    if k == 0 {
      RunStarts(states, steps);
    } else {
      RunKeepsInv(states, steps, k - 1);
      var s, step, s' := states[k - 1], steps[k - 1], states[k];
      assert Next(s, step, s');
      NextKeepsInv(s, step, s');
    }
  }

  // Only its Stop takes a watcher away.
  lemma OwnerStays(s: State, step: Step, w: Watcher)
    requires Enabled(s, step) && w in s.owner && !(step.StopOne? && step.w == w)
    ensures w in Apply(s, step).owner
  {
  }

  ghost predicate StoppedBetween(steps: seq<Step>, w: Watcher, i: nat, k: nat)
    requires k <= |steps|
  {
    exists j :: i < j < k && steps[j].StopOne? && steps[j].w == w
  }

  lemma {:induction false} MadeIsKeptOrStopped(states: seq<State>, steps: seq<Step>, i: nat, k: nat)
    requires IsRun(states, steps) && i < k < |states| && steps[i].Create? && steps[i].made.Some?
    ensures steps[i].made.value in states[k].owner || StoppedBetween(steps, steps[i].made.value, i, k)
    decreases k
  {
    var w := steps[i].made.value;
    assert Next(states[k - 1], steps[k - 1], states[k]);
    if i < k - 1 {
      MadeIsKeptOrStopped(states, steps, i, k - 1);
      if StoppedBetween(steps, w, i, k - 1) {
        var j :| i < j < k - 1 && steps[j].StopOne? && steps[j].w == w;
      } else if !(steps[k - 1].StopOne? && steps[k - 1].w == w) {
        OwnerStays(states[k - 1], steps[k - 1], w);
      }
    }
  }

  lemma IdleHasNoOwners(s: State)
    requires Inv(s) && IdleSnapshot(s)
    ensures s.owner == map[] && s.windows == map[] && s.tb.watchers == map[]
  {
    assert s.windows.Keys == {} && s.tb.watchers.Keys == {};
    assert s.owner.Keys == {};
  }

  /** If the snapshot says idle, every watcher made so far has been stopped: also those evicted, those
      that failed to start, and those that lost the double check; and no call is between its sections. */
  lemma IdleIsTruthful(states: seq<State>, steps: seq<Step>, k: nat)
    requires IsRun(states, steps) && k < |states| && IdleSnapshot(states[k])
    ensures forall i :: 0 <= i < k && steps[i].Create? && steps[i].made.Some? ==>
              StoppedBetween(steps, steps[i].made.value, i, k)
    ensures states[k].owner == map[] && states[k].windows == map[] && states[k].tb.watchers == map[]
  {
    RunKeepsInv(states, steps, k);
    IdleHasNoOwners(states[k]);
    forall i | 0 <= i < k && steps[i].Create? && steps[i].made.Some?
      ensures StoppedBetween(steps, steps[i].made.value, i, k)
    {
      MadeIsKeptOrStopped(states, steps, i, k);
    }
  }

  /** The snapshot says idle exactly when the table is empty and no call is between its sections. */
  lemma IdleExactly(states: seq<State>, steps: seq<Step>, k: nat)
    requires IsRun(states, steps) && k < |states|
    ensures IdleSnapshot(states[k]) <==> states[k].tb.watchers == map[] && states[k].windows == map[]
  {
    RunKeepsInv(states, steps, k);
    if IdleSnapshot(states[k]) { IdleHasNoOwners(states[k]); }
  }

  // ---------------------------------------------------------------- touches, by the steps of a run

  // The root that a step touches: one that is ensured, or whose watcher is put into the table.
  function Touched(s: State, step: Step): Option<Key> {
    if step.EnsureTouch? then Some(step.key)
    else if step.EnsureLeave? && step.locked && step.t in s.windows && s.windows[step.t].Started?
    then Some(s.windows[step.t].key)
    else None
  }

  // How many touches there were in the first `k` steps.
  function Touches(states: seq<State>, steps: seq<Step>, k: nat): nat
    requires |states| == |steps| + 1 && k < |states|
  {
    if k == 0 then 0 else Touches(states, steps, k - 1) + if Touched(states[k - 1], steps[k - 1]).Some? then 1 else 0
  }

  // Which touch was the latest of `key` in the first `k` steps.
  function LastTouch(states: seq<State>, steps: seq<Step>, key: Key, k: nat): Option<nat>
    requires |states| == |steps| + 1 && k < |states|
  {
    if k == 0 then None
    else if Touched(states[k - 1], steps[k - 1]) == Some(key) then Some(Touches(states, steps, k - 1))
    else LastTouch(states, steps, key, k - 1)
  }

  function StampOf(s: State, key: Key): Option<nat> {
    if key in s.stamp then Some(s.stamp[key]) else None
  }

  lemma RoomKeepsStamps(s: State, g: Tid)
    ensures MakeRoom(s, g).stamp == s.stamp && MakeRoom(s, g).clock == s.clock
  {
  }

  lemma TouchStep(s: State, step: Step, key: Key)
    requires Enabled(s, step)
    ensures var s', touched := Apply(s, step), Touched(s, step);
            && s'.clock == s.clock + (if touched.Some? then 1 else 0)
            && StampOf(s', key) == if touched == Some(key) then Some(s.clock) else StampOf(s, key)
  {
    if step.EnsureEnter? || step.EnsureLeave? { RoomKeepsStamps(s, step.g); }
  }

  lemma RunTouchStep(states: seq<State>, steps: seq<Step>, key: Key, k: nat)
    requires IsRun(states, steps) && k < |steps|
    ensures var s, s', touched := states[k], states[k + 1], Touched(states[k], steps[k]);
            && s'.clock == s.clock + (if touched.Some? then 1 else 0)
            && StampOf(s', key) == if touched == Some(key) then Some(s.clock) else StampOf(s, key)
  {
    var step := steps[k];
    assert Next(states[k], step, states[k + 1]);
    TouchStep(states[k], step, key);
  }

  lemma RunStartsEmpty(states: seq<State>, steps: seq<Step>)
    requires IsRun(states, steps)
    ensures states[0].tb.skipped == 0 && states[0].clock == 0 && states[0].stamp == map[]
  {
  }

  lemma {:induction false} StampIsLastTouch(states: seq<State>, steps: seq<Step>, key: Key, k: nat)
    requires IsRun(states, steps) && k < |states|
    ensures states[k].clock == Touches(states, steps, k) && StampOf(states[k], key) == LastTouch(states, steps, key, k)
  {
    if k == 0 {
      RunStartsEmpty(states, steps);
    } else {
      StampIsLastTouch(states, steps, key, k - 1);
      RunTouchStep(states, steps, key, k - 1);
    }
  }

  // Root `a` was last touched before root `b` was.
  ghost predicate TouchedBefore(states: seq<State>, steps: seq<Step>, a: Key, b: Key, k: nat)
    requires |states| == |steps| + 1 && k < |states|
  {
    var x, y := LastTouch(states, steps, a, k), LastTouch(states, steps, b, k);
    x.Some? && y.Some? && x.value < y.value
  }

  /** At every unlock watcherRoots lists the keys of the table once each, at most
      MaxWatchedRoots of them, in the order in which steps of the run last touched them. */
  lemma TableIsTrueLru(states: seq<State>, steps: seq<Step>, k: nat)
    requires IsRun(states, steps) && k < |states|
    ensures var tb := states[k].tb;
            && (forall i, j :: 0 <= i < j < |tb.roots| ==> tb.roots[i] != tb.roots[j])
            && Elements(tb.roots) == tb.watchers.Keys && |tb.roots| == |tb.watchers| <= states[k].max
            && (forall i, j :: 0 <= i < j < |tb.roots| ==> TouchedBefore(states, steps, tb.roots[i], tb.roots[j], k))
  {
    RunKeepsInv(states, steps, k);
    var roots := states[k].tb.roots;
    OrderedListsOnce(roots, states[k].stamp);
    forall i, j | 0 <= i < j < |roots| ensures TouchedBefore(states, steps, roots[i], roots[j], k) {
      StampIsLastTouch(states, steps, roots[i], k);
      StampIsLastTouch(states, steps, roots[j], k);
    }
  }

  // Only MakeRoom and StopWatchers take a root out of the table.
  lemma TableAfter(s: State, step: Step, key: Key)
    requires Enabled(s, step) && !step.StopAll? && key in s.tb.watchers && key !in Apply(s, step).tb.watchers
    ensures exists g :: key !in MakeRoom(s, g).tb.watchers
  {
    match step
    case EnsureEnter(_, _, g) => assert key !in MakeRoom(s, g).tb.watchers;
    case EnsureLeave(_, _, g) => assert key !in MakeRoom(s, g).tb.watchers;
    case _ =>
  }

  lemma LeavingRoot(s: State, g: Tid, key: Key)
    requires Inv(s) && key in s.tb.watchers && key !in MakeRoom(s, g).tb.watchers
    ensures |s.tb.watchers| == s.max && s.tb.roots != [] && key == s.tb.roots[0]
  {
    EvictTableOk(s.tb, s.max, s.stamp, s.clock);
  }

  /** A root leaves the table only when StopWatchers empties it, or when the table is
      full and that root was last touched before every other root in it. */
  lemma EvictionTakesTheOldest(states: seq<State>, steps: seq<Step>, k: nat, key: Key)
    requires IsRun(states, steps) && k < |steps| && !steps[k].StopAll?
    requires key in states[k].tb.watchers && key !in states[k + 1].tb.watchers
    ensures |states[k].tb.watchers| == states[k].max
    ensures forall other :: other in states[k].tb.watchers && other != key ==>
              TouchedBefore(states, steps, key, other, k)
  {
    RunKeepsInv(states, steps, k);
    var s := states[k];
    TableAfter(s, steps[k], key);
    var g :| key !in MakeRoom(s, g).tb.watchers;
    LeavingRoot(s, g, key);
    TableIsTrueLru(states, steps, k);
    forall other | other in s.tb.watchers && other != key ensures TouchedBefore(states, steps, key, other, k) {
      assert other in Elements(s.tb.roots);
      var j :| 0 <= j < |s.tb.roots| && s.tb.roots[j] == other;
    }
  }

  // The step from `s` to `s'` evicts a root.
  ghost predicate Evicts(s: State, step: Step, s': State) {
    !step.StopAll? && exists key :: key in s.tb.watchers && key !in s'.tb.watchers
  }

  ghost function Evictions(states: seq<State>, steps: seq<Step>, k: nat): nat
    requires |states| == |steps| + 1 && k < |states|
  {
    if k == 0 then 0
    else Evictions(states, steps, k - 1) + if Evicts(states[k - 1], steps[k - 1], states[k]) then 1 else 0
  }

  lemma RoomSkips(s: State, g: Tid)
    requires Inv(s)
    ensures var tb' := MakeRoom(s, g).tb;
            && tb'.skipped <= s.tb.skipped + 1
            && (tb'.skipped == s.tb.skipped + 1 <==> exists key :: key in s.tb.watchers && key !in tb'.watchers)
            && tb'.skipped >= s.tb.skipped
  {
    if s.tb.roots != [] { assert s.tb.roots[0] in Elements(s.tb.roots); }
  }

  lemma SkipStep(s: State, step: Step)
    requires Inv(s) && Enabled(s, step)
    ensures Apply(s, step).tb.skipped == s.tb.skipped + if Evicts(s, step, Apply(s, step)) then 1 else 0
  {
    match step
    case EnsureEnter(_, _, g) => RoomSkips(s, g);
    case EnsureLeave(t, _, g) =>
      RoomSkips(s, g);
      assert s.windows[t].key !in s.tb.watchers ==>
        forall key :: key in s.tb.watchers ==> key != s.windows[t].key;
    case _ =>
  }

  lemma RunSkipStep(states: seq<State>, steps: seq<Step>, k: nat)
    requires IsRun(states, steps) && k < |steps|
    ensures states[k + 1].tb.skipped
            == states[k].tb.skipped + if Evicts(states[k], steps[k], states[k + 1]) then 1 else 0
  {
    var step := steps[k];
    assert Next(states[k], step, states[k + 1]);
    RunKeepsInv(states, steps, k);
    SkipStep(states[k], step);
  }

  /** The counter of skipped roots is the number of evictions. */
  lemma {:induction false} SkippedCountsEvictions(states: seq<State>, steps: seq<Step>, k: nat)
    requires IsRun(states, steps) && k < |states|
    ensures states[k].tb.skipped == Evictions(states, steps, k)
  {
    if k == 0 {
      RunStartsEmpty(states, steps);
    } else {
      RunSkipStep(states, steps, k - 1);
      SkippedCountsEvictions(states, steps, k - 1);
    }
  }

  // Call `t` entered for `key` at step `i`, and is between its sections up to state `k`.
  ghost predicate SameEnsure(states: seq<State>, steps: seq<Step>, t: Tid, key: Key, i: nat, k: nat) {
    && i < k < |states| == |steps| + 1
    && steps[i].EnsureEnter? && steps[i].t == t && steps[i].key == key
    && forall j :: i < j <= k ==> t in states[j].windows && !states[j].windows[t].Stopping?
  }

  lemma WindowStep(s: State, step: Step, t: Tid)
    requires Enabled(s, step) && t in s.windows && !s.windows[t].Stopping?
    requires t in Apply(s, step).windows && !Apply(s, step).windows[t].Stopping?
    ensures Apply(s, step).windows[t].key == s.windows[t].key
    ensures !Apply(s, step).windows[t].Starting? && !s.windows[t].Starting? ==>
              Apply(s, step).windows[t].w == s.windows[t].w
  {
  }

  lemma {:induction false} WindowHasKey(states: seq<State>, steps: seq<Step>, t: Tid, key: Key, i: nat, k: nat)
    requires IsRun(states, steps) && SameEnsure(states, steps, t, key, i, k)
    ensures states[k].windows[t].key == key
    decreases k
  {
    var step := steps[k - 1];
    assert Next(states[k - 1], step, states[k]);
    if i + 1 < k {
      WindowHasKey(states, steps, t, key, i, k - 1);
      WindowStep(states[k - 1], step, t);
    }
  }

  /** A call that ensures a root and gets its second section leaves the root watched: by the watcher that was
      there already, or by its own. */
  lemma EnsuredIsWatched(states: seq<State>, steps: seq<Step>, t: Tid, key: Key, i: nat, k: nat)
    requires IsRun(states, steps) && k < |steps| && SameEnsure(states, steps, t, key, i, k)
    requires steps[k].EnsureLeave? && steps[k].t == t && steps[k].locked
    ensures states[k].windows[t].Started? && key in states[k + 1].tb.watchers
    ensures states[k + 1].tb.watchers[key]
            == if key in states[k].tb.watchers then states[k].tb.watchers[key] else states[k].windows[t].w
  {
    var step := steps[k];
    assert Next(states[k], step, states[k + 1]);
    WindowHasKey(states, steps, t, key, i, k);
  }

  // ---------------------------------------------------------------- the object

  /** The watcher half of the manager: each method is one critical section. */
  class Manager {
    const max: nat
    var watchers: map<Key, Watcher>
    var watcherRoots: seq<Key>
    var skippedWatchers: nat
    var watcherTransitions: int

    function View(): Table
      reads this
    {
      Table(watchers, watcherRoots, skippedWatchers)
    }

    constructor (max: nat)
      ensures this.max == max && View() == Init(max).tb && watcherTransitions == 0
    {
      this.max := max;
      watchers, watcherRoots, skippedWatchers, watcherTransitions := map[], [], 0, 0;
    }

    method TouchWatcherLocked(key: Key)
      modifies this
      ensures View() == TouchRoot(old(View()), key) && watcherTransitions == old(watcherTransitions)
    {
      var i := 0;
      while i < |watcherRoots|
        invariant 0 <= i <= |watcherRoots| && key !in watcherRoots[..i]
        invariant View() == old(View()) && watcherTransitions == old(watcherTransitions)
      {
        if watcherRoots[i] == key {
          RemoveFirstAt(watcherRoots, key, i);
          watcherRoots := watcherRoots[..i] + watcherRoots[i + 1..] + [key];
          return;
        }
        i := i + 1;
      }
      assert watcherRoots[..i] == watcherRoots;
      RemoveFirstAbsent(watcherRoots, key);
      watcherRoots := watcherRoots + [key];
    }

    // Returns the watcher that a goroutine is to stop.
    method EvictWatcherLocked() returns (victim: Option<Watcher>)
      modifies this
      ensures View() == Evict(old(View())) && victim == Victim(old(View()))
      ensures watcherTransitions == old(watcherTransitions) + if victim.Some? then 1 else 0
    {
      if |watcherRoots| == 0 { return None; }
      var victimKey := watcherRoots[0];
      watcherRoots := watcherRoots[1..];
      if victimKey !in watchers { return None; }
      victim := Some(watchers[victimKey]);
      watchers := watchers - {victimKey};
      skippedWatchers := skippedWatchers + 1;
      watcherTransitions := watcherTransitions + 1;
    }

    method MakeRoomLocked() returns (victim: Option<Watcher>)
      modifies this
      ensures old(|watchers| < max) ==> View() == old(View()) && victim == None
      ensures !old(|watchers| < max) ==> View() == Evict(old(View())) && victim == Victim(old(View()))
      ensures watcherTransitions == old(watcherTransitions) + if victim.Some? then 1 else 0
    {
      victim := None;
      if |watchers| >= max { victim := EvictWatcherLocked(); }
    }

    // The first critical section of EnsureFileWatcherContext.
    method EnsureEnter(key: Key) returns (present: bool, victim: Option<Watcher>)
      modifies this
      ensures present <==> key in old(watchers)
      ensures present ==> View() == TouchRoot(old(View()), key) && watcherTransitions == old(watcherTransitions)
      ensures !present ==>
                && View() == (if old(|watchers| < max) then old(View()) else Evict(old(View())))
                && watcherTransitions == old(watcherTransitions) + 1 + if victim.Some? then 1 else 0
      ensures victim == if present || old(|watchers| < max) then None else Victim(old(View()))
    {
      present, victim := key in watchers, None;
      if present {
        TouchWatcherLocked(key);
        return;
      }
      victim := MakeRoomLocked();
      watcherTransitions := watcherTransitions + 1;
    }

    // The second critical section; when `lost`, the caller stops its own watcher.
    method EnsureLeave(key: Key, w: Watcher) returns (lost: bool, victim: Option<Watcher>)
      modifies this
      ensures lost <==> key in old(watchers)
      ensures View() == if lost then TouchRoot(old(View()), key)
                        else Insert(if old(|watchers| < max) then old(View()) else Evict(old(View())), key, w)
      ensures victim == if lost || old(|watchers| < max) then None else Victim(old(View()))
      ensures watcherTransitions == old(watcherTransitions) + if victim.Some? then 1 else 0
    {
      lost, victim := key in watchers, None;
      if lost {
        TouchWatcherLocked(key);
        return;
      }
      victim := MakeRoomLocked();
      watchers := watchers[key := w];
      watcherRoots := watcherRoots + [key];
    }

    method StopWatchers() returns (ws: set<Watcher>)
      modifies this
      ensures ws == old(watchers).Values
      ensures View() == old(View()).(watchers := map[], roots := [])
      ensures watcherTransitions == old(watcherTransitions) + 1
    {
      ws := watchers.Values;
      watchers, watcherRoots := map[], [];
      watcherTransitions := watcherTransitions + 1;
    }

    method UpdateIdleSnapshot(runtimes: nat) returns (idle: bool)
      ensures idle <==> runtimes == 0 && watchers == map[] && watcherTransitions == 0
    {
      idle := runtimes == 0 && |watchers| == 0 && watcherTransitions == 0;
      if |watchers| == 0 { assert watchers.Keys == {}; }
    }
  }
}
