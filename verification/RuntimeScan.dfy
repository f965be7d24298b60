/**
 The runtime pool's critical sections taken apart.  Releasing a runtime and
 noting its last use take no lock, so they can fall inside a section that walks
 over the pool.  Here a section looks at one runtime at a time and closes it in
 a later step, with such unlocked steps anywhere in between.

 A section keeps a record of what it read and when.  The record decides nothing;
 it is proved to be what the run's own steps read.
 */
module RuntimeScan {
  import opened Common
  import P = RuntimePool

  type Key = P.Key

  // What leastRecentlyUsedIdleRuntime read of one runtime, and at which step.
  datatype Reading = Reading(at: nat, busy: bool, used: int)

  datatype Scan = Scan(began: nat, seen: map<Key, Reading>)

  // What the per-runtime memory loop read of a runtime it did not close.
  datatype Weight = Weight(at: nat, busy: bool, memory: nat)

  // One call of enforceIdleMemoryBoundsLocked; a total of 0 means none.
  datatype Bounds = Bounds(maxBytes: nat, totalBytes: nat, weighed: map<Key, Weight>)

  // What a scan is for: room in the pool, or a total that fits.
  datatype Purpose = Room | Fit(b: Bounds)

  // A section that enforced the bounds leaves with them, and with the scan that found nothing to close, if any.
  datatype Report = Plain | Bounded(b: Bounds, last: Option<Scan>)

  // Where the holder of the lock is.
  datatype Phase =
    | Free
    | Entered
    | Scanning(why: Purpose, sc: Scan, rest: set<Key>, best: Option<Key>, used: int)
    | Scanned(why: Purpose, sc: Scan, victim: Option<Key>)
    | MayMake
    | Made
    | Reaping(now: int, timeout: int, rest: set<Key>)
    | Weighing(b: Bounds, rest: set<Key>)
    | Condemned(key: Key, back: Phase)    // found idle by a loop, before its Close
    | Totalling(b: Bounds)
    | Leaving(report: Report)

  datatype State = State(p: P.Pool, clock: nat, lockedAt: nat, phase: Phase)

  const EMPTY_POOL := P.Pool(map[], map[], map[], {}, {})

  datatype Step =
    | Lock
    | Unlock
    | Reuse(key: Key, now: int, c: Option<P.CallId>)
    | Remove(keys: set<Key>, rs: set<P.Rid>)                 // a failed Kotlin call, or Shutdown
    | Restat(r: P.Rid, memory: nat, cachedAt: int)           // updateStatusContext sees another process
    | BeginScan
    | Look(key: Key)
    | EndScan
    | CloseVictim
    | HasRoom
    | Make(key: Key, r: P.Rid, now: int, memory: nat, c: Option<P.CallId>)
    | MakeFails
    | BeginReap(now: int, timeout: int)
    | ReapLook(key: Key)
    | BeginBounds(now: int, sample: map<P.Rid, nat>, maxBytes: nat, totalBytes: nat)
    | Weigh(key: Key)
    | EndWeigh
    | Fits
    | CloseCondemned
    | Unlocked(step: P.Step)                                 // a release, or a note of the last use

  predicate Known(p: P.Pool, key: Key) {
    key in p.runtimes && p.runtimes[key] in p.info
  }

  ghost function TotalOf(p: P.Pool): nat {
    P.Total(p, p.runtimes.Keys)
  }

  ghost predicate Enabled(s: State, max: nat, step: Step) {
    match step
    case Lock => s.phase.Free?
    case Unlock => s.phase.Leaving?
    case Reuse(key, _, c) => s.phase.Entered? && Known(s.p, key) && (c.Some? ==> c.value !in s.p.calls)
    case Remove(_, _) => s.phase.Entered?
    case Restat(r, _, _) => s.phase.Entered? && r in s.p.info
    case BeginScan =>
      || (s.phase.Entered? && |s.p.runtimes| >= max)
      || (s.phase.Totalling? && TotalOf(s.p) > s.phase.b.totalBytes)
    case Look(key) => s.phase.Scanning? && key in s.phase.rest && Known(s.p, key)
    case EndScan => s.phase.Scanning? && s.phase.rest == {}
    case CloseVictim => s.phase.Scanned?
    case HasRoom => s.phase.Entered? && |s.p.runtimes| < max
    case Make(key, r, _, _, c) =>
      s.phase.MayMake? && key !in s.p.runtimes && r !in s.p.info && (c.Some? ==> c.value !in s.p.calls)
    case MakeFails => s.phase.MayMake?
    case BeginReap(_, _) => s.phase.Entered?
    case ReapLook(key) => s.phase.Reaping? && key in s.phase.rest && Known(s.p, key)
    case BeginBounds(_, _, _, _) => s.phase.Made? || (s.phase.Reaping? && s.phase.rest == {})
    case Weigh(key) => s.phase.Weighing? && key in s.phase.rest && Known(s.p, key)
    case EndWeigh => s.phase.Weighing? && s.phase.rest == {}
    case Fits => s.phase.Totalling? && TotalOf(s.p) <= s.phase.b.totalBytes
    case CloseCondemned => s.phase.Condemned?
    case Unlocked(step) => (step.End? || step.MarkUsed?) && P.Enabled(s.p, max, step)
  }

  ghost function ApplyPool(s: State, max: nat, step: Step): P.Pool
    requires Enabled(s, max, step)
  {
    match step
    case Reuse(key, now, c) => P.Called(P.Used(s.p, s.p.runtimes[key], now), c, s.p.runtimes[key])
    case Remove(keys, rs) => P.Break(s.p, keys, rs)
    case Restat(r, memory, cachedAt) =>
      s.p.(info := s.p.info[r := s.p.info[r].(memory := memory, cachedAt := cachedAt)])
    case CloseVictim => P.Retire(s.p, P.Evicted(s.phase.victim))
    case Make(key, r, now, memory, c) => P.Called(P.Add(s.p, key, r, now, memory), c, r)
    case BeginBounds(now, sample, _, _) => P.Refreshed(s.p, now, sample)
    case CloseCondemned => P.Retire(s.p, {s.phase.key})
    case Unlocked(step) => P.Apply(s.p, max, step)
    case _ => s.p
  }

  function AfterLook(s: State, key: Key): Phase
    requires s.phase.Scanning?
  {
    var ph, idle, used := s.phase, P.IsIdle(s.p, key), P.LastUsed(s.p, key);
    var sc := ph.sc.(seen := ph.sc.seen[key := Reading(s.clock, !idle, used)]);
    if idle && (ph.best.None? || used < ph.used) then Scanning(ph.why, sc, ph.rest - {key}, Some(key), used)
    else Scanning(ph.why, sc, ph.rest - {key}, ph.best, ph.used)
  }

  function AfterWeigh(s: State, key: Key): Phase
    requires s.phase.Weighing?
  {
    var b, rest, idle, memory := s.phase.b, s.phase.rest - {key}, P.IsIdle(s.p, key), P.MemoryOf(s.p, key);
    if idle && memory > b.maxBytes then Condemned(key, Weighing(b, rest))
    else Weighing(b.(weighed := b.weighed[key := Weight(s.clock, !idle, memory)]), rest)
  }

  function AfterReapLook(s: State, key: Key): Phase
    requires s.phase.Reaping?
  {
    var back := Reaping(s.phase.now, s.phase.timeout, s.phase.rest - {key});
    if P.IsIdle(s.p, key) && s.phase.now - P.LastUsed(s.p, key) > s.phase.timeout then Condemned(key, back) else back
  }

  function AfterScan(ph: Phase): Phase
    requires ph.Scanned?
  {
    match ph.why
    case Room => MayMake
    case Fit(b) => if ph.victim.Some? then Totalling(b) else Leaving(Bounded(b, Some(ph.sc)))
  }

  ghost function ApplyPhase(s: State, max: nat, step: Step): Phase
    requires Enabled(s, max, step)
  {
    match step
    case Lock => Entered
    case Unlock => Free
    case Reuse(_, _, _) => Leaving(Plain)
    case Remove(_, _) => Leaving(Plain)
    case Restat(_, _, _) => Leaving(Plain)
    case BeginScan =>
      Scanning(if s.phase.Entered? then Room else Fit(s.phase.b), Scan(s.clock, map[]), s.p.runtimes.Keys, None, 0)
    case Look(key) => AfterLook(s, key)
    case EndScan => Scanned(s.phase.why, s.phase.sc, s.phase.best)
    case CloseVictim => AfterScan(s.phase)
    case HasRoom => MayMake
    case Make(_, _, _, _, _) => Made
    case MakeFails => Leaving(Plain)
    case BeginReap(now, timeout) => Reaping(now, timeout, s.p.runtimes.Keys)
    case ReapLook(key) => AfterReapLook(s, key)
    case BeginBounds(_, _, maxBytes, totalBytes) => Weighing(Bounds(maxBytes, totalBytes, map[]), s.p.runtimes.Keys)
    case Weigh(key) => AfterWeigh(s, key)
    case EndWeigh => if s.phase.b.totalBytes == 0 then Leaving(Bounded(s.phase.b, None)) else Totalling(s.phase.b)
    case Fits => Leaving(Bounded(s.phase.b, None))
    case CloseCondemned => s.phase.back
    case Unlocked(_) => s.phase
  }

  ghost function Apply(s: State, max: nat, step: Step): State
    requires Enabled(s, max, step)
  {
    State(ApplyPool(s, max, step), s.clock + 1, if step.Lock? then s.clock else s.lockedAt, ApplyPhase(s, max, step))
  }

  // ---------------------------------------------------------------- what a section knows

  // A runtime that was weighed and left, as it still is.
  ghost predicate WeighedOk(p: P.Pool, b: Bounds, key: Key) {
    && key in b.weighed && b.weighed[key].memory == P.MemoryOf(p, key)
    && (b.weighed[key].busy || b.weighed[key].memory <= b.maxBytes)
  }

  ghost predicate AllWeighed(p: P.Pool, b: Bounds, but: set<Key>) {
    forall k :: k in p.runtimes && k !in but ==> WeighedOk(p, b, k)
  }

  ghost predicate PurposeOk(p: P.Pool, why: Purpose) {
    why.Fit? ==> AllWeighed(p, why.b, {}) && why.b.totalBytes > 0
  }

  // The best so far is idle and was read as used no later than any other read as idle.
  ghost predicate BestOk(p: P.Pool, seen: map<Key, Reading>, best: Option<Key>) {
    && (best.None? ==> forall k :: k in seen ==> seen[k].busy)
    && (best.Some? ==>
          && P.IsIdle(p, best.value) && best.value in seen && !seen[best.value].busy
          && forall k :: k in seen && !seen[k].busy ==> seen[best.value].used <= seen[k].used)
  }

  ghost predicate ScanOk(p: P.Pool, sc: Scan, rest: set<Key>) {
    sc.seen.Keys !! rest && forall k :: k in p.runtimes && k !in rest ==> k in sc.seen
  }

  ghost predicate ReportOk(p: P.Pool, report: Report) {
    report.Bounded? ==>
      && AllWeighed(p, report.b, {})
      && (report.last.None? ==> report.b.totalBytes == 0 || TotalOf(p) <= report.b.totalBytes)
      && (report.last.Some? ==>
            report.b.totalBytes > 0 && ScanOk(p, report.last.value, {}) && BestOk(p, report.last.value.seen, None))
  }

  ghost predicate LoopOk(p: P.Pool, ph: Phase, but: set<Key>) {
    && (ph.Reaping? || ph.Weighing?)
    && (ph.Weighing? ==> AllWeighed(p, ph.b, ph.rest + but))
  }

  ghost predicate PhaseOk(p: P.Pool, ph: Phase) {
    match ph
    case Scanning(why, sc, rest, best, used) =>
      && PurposeOk(p, why) && ScanOk(p, sc, rest) && BestOk(p, sc.seen, best)
      && (best.Some? ==> used == sc.seen[best.value].used)
    case Scanned(why, sc, victim) => PurposeOk(p, why) && ScanOk(p, sc, {}) && BestOk(p, sc.seen, victim)
    case Reaping(_, _, _) => true
    case Weighing(_, _) => LoopOk(p, ph, {})
    case Condemned(key, back) => P.IsIdle(p, key) && LoopOk(p, back, {key})
    case Totalling(b) => AllWeighed(p, b, {}) && b.totalBytes > 0
    case Leaving(report) => ReportOk(p, report)
    case _ => true
  }

  ghost predicate Inv(s: State) {
    P.Inv(s.p) && PhaseOk(s.p, s.phase)
  }

  // ---------------------------------------------------------------- unlocked steps

  ghost predicate Quieter(p: P.Pool, p': P.Pool) {
    && p'.runtimes == p.runtimes && p'.info.Keys == p.info.Keys
    && (forall r :: r in p.info ==> p'.info[r].active <= p.info[r].active && p'.info[r].memory == p.info[r].memory)
  }

  lemma UnlockedIsQuieter(p: P.Pool, max: nat, step: P.Step)
    requires P.Enabled(p, max, step) && (step.End? || step.MarkUsed?)
    ensures Quieter(p, P.Apply(p, max, step))
  {
  }

  lemma QuieterKeeps(p: P.Pool, p': P.Pool)
    requires Quieter(p, p')
    ensures forall k :: P.IsIdle(p, k) ==> P.IsIdle(p', k)
    ensures forall k :: P.MemoryOf(p', k) == P.MemoryOf(p, k)
    ensures TotalOf(p') == TotalOf(p)
  {
    P.TotalSame(p, p', p.runtimes.Keys);
  }

  /** A release or a note of the last use spoils nothing a section has found out. */
  lemma PhaseSurvivesUnlocked(p: P.Pool, p': P.Pool, ph: Phase)
    requires PhaseOk(p, ph) && Quieter(p, p')
    ensures PhaseOk(p', ph)
  {
    QuieterKeeps(p, p');
  }

  // ---------------------------------------------------------------- steps of the section

  lemma LookOk(s: State, max: nat, key: Key)
    requires Inv(s) && Enabled(s, max, Look(key))
    ensures PhaseOk(s.p, AfterLook(s, key))
  {
  }

  lemma WeighOk(s: State, max: nat, key: Key)
    requires Inv(s) && Enabled(s, max, Weigh(key))
    ensures PhaseOk(s.p, AfterWeigh(s, key))
  {
  }

  lemma RetiredMemory(p: P.Pool, keys: set<Key>)
    ensures forall k :: k !in keys ==> P.MemoryOf(P.Retire(p, keys), k) == P.MemoryOf(p, k)
    ensures P.Retire(p, keys).runtimes.Keys == p.runtimes.Keys - keys
  {
  }

  lemma CloseVictimKeeps(s: State, max: nat)
    requires Inv(s) && Enabled(s, max, CloseVictim)
    ensures Inv(Apply(s, max, CloseVictim))
  {
    var victim := s.phase.victim;
    RetiredMemory(s.p, P.Evicted(victim));
    if victim.Some? { P.RetireKeeps(s.p, {victim.value}); } else { P.RetireNone(s.p); }
  }

  lemma LoopAfterClose(p: P.Pool, back: Phase, key: Key)
    requires LoopOk(p, back, {key})
    ensures LoopOk(P.Retire(p, {key}), back, {})
  {
    RetiredMemory(p, {key});
    if back.Weighing? {
      forall k | k in P.Retire(p, {key}).runtimes && k !in back.rest ensures WeighedOk(P.Retire(p, {key}), back.b, k) {
        assert WeighedOk(p, back.b, k);
      }
    }
  }

  lemma CloseCondemnedKeeps(s: State, max: nat)
    requires Inv(s) && Enabled(s, max, CloseCondemned)
    ensures Inv(Apply(s, max, CloseCondemned))
  {
    LoopAfterClose(s.p, s.phase.back, s.phase.key);
    P.RetireKeeps(s.p, {s.phase.key});
  }

  lemma MakeKeeps(s: State, max: nat, step: Step)
    requires Inv(s) && Enabled(s, max, step) && step.Make?
    ensures Inv(Apply(s, max, step))
  {
    P.AddKeeps(s.p, step.key, step.r, step.now, step.memory);
    P.CalledKeeps(P.Add(s.p, step.key, step.r, step.now, step.memory), step.c, step.key);
  }

  lemma UnlockedKeeps(s: State, max: nat, step: P.Step)
    requires Inv(s) && Enabled(s, max, Unlocked(step))
    ensures Inv(Apply(s, max, Unlocked(step)))
  {
    P.StepKeepsInv(s.p, max, step);
    UnlockedIsQuieter(s.p, max, step);
    PhaseSurvivesUnlocked(s.p, P.Apply(s.p, max, step), s.phase);
  }

  lemma StepKeepsInv(s: State, max: nat, step: Step)
    requires Inv(s) && Enabled(s, max, step)
    ensures Inv(Apply(s, max, step))
  {
    match step
    case Reuse(key, now, c) => P.CalledKeeps(P.Used(s.p, s.p.runtimes[key], now), c, key);
    case Look(key) => LookOk(s, max, key);
    case CloseVictim => CloseVictimKeeps(s, max);
    case Make(_, _, _, _, _) => MakeKeeps(s, max, step);
    case BeginBounds(now, sample, _, _) => P.RefreshKeeps(s.p, now, sample);
    case Weigh(key) => WeighOk(s, max, key);
    case CloseCondemned => CloseCondemnedKeeps(s, max);
    case Unlocked(inner) => UnlockedKeeps(s, max, inner);
    case _ =>
  }

  // ---------------------------------------------------------------- whole runs

  ghost predicate Next(s: State, max: nat, step: Step, s': State) {
    Enabled(s, max, step) && s' == Apply(s, max, step)
  }

  ghost predicate StepAt(states: seq<State>, max: nat, steps: seq<Step>, k: nat)
    requires k < |steps| && |states| == |steps| + 1
  {
    Next(states[k], max, steps[k], states[k + 1])
  }

  ghost predicate IsRun(states: seq<State>, max: nat, steps: seq<Step>) {
    && |states| == |steps| + 1
    && states[0] == State(EMPTY_POOL, 0, 0, Free)
    && (forall k: nat :: k < |steps| ==> StepAt(states, max, steps, k))
  }

  lemma {:induction false} RunKeepsInv(states: seq<State>, max: nat, steps: seq<Step>, k: nat)
    requires IsRun(states, max, steps) && k < |states|
    ensures Inv(states[k]) && states[k].clock == k
  {
    if k > 0 {
      RunKeepsInv(states, max, steps, k - 1);
      assert StepAt(states, max, steps, k - 1);
      StepKeepsInv(states[k - 1], max, steps[k - 1]);
    }
  }

  /** With releases anywhere inside a section, activeCalls is still the number of calls in flight, and no
      runtime that eviction, reaping or a memory bound has closed has one. */
  lemma CallsAreNeverStranded(states: seq<State>, max: nat, steps: seq<Step>, k: nat, r: P.Rid)
    requires IsRun(states, max, steps) && k < |states| && r in states[k].p.info
    ensures states[k].p.info[r].active == |P.InFlight(states[k].p.calls, r)|
    ensures r in states[k].p.retired ==> states[k].p.info[r].active == 0
  {
    RunKeepsInv(states, max, steps, k);
    if r in states[k].p.retired { assert P.InFlight(states[k].p.calls, r) == {}; }
  }

  // ---------------------------------------------------------------- what lies between two states

  // The step makes no runtime, begins no call, measures nothing, and removes only what is idle.
  predicate OnlyCloses(step: Step) {
    !(step.Make? || step.Reuse? || step.Remove? || step.Restat? || step.BeginBounds?)
  }

  // From `p` to `p'` runtimes have only gone and calls have only ended.
  ghost predicate Since(p: P.Pool, p': P.Pool) {
    && (forall k :: k in p'.runtimes ==> k in p.runtimes && p.runtimes[k] == p'.runtimes[k])
    && p'.info.Keys == p.info.Keys
    && (forall r :: r in p.info ==> p'.info[r].active <= p.info[r].active && p'.info[r].memory == p.info[r].memory)
  }

  lemma SinceStep(s: State, max: nat, step: Step)
    requires Enabled(s, max, step) && OnlyCloses(step)
    ensures Since(s.p, Apply(s, max, step).p)
  {
    if step.Unlocked? { UnlockedIsQuieter(s.p, max, step.step); }
  }

  lemma SinceTransitive(p: P.Pool, q: P.Pool, r: P.Pool)
    requires Since(p, q) && Since(q, r)
    ensures Since(p, r)
  {
  }

  ghost predicate ClosesFrom(steps: seq<Step>, i: nat, k: nat) {
    i <= k <= |steps| && forall n :: i <= n < k ==> OnlyCloses(steps[n])
  }

  lemma {:induction false} SinceRun(states: seq<State>, max: nat, steps: seq<Step>, i: nat, k: nat)
    requires IsRun(states, max, steps) && ClosesFrom(steps, i, k)
    ensures Since(states[i].p, states[k].p)
    decreases k
  {
    if i < k {
      SinceRun(states, max, steps, i, k - 1);
      assert StepAt(states, max, steps, k - 1);
      SinceStep(states[k - 1], max, steps[k - 1]);
      SinceTransitive(states[i].p, states[k - 1].p, states[k].p);
    }
  }

  lemma BusyBefore(p: P.Pool, p': P.Pool, key: Key)
    requires Since(p, p') && key in p'.runtimes && p'.runtimes[key] in p'.info && !P.IsIdle(p', key)
    ensures !P.IsIdle(p, key)
  {
  }

  // ---------------------------------------------------------------- the records are what was read

  function ScanOf(ph: Phase): Option<Scan> {
    if ph.Scanning? || ph.Scanned? then Some(ph.sc)
    else if ph.Leaving? && ph.report.Bounded? then ph.report.last
    else None
  }

  // A loop goes back to itself.
  predicate BackOk(ph: Phase) {
    ph.Condemned? ==> ph.back.Reaping? || ph.back.Weighing?
  }

  function ReadingOf(s: State, key: Key): Reading {
    Reading(s.clock, !P.IsIdle(s.p, key), P.LastUsed(s.p, key))
  }

  // How step `step` from `s` comes to leave scan `sc`: it begins it, keeps it, or looks at one more runtime.
  predicate ScanMoves(s: State, step: Step, sc: Scan) {
    || (step == BeginScan && sc == Scan(s.clock, map[]))
    || (step != BeginScan && !step.Look? && ScanOf(s.phase) == Some(sc) && OnlyCloses(step))
    || (step.Look? && ScanOf(s.phase).Some? && Known(s.p, step.key)
        && var was := ScanOf(s.phase).value; sc == Scan(was.began, was.seen[step.key := ReadingOf(s, step.key)]))
  }

  lemma ScanStep(s: State, max: nat, step: Step, sc: Scan)
    requires BackOk(s.phase) && Enabled(s, max, step) && ScanOf(ApplyPhase(s, max, step)) == Some(sc)
    ensures ScanMoves(s, step, sc)
  {
  }

  // The reading of `key` is that of a Look step of the scan that began at `began`.
  ghost predicate ReadAt(states: seq<State>, steps: seq<Step>, began: nat, key: Key, r: Reading, k: nat)
    requires |states| == |steps| + 1 && k < |states|
  {
    && began < r.at < k && steps[r.at] == Look(key) && Known(states[r.at].p, key)
    && r.busy == !P.IsIdle(states[r.at].p, key) && r.used == P.LastUsed(states[r.at].p, key)
  }

  ghost predicate ScanIs(states: seq<State>, steps: seq<Step>, sc: Scan, k: nat)
    requires |states| == |steps| + 1 && k < |states|
  {
    && sc.began < k && steps[sc.began] == BeginScan && ClosesFrom(steps, sc.began, k)
    && forall key :: key in sc.seen ==> ReadAt(states, steps, sc.began, key, sc.seen[key], k)
  }

  lemma ScanLater(states: seq<State>, steps: seq<Step>, sc: Scan, k: nat)
    requires |states| == |steps| + 1 && k < |steps| && ScanIs(states, steps, sc, k) && OnlyCloses(steps[k])
    ensures ScanIs(states, steps, sc, k + 1)
  {
    assert forall key :: key in sc.seen ==> ReadAt(states, steps, sc.began, key, sc.seen[key], k);
  }

  lemma ScanLooked(states: seq<State>, steps: seq<Step>, sc: Scan, key: Key, r: Reading, k: nat)
    requires |states| == |steps| + 1 && k < |steps| && ScanIs(states, steps, sc, k) && OnlyCloses(steps[k])
    requires r.at == k && ReadAt(states, steps, sc.began, key, r, k + 1)
    ensures ScanIs(states, steps, Scan(sc.began, sc.seen[key := r]), k + 1)
  {
    ScanLater(states, steps, sc, k);
  }

  lemma RunStep(states: seq<State>, max: nat, steps: seq<Step>, k: nat)
    requires IsRun(states, max, steps) && k < |steps|
    ensures Next(states[k], max, steps[k], states[k + 1]) && states[k].clock == k && BackOk(states[k].phase)
  {
    RunKeepsInv(states, max, steps, k);
    assert StepAt(states, max, steps, k);
  }

  lemma RunScanStep(states: seq<State>, max: nat, steps: seq<Step>, sc: Scan, k: nat)
    requires IsRun(states, max, steps) && k < |steps| && ScanOf(states[k + 1].phase) == Some(sc)
    ensures ScanMoves(states[k], steps[k], sc) && states[k].clock == k
  {
    RunStep(states, max, steps, k);
    ScanStep(states[k], max, steps[k], sc);
  }

  lemma {:induction false} ScansAre(states: seq<State>, max: nat, steps: seq<Step>, sc: Scan, k: nat)
    requires IsRun(states, max, steps) && k < |states| && ScanOf(states[k].phase) == Some(sc)
    ensures ScanIs(states, steps, sc, k)
    decreases k
  {
    if k > 0 {
      var s, step := states[k - 1], steps[k - 1];
      RunScanStep(states, max, steps, sc, k - 1);
      if step != BeginScan {
        var was := ScanOf(s.phase).value;
        ScansAre(states, max, steps, was, k - 1);
        if step.Look? {
          ScanLooked(states, steps, was, step.key, ReadingOf(s, step.key), k - 1);
        } else {
          ScanLater(states, steps, was, k - 1);
        }
      }
    }
  }

  function BoundsOf(ph: Phase): Option<Bounds> {
    match ph
    case Weighing(b, _) => Some(b)
    case Condemned(_, back) => if back.Weighing? then Some(back.b) else None
    case Totalling(b) => Some(b)
    case Scanning(why, _, _, _, _) => if why.Fit? then Some(why.b) else None
    case Scanned(why, _, _) => if why.Fit? then Some(why.b) else None
    case Leaving(report) => if report.Bounded? then Some(report.b) else None
    case _ => None
  }

  function WeightOf(s: State, key: Key): Weight {
    Weight(s.clock, !P.IsIdle(s.p, key), P.MemoryOf(s.p, key))
  }

  // How step `step` from `s` comes to leave bounds `b`: it begins them, keeps them, or weighs one more runtime.
  predicate BoundsMove(s: State, step: Step, b: Bounds) {
    || b.weighed == map[]
    || (BoundsOf(s.phase) == Some(b) && OnlyCloses(step))
    || (step.Weigh? && BoundsOf(s.phase).Some? && Known(s.p, step.key)
        && var was := BoundsOf(s.phase).value; b == was.(weighed := was.weighed[step.key := WeightOf(s, step.key)]))
  }

  lemma BoundsStep(s: State, max: nat, step: Step, b: Bounds)
    requires BackOk(s.phase) && Enabled(s, max, step) && BoundsOf(ApplyPhase(s, max, step)) == Some(b)
    ensures BoundsMove(s, step, b)
  {
  }

  // The weight of `key` is that of a Weigh step, and since then the section has only closed runtimes.
  ghost predicate WeighedAt(states: seq<State>, steps: seq<Step>, key: Key, w: Weight, k: nat)
    requires |states| == |steps| + 1 && k < |states|
  {
    && w.at < k && steps[w.at] == Weigh(key) && Known(states[w.at].p, key) && ClosesFrom(steps, w.at, k)
    && w.busy == !P.IsIdle(states[w.at].p, key) && w.memory == P.MemoryOf(states[w.at].p, key)
  }

  ghost predicate WeightsAt(states: seq<State>, steps: seq<Step>, b: Bounds, k: nat)
    requires |states| == |steps| + 1 && k < |states|
  {
    forall key :: key in b.weighed ==> WeighedAt(states, steps, key, b.weighed[key], k)
  }

  lemma WeightsLater(states: seq<State>, steps: seq<Step>, b: Bounds, k: nat)
    requires |states| == |steps| + 1 && k < |steps| && WeightsAt(states, steps, b, k) && OnlyCloses(steps[k])
    ensures WeightsAt(states, steps, b, k + 1)
  {
    assert forall key :: key in b.weighed ==> WeighedAt(states, steps, key, b.weighed[key], k);
  }

  lemma WeightsWeighed(states: seq<State>, steps: seq<Step>, b: Bounds, key: Key, w: Weight, k: nat)
    requires |states| == |steps| + 1 && k < |steps| && WeightsAt(states, steps, b, k) && OnlyCloses(steps[k])
    requires WeighedAt(states, steps, key, w, k + 1)
    ensures WeightsAt(states, steps, b.(weighed := b.weighed[key := w]), k + 1)
  {
    WeightsLater(states, steps, b, k);
  }

  lemma RunBoundsStep(states: seq<State>, max: nat, steps: seq<Step>, b: Bounds, k: nat)
    requires IsRun(states, max, steps) && k < |steps| && BoundsOf(states[k + 1].phase) == Some(b)
    ensures BoundsMove(states[k], steps[k], b) && states[k].clock == k
  {
    RunStep(states, max, steps, k);
    BoundsStep(states[k], max, steps[k], b);
  }

  lemma WeightsStep(states: seq<State>, steps: seq<Step>, was: Bounds, b: Bounds, k: nat)
    requires |states| == |steps| + 1 && k < |steps| && BoundsMove(states[k], steps[k], b) && states[k].clock == k
    requires b.weighed != map[] && BoundsOf(states[k].phase) == Some(was) && WeightsAt(states, steps, was, k)
    ensures WeightsAt(states, steps, b, k + 1)
  {
    if was == b && OnlyCloses(steps[k]) {
      WeightsLater(states, steps, b, k);
    } else {
      WeightsWeighed(states, steps, was, steps[k].key, WeightOf(states[k], steps[k].key), k);
    }
  }

  lemma {:induction false} WeightsAre(states: seq<State>, max: nat, steps: seq<Step>, b: Bounds, k: nat)
    requires IsRun(states, max, steps) && k < |states| && BoundsOf(states[k].phase) == Some(b)
    ensures WeightsAt(states, steps, b, k)
    decreases k
  {
    if b.weighed != map[] && k > 0 {
      RunBoundsStep(states, max, steps, b, k - 1);
      var was := BoundsOf(states[k - 1].phase).value;
      WeightsAre(states, max, steps, was, k - 1);
      WeightsStep(states, steps, was, b, k - 1);
    }
  }

  // ---------------------------------------------------------------- least recently used

  /** A scan's victim is idle when it is closed, and no runtime of the pool that the scan found idle was
      read as used before it. */
  lemma VictimWasOldestAsRead(states: seq<State>, max: nat, steps: seq<Step>, k: nat)
    requires IsRun(states, max, steps) && k < |steps| && steps[k] == CloseVictim
    requires states[k].phase.Scanned? && states[k].phase.victim.Some?
    ensures var v, seen := states[k].phase.victim.value, states[k].phase.sc.seen;
            && P.IsIdle(states[k].p, v) && v in seen && (forall q :: q in states[k].p.runtimes ==> q in seen)
            && (forall q :: q in seen ==> ReadAt(states, steps, states[k].phase.sc.began, q, seen[q], k))
            && (forall q :: q in seen && P.IsIdle(states[seen[q].at].p, q) ==>
                  P.LastUsed(states[seen[v].at].p, v) <= P.LastUsed(states[seen[q].at].p, q))
  {
    RunKeepsInv(states, max, steps, k);
    ScansAre(states, max, steps, states[k].phase.sc, k);
    var seen := states[k].phase.sc.seen;
    assert forall q :: q in seen ==> ReadAt(states, steps, states[k].phase.sc.began, q, seen[q], k);
  }

  // ---------------------------------------------------------------- growth

  // The section has changed nothing but what it closed.
  predicate BeforeMake(ph: Phase) {
    ph.Entered? || ph.MayMake? || ((ph.Scanning? || ph.Scanned?) && ph.why.Room?)
  }

  lemma BeforeMakeStep(s: State, max: nat, step: Step)
    requires BackOk(s.phase) && Enabled(s, max, step) && BeforeMake(ApplyPhase(s, max, step))
    ensures step == Lock || (BeforeMake(s.phase) && OnlyCloses(step) && step != Unlock)
  {
  }

  // The section of state `k` took the lock at step `i` and has held it since.
  ghost predicate LockedSince(steps: seq<Step>, i: nat, k: nat) {
    i < k <= |steps| && steps[i] == Lock && forall n :: i < n < k ==> steps[n] != Lock && steps[n] != Unlock
  }

  lemma {:induction false} SectionBegan(states: seq<State>, max: nat, steps: seq<Step>, k: nat)
    requires IsRun(states, max, steps) && k < |states| && BeforeMake(states[k].phase)
    ensures LockedSince(steps, states[k].lockedAt, k) && ClosesFrom(steps, states[k].lockedAt, k)
  {
    if k > 0 {
      RunStep(states, max, steps, k - 1);
      BeforeMakeStep(states[k - 1], max, steps[k - 1]);
      if steps[k - 1] != Lock { SectionBegan(states, max, steps, k - 1); }
    }
  }

  lemma Smaller(p: P.Pool, p': P.Pool)
    requires Since(p, p')
    ensures |p'.runtimes| < |p.runtimes| || p'.runtimes.Keys == p.runtimes.Keys
  {
    SubsetCard(p'.runtimes.Keys, p.runtimes.Keys);
  }

  // Room was made: a runtime has gone, or all were busy when the section began, or there was room.
  ghost predicate RoomFor(found: P.Pool, p: P.Pool, max: nat) {
    |p.runtimes| < |found.runtimes| || P.AllBusy(found) || |p.runtimes| < max
  }

  lemma RetireOne(p: P.Pool, key: Key)
    requires key in p.runtimes
    ensures |P.Retire(p, {key}).runtimes| < |p.runtimes|
  {
    RemoveCard(p.runtimes, key);
  }

  ghost predicate TimesOk(s: State) {
    && (!s.phase.Free? ==> s.lockedAt < s.clock)
    && (s.phase.Scanning? || s.phase.Scanned? ==> s.lockedAt < s.phase.sc.began)
  }

  lemma TimesStep(s: State, max: nat, step: Step)
    requires TimesOk(s) && BackOk(s.phase) && Enabled(s, max, step)
    ensures TimesOk(Apply(s, max, step))
  {
  }

  lemma {:induction false} RunKeepsTimes(states: seq<State>, max: nat, steps: seq<Step>, k: nat)
    requires IsRun(states, max, steps) && k < |states|
    ensures TimesOk(states[k])
  {
    if k > 0 {
      RunKeepsTimes(states, max, steps, k - 1);
      RunStep(states, max, steps, k - 1);
      TimesStep(states[k - 1], max, steps[k - 1]);
    }
  }

  // What a scan for room read as busy was busy when the section took the lock.
  lemma BusySinceLock(states: seq<State>, max: nat, steps: seq<Step>, k: nat, sc: Scan, i: nat, key: Key)
    requires IsRun(states, max, steps) && k < |states| && ScanIs(states, steps, sc, k)
    requires i < sc.began && ClosesFrom(steps, i, k) && key in sc.seen && sc.seen[key].busy
    ensures !P.IsIdle(states[i].p, key)
  {
    var at := sc.seen[key].at;
    assert ReadAt(states, steps, sc.began, key, sc.seen[key], k);
    assert ClosesFrom(steps, i, at);
    SinceRun(states, max, steps, i, at);
    BusyBefore(states[i].p, states[at].p, key);
  }

  lemma NoVictimMeansAllBusy(states: seq<State>, max: nat, steps: seq<Step>, k: nat)
    requires IsRun(states, max, steps) && k < |states| && states[k].phase.Scanned?
    requires states[k].phase.why.Room? && states[k].phase.victim.None?
    ensures states[k].lockedAt < k
    ensures forall key :: key in states[k].p.runtimes ==> !P.IsIdle(states[states[k].lockedAt].p, key)
  {
    var s := states[k];
    RunKeepsInv(states, max, steps, k);
    RunKeepsTimes(states, max, steps, k);
    SectionBegan(states, max, steps, k);
    ScansAre(states, max, steps, s.phase.sc, k);
    forall key | key in s.p.runtimes ensures !P.IsIdle(states[s.lockedAt].p, key) {
      BusySinceLock(states, max, steps, k, s.phase.sc, s.lockedAt, key);
    }
  }

  lemma RoomAfterScan(found: P.Pool, p: P.Pool, victim: Option<Key>, max: nat)
    requires Since(found, p) && (victim.Some? ==> victim.value in p.runtimes)
    requires victim.None? ==> forall key :: key in p.runtimes ==> !P.IsIdle(found, key)
    ensures RoomFor(found, P.Retire(p, P.Evicted(victim)), max)
  {
    Smaller(found, p);
    if victim.Some? { RetireOne(p, victim.value); } else { P.RetireNone(p); }
  }

  lemma ScanMakesRoom(states: seq<State>, max: nat, steps: seq<Step>, k: nat)
    requires IsRun(states, max, steps) && k < |states| && states[k].phase.Scanned? && states[k].phase.why.Room?
    ensures states[k].lockedAt < k
    ensures RoomFor(states[states[k].lockedAt].p, P.Retire(states[k].p, P.Evicted(states[k].phase.victim)), max)
  {
    var s := states[k];
    RunKeepsInv(states, max, steps, k);
    SectionBegan(states, max, steps, k);
    SinceRun(states, max, steps, s.lockedAt, k);
    if s.phase.victim.None? { NoVictimMeansAllBusy(states, max, steps, k); }
    RoomAfterScan(states[s.lockedAt].p, s.p, s.phase.victim, max);
  }

  lemma MayMakeStep(s: State, max: nat, step: Step)
    requires BackOk(s.phase) && Enabled(s, max, step) && ApplyPhase(s, max, step).MayMake?
    ensures Apply(s, max, step).lockedAt == s.lockedAt
    ensures || (step == HasRoom && |Apply(s, max, step).p.runtimes| < max)
            || (step == CloseVictim && s.phase.Scanned? && s.phase.why.Room?
                && Apply(s, max, step).p == P.Retire(s.p, P.Evicted(s.phase.victim)))
            || (step.Unlocked? && s.phase.MayMake? && Apply(s, max, step).p.runtimes == s.p.runtimes)
  {
    if step.Unlocked? { UnlockedIsQuieter(s.p, max, step.step); }
  }

  // How the section of state `k + 1` came to have room.
  lemma RunMayMakeStep(states: seq<State>, max: nat, steps: seq<Step>, k: nat)
    requires IsRun(states, max, steps) && k < |steps| && states[k + 1].phase.MayMake?
    ensures states[k + 1].lockedAt == states[k].lockedAt < k
    ensures || RoomFor(states[states[k].lockedAt].p, states[k + 1].p, max)
            || (states[k].phase.MayMake? && states[k + 1].p.runtimes == states[k].p.runtimes)
  {
    RunStep(states, max, steps, k);
    MayMakeStep(states[k], max, steps[k]);
    RunKeepsTimes(states, max, steps, k);
    if steps[k] == CloseVictim { ScanMakesRoom(states, max, steps, k); }
  }

  lemma {:induction false} RoomIsMade(states: seq<State>, max: nat, steps: seq<Step>, k: nat)
    requires IsRun(states, max, steps) && k < |states| && states[k].phase.MayMake?
    ensures states[k].lockedAt < k && RoomFor(states[states[k].lockedAt].p, states[k].p, max)
  {
    if k > 0 {
      RunMayMakeStep(states, max, steps, k - 1);
      if states[k - 1].phase.MayMake? { RoomIsMade(states, max, steps, k - 1); }
    }
  }

  lemma GrowthStep(s: State, max: nat, step: Step, found: P.Pool)
    requires Enabled(s, max, step) && step.Make? && Since(found, s.p) && RoomFor(found, s.p, max)
    ensures var n := |Apply(s, max, step).p.runtimes|; n > max && n > |found.runtimes| ==> P.AllBusy(found)
  {
    InsertCard(s.p.runtimes, step.key, step.r);
  }

  /** A section that makes the pool larger than it was when it took the lock, and larger than maxWorkers,
      found every runtime busy at that moment. */
  lemma GrowsPastLimitOnlyWhenBusy(states: seq<State>, max: nat, steps: seq<Step>, k: nat)
    requires IsRun(states, max, steps) && k < |steps| && steps[k].Make?
    ensures var i := states[k].lockedAt;
            && LockedSince(steps, i, k)
            && (|states[k + 1].p.runtimes| > max && |states[k + 1].p.runtimes| > |states[i].p.runtimes| ==>
                  P.AllBusy(states[i].p))
  {
    RunStep(states, max, steps, k);
    SectionBegan(states, max, steps, k);
    SinceRun(states, max, steps, states[k].lockedAt, k);
    RoomIsMade(states, max, steps, k);
    GrowthStep(states[k], max, steps[k], states[states[k].lockedAt].p);
  }
}
