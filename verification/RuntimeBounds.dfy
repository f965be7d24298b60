/** The memory bounds of the runtime pool when calls may end inside the section that enforces them. */
module RuntimeBounds {
  import opened Common
  import opened RuntimeScan
  import P = RuntimePool

  // ---------------------------------------------------------------- the memory bounds

  // The section of state `k` has enforced bounds `b` and is about to unlock.
  ghost predicate LeavesBounded(s: State, b: Bounds) {
    s.phase.Leaving? && s.phase.report.Bounded? && s.phase.report.b == b
  }

  // Runtime `key` was found busy by the step `at` of the last scan, and was busy when that scan began.
  ghost predicate FoundBusy(states: seq<State>, steps: seq<Step>, key: Key, began: nat, at: nat, k: nat)
    requires |states| == |steps| + 1 && k < |states|
  {
    && began < at < k && steps[began] == BeginScan && steps[at] == Look(key)
    && Known(states[at].p, key) && !P.IsIdle(states[at].p, key) && !P.IsIdle(states[began].p, key)
  }

  lemma LastScanFoundBusy(states: seq<State>, max: nat, steps: seq<Step>, k: nat, sc: Scan, key: Key)
    requires IsRun(states, max, steps) && k < |states| && ScanIs(states, steps, sc, k)
    requires key in sc.seen && sc.seen[key].busy
    ensures FoundBusy(states, steps, key, sc.began, sc.seen[key].at, k)
  {
    var at := sc.seen[key].at;
    assert ReadAt(states, steps, sc.began, key, sc.seen[key], k);
    assert ClosesFrom(steps, sc.began, at);
    SinceRun(states, max, steps, sc.began, at);
    BusyBefore(states[sc.began].p, states[at].p, key);
  }

  /** When a section that enforced a total leaves, the total fits, or every runtime left was found busy by
      its last scan and was busy when that scan began. */
  lemma TotalFitsOrAllFoundBusy(states: seq<State>, max: nat, steps: seq<Step>, k: nat, b: Bounds)
    requires IsRun(states, max, steps) && k < |states| && LeavesBounded(states[k], b) && b.totalBytes > 0
    ensures TotalOf(states[k].p) > b.totalBytes ==>
              var last := states[k].phase.report.last;
              && last.Some? && ScanIs(states, steps, last.value, k)
              && forall key :: key in states[k].p.runtimes ==>
                   key in last.value.seen && FoundBusy(states, steps, key, last.value.began, last.value.seen[key].at, k)
  {
    RunKeepsInv(states, max, steps, k);
    if TotalOf(states[k].p) > b.totalBytes {
      var sc := states[k].phase.report.last.value;
      ScansAre(states, max, steps, sc, k);
      forall key | key in states[k].p.runtimes
        ensures key in sc.seen && FoundBusy(states, steps, key, sc.began, sc.seen[key].at, k)
      {
        assert ReportOk(states[k].p, states[k].phase.report);
        LastScanFoundBusy(states, max, steps, k, sc, key);
      }
    }
  }

  /** When a section that enforced the bounds leaves, a runtime that is idle and over the per-runtime limit
      was busy when the section weighed it. */
  lemma OversizedWasBusy(states: seq<State>, max: nat, steps: seq<Step>, k: nat, b: Bounds, key: Key)
    requires IsRun(states, max, steps) && k < |states| && LeavesBounded(states[k], b) && key in states[k].p.runtimes
    ensures key in b.weighed && WeighedAt(states, steps, key, b.weighed[key], k)
    ensures P.MemoryOf(states[k].p, key) == b.weighed[key].memory
    ensures P.MemoryOf(states[k].p, key) > b.maxBytes ==> !P.IsIdle(states[b.weighed[key].at].p, key)
  {
    RunKeepsInv(states, max, steps, k);
    WeightsAre(states, max, steps, b, k);
    assert WeighedOk(states[k].p, b, key);
  }

  // ---------------------------------------------------------------- exactly when the bounds hold of the pool

  // The step ends the last call in flight on the runtime of `key`.
  ghost predicate EndsLast(s: State, step: Step, key: Key) {
    && step.Unlocked? && step.step.End? && step.step.call in s.p.calls
    && Known(s.p, key) && s.p.calls[step.step.call] == s.p.runtimes[key] && s.p.info[s.p.runtimes[key]].active == 1
  }

  ghost predicate ReleasedBetween(states: seq<State>, steps: seq<Step>, key: Key, i: nat, k: nat)
    requires |states| == |steps| + 1 && k < |states|
  {
    exists n :: i <= n < k && EndsLast(states[n], steps[n], key)
  }

  lemma IdleStep(s: State, max: nat, step: Step, key: Key)
    requires Inv(s) && Enabled(s, max, step) && OnlyCloses(step) && key in Apply(s, max, step).p.runtimes
    ensures key in s.p.runtimes
    ensures P.IsIdle(Apply(s, max, step).p, key) <==> P.IsIdle(s.p, key) || EndsLast(s, step, key)
  {
  }

  lemma RunIdleStep(states: seq<State>, max: nat, steps: seq<Step>, key: Key, k: nat)
    requires IsRun(states, max, steps) && k < |steps| && OnlyCloses(steps[k]) && key in states[k + 1].p.runtimes
    ensures key in states[k].p.runtimes
    ensures P.IsIdle(states[k + 1].p, key) <==> P.IsIdle(states[k].p, key) || EndsLast(states[k], steps[k], key)
  {
    RunKeepsInv(states, max, steps, k);
    assert StepAt(states, max, steps, k);
    IdleStep(states[k], max, steps[k], key);
  }

  /** While a section only closes runtimes, one that it found busy is idle afterwards exactly when its last
      call has ended in between. */
  lemma {:induction false} IdleExactlyWhenReleased(states: seq<State>, max: nat, steps: seq<Step>, key: Key, i: nat,
                                                   k: nat)
    requires IsRun(states, max, steps) && ClosesFrom(steps, i, k)
    requires key in states[k].p.runtimes && !P.IsIdle(states[i].p, key)
    ensures P.IsIdle(states[k].p, key) <==> ReleasedBetween(states, steps, key, i, k)
    decreases k
  {
    if i < k {
      RunIdleStep(states, max, steps, key, k - 1);
      IdleExactlyWhenReleased(states, max, steps, key, i, k - 1);
    }
  }

  /** The total bound holds of the pool a section leaves exactly when the total fits or no runtime left in it
      has had its last call ended since the last scan found it busy. */
  lemma TotalBoundExactly(states: seq<State>, max: nat, steps: seq<Step>, k: nat, b: Bounds)
    requires IsRun(states, max, steps) && k < |states| && LeavesBounded(states[k], b) && b.totalBytes > 0
    requires TotalOf(states[k].p) > b.totalBytes
    ensures states[k].phase.report.last.Some?
    ensures forall key :: key in states[k].p.runtimes ==> key in states[k].phase.report.last.value.seen
    ensures P.AllBusy(states[k].p) <==>
            forall key :: key in states[k].p.runtimes ==>
              !ReleasedBetween(states, steps, key, states[k].phase.report.last.value.seen[key].at, k)
  {
    TotalFitsOrAllFoundBusy(states, max, steps, k, b);
    var sc := states[k].phase.report.last.value;
    forall key | key in states[k].p.runtimes
      ensures P.IsIdle(states[k].p, key) <==> ReleasedBetween(states, steps, key, sc.seen[key].at, k)
    {
      assert FoundBusy(states, steps, key, sc.began, sc.seen[key].at, k);
      IdleExactlyWhenReleased(states, max, steps, key, sc.seen[key].at, k);
    }
  }

  /** The per-runtime bound holds of the pool a section leaves exactly when no runtime over the limit has had
      its last call ended since the section weighed it. */
  lemma RuntimeBoundExactly(states: seq<State>, max: nat, steps: seq<Step>, k: nat, b: Bounds)
    requires IsRun(states, max, steps) && k < |states| && LeavesBounded(states[k], b)
    ensures forall key :: key in states[k].p.runtimes ==> key in b.weighed
    ensures (forall key :: P.IsIdle(states[k].p, key) ==> P.MemoryOf(states[k].p, key) <= b.maxBytes) <==>
            forall key :: key in states[k].p.runtimes && P.MemoryOf(states[k].p, key) > b.maxBytes ==>
              !ReleasedBetween(states, steps, key, b.weighed[key].at, k)
  {
    forall key | key in states[k].p.runtimes
      ensures key in b.weighed
      ensures P.MemoryOf(states[k].p, key) > b.maxBytes ==>
                (P.IsIdle(states[k].p, key) <==> ReleasedBetween(states, steps, key, b.weighed[key].at, k))
    {
      OversizedWasBusy(states, max, steps, k, b, key);
      if P.MemoryOf(states[k].p, key) > b.maxBytes {
        IdleExactlyWhenReleased(states, max, steps, key, b.weighed[key].at, k);
      }
    }
  }

  // ---------------------------------------------------------------- a run that misses both bounds

  lemma Extend(states: seq<State>, max: nat, steps: seq<Step>, step: Step)
    returns (states': seq<State>, steps': seq<Step>)
    requires IsRun(states, max, steps) && Enabled(states[|states| - 1], max, step)
    ensures IsRun(states', max, steps')
    ensures states'[|states'| - 1] == Apply(states[|states| - 1], max, step)
  {
    states', steps' := states + [Apply(states[|states| - 1], max, step)], steps + [step];
    forall k: nat | k < |steps'| ensures StepAt(states', max, steps', k) {
      if k < |steps| { assert StepAt(states, max, steps, k); }
    }
  }

  // One runtime of `memory` bytes, with `active` calls in flight.
  function OneRuntime(active: int, calls: map<P.CallId, P.Rid>): P.Pool {
    P.Pool(map["a" := 0], map[0 := P.Info(active, 0, 100, 0)], calls, {}, {})
  }

  lemma OneTotal(p: P.Pool)
    requires p.runtimes.Keys == {"a"}
    ensures TotalOf(p) == P.MemoryOf(p, "a")
  {
    P.TotalRemove(p, {"a"}, "a");
    assert {"a"} - {"a"} == {};
  }

  // The lock is held, and the section has made the one runtime for a call.
  lemma MadeOne() returns (states: seq<State>, steps: seq<Step>)
    ensures IsRun(states, 1, steps)
    ensures states[|states| - 1] == State(OneRuntime(1, map[0 := 0]), 3, 0, Made)
  {
    states, steps := [State(EMPTY_POOL, 0, 0, Free)], [];
    states, steps := Extend(states, 1, steps, Lock);
    states, steps := Extend(states, 1, steps, HasRoom);
    states, steps := Extend(states, 1, steps, Make("a", 0, 0, 100, Some(0)));
    assert states[|states| - 1].p == OneRuntime(1, map[0 := 0]);
  }

  const BUSY_BOUNDS := Bounds(50, 50, map["a" := Weight(4, true, 100)])

  // It has weighed the runtime, too large but busy.
  lemma WeighedWhileBusy() returns (states: seq<State>, steps: seq<Step>)
    ensures IsRun(states, 1, steps)
    ensures states[|states| - 1] == State(OneRuntime(1, map[0 := 0]), 6, 0, Totalling(BUSY_BOUNDS))
  {
    states, steps := MadeOne();
    var p := OneRuntime(1, map[0 := 0]);
    assert P.Refreshed(p, 0, map[]).info == p.info && p.runtimes.Keys == {"a"};
    states, steps := Extend(states, 1, steps, BeginBounds(0, map[], 50, 50));
    assert states[|states| - 1] == State(OneRuntime(1, map[0 := 0]), 4, 0, Weighing(Bounds(50, 50, map[]), {"a"}));
    states, steps := Extend(states, 1, steps, Weigh("a"));
    assert states[|states| - 1].phase == Weighing(BUSY_BOUNDS, {});
    states, steps := Extend(states, 1, steps, EndWeigh);
  }

  const BUSY_SCAN := Scan(6, map["a" := Reading(7, true, 0)])

  // It has looked at the runtime, still busy, and then the call has ended.
  lemma ReleasedAfterLook() returns (states: seq<State>, steps: seq<Step>)
    ensures IsRun(states, 1, steps)
    ensures states[|states| - 1] == State(OneRuntime(0, map[]), 9, 0,
                                          Scanning(Fit(BUSY_BOUNDS), BUSY_SCAN, {}, None, 0))
  {
    states, steps := WeighedWhileBusy();
    OneTotal(states[|states| - 1].p);
    states, steps := Extend(states, 1, steps, BeginScan);
    states, steps := Extend(states, 1, steps, Look("a"));
    assert states[|states| - 1].phase == Scanning(Fit(BUSY_BOUNDS), BUSY_SCAN, {}, None, 0);
    states, steps := Extend(states, 1, steps, Unlocked(P.End(0)));
    assert states[|states| - 1].p == OneRuntime(0, map[]);
  }

  /** A run whose section leaves the pool over both limits with its one runtime idle: the runtime's only call
      ends after the last scan has found it busy. */
  lemma ReleaseDuringScanMissesBounds() returns (states: seq<State>, steps: seq<Step>, b: Bounds)
    ensures IsRun(states, 1, steps) && LeavesBounded(states[|states| - 1], b) && b.maxBytes == 50 && b.totalBytes == 50
    ensures var p := states[|states| - 1].p;
            TotalOf(p) == 100 && !P.AllBusy(p) && P.IsIdle(p, "a") && P.MemoryOf(p, "a") == 100
  {
    states, steps := ReleasedAfterLook();
    b := BUSY_BOUNDS;
    states, steps := Extend(states, 1, steps, EndScan);
    states, steps := Extend(states, 1, steps, CloseVictim);
    P.RetireNone(OneRuntime(0, map[]));
    OneTotal(states[|states| - 1].p);
  }
}
