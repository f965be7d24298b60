/** Latest use, eviction and reaping in the runtime pool when uses and releases may fall inside a section. */
module RuntimeUse {
  import opened Common
  import opened RuntimeScan
  import P = RuntimePool

  // ---------------------------------------------------------------- latest use and calls, by the steps of a run

  // A step that uses runtime `r`, and when.
  function UsedAt(s: State, step: Step, r: P.Rid): Option<int> {
    if step.Make? && step.r == r then Some(step.now)
    else if step.Reuse? && Known(s.p, step.key) && s.p.runtimes[step.key] == r then Some(step.now)
    else if step.Unlocked? && step.step.MarkUsed? && step.step.r == r then Some(step.step.now)
    else None
  }

  // When runtime `r` was last used in the first `k` steps.
  function LastUse(states: seq<State>, steps: seq<Step>, r: P.Rid, k: nat): Option<int>
    requires |states| == |steps| + 1 && k < |states|
  {
    if k == 0 then None
    else if UsedAt(states[k - 1], steps[k - 1], r).Some? then UsedAt(states[k - 1], steps[k - 1], r)
    else LastUse(states, steps, r, k - 1)
  }

  lemma UnlockedUse(p: P.Pool, max: nat, step: P.Step, r: P.Rid)
    requires P.Enabled(p, max, step) && (step.End? || step.MarkUsed?) && r in P.Apply(p, max, step).info
    ensures r in p.info
    ensures P.Apply(p, max, step).info[r].lastUsed
            == if step.MarkUsed? && step.r == r then step.now else p.info[r].lastUsed
  {
  }

  lemma UseStep(s: State, max: nat, step: Step, r: P.Rid)
    requires Enabled(s, max, step) && r in ApplyPool(s, max, step).info
    ensures var used := UsedAt(s, step, r);
            if used.Some? then ApplyPool(s, max, step).info[r].lastUsed == used.value
            else r in s.p.info && ApplyPool(s, max, step).info[r].lastUsed == s.p.info[r].lastUsed
  {
    if step.Unlocked? { UnlockedUse(s.p, max, step.step, r); }
  }

  /** The time kept for a runtime is that of its latest use, wherever in a section that falls. */
  lemma {:induction false} LastUsedIsLastUse(states: seq<State>, max: nat, steps: seq<Step>, r: P.Rid, k: nat)
    requires IsRun(states, max, steps) && k < |states| && r in states[k].p.info
    ensures LastUse(states, steps, r, k) == Some(states[k].p.info[r].lastUsed)
  {
    if k > 0 {
      assert StepAt(states, max, steps, k - 1);
      UseStep(states[k - 1], max, steps[k - 1], r);
      if UsedAt(states[k - 1], steps[k - 1], r).None? { LastUsedIsLastUse(states, max, steps, r, k - 1); }
    }
  }

  function UseOf(states: seq<State>, steps: seq<Step>, key: Key, k: nat): int
    requires |states| == |steps| + 1 && k < |states|
  {
    if key in states[k].p.runtimes && LastUse(states, steps, states[k].p.runtimes[key], k).Some?
    then LastUse(states, steps, states[k].p.runtimes[key], k).value else 0
  }

  lemma KeyFacts(states: seq<State>, max: nat, steps: seq<Step>, k: nat, key: Key)
    requires IsRun(states, max, steps) && k < |states|
    ensures P.IsIdle(states[k].p, key) <==> P.Spare(states[k].p, key)
    ensures UseOf(states, steps, key, k) == P.LastUsed(states[k].p, key)
  {
    RunKeepsInv(states, max, steps, k);
    var p := states[k].p;
    if key in p.runtimes {
      assert p.info[p.runtimes[key]].active == |P.InFlight(p.calls, p.runtimes[key])|;
      LastUsedIsLastUse(states, max, steps, p.runtimes[key], k);
    }
  }

  // What made the scan that began at step `i` necessary: a full pool, or a total over its limit.
  ghost predicate Needed(s: State, max: nat) {
    || (s.phase.Entered? && |s.p.runtimes| >= max)
    || (s.phase.Totalling? && TotalOf(s.p) > s.phase.b.totalBytes)
  }

  /** A runtime is evicted only by a scan that was needed, and of the runtimes that this scan found without a
      call it is the one whose latest use, when looked at, was the earliest. */
  lemma VictimWasLeastRecentlyUsed(states: seq<State>, max: nat, steps: seq<Step>, k: nat, q: Key)
    requires IsRun(states, max, steps) && k < |steps| && steps[k] == CloseVictim
    requires states[k].phase.Scanned? && states[k].phase.victim.Some? && q in states[k].p.runtimes
    ensures var v, sc := states[k].phase.victim.value, states[k].phase.sc;
            && sc.began < k && Needed(states[sc.began], max) && P.Spare(states[k].p, v) && v in sc.seen && q in sc.seen
            && sc.began < sc.seen[v].at < k && sc.began < sc.seen[q].at < k
            && steps[sc.seen[v].at] == Look(v) && steps[sc.seen[q].at] == Look(q)
            && (P.Spare(states[sc.seen[q].at].p, q) ==>
                  UseOf(states, steps, v, sc.seen[v].at) <= UseOf(states, steps, q, sc.seen[q].at))
  {
    var v, sc := states[k].phase.victim.value, states[k].phase.sc;
    VictimWasOldestAsRead(states, max, steps, k);
    ScansAre(states, max, steps, sc, k);
    assert StepAt(states, max, steps, sc.began);
    KeyFacts(states, max, steps, k, v);
    KeyFacts(states, max, steps, sc.seen[v].at, v);
    KeyFacts(states, max, steps, sc.seen[q].at, q);
  }

  // Step `a` condemned the runtime that is about to be closed in state `k`, and only unlocked steps followed.
  ghost predicate CondemnedBy(states: seq<State>, steps: seq<Step>, a: nat, k: nat)
    requires |states| == |steps| + 1 && k < |states|
  {
    && a < k && states[k].phase.Condemned? && states[a + 1].phase == states[k].phase
    && steps[a] == (if states[k].phase.back.Reaping? then ReapLook(states[k].phase.key) else Weigh(states[k].phase.key))
    && forall j :: a < j < k ==> steps[j].Unlocked?
  }

  lemma CondemnStep(s: State, max: nat, step: Step)
    requires Enabled(s, max, step) && ApplyPhase(s, max, step).Condemned?
    requires s.phase.Condemned? ==> s.phase.back.Reaping? || s.phase.back.Weighing?
    ensures var ph := ApplyPhase(s, max, step);
            || (step.Unlocked? && s.phase == ph)
            || (ph.back.Reaping? && step == ReapLook(ph.key))
            || (ph.back.Weighing? && step == Weigh(ph.key))
  {
  }

  lemma {:induction false} CondemnedAt(states: seq<State>, max: nat, steps: seq<Step>, k: nat) returns (a: nat)
    requires IsRun(states, max, steps) && k < |states| && states[k].phase.Condemned?
    ensures CondemnedBy(states, steps, a, k)
  {
    var s, step := states[k - 1], steps[k - 1];
    assert StepAt(states, max, steps, k - 1);
    RunKeepsInv(states, max, steps, k - 1);
    CondemnStep(s, max, step);
    if step.Unlocked? {
      a := CondemnedAt(states, max, steps, k - 1);
    } else {
      a := k - 1;
    }
  }

  /** Reaping condemns a runtime exactly when, at the moment it looks, the runtime has no call in flight and its
      latest use is more than the timeout ago. */
  lemma ReapingIsExact(states: seq<State>, max: nat, steps: seq<Step>, a: nat)
    requires IsRun(states, max, steps) && a < |steps| && steps[a].ReapLook?
    ensures states[a].phase.Reaping?
    ensures var key, ph := steps[a].key, states[a].phase;
            if P.Spare(states[a].p, key) && ph.now - UseOf(states, steps, key, a) > ph.timeout
            then states[a + 1].phase.Condemned? && states[a + 1].phase.key == key
            else states[a + 1].phase == Reaping(ph.now, ph.timeout, ph.rest - {key})
  {
    assert StepAt(states, max, steps, a);
    KeyFacts(states, max, steps, a, steps[a].key);
  }

  /** A runtime that reaping closes had no call and no use within the timeout when it was looked at, and has no
      call when it is closed. */
  lemma ReapedWasUnused(states: seq<State>, max: nat, steps: seq<Step>, k: nat)
    requires IsRun(states, max, steps) && k < |steps| && steps[k] == CloseCondemned && states[k].phase.Condemned?
    requires states[k].phase.back.Reaping?
    ensures var key, back := states[k].phase.key, states[k].phase.back;
            && P.Spare(states[k].p, key)
            && exists a: nat :: CondemnedBy(states, steps, a, k) && P.Spare(states[a].p, key)
                                && back.now - UseOf(states, steps, key, a) > back.timeout
  {
    var a := CondemnedAt(states, max, steps, k);
    ReapingIsExact(states, max, steps, a);
    RunKeepsInv(states, max, steps, k);
    KeyFacts(states, max, steps, k, states[k].phase.key);
    assert StepAt(states, max, steps, a);
  }
}
