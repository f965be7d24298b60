/** The per-path debounce timers of the file watcher, and which of them Stop disarms. */
module WatcherStop {
  import opened Common
  import opened FileWatcher

  // ---------------------------------------------------------------- debounce timers

  ghost predicate NoneArmed(d: Debounce) {
    forall t :: t in d.timers ==> !d.timers[t].DArmed?
  }

  ghost predicate AllRegistered(d: Debounce) {
    forall t :: t in d.timers && d.timers[t].DArmed? ==> t in d.slots.Values
  }

  // Timer `t` waits for its own callback to delete the registration of `p`.
  predicate IsFor(phase: DPhase, p: Path) {
    !phase.DIndexing? && phase.path == p
  }

  predicate DArmedAt(d: Debounce, t: Timer) {
    t in d.timers && d.timers[t].DArmed?
  }

  ghost predicate SlotsOk(stopping: bool, d: Debounce) {
    && (forall t :: t in d.timers ==> t < d.next)
    && (stopping ==> d.slots == map[])
    && (forall p :: p in d.slots ==> d.slots[p] in d.timers && IsFor(d.timers[d.slots[p]], p))
  }

  lemma SlotsStep(s: State, step: Step)
    requires SlotsOk(Stopping(s), s.d) && Enabled(s, step)
    ensures SlotsOk(Stopping(Apply(s, step)), ApplyDebounce(s, step))
  {
  }

  lemma {:induction false} RunKeepsSlots(states: seq<State>, steps: seq<Step>, k: nat)
    requires IsRun(states, steps) && k < |states|
    ensures SlotsOk(Stopping(states[k]), states[k].d)
  {
    if k > 0 {
      RunKeepsSlots(states, steps, k - 1);
      assert Next(states[k - 1], steps[k - 1], states[k]);
      SlotsStep(states[k - 1], steps[k - 1]);
    }
  }

  // A callback deletes the registration of a timer that is not its own and is still armed.
  predicate Steals(s: State, step: Step) {
    && step.DDelete? && step.t in s.d.timers && s.d.timers[step.t].DDeleting?
    && s.d.timers[step.t].path in s.d.slots && DArmedAt(s.d, s.d.slots[s.d.timers[step.t].path])
  }

  function Stolen(s: State, step: Step): Timer
    requires Steals(s, step)
  {
    s.d.slots[s.d.timers[step.t].path]
  }

  lemma RegisteredByPath(d: Debounce, t: Timer)
    requires SlotsOk(false, d) && DArmedAt(d, t)
    ensures t in d.slots.Values <==> d.timers[t].path in d.slots && d.slots[d.timers[t].path] == t
  {
  }

  /** One step loses the registration of an armed timer exactly when it steals it. */
  lemma RegisteredUnlessStolen(s: State, step: Step)
    requires SlotsOk(false, s.d) && s.stop.NotStopped? && Enabled(s, step) && !step.StopClose? && AllRegistered(s.d)
    ensures AllRegistered(Apply(s, step).d) <==> !Steals(s, step)
  {
    var d, d' := s.d, ApplyDebounce(s, step);
    forall t | DArmedAt(d, t) ensures d.timers[t].path in d.slots && d.slots[d.timers[t].path] == t {
      RegisteredByPath(d, t);
    }
    SlotsStep(s, step);
    forall t | DArmedAt(d', t)
      ensures t in d'.slots.Values <==> d'.timers[t].path in d'.slots && d'.slots[d'.timers[t].path] == t
    {
      RegisteredByPath(d', t);
    }
    if Steals(s, step) {
      assert DArmedAt(d', Stolen(s, step));
    }
  }

  // ---------------------------------------------------------------- orphans

  // Armed, and no longer registered.
  ghost predicate Orphan(d: Debounce, t: Timer) {
    DArmedAt(d, t) && !(d.timers[t].path in d.slots && d.slots[d.timers[t].path] == t)
  }

  lemma OrphanStep(s: State, step: Step, t: Timer)
    requires SlotsOk(false, s.d) && s.stop.NotStopped? && Enabled(s, step) && !step.StopClose?
    ensures Orphan(Apply(s, step).d, t) <==>
            (Orphan(s.d, t) && step != DFire(t)) || (Steals(s, step) && Stolen(s, step) == t)
  {
  }

  lemma FreshNow(s: State, step: Step, t: Timer)
    requires SlotsOk(Stopping(s), s.d) && Enabled(s, step) && t < s.d.next && !DArmedAt(s.d, t)
    ensures t < Apply(s, step).d.next && !DArmedAt(Apply(s, step).d, t)
  {
  }

  // A timer that has fired is never armed again.
  lemma {:induction false} NeverRearmed(states: seq<State>, steps: seq<Step>, t: Timer, i: nat, k: nat)
    requires IsRun(states, steps) && i <= k < |states| && t < states[i].d.next && !DArmedAt(states[i].d, t)
    ensures t < states[k].d.next && !DArmedAt(states[k].d, t)
    decreases k
  {
    if i < k {
      NeverRearmed(states, steps, t, i, k - 1);
      assert Next(states[k - 1], steps[k - 1], states[k]);
      RunKeepsSlots(states, steps, k - 1);
      FreshNow(states[k - 1], steps[k - 1], t);
    }
  }

  ghost predicate FiresBetween(steps: seq<Step>, t: Timer, i: nat, j: nat)
    requires j <= |steps|
  {
    exists f :: i < f < j && steps[f] == DFire(t)
  }

  lemma FiredIsOver(states: seq<State>, steps: seq<Step>, t: Timer, i: nat, j: nat)
    requires IsRun(states, steps) && j < |states| && FiresBetween(steps, t, i, j)
    ensures !DArmedAt(states[j].d, t)
  {
    var f :| i < f < j && steps[f] == DFire(t);
    assert Next(states[f], steps[f], states[f + 1]);
    RunKeepsSlots(states, steps, f + 1);
    assert t in states[f + 1].d.timers;
    NeverRearmed(states, steps, t, f + 1, j);
  }

  // An orphan was stolen at some step and has not fired since.
  lemma {:induction false} OrphanWasStolen(states: seq<State>, steps: seq<Step>, t: Timer, k: nat)
    requires IsRun(states, steps) && k < |states| && states[k].stop.NotStopped? && Orphan(states[k].d, t)
    ensures exists i :: 0 <= i < k && Steals(states[i], steps[i]) && Stolen(states[i], steps[i]) == t
  {
    if k > 0 {
      var s, step := states[k - 1], steps[k - 1];
      assert Next(s, step, states[k]);
      RunKeepsSlots(states, steps, k - 1);
      OrphanStep(s, step, t);
      if Orphan(s.d, t) { OrphanWasStolen(states, steps, t, k - 1); }
    }
  }

  lemma {:induction false} StolenStaysOrphan(states: seq<State>, steps: seq<Step>, i: nat, k: nat)
    requires IsRun(states, steps) && i < k < |states| && states[k].stop.NotStopped? && Steals(states[i], steps[i])
    requires !FiresBetween(steps, Stolen(states[i], steps[i]), i, k)
    ensures Orphan(states[k].d, Stolen(states[i], steps[i]))
  {
    var t, s, step := Stolen(states[i], steps[i]), states[k - 1], steps[k - 1];
    assert Next(s, step, states[k]);
    RunKeepsSlots(states, steps, k - 1);
    OrphanStep(s, step, t);
    if i < k - 1 {
      assert step != DFire(t);
      StolenStaysOrphan(states, steps, i, k - 1);
    }
  }

  lemma StopLeavesOrphans(s: State)
    requires SlotsOk(false, s.d) && Enabled(s, StopClose)
    ensures NoneArmed(Apply(s, StopClose).d) <==> forall t :: !Orphan(s.d, t)
  {
    var d' := ApplyDebounce(s, StopClose);
    forall t | DArmedAt(s.d, t) ensures DArmedAt(d', t) <==> Orphan(s.d, t) {
      RegisteredByPath(s.d, t);
    }
    if NoneArmed(d') {
      forall t ensures !Orphan(s.d, t) { assert !DArmedAt(d', t); }
    }
    if forall t :: !Orphan(s.d, t) {
      forall t | t in d'.timers ensures !d'.timers[t].DArmed? {
        assert DArmedAt(d', t) ==> DArmedAt(s.d, t) && Orphan(s.d, t);
      }
    }
  }

  /** Stop leaves no per-path timer armed exactly when every armed timer whose registration
      another callback deleted has fired before Stop. */
  lemma StopDisarmsExactly(states: seq<State>, steps: seq<Step>, j: nat)
    requires IsRun(states, steps) && j < |steps| && steps[j] == StopClose
    ensures NoneArmed(states[j + 1].d) <==>
            forall i :: 0 <= i < j && Steals(states[i], steps[i]) ==>
              FiresBetween(steps, Stolen(states[i], steps[i]), i, j)
  {
    assert Next(states[j], steps[j], states[j + 1]);
    RunKeepsSlots(states, steps, j);
    StopLeavesOrphans(states[j]);
    if forall t :: !Orphan(states[j].d, t) {
      forall i | 0 <= i < j && Steals(states[i], steps[i])
        ensures FiresBetween(steps, Stolen(states[i], steps[i]), i, j)
      {
        if !FiresBetween(steps, Stolen(states[i], steps[i]), i, j) { StolenStaysOrphan(states, steps, i, j); }
      }
    }
    if forall i :: 0 <= i < j && Steals(states[i], steps[i]) ==>
         FiresBetween(steps, Stolen(states[i], steps[i]), i, j) {
      forall t ensures !Orphan(states[j].d, t) {
        if Orphan(states[j].d, t) {
          OrphanWasStolen(states, steps, t, j);
          var i :| 0 <= i < j && Steals(states[i], steps[i]) && Stolen(states[i], steps[i]) == t;
          FiredIsOver(states, steps, t, i, j);
        }
      }
    }
  }

  lemma {:induction false} NoneArmedLater(states: seq<State>, steps: seq<Step>, j: nat, k: nat)
    requires IsRun(states, steps) && j <= k < |states| && Stopping(states[j]) && NoneArmed(states[j].d)
    ensures Stopping(states[k]) && NoneArmed(states[k].d)
    decreases k
  {
    if j < k {
      NoneArmedLater(states, steps, j, k - 1);
      assert Next(states[k - 1], steps[k - 1], states[k]);
    }
  }

  /** No per-path timer is armed after Stop if all armed ones were registered when it began. */
  lemma RegisteredTimersDieWithStop(states: seq<State>, steps: seq<Step>, j: nat, k: nat)
    requires IsRun(states, steps) && j < k < |states| && steps[j] == StopClose && AllRegistered(states[j].d)
    ensures NoneArmed(states[k].d)
  {
    assert Next(states[j], steps[j], states[j + 1]);
    RunKeepsSlots(states, steps, j);
    forall t ensures !Orphan(states[j].d, t) {
      if DArmedAt(states[j].d, t) { RegisteredByPath(states[j].d, t); }
    }
    StopLeavesOrphans(states[j]);
    NoneArmedLater(states, steps, j + 1, k);
  }

  // ---------------------------------------------------------------- what a caller can avoid

  // scheduleReindex is called for a path between the firing of its timer and that timer's delete.
  ghost predicate Interrupts(states: seq<State>, steps: seq<Step>, f: nat, g: nat, m: nat)
    requires IsRun(states, steps)
  {
    && f < g < m < |steps| && steps[f].DFire? && steps[m] == DDelete(steps[f].t)
    && DArmedAt(states[f].d, steps[f].t) && steps[g] == DSchedule(states[f].d.timers[steps[f].t].path)
  }

  lemma FiringStep(s: State, step: Step, t: Timer, p: Path)
    requires Enabled(s, step) && t in ApplyDebounce(s, step).timers
    requires var ph := ApplyDebounce(s, step).timers[t]; ph == DFired(p) || ph == DDeleting(p)
    ensures t in s.d.timers
    ensures (step == DFire(t) && s.d.timers[t] == DArmed(p)) || s.d.timers[t] == DFired(p)
            || s.d.timers[t] == DDeleting(p)
  {
  }

  lemma {:induction false} FiredBefore(states: seq<State>, steps: seq<Step>, k: nat, t: Timer, p: Path) returns (f: nat)
    requires IsRun(states, steps) && k < |states| && t in states[k].d.timers
    requires states[k].d.timers[t] == DFired(p) || states[k].d.timers[t] == DDeleting(p)
    ensures f < k && steps[f] == DFire(t) && t in states[f].d.timers && states[f].d.timers[t] == DArmed(p)
  {
    f := 0;
    if k > 0 {
      assert Next(states[k - 1], steps[k - 1], states[k]);
      FiringStep(states[k - 1], steps[k - 1], t, p);
      if states[k - 1].d.timers[t] == DArmed(p) {
        f := k - 1;
      } else {
        f := FiredBefore(states, steps, k - 1, t, p);
      }
    }
  }

  lemma SlotStep(s: State, step: Step, p: Path, t: Timer)
    requires Enabled(s, step) && step != DSchedule(p) && (p in s.d.slots ==> s.d.slots[p] == t)
    ensures var d' := ApplyDebounce(s, step); p in d'.slots ==> d'.slots[p] == t
  {
  }

  lemma {:induction false} SlotStays(states: seq<State>, steps: seq<Step>, f: nat, k: nat, p: Path, t: Timer)
    requires IsRun(states, steps) && f <= k < |states| && (p in states[f].d.slots ==> states[f].d.slots[p] == t)
    requires forall g :: f <= g < k ==> steps[g] != DSchedule(p)
    ensures p in states[k].d.slots ==> states[k].d.slots[p] == t
    decreases k
  {
    if f < k {
      SlotStays(states, steps, f, k - 1, p, t);
      assert Next(states[k - 1], steps[k - 1], states[k]);
      SlotStep(states[k - 1], steps[k - 1], p, t);
    }
  }

  lemma NothingStolen(states: seq<State>, steps: seq<Step>, k: nat)
    requires IsRun(states, steps) && k < |steps| && states[k].stop.NotStopped?
    requires forall f: nat, g: nat :: !Interrupts(states, steps, f, g, k)
    requires forall f :: 0 <= f < k ==> AllRegistered(states[f].d)
    ensures !Steals(states[k], steps[k])
  {
    if Steals(states[k], steps[k]) {
      var t := steps[k].t;
      var p := states[k].d.timers[t].path;
      var f := FiredBefore(states, steps, k, t, p);
      NotYetStopped(states, steps, f, k);
      RunKeepsSlots(states, steps, f);
      RegisteredByPath(states[f].d, t);
      forall g | f <= g < k ensures steps[g] != DSchedule(p) {
        assert !Interrupts(states, steps, f, g, k);
      }
      SlotStays(states, steps, f, k, p, t);
      assert false;
    }
  }

  lemma {:induction false} StaysRegistered(states: seq<State>, steps: seq<Step>, k: nat)
    requires IsRun(states, steps) && k < |states| && states[k].stop.NotStopped?
    requires forall f: nat, g: nat, m: nat :: m < k ==> !Interrupts(states, steps, f, g, m)
    ensures forall i :: 0 <= i <= k ==> AllRegistered(states[i].d)
  {
    if k > 0 {
      NotYetStopped(states, steps, k - 1, k);
      StaysRegistered(states, steps, k - 1);
      NothingStolen(states, steps, k - 1);
      assert Next(states[k - 1], steps[k - 1], states[k]);
      RunKeepsSlots(states, steps, k - 1);
      RegisteredUnlessStolen(states[k - 1], steps[k - 1]);
    }
  }

  /** If no path is scheduled again between the firing of its timer and that timer's delete,
      no per-path timer is armed in any state after Stop began. */
  lemma UninterruptedTimersDieWithStop(states: seq<State>, steps: seq<Step>, j: nat, k: nat)
    requires IsRun(states, steps) && j < k < |states| && steps[j] == StopClose
    requires forall f: nat, g: nat, m: nat :: m < j ==> !Interrupts(states, steps, f, g, m)
    ensures NoneArmed(states[k].d)
  {
    assert Next(states[j], steps[j], states[j + 1]);
    StaysRegistered(states, steps, j);
    RegisteredTimersDieWithStop(states, steps, j, k);
  }

  lemma Extend(states: seq<State>, steps: seq<Step>, step: Step) returns (states': seq<State>, steps': seq<Step>)
    requires IsRun(states, steps) && Enabled(states[|states| - 1], step)
    ensures IsRun(states', steps')
    ensures states'[|states'| - 1] == Apply(states[|states| - 1], step)
  {
    states', steps' := states + [Apply(states[|states| - 1], step)], steps + [step];
    forall k | 0 <= k < |steps'| ensures Next(states'[k], steps'[k], states'[k + 1]) {
      if k < |steps| { assert Next(states[k], steps[k], states[k + 1]); }
    }
  }

  lemma RescheduledAfterFiring() returns (states: seq<State>, steps: seq<Step>)
    ensures IsRun(states, steps)
    ensures var s := states[|states| - 1];
            && s.d == Debounce(map["a" := 1], map[0 := DFired("a"), 1 := DArmed("a")], 2)
            && s.timers == map[] && s.stop.NotStopped? && s.looping
  {
    states, steps := [Init()], [];
    states, steps := Extend(states, steps, DSchedule("a"));
    states, steps := Extend(states, steps, DFire(0));
    states, steps := Extend(states, steps, DSchedule("a"));
  }

  lemma RegistrationDeleted() returns (states: seq<State>, steps: seq<Step>)
    ensures IsRun(states, steps)
    ensures var s := states[|states| - 1];
            && s.d == Debounce(map[], map[1 := DArmed("a")], 2)
            && s.timers == map[] && s.stop.NotStopped? && s.looping
  {
    states, steps := RescheduledAfterFiring();
    states, steps := Extend(states, steps, DAdmit(0));
    states, steps := Extend(states, steps, DDelete(0));
    states, steps := Extend(states, steps, DDone(0));
  }

  /** A run in which Stop returns while a per-path timer is still armed: the path is
      rescheduled after its first timer fired, and the first callback then deletes
      the registration of the second timer. */
  lemma OrphanedTimerOutlivesStop() returns (states: seq<State>, steps: seq<Step>)
    ensures IsRun(states, steps)
    ensures states[|states| - 1].stop.Stopped? && !NoneArmed(states[|states| - 1].d)
  {
    states, steps := RegistrationDeleted();
    states, steps := Extend(states, steps, LoopExit);
    states, steps := Extend(states, steps, StopClose);
    var s := states[|states| - 1];
    assert s.d == Debounce(map[], map[1 := DArmed("a")], 2) && s.timers == map[];
    states, steps := Extend(states, steps, StopJoinLoop);
    assert !HasCallback(states[|states| - 1]);
    states, steps := Extend(states, steps, StopJoinCallbacks);
    states, steps := Extend(states, steps, StopClear);
    assert states[|states| - 1].d.timers[1].DArmed?;
  }
}
