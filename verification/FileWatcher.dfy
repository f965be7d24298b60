/**
 The batch engine of internal/daemon/file_watcher.go: coalesced events, flushes
 that may overlap, immediate and deferred retries, and the stop barrier against
 timers that have already fired.

 A timer is armed, then fires (its callback goroutine exists), then is admitted
 as a callback or turned away.  A batch callback is a flush; `timers` keeps each
 batch timer together with the flush it became.
 */
module FileWatcher {
  import opened Common

  type Path = string
  type Timer = nat

  datatype Op = WriteOp | CreateOp | RemoveOp | RenameOp
  type Ops = set<Op>

  const MAX_DEFERRED_RETRIES: nat := 1

  // ---------------------------------------------------------------- fields under the mutex

  // pendingBatch and pendingOps always have the same keys, so they are one map here.
  datatype Batch = Batch(pending: map<Path, Ops>, retry: map<Path, nat>, timer: Option<Timer>)

  function OpsAt(m: map<Path, Ops>, p: Path): Ops {
    if p in m then m[p] else {}
  }

  function RetryAt(r: map<Path, nat>, p: Path): nat {
    if p in r then r[p] else 0
  }

  function Merge(m: map<Path, Ops>, more: map<Path, Ops>): map<Path, Ops> {
    map p | p in m.Keys + more.Keys :: OpsAt(m, p) + OpsAt(more, p)
  }

  function Bump(r: map<Path, nat>, events: map<Path, Ops>): map<Path, nat> {
    map p | p in r.Keys + events.Keys :: if p in events then RetryAt(r, p) + 1 else r[p]
  }

  // scheduleBatchEvent, with the timer it would arm.
  function Schedule(b: Batch, p: Path, ops: Ops, spare: Timer): Batch {
    Batch(Merge(b.pending, map[p := ops]), b.retry - {p}, if b.timer.Some? then b.timer else Some(spare))
  }

  function Take(b: Batch): Batch {
    b.(pending := map[], timer := None)
  }

  function Retain(b: Batch, p: Path, ops: Ops): Batch {
    b.(pending := Merge(b.pending, map[p := ops]))
  }

  function ResetRetry(b: Batch, p: Path): Batch {
    b.(retry := b.retry - {p})
  }

  // Some event of the round may still be retried on a timer.
  predicate Retries(b: Batch, events: map<Path, Ops>) {
    exists p :: p in events && RetryAt(b.retry, p) + 1 <= MAX_DEFERRED_RETRIES
  }

  function DeferRetry(b: Batch, events: map<Path, Ops>, spare: Timer): Batch {
    Batch(Merge(b.pending, events), Bump(b.retry, events),
          if Retries(b, events) && b.timer.None? then Some(spare) else b.timer)
  }

  // ---------------------------------------------------------------- state

  datatype Phase =
    | Armed
    | Fired      // dispatched, waiting for admission
    | Admitted   // counted by callbackWG, before its own check of stopCh
    | Checked    // before it takes the pending batch
    | Working(todo: map<Path, Ops>, deferred: map<Path, Ops>, since: nat, attempt: Option<nat>)

  // Timers of scheduleReindex, one per path, registered in the debounce map.
  datatype DPhase = DArmed(path: Path) | DFired(path: Path) | DDeleting(path: Path) | DIndexing

  datatype Debounce = Debounce(slots: map<Path, Timer>, timers: map<Timer, DPhase>, next: Timer)

  datatype Event = Event(path: Path, ops: Ops)

  // Where an accepted event is; Covered carries the start of the reindex that covered it.
  datatype Place = Pending | InFlush(t: Timer) | Covered(start: nat) | Dropped

  datatype StopPhase = NotStopped | Closed | LoopJoined | CallbacksJoined | Stopped

  datatype State = State(
    b: Batch,
    timers: map<Timer, Phase>,
    next: Timer,
    log: map<nat, Event>,      // every event accepted, by the time it was accepted
    place: map<nat, Place>,
    clock: nat,
    d: Debounce,
    stop: StopPhase,
    looping: bool)             // watchLoop is running

  function Init(): State {
    State(Batch(map[], map[], None), map[], 0, map[], map[], 0, Debounce(map[], map[], 0), NotStopped, true)
  }

  // stopCh is closed.
  predicate Stopping(s: State) {
    !s.stop.NotStopped?
  }

  // ---------------------------------------------------------------- steps

  datatype Step =
    | Accept(path: Path, ops: Ops)
    | Fire(t: Timer)
    | Admit(t: Timer)
    | CheckStop(t: Timer)
    | TakeBatch(t: Timer)
    | Attempt(t: Timer)
    | Succeed(t: Timer, path: Path)
    | FailOther(t: Timer, path: Path)
    | FailLocked(t: Timer, path: Path)
    | Defer(t: Timer)
    | DSchedule(path: Path)
    | DFire(t: Timer)
    | DAdmit(t: Timer)
    | DDelete(t: Timer)
    | DDone(t: Timer)
    | LoopExit
    | StopClose
    | StopJoinLoop
    | StopJoinCallbacks
    | StopClear

  predicate IsAt(s: State, t: Timer, p: Phase) {
    t in s.timers && s.timers[t] == p
  }

  predicate IsWorking(s: State, t: Timer) {
    t in s.timers && s.timers[t].Working?
  }

  predicate HasCallback(s: State) {
    || (exists t :: t in s.timers && !s.timers[t].Armed? && !s.timers[t].Fired?)
    || (exists t :: t in s.d.timers && !s.d.timers[t].DArmed? && !s.d.timers[t].DFired?)
  }

  predicate Enabled(s: State, step: Step) {
    match step
    case Accept(_, ops) => ops != {}
    case Fire(t) => IsAt(s, t, Armed)
    case Admit(t) => IsAt(s, t, Fired)
    case CheckStop(t) => IsAt(s, t, Admitted)
    case TakeBatch(t) => IsAt(s, t, Checked)
    case Attempt(t) => IsWorking(s, t)
    case Succeed(t, p) => IsWorking(s, t) && p in s.timers[t].todo && s.timers[t].attempt.Some?
    case FailOther(t, p) => IsWorking(s, t) && p in s.timers[t].todo
    case FailLocked(t, p) => IsWorking(s, t) && p in s.timers[t].todo
    case Defer(t) => IsWorking(s, t) && s.timers[t].todo == map[]
    case DSchedule(_) => true
    case DFire(t) => t in s.d.timers && s.d.timers[t].DArmed?
    case DAdmit(t) => t in s.d.timers && s.d.timers[t].DFired?
    case DDelete(t) => t in s.d.timers && s.d.timers[t].DDeleting?
    case DDone(t) => t in s.d.timers && s.d.timers[t].DIndexing?
    case LoopExit => s.looping
    case StopClose => s.stop.NotStopped?
    case StopJoinLoop => s.stop.Closed? && !s.looping
    case StopJoinCallbacks => s.stop.LoopJoined? && !HasCallback(s)
    case StopClear => s.stop.CallbacksJoined?
  }

  // Step `step` arms a new batch timer.
  predicate Arms(s: State, step: Step)
    requires Enabled(s, step)
  {
    || (step.Accept? && !Stopping(s) && s.b.timer.None?)
    || (step.Defer? && !Stopping(s) && s.b.timer.None? && Retries(s.b, s.timers[step.t].deferred))
  }

  function ApplyBatch(s: State, step: Step): Batch
    requires Enabled(s, step)
  {
    match step
    case Accept(p, ops) => if Stopping(s) then s.b else Schedule(s.b, p, ops, s.next)
    case TakeBatch(_) => Take(s.b)
    case Succeed(_, p) => ResetRetry(s.b, p)
    case FailOther(t, p) => Retain(s.b, p, s.timers[t].todo[p])
    case Defer(t) => if Stopping(s) then s.b else DeferRetry(s.b, s.timers[t].deferred, s.next)
    case StopClose => s.b.(timer := None)
    case StopClear => s.b.(pending := map[], retry := map[])
    case _ => s.b
  }

  function ApplyTimers(s: State, step: Step): map<Timer, Phase>
    requires Enabled(s, step)
  {
    var ts := s.timers;
    match step
    case Accept(_, _) => if Arms(s, step) then ts[s.next := Armed] else ts
    case Fire(t) => ts[t := Fired]
    case Admit(t) => if Stopping(s) then ts - {t} else ts[t := Admitted]
    case CheckStop(t) => if Stopping(s) then ts - {t} else ts[t := Checked]
    case TakeBatch(t) => ts[t := Working(s.b.pending, map[], s.clock, None)]
    case Attempt(t) => ts[t := ts[t].(attempt := Some(s.clock))]
    case Succeed(t, p) => ts[t := ts[t].(todo := ts[t].todo - {p})]
    case FailOther(t, p) => ts[t := ts[t].(todo := ts[t].todo - {p})]
    case FailLocked(t, p) =>
      ts[t := ts[t].(todo := ts[t].todo - {p}, deferred := ts[t].deferred[p := ts[t].todo[p]])]
    case Defer(t) => if Arms(s, step) then (ts - {t})[s.next := Armed] else ts - {t}
    case StopClose =>
      if s.b.timer.Some? && IsAt(s, s.b.timer.value, Armed) then ts - {s.b.timer.value} else ts
    case _ => ts
  }

  function Move(log: map<nat, Event>, place: map<nat, Place>, from: Place, path: Path, to: Place): map<nat, Place> {
    map i | i in place :: if place[i] == from && i in log && log[i].path == path then to else place[i]
  }

  function MoveAll(place: map<nat, Place>, from: Place, to: Place): map<nat, Place> {
    map i | i in place :: if place[i] == from then to else place[i]
  }

  function ApplyPlace(s: State, step: Step): map<nat, Place>
    requires Enabled(s, step)
  {
    match step
    case Accept(_, _) => if Stopping(s) then s.place else s.place[s.clock := Pending]
    case TakeBatch(t) => MoveAll(s.place, Pending, InFlush(t))
    case Succeed(t, p) => Move(s.log, s.place, InFlush(t), p, Covered(s.timers[t].attempt.value))
    case FailOther(t, p) => Move(s.log, s.place, InFlush(t), p, Pending)
    case Defer(t) => MoveAll(s.place, InFlush(t), if Stopping(s) then Dropped else Pending)
    case StopClear => MoveAll(s.place, Pending, Dropped)
    case _ => s.place
  }

  function ApplyDebounce(s: State, step: Step): Debounce
    requires Enabled(s, step)
  {
    var d := s.d;
    match step
    case DSchedule(p) =>
      if Stopping(s) then d
      else
        var kept := if p in d.slots && d.slots[p] in d.timers && d.timers[d.slots[p]].DArmed?
                    then d.timers - {d.slots[p]} else d.timers;
        Debounce(d.slots[p := d.next], kept[d.next := DArmed(p)], d.next + 1)
    case DFire(t) => d.(timers := d.timers[t := DFired(d.timers[t].path)])
    case DAdmit(t) =>
      d.(timers := if Stopping(s) then d.timers - {t} else d.timers[t := DDeleting(d.timers[t].path)])
    case DDelete(t) => d.(slots := d.slots - {d.timers[t].path}, timers := d.timers[t := DIndexing])
    case DDone(t) => d.(timers := d.timers - {t})
    case StopClose =>
      Debounce(map[], map t | t in d.timers && !(d.timers[t].DArmed? && t in d.slots.Values) :: d.timers[t], d.next)
    case _ => d
  }

  function ApplyStop(s: State, step: Step): StopPhase {
    match step
    case StopClose => Closed
    case StopJoinLoop => LoopJoined
    case StopJoinCallbacks => CallbacksJoined
    case StopClear => Stopped
    case _ => s.stop
  }

  function Apply(s: State, step: Step): State
    requires Enabled(s, step)
  {
    State(ApplyBatch(s, step), ApplyTimers(s, step), if Arms(s, step) then s.next + 1 else s.next,
          if step.Accept? && !Stopping(s) then s.log[s.clock := Event(step.path, step.ops)] else s.log,
          ApplyPlace(s, step), s.clock + 1, ApplyDebounce(s, step), ApplyStop(s, step),
          s.looping && !step.LoopExit?)
  }

  // ---------------------------------------------------------------- invariant

  // A batch timer that has not yet taken the pending batch.
  predicate Outstanding(p: Phase) {
    !p.Working?
  }

  ghost predicate OneTimer(stopping: bool, timer: Option<Timer>, timers: map<Timer, Phase>, next: Timer) {
    && (forall t :: t in timers ==> t < next)
    && (timer.Some? ==> timer.value in timers && Outstanding(timers[timer.value]))
    && (!stopping ==> forall t :: t in timers && Outstanding(timers[t]) ==> timer == Some(t))
    && (stopping ==> timer.None? && forall t :: t in timers ==> !timers[t].Armed?)
  }

  ghost predicate FlushesOk(timers: map<Timer, Phase>, clock: nat) {
    forall t :: t in timers && timers[t].Working? ==>
      && timers[t].todo.Keys !! timers[t].deferred.Keys
      && timers[t].since < clock
      && (timers[t].attempt.Some? ==> timers[t].since < timers[t].attempt.value)
  }

  // Flush `w` still carries event `e` with all its operations.
  predicate Carries(w: Phase, e: Event) {
    w.Working? && ((e.path in w.todo && e.ops <= w.todo[e.path])
                   || (e.path in w.deferred && e.ops <= w.deferred[e.path]))
  }

  ghost predicate Kept(pending: map<Path, Ops>, timers: map<Timer, Phase>, stopping: bool, i: nat, e: Event,
                       where: Place) {
    match where
    case Pending => e.path in pending && e.ops <= pending[e.path]
    case InFlush(t) => t in timers && Carries(timers[t], e) && i < timers[t].since
    case Covered(start) => i < start
    case Dropped => stopping
  }

  ghost predicate EventsOk(s: State) {
    && s.place.Keys == s.log.Keys
    && forall i :: i in s.log ==> i < s.clock && Kept(s.b.pending, s.timers, Stopping(s), i, s.log[i], s.place[i])
  }

  ghost predicate StopOk(s: State) {
    && (s.stop.CallbacksJoined? || s.stop.Stopped? ==> !HasCallback(s))
    && (s.stop.Stopped? ==> s.b.pending == map[] && s.b.retry == map[])
  }

  ghost predicate Inv(s: State) {
    && OneTimer(Stopping(s), s.b.timer, s.timers, s.next)
    && FlushesOk(s.timers, s.clock)
    && EventsOk(s)
    && StopOk(s)
  }

  // The steps that arm a batch timer.
  lemma ArmingStep(s: State, step: Step)
    requires OneTimer(Stopping(s), s.b.timer, s.timers, s.next) && Enabled(s, step) && (step.Accept? || step.Defer?)
    ensures var s' := Apply(s, step); OneTimer(Stopping(s'), s'.b.timer, s'.timers, s'.next)
  {
  }

  lemma OneTimerStep(s: State, step: Step)
    requires OneTimer(Stopping(s), s.b.timer, s.timers, s.next) && Enabled(s, step)
    ensures var s' := Apply(s, step); OneTimer(Stopping(s'), s'.b.timer, s'.timers, s'.next)
  {
    if step.Accept? || step.Defer? { ArmingStep(s, step); }
  }

  lemma FlushesStep(s: State, step: Step)
    requires FlushesOk(s.timers, s.clock) && Enabled(s, step)
    ensures FlushesOk(ApplyTimers(s, step), s.clock + 1)
  {
  }

  lemma StopStep(s: State, step: Step)
    requires StopOk(s) && Enabled(s, step)
    ensures StopOk(Apply(s, step))
  {
  }

  // One accepted event across one step.
  ghost predicate KeptAfter(s: State, step: Step, i: nat)
    requires Enabled(s, step) && i in s.log
  {
    && i in ApplyPlace(s, step)
    && Kept(ApplyBatch(s, step).pending, ApplyTimers(s, step), Stopping(s) || step.StopClose?,
            i, s.log[i], ApplyPlace(s, step)[i])
  }

  ghost predicate KeptBefore(s: State, i: nat) {
    && i in s.log && i in s.place && i < s.clock
    && Kept(s.b.pending, s.timers, Stopping(s), i, s.log[i], s.place[i])
  }

  lemma PendingEventStep(s: State, step: Step, i: nat)
    requires Enabled(s, step) && KeptBefore(s, i) && s.place[i].Pending?
    ensures KeptAfter(s, step, i)
  {
  }

  // A flush hands its deferred events back.
  lemma DeferEventStep(s: State, step: Step, i: nat)
    requires FlushesOk(s.timers, s.clock) && (forall t :: t in s.timers ==> t < s.next)
    requires step.Defer? && Enabled(s, step) && KeptBefore(s, i) && s.place[i].InFlush?
    ensures KeptAfter(s, step, i)
  {
  }

  // A flush works on one path.
  lemma OwnFlushStep(s: State, step: Step, i: nat)
    requires FlushesOk(s.timers, s.clock)
    requires step.Attempt? || step.Succeed? || step.FailOther? || step.FailLocked?
    requires Enabled(s, step) && KeptBefore(s, i) && s.place[i].InFlush?
    ensures KeptAfter(s, step, i)
  {
    var t := s.place[i].t;
    if step.FailOther? && step.t == t && step.path == s.log[i].path {
      assert s.log[i].ops <= s.timers[t].todo[step.path];
    }
  }

  lemma OtherEventStep(s: State, step: Step, i: nat)
    requires forall t :: t in s.timers ==> t < s.next
    requires !(step.Attempt? || step.Succeed? || step.FailOther? || step.FailLocked? || step.Defer?)
    requires Enabled(s, step) && KeptBefore(s, i) && s.place[i].InFlush?
    ensures KeptAfter(s, step, i)
  {
  }

  lemma FlushedEventStep(s: State, step: Step, i: nat)
    requires FlushesOk(s.timers, s.clock) && (forall t :: t in s.timers ==> t < s.next)
    requires Enabled(s, step) && KeptBefore(s, i) && s.place[i].InFlush?
    ensures KeptAfter(s, step, i)
  {
    if step.Attempt? || step.Succeed? || step.FailOther? || step.FailLocked? {
      OwnFlushStep(s, step, i);
    } else if step.Defer? {
      DeferEventStep(s, step, i);
    } else {
      OtherEventStep(s, step, i);
    }
  }

  lemma EventsStep(s: State, step: Step)
    requires Inv(s) && Enabled(s, step)
    ensures EventsOk(Apply(s, step))
  {
    var s' := Apply(s, step);
    assert s'.place.Keys == s'.log.Keys;
    forall i | i in s'.log
      ensures i < s'.clock && Kept(s'.b.pending, s'.timers, Stopping(s'), i, s'.log[i], s'.place[i])
    {
      if i in s.log {
        if s.place[i].Pending? { PendingEventStep(s, step, i); }
        else if s.place[i].InFlush? { FlushedEventStep(s, step, i); }
      }
    }
  }

  lemma StepKeepsInv(s: State, step: Step)
    requires Inv(s) && Enabled(s, step)
    ensures Inv(Apply(s, step))
  {
    OneTimerStep(s, step);
    FlushesStep(s, step);
    EventsStep(s, step);
    StopStep(s, step);
  }

  // ---------------------------------------------------------------- whole runs

  ghost predicate Next(s: State, step: Step, s': State) {
    Enabled(s, step) && s' == Apply(s, step)
  }

  ghost predicate IsRun(states: seq<State>, steps: seq<Step>) {
    && |states| == |steps| + 1
    && states[0] == Init()
    && (forall k {:trigger steps[k]} :: 0 <= k < |steps| ==> Next(states[k], steps[k], states[k + 1]))
  }

  lemma NextKeepsInv(s: State, step: Step, s': State)
    ensures Inv(s) && Next(s, step, s') ==> Inv(s')
  {
    if Inv(s) && Next(s, step, s') { StepKeepsInv(s, step); }
  }

  lemma {:induction false} RunKeepsInv(states: seq<State>, steps: seq<Step>, k: nat)
    requires IsRun(states, steps) && k < |states|
    ensures Inv(states[k])
  {
    if k > 0 {
      RunKeepsInv(states, steps, k - 1);
      var s, step, s' := states[k - 1], steps[k - 1], states[k];
      assert Next(s, step, s');
      NextKeepsInv(s, step, s');
    }
  }

  // ---------------------------------------------------------------- what covered an event

  lemma {:induction false} ClockIs(states: seq<State>, steps: seq<Step>, k: nat)
    requires IsRun(states, steps) && k < |states|
    ensures states[k].clock == k
  {
    if k > 0 {
      ClockIs(states, steps, k - 1);
      assert Next(states[k - 1], steps[k - 1], states[k]);
    }
  }

  // The log holds the accept steps taken before Stop began, each under its own position.
  ghost predicate LoggedAt(s: State, step: Step, i: nat) {
    i in s.log && step.Accept? && s.log[i] == Event(step.path, step.ops)
  }

  lemma LogStep(s: State, step: Step, i: nat, accepted: Step)
    requires Enabled(s, step) && i < s.clock && LoggedAt(s, accepted, i)
    ensures LoggedAt(Apply(s, step), accepted, i)
  {
  }

  lemma {:induction false} AcceptedIsLogged(states: seq<State>, steps: seq<Step>, i: nat, k: nat)
    requires IsRun(states, steps) && i < k < |states| && steps[i].Accept? && states[i].stop.NotStopped?
    ensures LoggedAt(states[k], steps[i], i)
  {
    assert Next(states[k - 1], steps[k - 1], states[k]);
    ClockIs(states, steps, k - 1);
    if i < k - 1 {
      AcceptedIsLogged(states, steps, i, k - 1);
      LogStep(states[k - 1], steps[k - 1], i, steps[i]);
    }
  }

  lemma {:induction false} NotYetStopped(states: seq<State>, steps: seq<Step>, i: nat, k: nat)
    requires IsRun(states, steps) && i <= k < |states| && states[k].stop.NotStopped?
    ensures states[i].stop.NotStopped?
    decreases k
  {
    if i < k {
      assert Next(states[k - 1], steps[k - 1], states[k]);
      NotYetStopped(states, steps, i, k - 1);
    }
  }

  // Flush `t` began the attempt it is in at step `a`.
  ghost predicate Attempting(s: State, t: Timer, a: nat) {
    t in s.timers && s.timers[t].Working? && s.timers[t].attempt == Some(a)
  }

  lemma AttemptingStep(s: State, step: Step, t: Timer, a: nat)
    requires Enabled(s, step) && Attempting(Apply(s, step), t, a)
    ensures Attempting(s, t, a) || (step == Attempt(t) && a == s.clock)
  {
  }

  lemma {:induction false} AttemptBegan(states: seq<State>, steps: seq<Step>, k: nat, t: Timer, a: nat)
    requires IsRun(states, steps) && k < |states| && Attempting(states[k], t, a)
    ensures a < k && steps[a] == Attempt(t)
  {
    if k > 0 {
      assert Next(states[k - 1], steps[k - 1], states[k]);
      ClockIs(states, steps, k - 1);
      AttemptingStep(states[k - 1], steps[k - 1], t, a);
      if Attempting(states[k - 1], t, a) { AttemptBegan(states, steps, k - 1, t, a); }
    }
  }

  // At step `j` a flush reports success for event `e`: the path was on its list with all the
  // event's operations, and the attempt that succeeded began at step `start`.
  ghost predicate Covers(states: seq<State>, steps: seq<Step>, e: Event, start: nat, j: nat)
    requires |states| == |steps| + 1
  {
    && start < j < |steps| && steps[j].Succeed? && steps[j].path == e.path && steps[start] == Attempt(steps[j].t)
    && var t, s := steps[j].t, states[j];
    && Attempting(s, t, start) && e.path in s.timers[t].todo && e.ops <= s.timers[t].todo[e.path]
  }

  // An event becomes covered only by a success of the flush that has it on its list.
  lemma CoveredStep(s: State, step: Step, i: nat, start: nat)
    requires Inv(s) && Enabled(s, step) && i in s.log
    requires i in ApplyPlace(s, step) && ApplyPlace(s, step)[i] == Covered(start) && s.place[i] != Covered(start)
    ensures step.Succeed? && step.path == s.log[i].path && Attempting(s, step.t, start)
    ensures s.log[i].ops <= s.timers[step.t].todo[step.path]
  {
    assert Kept(s.b.pending, s.timers, Stopping(s), i, s.log[i], s.place[i]);
  }

  lemma PlacedWereLogged(s: State, step: Step, i: nat)
    requires EventsOk(s) && Enabled(s, step) && i in ApplyPlace(s, step) && ApplyPlace(s, step)[i].Covered?
    ensures i in s.log && i in s.place && Apply(s, step).log[i] == s.log[i]
  {
  }

  lemma {:induction false} CoveredBySuccess(states: seq<State>, steps: seq<Step>, k: nat, i: nat, start: nat)
    requires IsRun(states, steps) && k < |states|
    requires i in states[k].log && i in states[k].place && states[k].place[i] == Covered(start)
    ensures exists j: nat :: j < k && Covers(states, steps, states[k].log[i], start, j)
  {
    if k > 0 {
      var s, step := states[k - 1], steps[k - 1];
      assert Next(s, step, states[k]);
      RunKeepsInv(states, steps, k - 1);
      PlacedWereLogged(s, step, i);
      if s.place[i] == Covered(start) {
        CoveredBySuccess(states, steps, k - 1, i, start);
      } else {
        CoveredStep(s, step, i, start);
        AttemptBegan(states, steps, k - 1, step.t, start);
        assert Covers(states, steps, states[k].log[i], start, k - 1);
      }
    }
  }

  /** No event is lost before Stop: every event accepted so far, with all its operations, is
      pending, carried by a running flush, or was on the list of a flush that reported success
      for its path, in an attempt that began after the event was accepted. */
  lemma NoEventIsLost(states: seq<State>, steps: seq<Step>, i: nat, k: nat)
    requires IsRun(states, steps) && i < k < |states| && states[k].stop.NotStopped? && steps[i].Accept?
    ensures var s, e := states[k], Event(steps[i].path, steps[i].ops);
            || (e.path in s.b.pending && e.ops <= s.b.pending[e.path])
            || (exists t :: t in s.timers && Carries(s.timers[t], e))
            || (exists start: nat, j: nat :: i < start && j < k && Covers(states, steps, e, start, j))
  {
    NotYetStopped(states, steps, i, k);
    AcceptedIsLogged(states, steps, i, k);
    RunKeepsInv(states, steps, k);
    var s := states[k];
    assert Kept(s.b.pending, s.timers, Stopping(s), i, s.log[i], s.place[i]);
    if s.place[i].Covered? {
      CoveredBySuccess(states, steps, k, i, s.place[i].start);
    }
  }

  /** At most one batch timer is outstanding before Stop: armed, fired or admitted
      but not yet holding its batch. */
  lemma OneOutstandingTimer(states: seq<State>, steps: seq<Step>, k: nat, t: Timer, u: Timer)
    requires IsRun(states, steps) && k < |states| && states[k].stop.NotStopped?
    requires t in states[k].timers && Outstanding(states[k].timers[t])
    requires u in states[k].timers && Outstanding(states[k].timers[u])
    ensures t == u && states[k].b.timer == Some(t)
  {
    RunKeepsInv(states, steps, k);
  }

  /** Once Stop has returned, in that state and in every later one, no batch timer is
      armed, no callback is running, and nothing is pending. */
  lemma StopIsABarrier(states: seq<State>, steps: seq<Step>, j: nat, k: nat)
    requires IsRun(states, steps) && j <= k < |states| && states[j].stop.Stopped?
    ensures states[k].stop.Stopped? && !HasCallback(states[k])
    ensures states[k].b == Batch(map[], map[], None)
    ensures forall t :: t in states[k].timers ==> states[k].timers[t].Fired?
  {
    StaysStopped(states, steps, j, k);
    RunKeepsInv(states, steps, k);
    assert forall t :: t in states[k].timers ==> states[k].timers[t].Armed? || states[k].timers[t].Fired?;
  }

  lemma {:induction false} StaysStopped(states: seq<State>, steps: seq<Step>, j: nat, k: nat)
    requires IsRun(states, steps) && j <= k < |states| && states[j].stop.Stopped?
    ensures states[k].stop.Stopped?
    decreases k
  {
    if j < k {
      StaysStopped(states, steps, j, k - 1);
      assert Next(states[k - 1], steps[k - 1], states[k]);
    }
  }
}
