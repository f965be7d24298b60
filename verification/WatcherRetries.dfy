/** Retry counts, the batch timer and the chain of deferred retries of the file watcher, over whole runs. */
module WatcherRetries {
  import opened Common
  import opened FileWatcher

  // ---------------------------------------------------------------- retry counts and the timer

  // A step after which the path has a fresh round of retries: it is accepted, it succeeds, or Stop clears everything.
  predicate Renews(s: State, step: Step, p: Path) {
    || (step.Accept? && step.path == p && !Stopping(s))
    || (step.Succeed? && step.path == p)
    || step.StopClear?
  }

  // A flush gives `p` back because the index was locked.
  predicate Defers(s: State, step: Step, p: Path) {
    step.Defer? && IsWorking(s, step.t) && p in s.timers[step.t].deferred && !Stopping(s)
  }

  // How often `p` was deferred in the first `k` steps since a step last gave it a fresh round.
  ghost function Deferrals(states: seq<State>, steps: seq<Step>, p: Path, k: nat): nat
    requires |states| == |steps| + 1 && k < |states|
  {
    if k == 0 || Renews(states[k - 1], steps[k - 1], p) then 0
    else Deferrals(states, steps, p, k - 1) + if Defers(states[k - 1], steps[k - 1], p) then 1 else 0
  }

  lemma RetryStep(s: State, step: Step, p: Path)
    requires Enabled(s, step)
    ensures RetryAt(Apply(s, step).b.retry, p)
            == if Renews(s, step, p) then 0 else RetryAt(s.b.retry, p) + if Defers(s, step, p) then 1 else 0
  {
  }

  /** The retry counter of a path is the number of its deferrals since it was last accepted or reindexed. */
  lemma {:induction false} RetryCountsDeferrals(states: seq<State>, steps: seq<Step>, p: Path, k: nat)
    requires IsRun(states, steps) && k < |states|
    ensures RetryAt(states[k].b.retry, p) == Deferrals(states, steps, p, k)
  {
    if k > 0 {
      var step := steps[k - 1];
      assert Next(states[k - 1], step, states[k]);
      RetryCountsDeferrals(states, steps, p, k - 1);
      RetryStep(states[k - 1], step, p);
    }
  }

  // A batch timer is registered and will yet take the pending batch.
  predicate TimerWaits(s: State) {
    s.b.timer.Some? && s.b.timer.value in s.timers && Outstanding(s.timers[s.b.timer.value])
  }

  lemma DeferStep(s: State, t: Timer)
    requires OneTimer(Stopping(s), s.b.timer, s.timers, s.next) && Enabled(s, Defer(t)) && !Stopping(s)
    ensures TimerWaits(Apply(s, Defer(t))) <==>
              TimerWaits(s) || exists p :: p in s.timers[t].deferred && RetryAt(s.b.retry, p) == 0
  {
    var s' := Apply(s, Defer(t));
    ArmingStep(s, Defer(t));
    if Retries(s.b, s.timers[t].deferred) {
      var p :| p in s.timers[t].deferred && RetryAt(s.b.retry, p) + 1 <= MAX_DEFERRED_RETRIES;
      assert RetryAt(s.b.retry, p) == 0;
    }
    if p :| p in s.timers[t].deferred && RetryAt(s.b.retry, p) == 0 {
      assert Retries(s.b, s.timers[t].deferred);
    }
  }

  /** When a flush gives paths back before Stop, a timer is waiting afterwards exactly when one already was
      or some path it gives back has not been deferred since it was last accepted or reindexed. */
  lemma DeferralArmsExactly(states: seq<State>, steps: seq<Step>, k: nat)
    requires IsRun(states, steps) && k < |steps| && steps[k].Defer? && states[k].stop.NotStopped?
    ensures IsWorking(states[k], steps[k].t)
    ensures TimerWaits(states[k + 1]) <==>
              || TimerWaits(states[k])
              || exists p :: p in states[k].timers[steps[k].t].deferred && Deferrals(states, steps, p, k) == 0
  {
    var s, t := states[k], steps[k].t;
    assert Next(s, steps[k], states[k + 1]);
    RunKeepsInv(states, steps, k);
    DeferStep(s, t);
    forall p ensures RetryAt(s.b.retry, p) == Deferrals(states, steps, p, k) {
      RetryCountsDeferrals(states, steps, p, k);
    }
  }

  lemma {:induction false} NoneDeferredSince(states: seq<State>, steps: seq<Step>, p: Path, i: nat, k: nat)
    requires i < k < |states| == |steps| + 1 && Renews(states[i], steps[i], p)
    requires forall j :: i < j < k ==> !Defers(states[j], steps[j], p)
    ensures Deferrals(states, steps, p, k) == 0
    decreases k
  {
    if i + 1 < k { NoneDeferredSince(states, steps, p, i, k - 1); }
  }

  /** A fresh event starts a fresh round of retries: the path's counter is 0 after it, and the first flush that
      gives the path back leaves a timer waiting. */
  lemma FreshEventIsRetried(states: seq<State>, steps: seq<Step>, i: nat, k: nat)
    requires IsRun(states, steps) && i < k <= |steps| && steps[i].Accept? && states[k].stop.NotStopped?
    ensures RetryAt(states[i + 1].b.retry, steps[i].path) == 0
    ensures k < |steps| && Defers(states[k], steps[k], steps[i].path)
            && (forall j :: i < j < k ==> !Defers(states[j], steps[j], steps[i].path)) ==>
              TimerWaits(states[k + 1])
  {
    var p := steps[i].path;
    NotYetStopped(states, steps, i, k);
    RetryCountsDeferrals(states, steps, p, i + 1);
    if k < |steps| && Defers(states[k], steps[k], p) && forall j :: i < j < k ==> !Defers(states[j], steps[j], p) {
      NoneDeferredSince(states, steps, p, i, k);
      DeferralArmsExactly(states, steps, k);
    }
  }

  lemma WaitStep(s: State, step: Step)
    requires OneTimer(Stopping(s), s.b.timer, s.timers, s.next) && Enabled(s, step) && step != StopClose
    requires TimerWaits(s) && step != TakeBatch(s.b.timer.value) && !Stopping(s)
    ensures TimerWaits(Apply(s, step)) && Apply(s, step).b.timer == s.b.timer
  {
    OneTimerStep(s, step);
  }

  lemma AcceptStep(s: State, step: Step)
    requires OneTimer(Stopping(s), s.b.timer, s.timers, s.next) && Enabled(s, step) && step.Accept? && !Stopping(s)
    ensures TimerWaits(Apply(s, step))
  {
    ArmingStep(s, step);
  }

  lemma StopsOnce(s: State, step: Step)
    requires Enabled(s, step) && Apply(s, step).stop.NotStopped?
    ensures s.stop.NotStopped? && step != StopClose
  {
  }

  /** Before Stop a timer is waiting after every accepted event, and it goes on waiting until it has taken the
      pending batch. */
  lemma {:induction false} EventHasATimer(states: seq<State>, steps: seq<Step>, i: nat, k: nat)
    requires IsRun(states, steps) && i < k < |states| && steps[i].Accept? && states[k].stop.NotStopped?
    ensures TimerWaits(states[i + 1])
    ensures || (TimerWaits(states[k]) && states[k].b.timer == states[i + 1].b.timer)
            || exists j :: i < j < k && steps[j] == TakeBatch(states[i + 1].b.timer.value)
    decreases k
  {
    var s, step := states[k - 1], steps[k - 1];
    assert Next(s, step, states[k]);
    StopsOnce(s, step);
    RunKeepsInv(states, steps, k - 1);
    if i + 1 == k {
      AcceptStep(s, step);
    } else {
      EventHasATimer(states, steps, i, k - 1);
      if TimerWaits(s) && s.b.timer == states[i + 1].b.timer && step != TakeBatch(s.b.timer.value) {
        WaitStep(s, step);
      }
    }
  }

  // ---------------------------------------------------------------- nothing is invented

  ghost predicate WasAccepted(log: map<nat, Event>, p: Path, op: Op) {
    exists i :: i in log && log[i].path == p && op in log[i].ops
  }

  // Every path listed has an operation, and every operation listed was accepted for its path.
  ghost predicate AllAccepted(log: map<nat, Event>, m: map<Path, Ops>) {
    && (forall p :: p in m ==> m[p] != {})
    && (forall p, op :: p in m && op in m[p] ==> WasAccepted(log, p, op))
  }

  ghost predicate FlushAccepted(log: map<nat, Event>, w: Phase) {
    w.Working? ==> AllAccepted(log, w.todo) && AllAccepted(log, w.deferred)
  }

  ghost predicate Sourced(s: State) {
    && AllAccepted(s.log, s.b.pending)
    && (forall t :: t in s.timers ==> FlushAccepted(s.log, s.timers[t]))
    && (forall i :: i in s.log ==> i < s.clock)
  }

  lemma MergeAccepted(log: map<nat, Event>, m: map<Path, Ops>, more: map<Path, Ops>)
    requires AllAccepted(log, m) && AllAccepted(log, more)
    ensures AllAccepted(log, Merge(m, more))
  {
    assert forall p :: p in Merge(m, more) && p in m ==> m[p] <= Merge(m, more)[p];
    assert forall p :: p in Merge(m, more) && p in more ==> more[p] <= Merge(m, more)[p];
  }

  lemma LogAccepts(log: map<nat, Event>, n: nat, e: Event, m: map<Path, Ops>)
    requires n !in log && AllAccepted(log, m)
    ensures AllAccepted(log[n := e], m)
  {
    forall p, op | p in m && op in m[p] ensures WasAccepted(log[n := e], p, op) {
      var i :| i in log && log[i].path == p && op in log[i].ops;
      assert i in log[n := e] && log[n := e][i] == log[i];
    }
  }

  lemma SourcedAccept(s: State, step: Step)
    requires Sourced(s) && Enabled(s, step) && step.Accept? && !Stopping(s)
    ensures Sourced(Apply(s, step))
  {
    var s', e := Apply(s, step), Event(step.path, step.ops);
    LogAccepts(s.log, s.clock, e, s.b.pending);
    assert s'.log[s.clock] == e;
    MergeAccepted(s'.log, s.b.pending, map[step.path := step.ops]);
    forall t | t in s'.timers ensures FlushAccepted(s'.log, s'.timers[t]) {
      if s'.timers[t].Working? {
        LogAccepts(s.log, s.clock, e, s.timers[t].todo);
        LogAccepts(s.log, s.clock, e, s.timers[t].deferred);
      }
    }
  }

  lemma WorkAccepted(log: map<nat, Event>, w: Phase, p: Path)
    requires w.Working? && FlushAccepted(log, w) && p in w.todo
    ensures FlushAccepted(log, w.(todo := w.todo - {p}))
    ensures FlushAccepted(log, w.(todo := w.todo - {p}, deferred := w.deferred[p := w.todo[p]]))
    ensures AllAccepted(log, map[p := w.todo[p]])
  {
  }

  // The flush that a step leaves behind carries only what was accepted.
  lemma FlushSourced(s: State, step: Step, t: Timer)
    requires Sourced(s) && Enabled(s, step) && !step.Accept? && t in ApplyTimers(s, step)
    ensures FlushAccepted(s.log, ApplyTimers(s, step)[t])
  {
    if step.Succeed? || step.FailOther? || step.FailLocked? { WorkAccepted(s.log, s.timers[step.t], step.path); }
    assert t in s.timers ==> FlushAccepted(s.log, s.timers[t]);
  }

  lemma PendingSourced(s: State, step: Step)
    requires Sourced(s) && Enabled(s, step) && !step.Accept?
    ensures AllAccepted(s.log, ApplyBatch(s, step).pending)
  {
    if step.FailOther? {
      WorkAccepted(s.log, s.timers[step.t], step.path);
      MergeAccepted(s.log, s.b.pending, map[step.path := s.timers[step.t].todo[step.path]]);
    } else if step.Defer? {
      MergeAccepted(s.log, s.b.pending, s.timers[step.t].deferred);
    }
  }

  lemma SourcedStep(s: State, step: Step)
    requires Sourced(s) && Enabled(s, step)
    ensures Sourced(Apply(s, step))
  {
    if step.Accept? {
      if !Stopping(s) { SourcedAccept(s, step); }
    } else {
      PendingSourced(s, step);
      forall t | t in ApplyTimers(s, step) ensures FlushAccepted(s.log, ApplyTimers(s, step)[t]) {
        FlushSourced(s, step, t);
      }
    }
  }

  lemma {:induction false} RunIsSourced(states: seq<State>, steps: seq<Step>, k: nat)
    requires IsRun(states, steps) && k < |states|
    ensures Sourced(states[k])
  {
    if k > 0 {
      var step := steps[k - 1];
      assert Next(states[k - 1], step, states[k]);
      RunIsSourced(states, steps, k - 1);
      SourcedStep(states[k - 1], step);
    }
  }

  lemma {:induction false} LoggedWasAccepted(states: seq<State>, steps: seq<Step>, i: nat, k: nat)
    requires IsRun(states, steps) && k < |states| && i in states[k].log
    ensures i < k && LoggedAt(states[k], steps[i], i)
  {
    if k > 0 {
      var step := steps[k - 1];
      assert Next(states[k - 1], step, states[k]);
      ClockIs(states, steps, k - 1);
      if i in states[k - 1].log { LoggedWasAccepted(states, steps, i, k - 1); }
    }
  }

  /** Nothing is reindexed that did not happen: every operation that is pending or carried by a flush was
      accepted for that path by an earlier step. */
  lemma NothingIsInvented(states: seq<State>, steps: seq<Step>, k: nat, p: Path, op: Op)
    requires IsRun(states, steps) && k < |states|
    requires var s := states[k];
             || (p in s.b.pending && op in s.b.pending[p])
             || exists t :: IsWorking(s, t) && ((p in s.timers[t].todo && op in s.timers[t].todo[p])
                                                || (p in s.timers[t].deferred && op in s.timers[t].deferred[p]))
    ensures exists i :: 0 <= i < k && steps[i].Accept? && steps[i].path == p && op in steps[i].ops
  {
    RunIsSourced(states, steps, k);
    assert WasAccepted(states[k].log, p, op);
    var i :| i in states[k].log && states[k].log[i].path == p && op in states[k].log[i].ops;
    LoggedWasAccepted(states, steps, i, k);
  }

  // ---------------------------------------------------------------- retry quiescence

  predicate Holds(w: Phase, p: Path) {
    w.Working? && (p in w.todo || p in w.deferred)
  }

  ghost function Flushes(ts: map<Timer, Phase>, p: Path): set<Timer> {
    set t | t in ts && Holds(ts[t], p)
  }

  // In how many places a path waits: the pending batch and the running flushes.
  ghost function Copies(pending: map<Path, Ops>, ts: map<Timer, Phase>, p: Path): nat {
    |Flushes(ts, p)| + if p in pending then 1 else 0
  }

  // How many timers a path can still make deferrals arm. A path whose retry counter is not 0
  // arms none until another of its copies succeeds, which resets the counter.
  function Worth(copies: nat, retry: nat): nat {
    if copies > 0 && retry > 0 then copies - 1 else copies
  }

  ghost function Credit(s: State, p: Path): nat {
    Worth(Copies(s.b.pending, s.timers, p), RetryAt(s.b.retry, p))
  }

  ghost predicate Waits(s: State, p: Path) {
    Copies(s.b.pending, s.timers, p) > 0
  }

  lemma FlushesPut(ts: map<Timer, Phase>, t: Timer, w: Phase, p: Path)
    ensures Flushes(ts[t := w], p) == if Holds(w, p) then Flushes(ts, p) + {t} else Flushes(ts, p) - {t}
  {
  }

  lemma FlushesDrop(ts: map<Timer, Phase>, t: Timer, p: Path)
    ensures Flushes(ts - {t}, p) == Flushes(ts, p) - {t}
  {
  }

  lemma TakeSpends(s: State, t: Timer, p: Path)
    requires Enabled(s, TakeBatch(t))
    ensures Copies(map[], ApplyTimers(s, TakeBatch(t)), p) == Copies(s.b.pending, s.timers, p)
  {
    FlushesPut(s.timers, t, Working(s.b.pending, map[], s.clock, None), p);
  }

  lemma WorkSpends(s: State, step: Step, p: Path)
    requires FlushesOk(s.timers, s.clock) && Enabled(s, step)
    requires step.Attempt? || step.Succeed? || step.FailOther? || step.FailLocked?
    ensures |Flushes(ApplyTimers(s, step), p)|
            == |Flushes(s.timers, p)| - if (step.Succeed? || step.FailOther?) && p == step.path then 1 else 0
  {
    var w, w' := s.timers[step.t], ApplyTimers(s, step)[step.t];
    assert ApplyTimers(s, step) == s.timers[step.t := w'];
    FlushesPut(s.timers, step.t, w', p);
    assert step.t in Flushes(s.timers, p) <==> Holds(w, p);
    assert Holds(w', p) <==> Holds(w, p) && !((step.Succeed? || step.FailOther?) && p == step.path);
  }

  lemma DeferSpends(s: State, t: Timer, p: Path)
    requires Enabled(s, Defer(t)) && s.next !in s.timers
    ensures |Flushes(ApplyTimers(s, Defer(t)), p)|
            == |Flushes(s.timers, p)| - if p in s.timers[t].deferred then 1 else 0
  {
    FlushesDrop(s.timers, t, p);
    FlushesPut(s.timers - {t}, s.next, Armed, p);
    assert Holds(s.timers[t], p) <==> t in Flushes(s.timers, p);
  }

  lemma OthersKeepFlushes(s: State, step: Step, p: Path)
    requires Enabled(s, step) && !step.Accept? && !step.TakeBatch? && !step.Defer?
    requires !step.Attempt? && !step.Succeed? && !step.FailOther? && !step.FailLocked?
    ensures Flushes(ApplyTimers(s, step), p) == Flushes(s.timers, p)
  {
  }

  lemma NoneAtTheEnd(s: State, p: Path)
    requires StopOk(s) && s.stop.CallbacksJoined?
    ensures Flushes(s.timers, p) == {}
  {
  }

  lemma DeferFalls(s: State, t: Timer, p: Path)
    requires Inv(s) && Enabled(s, Defer(t))
    ensures Credit(Apply(s, Defer(t)), p) <= Credit(s, p)
    ensures Waits(Apply(s, Defer(t)), p) ==> Waits(s, p)
    ensures !Stopping(s) && p in s.timers[t].deferred && RetryAt(s.b.retry, p) == 0 ==>
              Credit(Apply(s, Defer(t)), p) < Credit(s, p)
  {
    DeferSpends(s, t, p);
  }

  /** Without fresh events no path gains credit, and a deferral that arms a timer spends some. */
  lemma CreditFalls(s: State, step: Step, p: Path)
    requires Inv(s) && Enabled(s, step) && !step.Accept?
    ensures Credit(Apply(s, step), p) <= Credit(s, p)
    ensures Waits(Apply(s, step), p) ==> Waits(s, p)
    ensures step.Defer? && !Stopping(s) && p in s.timers[step.t].deferred && RetryAt(s.b.retry, p) == 0 ==>
              Credit(Apply(s, step), p) < Credit(s, p)
  {
    match step
    case TakeBatch(t) => TakeSpends(s, t, p);
    case Defer(t) => DeferFalls(s, t, p);
    case Attempt(_) => WorkSpends(s, step, p);
    case Succeed(_, _) => WorkSpends(s, step, p);
    case FailOther(_, _) => WorkSpends(s, step, p);
    case FailLocked(_, _) => WorkSpends(s, step, p);
    case StopClear => NoneAtTheEnd(s, p);
    case _ => OthersKeepFlushes(s, step, p);
  }

  ghost function Pick(q: set<Path>): (p: Path)
    requires q != {}
    ensures p in q
  {
    var p :| p in q; p
  }

  ghost function TotalCredit(s: State, q: set<Path>): nat {
    if q == {} then 0 else Credit(s, Pick(q)) + TotalCredit(s, q - {Pick(q)})
  }

  lemma {:induction false} TotalFalls(s: State, step: Step, q: set<Path>)
    requires Inv(s) && Enabled(s, step) && !step.Accept?
    ensures TotalCredit(Apply(s, step), q) <= TotalCredit(s, q)
    ensures (exists p :: p in q && Credit(Apply(s, step), p) < Credit(s, p)) ==>
              TotalCredit(Apply(s, step), q) < TotalCredit(s, q)
  {
    if q != {} {
      CreditFalls(s, step, Pick(q));
      TotalFalls(s, step, q - {Pick(q)});
    }
  }

  // Every path that waits anywhere is in `q`.
  ghost predicate AllIn(s: State, q: set<Path>) {
    forall p :: Waits(s, p) ==> p in q
  }

  lemma ArmingSpends(s: State, step: Step, q: set<Path>)
    requires Inv(s) && Enabled(s, step) && !step.Accept? && AllIn(s, q)
    ensures AllIn(Apply(s, step), q)
    ensures TotalCredit(Apply(s, step), q) + (if Arms(s, step) then 1 else 0) <= TotalCredit(s, q)
  {
    forall p | Waits(Apply(s, step), p) ensures p in q { CreditFalls(s, step, p); }
    TotalFalls(s, step, q);
    if Arms(s, step) {
      var p :| p in s.timers[step.t].deferred && RetryAt(s.b.retry, p) + 1 <= MAX_DEFERRED_RETRIES;
      assert step.t in Flushes(s.timers, p);
      CreditFalls(s, step, p);
    }
  }

  // Number of batch timers armed by the steps from `i` up to `m`.
  ghost function Armings(states: seq<State>, steps: seq<Step>, i: nat, m: nat): nat
    requires IsRun(states, steps) && i <= m < |states|
    decreases m - i
  {
    if i == m then 0
    else
      assert Next(states[i], steps[i], states[i + 1]);
      (if Arms(states[i], steps[i]) then 1 else 0) + Armings(states, steps, i + 1, m)
  }

  lemma {:induction false} ArmingsBounded(states: seq<State>, steps: seq<Step>, i: nat, m: nat, q: set<Path>)
    requires IsRun(states, steps) && i <= m < |states| && AllIn(states[i], q)
    requires forall k :: i <= k < m ==> !steps[k].Accept?
    ensures Armings(states, steps, i, m) <= TotalCredit(states[i], q)
    decreases m - i
  {
    if i < m {
      assert Next(states[i], steps[i], states[i + 1]);
      RunKeepsInv(states, steps, i);
      ArmingSpends(states[i], steps[i], q);
      ArmingsBounded(states, steps, i + 1, m, q);
    }
  }

  // The pending paths whose retry counter is 0.
  ghost function Untried(s: State): set<Path> {
    set p | p in s.b.pending && RetryAt(s.b.retry, p) == 0
  }

  // The paths that running flushes carry, once for each flush.
  ghost function Entries(ts: map<Timer, Phase>): set<(Path, Timer)> {
    set t, p | t in ts && ts[t].Working? && p in ts[t].todo.Keys + ts[t].deferred.Keys :: (p, t)
  }

  ghost function EntriesOf(ts: map<Timer, Phase>, q: set<Path>): set<(Path, Timer)> {
    set e | e in Entries(ts) && e.0 in q
  }

  ghost function Tagged(p: Path, ts: set<Timer>): set<(Path, Timer)> {
    set t | t in ts :: (p, t)
  }

  lemma {:induction false} TagCard(p: Path, ts: set<Timer>)
    ensures |Tagged(p, ts)| == |ts|
  {
    if ts != {} {
      var t :| t in ts;
      TagCard(p, ts - {t});
      assert Tagged(p, ts) == Tagged(p, ts - {t}) + {(p, t)};
    }
  }

  lemma EntryIs(ts: map<Timer, Phase>, e: (Path, Timer))
    ensures e in Entries(ts) <==> e.1 in Flushes(ts, e.0)
  {
  }

  lemma EntriesSplit(ts: map<Timer, Phase>, q: set<Path>, p: Path)
    requires p in q
    ensures |EntriesOf(ts, q)| == |EntriesOf(ts, q - {p})| + |Flushes(ts, p)|
  {
    var rest, own := EntriesOf(ts, q - {p}), Tagged(p, Flushes(ts, p));
    TagCard(p, Flushes(ts, p));
    forall e ensures e in EntriesOf(ts, q) <==> e in rest + own { EntryIs(ts, e); }
    assert EntriesOf(ts, q) == rest + own;
    assert rest !! own;
  }

  lemma UntriedSplit(s: State, q: set<Path>, p: Path)
    requires p in q
    ensures |Untried(s) * q| == |Untried(s) * (q - {p})| + if p in Untried(s) then 1 else 0
  {
    var rest := Untried(s) * (q - {p});
    assert Untried(s) * q == if p in Untried(s) then rest + {p} else rest;
  }

  lemma {:induction false} TotalIs(s: State, q: set<Path>)
    ensures TotalCredit(s, q) <= |Untried(s) * q| + |EntriesOf(s.timers, q)|
  {
    if q != {} {
      var p := Pick(q);
      TotalIs(s, q - {p});
      EntriesSplit(s.timers, q, p);
      UntriedSplit(s, q, p);
      assert Credit(s, p) <= (if p in Untried(s) then 1 else 0) + |Flushes(s.timers, p)|;
    }
  }

  /** Without fresh events the chain of deferred retries is finite: the number of timers ever
      armed is at most the number of pending paths whose retry counter is 0, plus the number of
      paths the running flushes carry. */
  lemma RetryChainIsFinite(states: seq<State>, steps: seq<Step>, i: nat, m: nat)
    requires IsRun(states, steps) && i <= m < |states|
    requires forall k :: i <= k < m ==> !steps[k].Accept?
    ensures Armings(states, steps, i, m) <= |Untried(states[i])| + |Entries(states[i].timers)|
  {
    var s := states[i];
    var q := s.b.pending.Keys + set e | e in Entries(s.timers) :: e.0;
    forall p | Waits(s, p) ensures p in q {
      if p !in s.b.pending {
        var t :| t in Flushes(s.timers, p);
        assert (p, t) in Entries(s.timers);
      }
    }
    ArmingsBounded(states, steps, i, m, q);
    TotalIs(s, q);
    assert Untried(s) * q == Untried(s);
    assert EntriesOf(s.timers, q) == Entries(s.timers);
  }
}
