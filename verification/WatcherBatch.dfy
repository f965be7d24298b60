/** The file watcher object: the fields under its mutex and the methods that update them. */
module WatcherBatch {
  import opened Common
  import opened FileWatcher

  // ---------------------------------------------------------------- the object

  function OrWrite(ops: Ops): Ops {
    if ops == {} then {WriteOp} else ops
  }

  // The events of one round by path; an event without a path is skipped.
  function ToMap(events: seq<(Path, Ops)>): map<Path, Ops> {
    if events == [] then map[]
    else
      var e := events[|events| - 1];
      var rest := ToMap(events[..|events| - 1]);
      if e.0 == "" then rest else rest[e.0 := OrWrite(e.1)]
  }

  lemma {:induction false} ToMapKeys(events: seq<(Path, Ops)>, p: Path)
    requires p in ToMap(events)
    ensures exists i :: 0 <= i < |events| && events[i].0 == p
  {
    var n := |events| - 1;
    if events[n].0 != p { ToMapKeys(events[..n], p); }
  }

  lemma MergeMore(m: map<Path, Ops>, more: map<Path, Ops>, p: Path, ops: Ops)
    requires p !in more
    ensures Merge(m, more[p := ops]) == Merge(m, more)[p := OpsAt(Merge(m, more), p) + ops]
  {
    assert OpsAt(Merge(m, more), p) == OpsAt(m, p);
    assert forall q :: q != p ==> OpsAt(more[p := ops], q) == OpsAt(more, q);
  }

  lemma MergeNone(m: map<Path, Ops>)
    ensures Merge(m, map[]) == m
  {
    assert forall q :: q in m ==> OpsAt(m, q) + {} == m[q];
  }

  lemma MergeOne(m: map<Path, Ops>, p: Path, ops: Ops)
    ensures Merge(m, map[p := ops]) == m[p := OpsAt(m, p) + ops]
  {
    MergeNone(m);
    MergeMore(m, map[], p, ops);
    assert map[][p := ops] == map[p := ops];
  }

  // One more event of the round.
  lemma DeferMore(b: Batch, done: map<Path, Ops>, p: Path, ops: Ops)
    requires p !in done
    ensures Bump(b.retry, done[p := ops]) == Bump(b.retry, done)[p := RetryAt(Bump(b.retry, done), p) + 1]
    ensures RetryAt(Bump(b.retry, done), p) == RetryAt(b.retry, p)
    ensures Retries(b, done[p := ops]) <==> Retries(b, done) || RetryAt(b.retry, p) + 1 <= MAX_DEFERRED_RETRIES
  {
    assert p in done[p := ops];
    assert forall q :: q in done[p := ops] <==> q in done || q == p;
  }

  // ---------------------------------------------------------------- one round of deferred events

  // The events of a round one after the other; a path may come more than once.
  function AfterEach(b: Batch, events: seq<(Path, Ops)>): Batch {
    if events == [] then b
    else
      var e, c := events[|events| - 1], AfterEach(b, events[..|events| - 1]);
      if e.0 == "" then c
      else c.(pending := c.pending[e.0 := OpsAt(c.pending, e.0) + OrWrite(e.1)],
              retry := c.retry[e.0 := RetryAt(c.retry, e.0) + 1])
  }

  // How many of them may still be retried on a timer.
  function Again(b: Batch, events: seq<(Path, Ops)>): nat {
    if events == [] then 0
    else
      var e, front := events[|events| - 1], events[..|events| - 1];
      Again(b, front)
      + if e.0 != "" && RetryAt(AfterEach(b, front).retry, e.0) + 1 <= MAX_DEFERRED_RETRIES then 1 else 0
  }

  function DeferEvents(b: Batch, events: seq<(Path, Ops)>, spare: Timer): Batch {
    AfterEach(b, events).(timer := if Again(b, events) > 0 && b.timer.None? then Some(spare) else b.timer)
  }

  function Times(events: seq<(Path, Ops)>, p: Path): nat {
    if events == [] then 0 else Times(events[..|events| - 1], p) + if events[|events| - 1].0 == p then 1 else 0
  }

  /** Every event of a round is pending again with its operations, what was pending stays, and each
      path's retry count goes up by the number of its events. */
  lemma {:induction false} DeferredComeBack(b: Batch, events: seq<(Path, Ops)>, p: Path)
    requires p != ""
    ensures var c := AfterEach(b, events);
            && OpsAt(b.pending, p) <= OpsAt(c.pending, p) && (p in b.pending ==> p in c.pending)
            && (forall i :: 0 <= i < |events| && events[i].0 == p ==>
                p in c.pending && OrWrite(events[i].1) <= c.pending[p])
            && RetryAt(c.retry, p) == RetryAt(b.retry, p) + Times(events, p)
  {
    if events != [] {
      var front := events[..|events| - 1];
      DeferredComeBack(b, front, p);
      assert forall i :: 0 <= i < |front| ==> front[i] == events[i];
    }
  }

  // A round over the events in `done`, each path once.
  function Round(b: Batch, done: map<Path, Ops>): Batch {
    Batch(Merge(b.pending, done), Bump(b.retry, done), b.timer)
  }

  lemma RoundNone(b: Batch)
    ensures Round(b, map[]) == b && !Retries(b, map[])
  {
    MergeNone(b.pending);
    assert Bump(b.retry, map[]) == b.retry;
  }

  lemma RoundMore(b: Batch, done: map<Path, Ops>, p: Path, ops: Ops)
    requires p !in done
    ensures var c := Round(b, done);
            Round(b, done[p := ops]) == c.(pending := c.pending[p := OpsAt(c.pending, p) + ops],
                                           retry := c.retry[p := RetryAt(c.retry, p) + 1])
    ensures Retries(b, done[p := ops])
            <==> Retries(b, done) || RetryAt(Round(b, done).retry, p) + 1 <= MAX_DEFERRED_RETRIES
  {
    MergeMore(b.pending, done, p, ops);
    DeferMore(b, done, p, ops);
  }

  ghost predicate Distinct(events: seq<(Path, Ops)>) {
    forall i, j :: 0 <= i < j < |events| ==> events[i].0 != events[j].0
  }

  lemma DistinctFront(events: seq<(Path, Ops)>, n: nat)
    requires Distinct(events) && n == |events| - 1
    ensures Distinct(events[..n]) && events[n].0 !in ToMap(events[..n])
  {
    if events[n].0 in ToMap(events[..n]) { ToMapKeys(events[..n], events[n].0); }
  }

  lemma LastOfRound(b: Batch, events: seq<(Path, Ops)>, n: nat)
    requires n == |events| - 1 && events[n].0 != ""
    ensures var c, p, ops := AfterEach(b, events[..n]), events[n].0, OrWrite(events[n].1);
            && ToMap(events) == ToMap(events[..n])[p := ops]
            && AfterEach(b, events) == c.(pending := c.pending[p := OpsAt(c.pending, p) + ops],
                                          retry := c.retry[p := RetryAt(c.retry, p) + 1])
            && Again(b, events)
               == Again(b, events[..n]) + if RetryAt(c.retry, p) + 1 <= MAX_DEFERRED_RETRIES then 1 else 0
  {
  }

  lemma SkippedOfRound(b: Batch, events: seq<(Path, Ops)>, n: nat)
    requires n == |events| - 1 && events[n].0 == ""
    ensures ToMap(events) == ToMap(events[..n]) && AfterEach(b, events) == AfterEach(b, events[..n])
            && Again(b, events) == Again(b, events[..n])
  {
  }

  lemma RoundStep(b: Batch, done: map<Path, Ops>, p: Path, ops: Ops, c: Batch, c': Batch, again: nat, again': nat)
    requires p !in done && c == Round(b, done) && (again > 0 <==> Retries(b, done))
    requires c' == c.(pending := c.pending[p := OpsAt(c.pending, p) + ops],
                      retry := c.retry[p := RetryAt(c.retry, p) + 1])
    requires again' == again + if RetryAt(c.retry, p) + 1 <= MAX_DEFERRED_RETRIES then 1 else 0
    ensures c' == Round(b, done[p := ops]) && (again' > 0 <==> Retries(b, done[p := ops]))
  {
    RoundMore(b, done, p, ops);
  }

  lemma {:induction false} DistinctRound(b: Batch, events: seq<(Path, Ops)>)
    requires Distinct(events)
    ensures AfterEach(b, events) == Round(b, ToMap(events)) && (Again(b, events) > 0 <==> Retries(b, ToMap(events)))
  {
    if events == [] {
      RoundNone(b);
    } else {
      var n := |events| - 1;
      var front, e := events[..n], events[n];
      DistinctFront(events, n);
      DistinctRound(b, front);
      if e.0 == "" {
        SkippedOfRound(b, events, n);
      } else {
        LastOfRound(b, events, n);
        RoundStep(b, ToMap(front), e.0, OrWrite(e.1), AfterEach(b, front), AfterEach(b, events), Again(b, front),
                  Again(b, events));
      }
    }
  }

  /** On the events of one batch, which name each path once, a round is the step of the run. */
  lemma DeferEventsIsDeferRetry(b: Batch, events: seq<(Path, Ops)>, spare: Timer)
    requires Distinct(events)
    ensures DeferEvents(b, events, spare) == DeferRetry(b, ToMap(events), spare)
  {
    DistinctRound(b, events);
  }

  /** The batch fields of the watcher: each method is one critical section, with the
      path already normalised and found watchable. */
  class Watcher {
    var pendingBatch: set<Path>
    var pendingOps: map<Path, Ops>
    var batchRetry: map<Path, nat>
    var batchTimer: Option<Timer>
    var stopped: bool
    var timers: nat      // timers created so far

    ghost predicate Valid()
      reads this
    {
      pendingBatch == pendingOps.Keys
    }

    function View(): Batch
      reads this
    {
      Batch(pendingOps, batchRetry, batchTimer)
    }

    constructor ()
      ensures Valid() && View() == Init().b && !stopped && timers == 0
    {
      pendingBatch, pendingOps, batchRetry, batchTimer, stopped, timers := {}, map[], map[], None, false, 0;
    }

    method NewBatchTimer()
      modifies this`batchTimer, this`timers
      ensures batchTimer == Some(old(timers)) && timers == old(timers) + 1
    {
      batchTimer := Some(timers);
      timers := timers + 1;
    }

    method ScheduleBatchEvent(p: Path, ops: Ops)
      requires Valid()
      modifies this
      ensures Valid() && stopped == old(stopped)
      ensures View() == if old(stopped) then old(View())
                        else Schedule(old(View()), p, OrWrite(ops), old(timers))
    {
      if stopped { return; }
      var op := OrWrite(ops);
      batchRetry := batchRetry - {p};
      pendingBatch := pendingBatch + {p};
      pendingOps := pendingOps[p := OpsAt(pendingOps, p) + op];
      MergeOne(old(pendingOps), p, op);
      if batchTimer.Some? { return; }
      NewBatchTimer();
    }

    method TakePending() returns (batch: set<Path>, ops: map<Path, Ops>)
      requires Valid()
      modifies this
      ensures Valid() && View() == Take(old(View())) && stopped == old(stopped)
      ensures batch == old(pendingBatch) && ops == old(pendingOps)
    {
      batch, ops := pendingBatch, pendingOps;
      pendingBatch, pendingOps, batchTimer := {}, map[], None;
    }

    method RetainBatchFailure(p: Path, op: Ops)
      requires Valid()
      modifies this
      ensures Valid() && View() == Retain(old(View()), p, op) && stopped == old(stopped)
    {
      pendingBatch := pendingBatch + {p};
      pendingOps := pendingOps[p := OpsAt(pendingOps, p) + op];
      MergeOne(old(pendingOps), p, op);
    }

    method ResetBatchRetry(p: Path)
      requires Valid()
      modifies this
      ensures Valid() && View() == ResetRetry(old(View()), p) && stopped == old(stopped)
    {
      batchRetry := batchRetry - {p};
    }

    // What the loop of deferBatchRetryEvents does with one event.
    method DeferOne(p: Path, op: Ops) returns (again: bool)
      requires Valid()
      modifies this
      ensures Valid() && stopped == old(stopped) && batchTimer == old(batchTimer) && timers == old(timers)
      ensures pendingOps == old(pendingOps)[p := OpsAt(old(pendingOps), p) + op]
      ensures batchRetry == old(batchRetry)[p := RetryAt(old(batchRetry), p) + 1]
      ensures again <==> RetryAt(old(batchRetry), p) + 1 <= MAX_DEFERRED_RETRIES
    {
      pendingBatch := pendingBatch + {p};
      pendingOps := pendingOps[p := OpsAt(pendingOps, p) + op];
      var round := RetryAt(batchRetry, p) + 1;
      batchRetry := batchRetry[p := round];
      again := round <= MAX_DEFERRED_RETRIES;
    }

    method DeferAll(events: seq<(Path, Ops)>) returns (deferredFiles: nat)
      requires Valid()
      modifies this
      ensures Valid() && stopped == old(stopped) && timers == old(timers)
      ensures View() == AfterEach(old(View()), events) && batchTimer == old(batchTimer)
      ensures deferredFiles == Again(old(View()), events)
    {
      deferredFiles := 0;
      for i := 0 to |events|
        invariant Valid() && stopped == old(stopped) && timers == old(timers) && batchTimer == old(batchTimer)
        invariant View() == AfterEach(old(View()), events[..i])
        invariant deferredFiles == Again(old(View()), events[..i])
      {
        assert events[..i + 1][..i] == events[..i];
        if events[i].0 == "" { continue; }
        var again := DeferOne(events[i].0, OrWrite(events[i].1));
        if again { deferredFiles := deferredFiles + 1; }
      }
      assert events[..|events|] == events;
    }

    method DeferBatchRetryEvents(events: seq<(Path, Ops)>)
      requires Valid()
      modifies this
      ensures Valid() && stopped == old(stopped)
      ensures View() == if old(stopped) then old(View()) else DeferEvents(old(View()), events, old(timers))
    {
      if stopped { return; }
      var deferredFiles := DeferAll(events);
      if deferredFiles == 0 || batchTimer.Some? { return; }
      NewBatchTimer();
    }
  }
}
