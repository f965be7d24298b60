# mi-lsp: the daemon's lifecycle and four text transformations, verified

This project models the parts of mi-lsp whose guarantees only show over whole
runs or over every input, and proves those guarantees in Dafny.

**The daemon.** Each lock-protected component is a state machine whose steps
are the critical sections of the Go code. Calls that are between two critical
sections are part of the state, so a run is any interleaving. The theorems
speak of every state of every run.

- `UpdateListener`: the listener that an update can pause and reopen.
- `UpdateProtocol`: the admission gate, the connection handlers and the
  controller that pauses both listeners, takes the barrier, rechecks, and then
  commits or backs out. It runs two listeners of `UpdateListener`.
- `WatcherTable` and `RuntimePool`: the two tables of the manager.
- `RuntimeScan`: the pool's critical sections taken apart, because releasing a
  runtime and noting its last use take no lock and can fall inside a section.
  `RuntimeUse` and `RuntimeBounds` say what that means for eviction, reaping and
  the memory bounds.
- `StartLock` and `StartLockRecord`: the lock file between processes, with
  crashes at any step, and its owner record.
- `FileWatcher`: coalesced events, retries, overlapping flushes and Stop, with
  `WatcherRetries` on the chain of retries, `WatcherStop` on the per-path timers
  and `WatcherBatch` for the object.
- `ResultCache`: the bounded cache with expiry, against a map that never forgets.

Classes hold the fields that Go updates in place. Each method is one critical
section or one loop, and is proved to do what the state machine's function says.

**The transformations.** Each is a loop proved equal to a specification, with
the properties proved about the specification.

- `FenceMask`: blanking fenced blocks of Markdown.
- `PathRepair`: keeping Windows paths readable inside JSON strings.
- `DigestFraming`: the bytes that identify a worktree's state.
- `DocResolution`: resolving edges between documents through an index.

`FenceClosing` and `PathLaws` hold laws of `FenceMask` and of path names.
`Common`, `Recency`, `Decimal`, `Pieces`, `PathNames` and `StringOrder` hold
shared definitions. A `char` stands for a byte in `StartLockRecord`,
`FenceMask` and `DigestFraming`, and for a Unicode character in `PathRepair`
and `DocResolution`.

## Assumptions

- A mutex excludes, and a waiting loop is a call that has not taken its next
  step. Timeouts and cancellations may happen at any step.
- `UpdateProtocol`: runtimes, watchers and sessions grow only while a handler
  or a request holds an admission.
- `RuntimePool` takes each critical section as one step, so its claims about a
  section are for a section during which no call ends. `RuntimeScan` lets calls
  end inside. There `CallsAreNeverStranded` still holds, growth and the choice of
  a victim are stated for what the section read, and the memory bounds hold
  exactly under the conditions given below.
- `StartLock`: the guard lock is exclusive and freed when its process dies,
  and a live process is never reported dead.
- `DigestFraming`: the three names hold no NUL byte. Each is an argument of a
  git process, and such an argument cannot hold one.
- `DocResolution`, for resolving again: the document paths are already normal,
  and lower case neither makes nor hides a dot or a slash.

## Where the code falls short of the property

- A per-path debounce timer can outlive `Stop`. The callback of a path's timer
  deletes the path's registration, and that may by then belong to a newer timer
  of the same path. `OrphanedTimerOutlivesStop` gives the run.
  `StopDisarmsExactly` gives the exact condition: Stop leaves no such timer
  armed if and only if every armed timer whose registration another callback
  deleted has fired before Stop. `UninterruptedTimersDieWithStop` says how a
  caller avoids it. No production run arms such a timer: `scheduleReindex` is
  called only from `update_watcher_test.go`, and the watch loop
  (internal/daemon/file_watcher.go:232) uses the batch timer, which has no such
  gap.
- The memory bounds can fail when a section ends, because releasing a runtime
  takes no lock. A runtime that the section has found busy may be idle, and over
  a limit, when the section unlocks. `ReleaseDuringScanMissesBounds` gives the
  run. `TotalBoundExactly` and `RuntimeBoundExactly` give the exact conditions:
  no runtime left in the pool had its last call end after the section found it
  busy. What holds in every run is `TotalFitsOrAllFoundBusy` and
  `OversizedWasBusy`.
- A lock record torn by a crash is never reclaimed, although no process owns
  it. `TornRecordHappens` gives the run and `LockSurvivesExactlyUntorn` the exact
  condition.
- Resolving edges twice differs from resolving once when a resolved path has no
  extension. `BareTargetIsUnsettled` gives the input and `ResolvingAgain` the
  exact condition.
- A quoted path decodes to itself if and only if it is plain in the sense of
  `PathRepair.Plain`, which spells out the escapes that the repair keeps and
  also asks for no control character.

## Model

| member | source | states |
|---|---|---|
| `UpdateListener.StepKeepsInv` | internal/daemon/update_listener.go:30-222 | every critical section of every call keeps the counts, the snapshots and the ownership of inner listeners |
| `UpdateListener.RunKeepsInv` | internal/daemon/update_listener.go:30-222 | the same in every state of every run |
| `UpdateListener.EveryInnerIsAccountedFor` | internal/daemon/update_listener.go:43-204 | an inner listener is installed exactly when neither paused nor closed; each one opened is installed, held by exactly one call, or closed exactly once |
| `UpdateListener.PauseNeverFailsAccept` | internal/daemon/update_listener.go:30-68 | an error Accept passes on comes from the inner listener that is still installed and unclosed; the closed error only after Close |
| `UpdateListener.IdlePauseIsQuiet` | internal/daemon/update_listener.go:69-122 | when Pause reports idle, no accept is pending and no lease is live |
| `UpdateListener.QuietUntilInstall` | internal/daemon/update_listener.go:30-204 | a quiet listener stays quiet under every step that does not install an inner listener |
| `UpdateListener.IdlePauseStaysQuiet` | internal/daemon/update_listener.go:69-122 | after an idle Pause the listener is quiet in every later state up to the next install |
| `UpdateListener.InstallMeansNoOverlap` | internal/daemon/update_listener.go:123-184 | a Resume that installs saw no Pause and no Close begin or run since its snapshot |
| `UpdateListener.InstallAfterPauseBeganAfterIt` | internal/daemon/update_listener.go:123-184 | the install that ends the quiet after a Pause belongs to a Resume whose snapshot is later than that Pause |
| `UpdateListener.QuietEndsByLaterResume` | internal/daemon/update_listener.go:69-184 | a listener that is no longer quiet after an idle Pause was given a new inner listener by a Resume that began and installed after that Pause |
| `UpdateListener.OverlappedResumeInstallsNothing` | internal/daemon/update_listener.go:123-204 | a Resume overlapped by a Pause or Close installs nothing and leaves the listener paused or closed |
| `UpdateListener.ReopenUndisturbed` | internal/daemon/update_listener.go:123-184 | an unchanged generation since the snapshot means no Pause or Close began in between |
| `UpdateListener.ResumeInstallsExactly` | internal/daemon/update_listener.go:123-184 | a Resume leaves the listener running on what its reopen function gave if and only if that gave a listener without failing and no Pause or Close began meanwhile; otherwise the listener stays paused |
| `UpdateListener.ReopenReturned` | internal/daemon/update_listener.go:143-147 | a Resume that ends has had its reopen function return |
| `UpdateListener.AcceptsExactlyWhileRunning` | internal/daemon/update_listener.go:30-45 | an accept may enter exactly while the listener is neither paused nor closed, and gets the installed inner listener |
| `UpdateListener.AcceptEndsExactly` | internal/daemon/update_listener.go:46-68 | a delivered connection is always leased; a failure is passed on exactly when no Pause or Close began since the accept entered, and retried exactly when one did and the listener is open |
| `UpdateListener.PauseReportsExactly` | internal/daemon/update_listener.go:95-122 | a Pause in time, on an open listener and without a close error is idle exactly when nothing is leased and busy otherwise; any other is an error |
| `UpdateListener.Listener.constructor` | internal/daemon/update_listener.go:23-25 | the fields of a new listener |
| `UpdateListener.Listener.AcceptEnter` | internal/daemon/update_listener.go:30-45 | an accept is counted, with its inner listener and generation, exactly when one is installed and neither flag is set |
| `UpdateListener.Listener.AcceptLeave` | internal/daemon/update_listener.go:46-68 | the pending count becomes a lease or is given back; retry exactly when paused or of an older generation |
| `UpdateListener.Listener.PauseBegin` | internal/daemon/update_listener.go:69-94 | refused when closed or pausing; otherwise takes the inner listener and raises the generation |
| `UpdateListener.Listener.PauseEnd` | internal/daemon/update_listener.go:95-122 | idle exactly when open, in time, cleanly closed and without leases |
| `UpdateListener.Listener.ResumeBegin` | internal/daemon/update_listener.go:123-146 | a snapshot of the generation exactly when paused, open, reopenable and with no other call at work |
| `UpdateListener.Listener.ResumeEnd` | internal/daemon/update_listener.go:147-184 | installs what was reopened or hands it back to be closed, never both |
| `UpdateListener.Listener.CloseBegin` | internal/daemon/update_listener.go:185-204 | the first Close takes the inner listener and raises the generation; later ones change nothing |
| `UpdateListener.Listener.LeaseClose` | internal/daemon/update_listener.go:216-219 | one lease is given back |
| `UpdateListener.Lease.Close` | internal/daemon/update_listener.go:213-222 | the lease is given back once, however often the connection is closed |
| `UpdateProtocol.StepKeepsInv` | internal/daemon/update_controller.go:63-148 | every step of listeners, handlers, requests, jobs and controller keeps the protocol's invariant |
| `UpdateProtocol.RunKeepsInv` | internal/daemon/update_controller.go:63-148 | the same in every state of every run |
| `UpdateProtocol.LiveConnectionIsCovered` | internal/daemon/server.go:299-352 | a connection is covered by a pending accept, a lease or an admission from Accept to the end of its handler; the barrier means no admission; with a live connection under the barrier the main listener is not quiet |
| `UpdateProtocol.CommitIsQuiescent` | internal/daemon/update_controller.go:63-148 | at Shutdown both listeners are quiet, the barrier is held with no admission, and no job, runtime, watcher, transition, session or connection exists |
| `UpdateProtocol.AbortIsClean` | internal/daemon/update_controller.go:85-134 | every other exit has released barrier and jobs and left each listener running, unless it was closed or its reopen function failed or gave nothing with no Pause since |
| `UpdateProtocol.CommitIsFinal` | internal/daemon/update_controller.go:111-148 | after commit neither listener is resumed and both stay quiet |
| `UpdateProtocol.ForwardOnlyWhenFree` | internal/daemon/update_controller.go:63-134 | every move forward is made in a state that allows it; the commit only with nothing running and no shutdown asked for |
| `UpdateProtocol.UpdateGoesThrough` | internal/daemon/update_controller.go:63-148 | from every reachable state at rest, also after a failed Resume, steps of the controller alone lead to Shutdown |
| `UpdateProtocol.AdmittedExactlyOutsideBarrier` | internal/daemon/update.go:242-261 | a handler or request is admitted exactly while the controller does not hold the barrier; a connection that is not is refused |
| `UpdateProtocol.AcceptCovered` | internal/daemon/update_listener.go:43-58 | an accept hands its connection over to exactly one handler, which then owns the lease |
| `UpdateProtocol.HandlerCovered` | internal/daemon/server.go:299-352 | every step of a handler keeps its lease and its admission in line with its phase |
| `UpdateProtocol.CallKeeps` | internal/daemon/update_controller.go:85-130 | every critical section of the controller's Pause and Resume keeps the invariant |
| `UpdateProtocol.CtlKeeps` | internal/daemon/update.go:278-330 | taking and releasing jobs and barrier, rechecking, aborting and committing keep the invariant |
| `UpdateProtocol.AdmissionGate.constructor` | internal/daemon/update.go:235-241 | no activity and no barrier |
| `UpdateProtocol.AdmissionGate.BeginActivity` | internal/daemon/update.go:242-251 | refused exactly under the barrier; otherwise a ticket that was not out |
| `UpdateProtocol.AdmissionGate.FinishActivity` | internal/daemon/update.go:242-251 | finishing counts once per ticket, however often it is called |
| `UpdateProtocol.AdmissionGate.TryBarrier` | internal/daemon/update.go:252-261 | granted, with a release, exactly when no barrier is held and no ticket is out |
| `UpdateProtocol.AdmissionGate.ReleaseBarrier` | internal/daemon/update.go:260 | a release clears the barrier once, and a used one changes nothing even under a newer barrier |
| `WatcherTable.StepKeepsInv` | internal/daemon/lifecycle.go:292-443 | every step of ensures, evictions and StopWatchers keeps the table, the transition count and the ownership of watchers |
| `WatcherTable.RunKeepsInv` | internal/daemon/lifecycle.go:292-443 | the same in every state of every run |
| `WatcherTable.IdleIsTruthful` | internal/daemon/lifecycle.go:138-145 | an idle snapshot means every watcher made so far has had its Stop, and no call is between its sections |
| `WatcherTable.IdleExactly` | internal/daemon/lifecycle.go:138-145 | the snapshot is idle exactly when the table is empty and no call is between its sections |
| `WatcherTable.TableIsTrueLru` | internal/daemon/lifecycle.go:315-443 | the list names the table's keys once each, within the limit, in the order in which the run's steps last touched them |
| `WatcherTable.EvictionTakesTheOldest` | internal/daemon/lifecycle.go:431-443 | apart from StopWatchers, a root leaves only a full table and only if the run last touched it before every other root |
| `WatcherTable.EnsuredIsWatched` | internal/daemon/lifecycle.go:315-366 | a call that ensures a root and gets its second section leaves the root watched, by the watcher already there or by its own |
| `WatcherTable.SkippedCountsEvictions` | internal/daemon/lifecycle.go:431-443 | the counter of skipped roots is the number of evictions |
| `WatcherTable.MakeRoomKeeps` | internal/daemon/lifecycle.go:334-336 | making room leaves space for one more and disturbs no other call |
| `WatcherTable.Manager.constructor` | internal/daemon/lifecycle.go:151-180 | an empty table and no transition |
| `WatcherTable.Manager.TouchWatcherLocked` | internal/daemon/lifecycle.go:420-430 | moves the root to the end of the list |
| `WatcherTable.Manager.EvictWatcherLocked` | internal/daemon/lifecycle.go:431-443 | removes the first root from list and table and counts one transition |
| `WatcherTable.Manager.MakeRoomLocked` | internal/daemon/lifecycle.go:334-336 | evicts exactly when the table is full |
| `WatcherTable.Manager.EnsureEnter` | internal/daemon/lifecycle.go:326-339 | a present root is touched; otherwise room is made and a transition counted |
| `WatcherTable.Manager.EnsureLeave` | internal/daemon/lifecycle.go:349-366 | the double check: a loser only touches, a winner is inserted |
| `WatcherTable.Manager.StopWatchers` | internal/daemon/lifecycle.go:386-401 | empties the table into the caller's hands under one transition |
| `WatcherTable.Manager.UpdateIdleSnapshot` | internal/daemon/lifecycle.go:138-145 | idle exactly with no runtime, no watcher and no transition |
| `RuntimePool.StepKeepsInv` | internal/daemon/lifecycle.go:182-722 | every call, release, reaping, refresh, enforcement and creation keeps the pool's invariant |
| `RuntimePool.RunKeepsInv` | internal/daemon/lifecycle.go:182-722 | the same in every state of every run |
| `RuntimePool.CallsAreNeverStranded` | internal/daemon/lifecycle.go:182-229 | activeCalls is the number of calls in flight, and a closed runtime has none and is out of the pool |
| `RuntimePool.GrowsPastLimitOnlyWhenBusy` | internal/daemon/lifecycle.go:550-622 | the pool grows past maxWorkers only when all its runtimes are busy |
| `RuntimePool.MemoryBoundsHold` | internal/daemon/lifecycle.go:656-684 | after a section during which no call ends, no idle runtime is over its limit, the total fits or only busy ones are left, and no busy one was touched |
| `RuntimePool.LastUsedIsLastUse` | internal/daemon/lifecycle.go:550-649 | the time kept for a runtime is that of the latest step that made, reused or marked it |
| `RuntimePool.InFlightExactly` | internal/daemon/lifecycle.go:550-654 | a call is in flight exactly from the step that took its runtime to the step that released it |
| `RuntimePool.EvictionTakesLeastRecentlyUsed` | internal/daemon/lifecycle.go:550-622 | room is made exactly when the pool is full and some runtime has no call, and the one that goes was last used no later than any other without a call |
| `RuntimePool.ReapingIsExact` | internal/daemon/lifecycle.go:479-520 | reaping removes exactly the runtimes without a call whose latest use is more than the timeout ago |
| `RuntimePool.BoundsTakeExactly` | internal/daemon/lifecycle.go:664-684 | the memory bounds remove exactly the spare runtimes over their own limit and those that go for the total |
| `RuntimePool.TotalTakesLeastRecentlyUsed` | internal/daemon/lifecycle.go:672-684 | a runtime that goes for the total was last used no later than any spare one that stays |
| `RuntimePool.MemoryIsLastSample` | internal/daemon/lifecycle.go:686-701 | the memory kept for a runtime is its latest sample: taken when it is made, and again only when the bounds find the last one too old |
| `RuntimePool.BoundsWeighRecentSamples` | internal/daemon/lifecycle.go:656-701 | the bounds weigh a runtime by its latest sample, no older than the cache keeps it |
| `RuntimePool.TotalRemove` | internal/daemon/lifecycle.go:693-701 | the memory total does not depend on the order of summation |
| `RuntimePool.Manager.LeastRecentlyUsedIdleRuntime` | internal/daemon/lifecycle.go:702-722 | an idle runtime used no later than any other idle one, or none exactly when all are busy |
| `RuntimePool.Manager.EvictLeastRecentlyUsed` | internal/daemon/lifecycle.go:616-622 | closes that runtime, if there is one, and no other |
| `RuntimePool.RefreshAgain` | internal/daemon/lifecycle.go:686-701 | once every runtime is fresh, refreshing again at the same time changes nothing |
| `RuntimePool.Manager.RuntimeMemoryTotal` | internal/daemon/lifecycle.go:693-701 | refreshes every runtime on the way and gives the sum of the refreshed memory |
| `RuntimePool.Manager.EnforceTotal` | internal/daemon/lifecycle.go:672-684 | refreshes, then closes idle runtimes oldest first until the total fits or only busy ones are left, and no further: without the last one closed the total was still too large |
| `RuntimePool.Manager.EnforceIdleMemoryBounds` | internal/daemon/lifecycle.go:656-684 | refreshes, closes every oversized idle runtime, then enforces the total |
| `RuntimePool.Manager.ReapIdle` | internal/daemon/lifecycle.go:479-520 | closes exactly the idle runtimes past the timeout, then enforces the memory bounds |
| `RuntimePool.Manager.TakeOrMake` | internal/daemon/lifecycle.go:550-611 | reuses, or makes room and creates; a marked call is in flight on the runtime it got |
| `RuntimePool.Manager.GetOrCreate` | internal/daemon/lifecycle.go:550-614 | the same with the memory bounds enforced; a runtime got for a call, or reused, is still open and in the pool |
| `RuntimePool.Manager.ReleaseRuntime` | internal/daemon/lifecycle.go:650-654 | ends exactly one call in flight |
| `RuntimeScan.StepKeepsInv` | internal/daemon/lifecycle.go:479-722 | looking at and closing one runtime at a time, with releases in between, keeps the pool's invariant and what the section has found out |
| `RuntimeScan.RunKeepsInv` | internal/daemon/lifecycle.go:479-722 | the same in every state of every run |
| `RuntimeScan.PhaseSurvivesUnlocked` | internal/daemon/lifecycle.go:624-654 | a release or a note of the last use spoils nothing a section has found out |
| `RuntimeScan.CallsAreNeverStranded` | internal/daemon/lifecycle.go:479-722 | with releases anywhere inside a section, no runtime closed for being idle has a call in flight |
| `RuntimeScan.GrowsPastLimitOnlyWhenBusy` | internal/daemon/lifecycle.go:550-622 | a section that makes the pool larger than it was when the section took the lock, and than maxWorkers, found every runtime busy at that moment |
| `RuntimeScan.VictimWasOldestAsRead` | internal/daemon/lifecycle.go:702-722 | a scan's victim is idle when it is closed, and no runtime found idle by the scan was read as used before it |
| `RuntimeUse.LastUsedIsLastUse` | internal/daemon/lifecycle.go:550-649 | the time kept for a runtime is that of its latest use, wherever in a section that falls |
| `RuntimeUse.VictimWasLeastRecentlyUsed` | internal/daemon/lifecycle.go:616-722 | a runtime is evicted only by a scan of a full pool or an excessive total, and had the earliest latest use, when looked at, of those found without a call |
| `RuntimeUse.ReapingIsExact` | internal/daemon/lifecycle.go:490-515 | reaping condemns a runtime exactly when, at the look, it has no call and its latest use is more than the timeout ago |
| `RuntimeUse.ReapedWasUnused` | internal/daemon/lifecycle.go:490-515 | a reaped runtime was so when looked at, and has no call when it is closed |
| `RuntimeBounds.TotalFitsOrAllFoundBusy` | internal/daemon/lifecycle.go:672-684 | when the section ends the total fits, or every runtime left was busy when the last scan began and when that scan looked at it |
| `RuntimeBounds.OversizedWasBusy` | internal/daemon/lifecycle.go:664-670 | a runtime left over the per-runtime limit was busy when the section looked at it |
| `RuntimeBounds.IdleExactlyWhenReleased` | internal/daemon/lifecycle.go:650-684 | a runtime found busy is idle later in the section exactly when its last call ended in between |
| `RuntimeBounds.TotalBoundExactly` | internal/daemon/lifecycle.go:672-684 | with the total too large at the end, only busy runtimes are left if and only if none of them was released to idle since the last scan found it busy |
| `RuntimeBounds.RuntimeBoundExactly` | internal/daemon/lifecycle.go:664-670 | at the end no idle runtime is over the per-runtime limit if and only if none over it was released to idle since the section looked at it |
| `RuntimeBounds.ReleaseDuringScanMissesBounds` | internal/daemon/lifecycle.go:650-684 | a run that leaves one idle runtime over both limits |
| `StartLockRecord.ValidNonceIsLowerHex` | internal/daemon/start_lock.go:250-256 | a nonce is accepted exactly when it is 32 lower case hexadecimal digits |
| `StartLockRecord.ParseAcceptsExactlyRecords` | internal/daemon/start_lock.go:225-248 | the parser returns an owner exactly for that owner's records |
| `StartLockRecord.RoundTrip` | internal/daemon/start_lock.go:170-248 | parsing a printed record gives the process id and nonce back |
| `StartLockRecord.TornRecordIsUnknown` | internal/daemon/start_lock.go:170-248 | every proper prefix of a printed record is rejected |
| `StartLock.RunKeepsInv` | internal/daemon/start_lock.go:107-340 | guard, file and holders stay consistent over all runs and crashes |
| `StartLock.MutualExclusion` | internal/daemon/start_lock.go:107-168 | at most one lock is held; its process is alive and the file carries exactly its id and nonce |
| `StartLock.OnlyTheOwnerRemovesTheFile` | internal/daemon/start_lock.go:183-340 | while a lock is held only its own Close changes the file |
| `StartLock.ReclaimSparesHolders` | internal/daemon/start_lock.go:183-223 | reclaim never takes a file whose owner holds the lock |
| `StartLock.FileNeverReappears` | internal/daemon/start_lock.go:107-140 | the second create after a reclaim succeeds |
| `StartLock.ReclaimIsExact` | internal/daemon/start_lock.go:183-223 | reclaim condemns a file exactly when it is empty and old enough, or a whole record of a dead process |
| `StartLock.CloseLetsTheNextIn` | internal/daemon/start_lock.go:316-340 | a Close that does not fail takes the file away, and the lock can then be acquired without any process dying |
| `StartLock.FailureLetsTheNextIn` | internal/daemon/start_lock.go:142-168 | an acquire that fails after creating the file takes it away, and the lock can then be acquired without any process dying |
| `StartLock.LockSurvivesExactlyUntorn` | internal/daemon/start_lock.go:183-223 | with the guard free, the lock can still be acquired if and only if the file is absent, empty or a whole record |
| `StartLock.WedgedForever` | internal/daemon/start_lock.go:183-223 | a torn record stays, and nobody acquires the lock, whatever happens next |
| `StartLock.CrashWhileWritingWedges` | internal/daemon/start_lock.go:142-181 | a crash in the middle of writing the record leaves the lock in that state |
| `StartLock.TornRecordHappens` | internal/daemon/start_lock.go:107-181 | a run in which the first process dies after one character of its record and the lock can never be held again |
| `FileWatcher.StepKeepsInv` | internal/daemon/file_watcher.go:176-597 | every step of events, timers, flushes, retries and Stop keeps the invariant |
| `FileWatcher.RunKeepsInv` | internal/daemon/file_watcher.go:176-597 | the same in every state of every run |
| `FileWatcher.NoEventIsLost` | internal/daemon/file_watcher.go:309-451 | before Stop each accepted event, with all its operations, is pending, in a running flush, or was on the list of a flush that reported success for its path in an attempt begun after the event |
| `FileWatcher.OneOutstandingTimer` | internal/daemon/file_watcher.go:338-360 | at most one batch timer is outstanding, and it is the registered one |
| `WatcherRetries.EventHasATimer` | internal/daemon/file_watcher.go:309-373 | after every event accepted before Stop a timer is waiting, and goes on waiting until it has taken the batch |
| `WatcherRetries.NothingIsInvented` | internal/daemon/file_watcher.go:309-597 | every operation that is pending or carried by a flush was accepted for that path earlier |
| `FileWatcher.StopIsABarrier` | internal/daemon/file_watcher.go:176-215 | from Stop's return on, no batch timer is armed, no callback runs or can be admitted, and nothing is pending |
| `WatcherStop.RegisteredUnlessStolen` | internal/daemon/file_watcher.go:286-293 | a step loses the registration of an armed per-path timer exactly when a callback deletes a registration that is not its own |
| `WatcherStop.StopDisarmsExactly` | internal/daemon/file_watcher.go:176-301 | Stop leaves no per-path timer armed if and only if each armed timer whose registration another callback deleted has fired before Stop |
| `WatcherStop.UninterruptedTimersDieWithStop` | internal/daemon/file_watcher.go:176-301 | none is armed in any later state if no path was scheduled between its timer's firing and that timer's delete |
| `WatcherStop.RegisteredTimersDieWithStop` | internal/daemon/file_watcher.go:176-301 | if each armed per-path timer is registered when Stop begins, none is armed in any later state |
| `WatcherStop.OrphanedTimerOutlivesStop` | internal/daemon/file_watcher.go:274-301 | a run in which Stop returns while a per-path timer is armed |
| `WatcherRetries.RetryCountsDeferrals` | internal/daemon/file_watcher.go:338-597 | a path's retry counter is the number of its deferrals since it was last accepted or reindexed |
| `WatcherRetries.DeferralArmsExactly` | internal/daemon/file_watcher.go:539-590 | after a deferral a timer is waiting exactly when one already was or some path of it has not been deferred since it was last accepted or reindexed |
| `WatcherRetries.FreshEventIsRetried` | internal/daemon/file_watcher.go:338-590 | a fresh event sets the path's retry counter to 0, and the first flush that then defers the path leaves a timer waiting |
| `WatcherRetries.CreditFalls` | internal/daemon/file_watcher.go:362-597 | without fresh events no step lets a path arm more timers than it could before, and a path deferred for the first time can arm fewer |
| `WatcherRetries.RetryChainIsFinite` | internal/daemon/file_watcher.go:362-590 | without fresh events, and with flushes overlapping in any way, the timers armed are at most the pending paths not yet retried plus the paths carried by running flushes |
| `WatcherBatch.Watcher.ScheduleBatchEvent` | internal/daemon/file_watcher.go:309-352 | merges the operations into the pending path and arms a timer only when none is registered; nothing after Stop |
| `WatcherBatch.Watcher.TakePending` | internal/daemon/file_watcher.go:367-373 | hands over everything pending and leaves nothing |
| `WatcherBatch.Watcher.RetainBatchFailure` | internal/daemon/file_watcher.go:765-776 | a failed path is pending again with its operations merged |
| `WatcherBatch.Watcher.ResetBatchRetry` | internal/daemon/file_watcher.go:592-597 | forgets the path's retry count |
| `WatcherBatch.DeferredComeBack` | internal/daemon/file_watcher.go:558-580 | every event of a round is pending again with its operations, and each path's retry count grows by the number of its events |
| `WatcherBatch.DeferEventsIsDeferRetry` | internal/daemon/file_watcher.go:539-590 | for the events of one batch the method's round is the step of the run |
| `WatcherBatch.Watcher.DeferAll` | internal/daemon/file_watcher.go:558-580 | every event is merged back and counted in turn, and the events with rounds left are counted |
| `WatcherBatch.Watcher.DeferBatchRetryEvents` | internal/daemon/file_watcher.go:539-590 | the same, arming one timer when an event has rounds left and none is registered; nothing after Stop |
| `ResultCache.EveryHistoryKeepsInv` | internal/daemon/result_cache.go:94-181 | every history of gets and sets keeps list, entries and counters in agreement with the plain map |
| `ResultCache.HitIsLatest` | internal/daemon/result_cache.go:94-141 | a hit is the latest set of the key, unexpired, and never found expired before |
| `ResultCache.MissIsExplained` | internal/daemon/result_cache.go:94-181 | a miss the plain map would answer means a get found that set expired, or 256 other keys were used since |
| `ResultCache.MissIsEviction` | internal/daemon/result_cache.go:94-181 | if no earlier get has a later time, such a miss always means 256 other keys were used since |
| `ResultCache.ListIsTheKeysByLastUse` | internal/daemon/result_cache.go:94-181 | the list names the cached keys once each, at most 256, in order of last use |
| `ResultCache.CountersAddUp` | internal/daemon/result_cache.go:94-141 | hits and misses add up to the gets |
| `ResultCache.CountersAreExact` | internal/daemon/result_cache.go:94-141 | hits is the number of gets that were answered, misses that of the others |
| `ResultCache.EvictedIsOldest` | internal/daemon/result_cache.go:167-174 | an evicted key has 256 distinct keys used after it |
| `ResultCache.ResultCache.constructor` | internal/daemon/result_cache.go:41-49 | an empty cache |
| `ResultCache.ResultCache.DropFromLru` | internal/daemon/result_cache.go:112-117 | removes the first listing of the key |
| `ResultCache.ResultCache.Get` | internal/daemon/result_cache.go:94-141 | the new state and the bytes of a get |
| `ResultCache.ResultCache.Set` | internal/daemon/result_cache.go:143-181 | the new state of a set, unchanged when disabled |
| `FenceMask.FenceIsExactly` | internal/docgraph/docgraph.go:1396-1409 | a line is a marker exactly when it is an indent, three or more of one fence character and a rest that does not go on with it |
| `FenceClosing.CloseIsExactly` | internal/docgraph/docgraph.go:1376-1380 | a line closes a fence exactly when it is an indent, at least three and at least as many of the same character, and white space |
| `FenceMask.MachineBlanksBlocks` | internal/docgraph/docgraph.go:1360-1394 | the line by line machine blanks exactly the lines of the recursively defined blocks |
| `FenceMask.BlockLength` | internal/docgraph/docgraph.go:1376-1380 | a block ends at the first line that closes it, or runs to the end |
| `FenceMask.MaskIsExact` | internal/docgraph/docgraph.go:1360-1394 | a masked text has the same lines, blanked if and only if fenced |
| `FenceMask.MaskKeepsOffsets` | internal/docgraph/docgraph.go:1382-1387 | same length, same line endings, every other byte kept or made a space |
| `FenceMask.MaskIdempotent` | internal/docgraph/docgraph.go:1360-1394 | masking again changes nothing |
| `FenceMask.FindLineEnd` | internal/docgraph/docgraph.go:1366-1373 | the end of the line and its text without a final carriage return |
| `FenceMask.BlankLine` | internal/docgraph/docgraph.go:1382-1387 | blanks the line in place and nothing around it |
| `FenceMask.MaskFencedMarkdown` | internal/docgraph/docgraph.go:1360-1394 | the buffer loop computes the mask |
| `PathRepair.RepairFixesExactly` | internal/cli/suggest.go:119-165 | repair leaves a text alone if and only if every backslash in its strings starts an escape \\, \", \/ or \uXXXX, spelled out in characters |
| `PathRepair.RepairIdempotent` | internal/cli/suggest.go:119-165 | in the result every backslash inside a string starts one of those four escapes, and repairing it again changes nothing |
| `PathRepair.RepairKeepsSkeleton` | internal/cli/suggest.go:119-138 | what lies outside strings, and where strings begin and end, is unchanged |
| `PathRepair.QuotedPathDecodes` | internal/cli/suggest.go:116-165 | a quoted raw path decodes to itself if and only if it has no quote, no control character and no backslash that ends it or starts one of those escapes |
| `PathRepair.PathInContext` | internal/cli/suggest.go:99-165 | a plain path quoted inside a larger text decodes to itself and disturbs nothing around it |
| `PathRepair.RepairConcat` | internal/cli/suggest.go:119-165 | a prefix that ends outside strings is repaired on its own |
| `PathRepair.WriteBackslash` | internal/cli/suggest.go:139-162 | what the switch at a backslash writes and how far it reads |
| `PathRepair.PreserveWindowsPathEscapes` | internal/cli/suggest.go:119-165 | the builder loop computes the repair |
| `DigestFraming.RoundTrip` | internal/cli/git_frontier.go:170-209 | the hashed bytes can be read back |
| `DigestFraming.BytesDetermine` | internal/cli/git_frontier.go:170-209 | equal bytes mean equal names and equal parts, in order |
| `DigestFraming.FilePartsAre` | internal/cli/git_frontier.go:174-180 | the parts exist exactly when every path can be read, each with its own data |
| `DigestFraming.FrameIgnoresListingOrder` | internal/cli/git_frontier.go:162-169 | the order in which git lists untracked paths does not matter |
| `DigestFraming.ListedIsHashed` | internal/cli/git_frontier.go:162-180 | every nonempty listed path is hashed under its cleaned name with its contents, each listing once, and nothing else after the diffs |
| `DigestFraming.FrameReadsBack` | internal/cli/git_frontier.go:146-209 | the bytes exist exactly when every listed path can be read, and reading them back gives each name, the two diffs and the files |
| `DigestFraming.FrameDetermines` | internal/cli/git_frontier.go:146-182 | equal bytes mean equal names, diffs, untracked paths and contents |
| `DigestFraming.Writer.WriteDigestPart` | internal/cli/git_frontier.go:205-209 | appends one length-prefixed part |
| `DigestFraming.CollectPaths` | internal/cli/git_frontier.go:162-168 | the nonempty listed paths, cleaned and sorted |
| `DigestFraming.WriteFiles` | internal/cli/git_frontier.go:174-180 | appends every file's part, or fails exactly when one cannot be read |
| `DigestFraming.CalculateGitFrontier` | internal/cli/git_frontier.go:146-182 | the bytes that are hashed, or the failure |
| `DocResolution.UniqueSortedIs` | internal/docgraph/docgraph.go:1538-1548 | exactly the nonempty strings of the list, once each, ascending |
| `DocResolution.UniqueSortedDocPaths` | internal/docgraph/docgraph.go:1538-1548 | the loop over the sorted list computes that |
| `DocResolution.ListedIs` | internal/docgraph/docgraph.go:1466-1470 | a path can be found exactly when it is nonempty and names a document |
| `DocResolution.SearchIs` | internal/docgraph/docgraph.go:1457-1483 | a search finds exactly the documents that answer, once each, ascending |
| `DocResolution.NamesAre` | internal/docgraph/docgraph.go:1466-1480 | a document is found by its normal path, its base, both in lower case, and its id, unless it has no normal path |
| `DocResolution.NormalStaysInside` | internal/docgraph/docgraph.go:1528-1536 | a normal path is cleaned and never leads out of the root |
| `DocResolution.LookupFindsExactly` | internal/docgraph/docgraph.go:1493-1508 | a candidate finds the document of exactly that path, else exactly those that agree in lower case |
| `DocResolution.BaseNameFindsExactly` | internal/docgraph/docgraph.go:1509-1517 | a base name finds exactly the documents that have it, else those that have it in lower case |
| `DocResolution.EdgeFindsExactly` | internal/docgraph/docgraph.go:1429-1441 | an edge with an id finds exactly the documents of that id; another is searched by path, and by the id its path spells only if that fails and the relation is semantic |
| `DocResolution.Precedence` | internal/docgraph/docgraph.go:1485-1517 | a target is taken as it stands, else beside its document, else below the first root where it is found, else by base name |
| `DocResolution.SearchAgrees` | internal/docgraph/docgraph.go:1457-1548 | a search does not depend on the order or the repetition of the documents |
| `DocResolution.DocumentOrderDoesNotMatter` | internal/docgraph/docgraph.go:1419-1548 | the resolved edges are the same for any two lists of the same documents |
| `DocResolution.EnteredIndexes` | internal/docgraph/docgraph.go:1471-1480 | entering a document keeps every map a picture of the linear search |
| `DocResolution.NewDocResolutionIndex` | internal/docgraph/docgraph.go:1457-1483 | the built maps answer as the linear search does |
| `DocResolution.BuildStages` | internal/docgraph/docgraph.go:1485-1492 | the candidate paths in order of precedence |
| `DocResolution.LookupStages` | internal/docgraph/docgraph.go:1493-1508 | the first stage that finds anything decides, exact before folded |
| `DocResolution.ResolvePath` | internal/docgraph/docgraph.go:1485-1517 | lookup through the index equals the linear search |
| `DocResolution.FindCandidates` | internal/docgraph/docgraph.go:1429-1441 | document id first, then path, then the id behind a semantic relation |
| `DocResolution.ResolveDocEdges` | internal/docgraph/docgraph.go:1419-1455 | the loop through the index equals resolving each edge by linear search |
| `DocResolution.EdgeIsClassified` | internal/docgraph/docgraph.go:1442-1453 | each edge but code is a dropped self-edge, resolved to another existing document, missing, or ambiguous between two or more existing ones |
| `DocResolution.BareIsNotFoundAgain` | internal/docgraph/docgraph.go:1353-1358 | a path without an extension is never what a search for it finds |
| `DocResolution.ResolvingAgain` | internal/docgraph/docgraph.go:1419-1455 | over normal document paths, resolving the output again changes nothing if and only if every edge in it is settled |
| `DocResolution.BareTargetIsUnsettled` | internal/docgraph/docgraph.go:1353-1455 | a resolved edge that is missing when resolved again |
| `PathLaws.CleanIdempotent` | internal/docgraph/docgraph.go:1528-1536 | cleaning gives the normal form, with no empty or "." piece and ".." only in front of a relative path, and cleaning again changes nothing |
| `PathLaws.ParentCancels` | internal/docgraph/docgraph.go:1528-1536 | a name followed by ".." is as if neither were there, and so is an empty or "." piece |
| `PathLaws.LeadingParent` | internal/docgraph/docgraph.go:1528-1536 | a ".." with nothing before it stays in a relative path and goes from a rooted one |
| `PathLaws.DirAndBaseRejoin` | internal/docgraph/docgraph.go:1485-1492 | the directory of a path joined with its base is the path, cleaned |
| `PathLaws.ExtIs` | internal/docgraph/docgraph.go:1353-1358 | the extension runs from the last dot of the last piece to the end |

## Left out

- Version comparison of an update candidate and the owner cache in update.go and update_controller.go: would only add easy members.
- The self-update download, the elastic pool, the worker processes and the indexer: they appear as steps that may succeed or fail.
- Backpressure slots in server.go: they count requests and do not take part in the restart decision.
- The Kotlin error path that removes a runtime in use, and Manager.Shutdown: both close runtimes on purpose whatever is in flight.
- Telemetry, diagnostics of the file watcher, command line plumbing, rendering and governance checks: counting and flat checks.
- Path classification of watched files: an event in the model is one that has already been accepted.
- `UpdateListener.Listener`: the generation is unbounded, where Go wraps at 2^64; a connection returned together with an error is not modelled.
- `UpdateListener.StepKeepsInv`: the steps have no Resume that fails for want of a reopen function. It touches nothing, so a listener without one has the runs with no ResumeBegin; both callers of newUpdateListener outside the tests give one.
- `RuntimePool.MemoryBoundsHold`: for a section during which no call ends; `RuntimeBounds` says when it holds otherwise.
- `RuntimePool.Manager.RuntimeMemoryTotal`: the sum is unbounded, where Go wraps at 2^64.
- `StartLock`: the lock file is created, written, read and removed as a value, so the model has no file handles; the polling loop is a call that may retry.
- `FenceMask.FenceIsExactly`: follows the code, which sets no limit on the indent and accepts a backtick in the text after an opening marker, unlike section 4.5 of the CommonMark Spec.
- `PathRepair.QuotedPathDecodes`: over characters, so a text that is not valid UTF-8 is not covered.
- `DigestFraming.CalculateGitFrontier`: gives the bytes that are hashed, not their SHA-256; git's output, path cleaning and file reading are parameters.
- `DocResolution.ResolveDocEdges`: edges carry the fields that resolution reads or writes; labels and other fields pass through.
- `DocResolution.ResolvingAgain`: asks for document paths that are already normal, since normalisation itself is not idempotent (a path that starts with two slashes keeps one).
