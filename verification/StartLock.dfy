/**
 The cross-process start lock of internal/daemon/start_lock.go: an owner file
 that is only touched while holding an exclusive guard, by processes that may
 die at any step.

 The guard is exclusive and falls free when its holder dies, and the liveness
 probe never reports a live process as dead.  Process ids may be reused.
 */
module StartLock {
  import opened Common
  import R = StartLockRecord

  type Pid = nat
  type Handle = nat    // a *startLock value

  // Where the operation that holds the guard is.
  datatype Phase =
    | Outside
    | Opening                               // before the first exclusive create
    | Judging                               // the file exists: before reclaim
    | Condemned                             // reclaim decided to remove the file
    | Removed                               // before the second exclusive create
    | Naming                                // the file is created, before the nonce
    | Writing(nonce: string, written: nat)  // so many characters of the record are in the file
    | Failing                               // about to remove the file it created
    | Closing(h: Handle)                    // Close, before reading the file
    | Leaving(won: Option<R.Owner>)         // about to unlock the guard

  datatype Session = Session(pid: Pid, phase: Phase)

  datatype State = State(
    alive: set<Pid>,
    file: Option<string>,
    guard: Option<Session>,
    holders: map<Handle, R.Owner>,   // locks acquired and not yet closed, in live processes
    issued: nat)                     // handles given out so far

  function Init(file: Option<string>): State {
    State({}, file, None, map[], 0)
  }

  datatype Step =
    | Spawn(pid: Pid)
    | Crash(pid: Pid)
    | GuardForAcquire(pid: Pid)
    | GuardForClose(h: Handle)
    | CloseTimeout(h: Handle)          // Close gives up waiting for the guard
    | OpenFirst
    | Judge(expired: bool, dead: bool)
    | Unlink(failed: bool)
    | OpenSecond
    | Name(nonce: string)              // an invalid one stands for a failed generator too
    | Write(upTo: nat)
    | WriteFails
    | Finish(closeFailed: bool)
    | CleanUp(failed: bool)
    | CloseOwn(failed: bool)
    | GiveUp                           // any other input or output error
    | Unlock(failed: bool)

  // The phase of the guarded operation; Outside when nobody holds the guard.
  function At(s: State): Phase {
    if s.guard.Some? then s.guard.value.phase else Outside
  }

  // The guarded operation is between its create and its return.
  predicate Creates(p: Phase) {
    p.Removed? || p.Naming? || p.Writing? || p.Failing?
  }

  predicate Enabled(s: State, step: Step) {
    match step
    case Spawn(pid) => pid !in s.alive && 0 < pid <= R.MAX_PID
    case Crash(pid) => pid in s.alive
    case GuardForAcquire(pid) => s.guard.None? && pid in s.alive
    case GuardForClose(h) => s.guard.None? && h in s.holders
    case CloseTimeout(h) => h in s.holders
    case OpenFirst => At(s).Opening?
    case Judge(_, dead) =>
      && At(s).Judging?
      && (dead && s.file.Some? && R.Parse(s.file.value).Some? ==> R.Parse(s.file.value).value.pid !in s.alive)
    case Unlink(_) => At(s).Condemned?
    case OpenSecond => At(s).Removed?
    case Name(_) => At(s).Naming?
    case Write(upTo) =>
      && At(s).Writing?
      && s.guard.value.phase.written < upTo <= |R.Print(Mine(s.guard.value))|
    case WriteFails => At(s).Writing?
    case Finish(_) => At(s).Writing? && s.guard.value.phase.written == |R.Print(Mine(s.guard.value))|
    case CleanUp(_) => At(s).Failing?
    case CloseOwn(_) => At(s).Closing?
    case GiveUp => At(s).Opening? || At(s).Judging? || At(s).Removed?
    case Unlock(_) => At(s).Leaving?
  }

  // The record the guarded operation is writing.
  function Mine(g: Session): R.Owner
    requires g.phase.Writing?
  {
    R.Owner(g.pid, g.phase.nonce)
  }

  function Goto(s: State, p: Phase): State
    requires s.guard.Some?
  {
    s.(guard := Some(s.guard.value.(phase := p)))
  }

  // reclaimStartLockLocked: may the existing file be taken away?
  function Verdict(file: Option<string>, expired: bool, dead: bool): Phase {
    if file.None? then Removed
    else if file.value == "" then (if expired then Condemned else Leaving(None))
    else if R.Parse(file.value).None? then Leaving(None)
    else if dead then Condemned else Leaving(None)
  }

  function Apply(s: State, step: Step): State
    requires Enabled(s, step)
  {
    match step
    case Spawn(pid) => s.(alive := s.alive + {pid})
    case Crash(pid) =>
      s.(alive := s.alive - {pid},
         guard := if s.guard.Some? && s.guard.value.pid == pid then None else s.guard,
         holders := map h | h in s.holders && s.holders[h].pid != pid :: s.holders[h])
    case GuardForAcquire(pid) => s.(guard := Some(Session(pid, Opening)))
    case GuardForClose(h) => s.(guard := Some(Session(s.holders[h].pid, Closing(h))))
    case CloseTimeout(h) => s.(holders := s.holders - {h})
    case OpenFirst => if s.file.None? then Goto(s, Naming).(file := Some("")) else Goto(s, Judging)
    case Judge(expired, dead) => Goto(s, Verdict(s.file, expired, dead))
    case Unlink(failed) => if failed then Goto(s, Leaving(None)) else Goto(s, Removed).(file := None)
    case OpenSecond => if s.file.None? then Goto(s, Naming).(file := Some("")) else Goto(s, Leaving(None))
    case Name(nonce) => Goto(s, if R.ValidNonce(nonce) then Writing(nonce, 0) else Failing)
    case Write(upTo) =>
      var g := s.guard.value;
      Goto(s, Writing(g.phase.nonce, upTo)).(file := Some(R.Print(Mine(g))[..upTo]))
    case WriteFails => Goto(s, Failing)
    case Finish(closeFailed) => Goto(s, Leaving(if closeFailed then None else Some(Mine(s.guard.value))))
    case CleanUp(failed) => Goto(s, Leaving(None)).(file := if failed then s.file else None)
    case CloseOwn(failed) =>
      var h := s.guard.value.phase.h;
      var own := h in s.holders && s.file.Some? && R.Parse(s.file.value) == Some(s.holders[h]);
      Goto(s, Leaving(None)).(file := if own && !failed then None else s.file, holders := s.holders - {h})
    case GiveUp => Goto(s, Leaving(None))
    case Unlock(failed) =>
      var won := s.guard.value.phase.won;
      if won.Some? && !failed then
        s.(guard := None, holders := s.holders[s.issued := won.value], issued := s.issued + 1)
      else s.(guard := None)
  }

  // ---------------------------------------------------------------- invariant

  ghost predicate HoldersOk(s: State) {
    && (forall h :: h in s.holders ==>
          h < s.issued && s.holders[h].pid in s.alive && R.ValidOwner(s.holders[h])
            && s.file == Some(R.Print(s.holders[h])))
    && (forall h, i :: h in s.holders && i in s.holders ==> h == i)
    && (forall pid :: pid in s.alive ==> 0 < pid <= R.MAX_PID)
  }

  ghost predicate GuardOk(s: State) {
    s.guard.Some? ==>
      var g := s.guard.value;
      && g.pid in s.alive
      && (g.phase.Condemned? || Creates(g.phase) ==> s.holders == map[])
      && (g.phase.Removed? ==> s.file.None?)
      && (g.phase.Naming? ==> s.file == Some(""))
      && (g.phase.Writing? ==> R.ValidNonce(g.phase.nonce) && g.phase.written <= |R.Print(Mine(g))|
                               && s.file == Some(R.Print(Mine(g))[..g.phase.written]))
      && (g.phase.Leaving? && g.phase.won.Some? ==>
            s.holders == map[] && g.phase.won.value.pid == g.pid && R.ValidOwner(g.phase.won.value)
            && s.file == Some(R.Print(g.phase.won.value)))
  }

  ghost predicate Inv(s: State) {
    HoldersOk(s) && GuardOk(s)
  }

  lemma ReclaimSparesHolders(s: State, expired: bool, dead: bool)
    requires Inv(s) && Enabled(s, Judge(expired, dead)) && !Verdict(s.file, expired, dead).Leaving?
    ensures s.holders == map[]
  {
    if h :| h in s.holders {
      R.RoundTrip(s.holders[h]);
    }
  }

  // Close removes the file only for the lock that is held, which is then held no more.
  lemma CloseOwnHolders(s: State, failed: bool)
    requires Inv(s) && Enabled(s, CloseOwn(failed))
    ensures HoldersOk(Apply(s, CloseOwn(failed)))
  {
    var h := s.guard.value.phase.h;
    assert h in s.holders ==> (s.holders - {h}) == map[];
    if i :| i in s.holders { R.RoundTrip(s.holders[i]); }
  }

  lemma HoldersStep(s: State, step: Step)
    requires Inv(s) && Enabled(s, step)
    ensures HoldersOk(Apply(s, step))
  {
    match step
    case CloseOwn(failed) => CloseOwnHolders(s, failed);
    case _ =>
  }

  lemma GuardStep(s: State, step: Step)
    requires Inv(s) && Enabled(s, step)
    ensures GuardOk(Apply(s, step))
  {
    match step
    case Judge(expired, dead) =>
      if !Verdict(s.file, expired, dead).Leaving? { ReclaimSparesHolders(s, expired, dead); }
    case OpenFirst => if s.file.None? { assert s.holders == map[]; }
    case Finish(_) =>
      assert R.Print(Mine(s.guard.value))[..s.guard.value.phase.written] == R.Print(Mine(s.guard.value));
    case _ =>
  }

  // ---------------------------------------------------------------- whole runs

  ghost predicate Next(s: State, step: Step, s': State) {
    Enabled(s, step) && s' == Apply(s, step)
  }

  ghost predicate IsRun(states: seq<State>, steps: seq<Step>) {
    && |states| == |steps| + 1
    && (exists file :: states[0] == Init(file))
    && (forall k {:trigger steps[k]} :: 0 <= k < |steps| ==> Next(states[k], steps[k], states[k + 1]))
  }

  lemma {:induction false} RunKeepsInv(states: seq<State>, steps: seq<Step>, k: nat)
    requires IsRun(states, steps) && k < |states|
    ensures Inv(states[k])
  {
    if k > 0 {
      RunKeepsInv(states, steps, k - 1);
      HoldersStep(states[k - 1], steps[k - 1]);
      GuardStep(states[k - 1], steps[k - 1]);
    }
  }

  /** At most one lock is held at any time, over all runs and crashes; its process
      is alive and the file carries exactly its process id and nonce. */
  lemma MutualExclusion(states: seq<State>, steps: seq<Step>, k: nat, h: Handle)
    requires IsRun(states, steps) && k < |states| && h in states[k].holders
    ensures states[k].holders.Keys == {h}
    ensures var o := states[k].holders[h];
            o.pid in states[k].alive && states[k].file == Some(R.Print(o)) && R.Parse(R.Print(o)) == Some(o)
  {
    RunKeepsInv(states, steps, k);
    R.RoundTrip(states[k].holders[h]);
  }

  lemma FileStep(s: State, step: Step, h: Handle)
    requires Inv(s) && Enabled(s, step) && h in s.holders && Apply(s, step).file != s.file
    ensures step.CloseOwn? && At(s) == Closing(h)
  {
  }

  /** While a lock is held, nothing but its own Close changes the file: neither
      reclaim, nor another Close, nor a competing acquire. */
  lemma OnlyTheOwnerRemovesTheFile(states: seq<State>, steps: seq<Step>, k: nat, h: Handle)
    requires IsRun(states, steps) && k < |steps| && h in states[k].holders
    requires states[k + 1].file != states[k].file
    ensures steps[k].CloseOwn? && At(states[k]) == Closing(h)
  {
    RunKeepsInv(states, steps, k);
    FileStep(states[k], steps[k], h);
  }

  /** The lock file cannot reappear between reclaim and the second create. */
  lemma FileNeverReappears(states: seq<State>, steps: seq<Step>, k: nat)
    requires IsRun(states, steps) && k < |steps| && steps[k] == OpenSecond
    ensures At(states[k + 1]) == Naming
  {
    RunKeepsInv(states, steps, k);
  }

  // ---------------------------------------------------------------- what a crash leaves behind

  // The processes can take the system from `s` to `s'` by these steps.
  ghost predicate Leads(s: State, steps: seq<Step>, s': State)
    decreases |steps|
  {
    if steps == [] then s == s'
    else Enabled(s, steps[0]) && Leads(Apply(s, steps[0]), steps[1..], s')
  }

  ghost predicate CanBeHeld(s: State) {
    exists steps, s' :: Leads(s, steps, s') && s'.holders != map[]
  }

  // The same without any process dying.
  ghost predicate CanBeHeldInPeace(s: State) {
    exists steps, s' :: Leads(s, steps, s') && s'.holders != map[] && NobodyDies(steps)
  }

  predicate NobodyDies(steps: seq<Step>) {
    forall i :: 0 <= i < |steps| ==> !steps[i].Crash?
  }

  lemma StepBack(s: State, step: Step)
    requires Enabled(s, step) && CanBeHeld(Apply(s, step))
    ensures CanBeHeld(s)
  {
    var steps, s' :| Leads(Apply(s, step), steps, s') && s'.holders != map[];
    assert ([step] + steps)[1..] == steps;
    assert Leads(s, [step] + steps, s');
  }

  lemma PeacefulStepBack(s: State, step: Step)
    requires Enabled(s, step) && !step.Crash? && CanBeHeldInPeace(Apply(s, step))
    ensures CanBeHeldInPeace(s)
  {
    var steps, s' :| Leads(Apply(s, step), steps, s') && s'.holders != map[] && NobodyDies(steps);
    assert ([step] + steps)[1..] == steps;
    assert Leads(s, [step] + steps, s');
  }

  lemma NamingWins(s: State)
    requires At(s) == Naming
    ensures CanBeHeldInPeace(s)
  {
    var nonce := seq(R.NONCE_CHARS, _ => '0');
    R.ValidNonceIsLowerHex(nonce);
    var s1 := Apply(s, Name(nonce));
    var s2 := Apply(s1, Write(|R.Print(Mine(s1.guard.value))|));
    var s3 := Apply(s2, Finish(false));
    var s4 := Apply(s3, Unlock(false));
    assert s.issued in s4.holders;
    assert Leads(s4, [], s4);
    PeacefulStepBack(s3, Unlock(false));
    PeacefulStepBack(s2, Finish(false));
    PeacefulStepBack(s1, Write(|R.Print(Mine(s1.guard.value))|));
    PeacefulStepBack(s, Name(nonce));
  }

  // The file is absent, or one that reclaim may remove once its owner is dead.
  predicate Reclaimable(file: Option<string>) {
    file.None? || file.value == "" || R.Parse(file.value).Some?
  }

  // Process `pid` runs, nobody has the guard, and the recorded owner is dead.
  lemma AcquireWins(s: State, pid: Pid)
    requires s.guard.None? && pid in s.alive && Reclaimable(s.file)
    requires s.file.Some? && R.Parse(s.file.value).Some? ==> R.Parse(s.file.value).value.pid !in s.alive
    ensures CanBeHeldInPeace(s)
  {
    var s1 := Apply(s, GuardForAcquire(pid));
    var s2 := Apply(s1, OpenFirst);
    if s.file.None? {
      NamingWins(s2);
    } else {
      var s3 := Apply(s2, Judge(true, true));
      var s4 := Apply(s3, Unlink(false));
      var s5 := Apply(s4, OpenSecond);
      NamingWins(s5);
      PeacefulStepBack(s4, OpenSecond);
      PeacefulStepBack(s3, Unlink(false));
      PeacefulStepBack(s2, Judge(true, true));
    }
    PeacefulStepBack(s1, OpenFirst);
    PeacefulStepBack(s, GuardForAcquire(pid));
  }

  lemma DeadOwnerWins(s: State, pid: Pid)
    requires s.guard.None? && Reclaimable(s.file) && 0 < pid <= R.MAX_PID
    requires s.file.Some? && R.Parse(s.file.value).Some? ==>
               R.Parse(s.file.value).value.pid !in s.alive && R.Parse(s.file.value).value.pid != pid
    ensures CanBeHeldInPeace(s)
  {
    if pid in s.alive {
      AcquireWins(s, pid);
    } else {
      AcquireWins(Apply(s, Spawn(pid)), pid);
      PeacefulStepBack(s, Spawn(pid));
    }
  }

  // Nothing but a look at the file is under way, and the file says nothing.
  ghost predicate Wedged(s: State, body: string) {
    && s.file == Some(body) && body != "" && R.Parse(body).None? && s.holders == map[]
    && (At(s).Outside? || At(s).Opening? || At(s).Judging? || At(s) == Leaving(None))
  }

  lemma {:induction false} WedgedForever(s: State, body: string, steps: seq<Step>, s': State)
    requires Wedged(s, body) && Leads(s, steps, s')
    ensures Wedged(s', body)
    decreases |steps|
  {
    if steps != [] { WedgedForever(Apply(s, steps[0]), body, steps[1..], s'); }
  }

  /** With the guard free, the lock can still be acquired exactly when the file is
      absent, empty, or a whole record.  A record torn by a crash blocks it for good. */
  lemma LockSurvivesExactlyUntorn(states: seq<State>, steps: seq<Step>, k: nat)
    requires IsRun(states, steps) && k < |states| && states[k].guard.None?
    ensures CanBeHeld(states[k]) <==> Reclaimable(states[k].file)
  {
    var s := states[k];
    RunKeepsInv(states, steps, k);
    if Reclaimable(s.file) {
      if s.file.Some? && R.Parse(s.file.value).Some? {
        var owner := R.Parse(s.file.value).value.pid;
        var pid := if owner == 1 then 2 else 1;
        if owner in s.alive {
          DeadOwnerWins(Apply(s, Crash(owner)), pid);
          assert CanBeHeld(Apply(s, Crash(owner)));
          StepBack(s, Crash(owner));
        } else {
          DeadOwnerWins(s, pid);
        }
      } else {
        DeadOwnerWins(s, 1);
      }
    } else {
      if h :| h in s.holders { R.RoundTrip(s.holders[h]); }
      forall ss, s' | Leads(s, ss, s') ensures s'.holders == map[] {
        WedgedForever(s, s.file.value, ss, s');
      }
    }
  }

  lemma CloseRemovesOwnFile(s: State, h: Handle)
    requires Inv(s) && Enabled(s, CloseOwn(false)) && At(s) == Closing(h) && h in s.holders
    ensures var s' := Apply(s, CloseOwn(false)); s'.file.None? && s'.holders == map[] && At(s') == Leaving(None)
  {
    R.RoundTrip(s.holders[h]);
    assert s.holders - {h} == map[];
  }

  /** A Close that does not fail takes the file away and lets the next process in, without anybody dying. */
  lemma CloseLetsTheNextIn(states: seq<State>, steps: seq<Step>, k: nat, h: Handle)
    requires IsRun(states, steps) && k < |steps| && steps[k] == CloseOwn(false)
    requires At(states[k]) == Closing(h) && h in states[k].holders
    ensures states[k + 1].file.None? && states[k + 1].holders == map[] && CanBeHeldInPeace(states[k + 1])
  {
    RunKeepsInv(states, steps, k);
    CloseRemovesOwnFile(states[k], h);
    var s := states[k + 1];
    var s1 := Apply(s, Unlock(false));
    DeadOwnerWins(s1, 1);
    PeacefulStepBack(s, Unlock(false));
  }

  /** An acquire that fails after creating the file takes it away again and leaves the lock free. */
  lemma FailureLetsTheNextIn(states: seq<State>, steps: seq<Step>, k: nat)
    requires IsRun(states, steps) && k < |steps| && steps[k] == CleanUp(false)
    ensures states[k + 1].file.None? && states[k + 1].holders == map[] && CanBeHeldInPeace(states[k + 1])
  {
    RunKeepsInv(states, steps, k);
    var s := states[k + 1];
    var s1 := Apply(s, Unlock(false));
    DeadOwnerWins(s1, 1);
    PeacefulStepBack(s, Unlock(false));
  }

  /** Reclaim condemns a file exactly when it is empty and old enough, or a whole record of a dead process. */
  lemma ReclaimIsExact(states: seq<State>, steps: seq<Step>, k: nat)
    requires IsRun(states, steps) && k < |steps| && steps[k].Judge?
    ensures At(states[k + 1]).Condemned? <==>
              && states[k].file.Some?
              && (if states[k].file.value == "" then steps[k].expired
                  else steps[k].dead && R.Parse(states[k].file.value).Some?)
    ensures states[k + 1].file == states[k].file
  {
    var step := steps[k];
    assert Next(states[k], step, states[k + 1]);
  }

  /** A process that dies in the middle of writing its record wedges the lock. */
  lemma CrashWhileWritingWedges(states: seq<State>, steps: seq<Step>, k: nat)
    requires IsRun(states, steps) && k < |steps| && At(states[k]).Writing?
    requires steps[k] == Crash(states[k].guard.value.pid)
    requires 0 < At(states[k]).written < |R.Print(Mine(states[k].guard.value))|
    ensures !CanBeHeld(states[k + 1])
  {
    RunKeepsInv(states, steps, k);
    var g := states[k].guard.value;
    R.TornRecordIsUnknown(Mine(g), g.phase.written);
    LockSurvivesExactlyUntorn(states, steps, k + 1);
  }

  lemma Extend(states: seq<State>, steps: seq<Step>, step: Step) returns (states': seq<State>, steps': seq<Step>)
    requires IsRun(states, steps) && Enabled(states[|states| - 1], step)
    ensures IsRun(states', steps') && steps' == steps + [step]
    ensures states' == states + [Apply(states[|states| - 1], step)]
  {
    states', steps' := states + [Apply(states[|states| - 1], step)], steps + [step];
    var file :| states[0] == Init(file);
    assert states'[0] == Init(file);
    forall k | 0 <= k < |steps'| ensures Next(states'[k], steps'[k], states'[k + 1]) {
      if k < |steps| { assert Next(states[k], steps[k], states[k + 1]); }
    }
  }

  // A first process has created the file and chosen its nonce.
  lemma AboutToWrite() returns (states: seq<State>, steps: seq<Step>)
    ensures IsRun(states, steps)
    ensures var s := states[|states| - 1];
            At(s).Writing? && At(s).written == 0 && s.guard.value.pid == 1 && s.alive == {1} && s.file == Some("")
  {
    var nonce := seq(R.NONCE_CHARS, _ => '0');
    R.ValidNonceIsLowerHex(nonce);
    states, steps := [Init(None)], [];
    states, steps := Extend(states, steps, Spawn(1));
    states, steps := Extend(states, steps, GuardForAcquire(1));
    states, steps := Extend(states, steps, OpenFirst);
    states, steps := Extend(states, steps, Name(nonce));
  }

  /** A run that ends with the lock wedged: the first process to start dies after one character of its record. */
  lemma TornRecordHappens() returns (states: seq<State>, steps: seq<Step>)
    ensures IsRun(states, steps) && !CanBeHeld(states[|states| - 1])
    ensures var s := states[|states| - 1]; s.alive == {} && s.guard.None? && s.file == Some("v")
  {
    states, steps := AboutToWrite();
    var s := states[|states| - 1];
    var record := R.Print(Mine(s.guard.value));
    assert record[..1] == "v" && |record| > 1;
    states, steps := Extend(states, steps, Write(1));
    states, steps := Extend(states, steps, Crash(1));
    CrashWhileWritingWedges(states, steps, |steps| - 1);
  }
}
