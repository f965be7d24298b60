/**
 The pausable listener of internal/daemon/update_listener.go.

 `Fields` are the fields guarded by the listener's mutex, and each function on
 `Fields` is what one critical section does to them.  `State` adds the calls that
 are between two critical sections.  A waiting loop on the `changed` channel is
 a call that has not yet taken its next step, so it has no state of its own.
 */
module UpdateListener {
  import opened Common

  type Tid = nat
  type Inner = nat
  type Conn = nat

  datatype Fields = Fields(
    inner: Option<Inner>,
    paused: bool,
    closed: bool,
    pausing: bool,
    reopening: bool,
    generation: nat,
    pending: int,
    active: int)

  // ---------------------------------------------------------------- critical sections

  predicate CanAccept(f: Fields) {
    !f.closed && !f.paused && f.inner.Some?
  }

  function EnterAccept(f: Fields): Fields {
    f.(pending := f.pending + 1)
  }

  function LeaveAccept(f: Fields, delivered: bool): Fields {
    f.(active := if delivered then f.active + 1 else f.active, pending := f.pending - 1)
  }

  function BeginPause(f: Fields): Fields {
    var g := f.(pausing := true, generation := f.generation + 1);
    if f.paused then g else g.(paused := true, inner := None)
  }

  // The inner listener a pause takes away and must close.
  function TakenByPause(f: Fields): Option<Inner> {
    if f.paused then None else f.inner
  }

  function EndPause(f: Fields): Fields {
    f.(pausing := false)
  }

  function BeginResume(f: Fields): Fields {
    f.(reopening := true)
  }

  predicate Installs(f: Fields, gen: nat, reopened: Option<Inner>, failed: bool) {
    !f.closed && gen == f.generation && !f.pausing && !failed && reopened.Some?
  }

  function EndResume(f: Fields, gen: nat, reopened: Option<Inner>, failed: bool): Fields {
    var g := f.(reopening := false);
    if Installs(f, gen, reopened, failed) then g.(inner := reopened, paused := false) else g
  }

  function BeginClose(f: Fields): Fields {
    f.(closed := true, generation := f.generation + 1, inner := None)
  }

  function ReleaseLease(f: Fields): Fields {
    f.(active := f.active - 1)
  }

  // ---------------------------------------------------------------- calls in progress

  // `stale` tells an error that the inner listener reports because it was closed
  // from a failure of its own.
  datatype AcceptResult = Delivered(conn: Conn) | Failed(stale: bool)

  datatype AcceptCall =
    | Accepting(inner: Inner, gen: nat)
    | Returned(inner: Inner, gen: nat, result: AcceptResult)

  datatype AcceptOutcome = Leased(conn: Conn) | ListenerClosed | Retried | InnerError(stale: bool)

  datatype PauseCall = ClosingInner | Draining(closeFailed: bool)

  datatype PauseOutcome = Idle | Busy | PauseError

  datatype ResumeCall = Opening(gen: nat) | Opened(gen: nat, failed: bool)

  // A call that has an inner listener in its local variable `inner`.
  datatype Actor = Pauser(t: Tid) | Resumer(t: Tid) | Discarder(t: Tid) | Closer(t: Tid)

  // Where an inner listener that was ever opened has gone.
  datatype Fate = Installed | HeldBy(actor: Actor) | Closed

  // Accept calls with a pending accept, and the connections they deliver.
  datatype Accepts = Accepts(
    calls: map<Tid, AcceptCall>,
    leases: set<Conn>,
    conns: set<Conn>)          // every connection an inner listener ever delivered

  // Calls that take, open or close inner listeners.
  datatype Inners = Inners(
    pauses: map<Tid, PauseCall>,     // Pause calls between the two critical sections
    resumes: map<Tid, ResumeCall>,   // Resume calls between the two critical sections
    held: map<Actor, Inner>,
    fate: map<Inner, Fate>,          // every inner listener ever opened
    closes: multiset<Inner>)         // calls of Close on inner listeners

  datatype State = State(f: Fields, acc: Accepts, own: Inners)

  function Init(inner: Inner): State {
    State(Fields(Some(inner), false, false, false, false, 0, 0, 0),
          Accepts(map[], {}, {}),
          Inners(map[], map[], map[], map[inner := Installed], multiset{}))
  }

  // ---------------------------------------------------------------- steps

  datatype Step =
    | AcceptEnter(t: Tid)
    | AcceptReturn(t: Tid, result: AcceptResult)
    | AcceptLeave(t: Tid)
    | LeaseClose(conn: Conn)
    | PauseBegin(t: Tid)
    | PauseClosed(t: Tid, closeFailed: bool)
    | PauseEnd(t: Tid, ctxDone: bool)
    | ResumeBegin(t: Tid)
    | ResumeOpened(t: Tid, reopened: Option<Inner>, failed: bool)
    | ResumeEnd(t: Tid)
    | ResumeDiscarded(t: Tid)
    | CloseBegin(t: Tid)
    | CloseDone(t: Tid)

  predicate Enabled(s: State, step: Step) {
    var own := s.own;
    match step
    case AcceptEnter(t) => t !in s.acc.calls && CanAccept(s.f)
    case AcceptReturn(t, result) =>
      && t in s.acc.calls && s.acc.calls[t].Accepting?
      && (result.Delivered? ==> result.conn !in s.acc.conns)
      && (result == Failed(true) ==> own.closes[s.acc.calls[t].inner] > 0)
    case AcceptLeave(t) => t in s.acc.calls && s.acc.calls[t].Returned?
    case LeaseClose(conn) => conn in s.acc.leases
    case PauseBegin(t) => t !in own.pauses && !s.f.closed && !s.f.pausing
    case PauseClosed(t, _) => t in own.pauses && own.pauses[t].ClosingInner?
    case PauseEnd(t, ctxDone) =>
      && t in own.pauses && own.pauses[t].Draining?
      && (s.f.pending <= 0 || s.f.closed || ctxDone)
    case ResumeBegin(t) =>
      && t !in own.resumes && Discarder(t) !in own.held
      && !s.f.closed && !s.f.pausing && !s.f.reopening && s.f.paused
    case ResumeOpened(t, reopened, _) =>
      && t in own.resumes && own.resumes[t].Opening?
      && (reopened.Some? ==> reopened.value !in own.fate)
    case ResumeEnd(t) => t in own.resumes && own.resumes[t].Opened?
    case ResumeDiscarded(t) => Discarder(t) in own.held
    case CloseBegin(t) => Closer(t) !in own.held && !s.f.closed
    case CloseDone(t) => Closer(t) in own.held
  }

  function Take(own: Inners, inner: Option<Inner>, a: Actor): Inners {
    if inner.None? then own
    else own.(held := own.held[a := inner.value], fate := own.fate[inner.value := HeldBy(a)])
  }

  function CloseHeld(own: Inners, a: Actor): Inners {
    if a !in own.held then own
    else own.(held := own.held - {a}, fate := own.fate[own.held[a] := Closed],
              closes := own.closes + multiset{own.held[a]})
  }

  function InstallHeld(own: Inners, a: Actor): Inners {
    if a !in own.held then own
    else own.(held := own.held - {a}, fate := own.fate[own.held[a] := Installed])
  }

  function PassHeld(own: Inners, a: Actor, b: Actor): Inners {
    if a !in own.held then own
    else own.(held := (own.held - {a})[b := own.held[a]], fate := own.fate[own.held[a] := HeldBy(b)])
  }

  function Held(own: Inners, a: Actor): Option<Inner> {
    if a in own.held then Some(own.held[a]) else None
  }

  predicate InstallsAt(s: State, step: Step) {
    && step.ResumeEnd? && Enabled(s, step)
    && var c := s.own.resumes[step.t];
       Installs(s.f, c.gen, Held(s.own, Resumer(step.t)), c.failed)
  }

  function ApplyAccept(f: Fields, acc: Accepts, step: Step): Accepts
    requires step.AcceptEnter? ==> CanAccept(f)
    requires step.AcceptReturn? || step.AcceptLeave? ==> step.t in acc.calls
    requires step.AcceptLeave? ==> acc.calls[step.t].Returned?
  {
    match step
    case AcceptEnter(t) =>
      acc.(calls := acc.calls[t := Accepting(f.inner.value, f.generation)])
    case AcceptReturn(t, result) =>
      acc.(calls := acc.calls[t := Returned(acc.calls[t].inner, acc.calls[t].gen, result)],
           conns := if result.Delivered? then acc.conns + {result.conn} else acc.conns)
    case AcceptLeave(t) =>
      var r := acc.calls[t].result;
      acc.(calls := acc.calls - {t}, leases := if r.Delivered? then acc.leases + {r.conn} else acc.leases)
    case LeaseClose(conn) => acc.(leases := acc.leases - {conn})
    case _ => acc
  }

  function ApplyFields(s: State, step: Step): Fields
    requires Enabled(s, step)
  {
    match step
    case AcceptEnter(_) => EnterAccept(s.f)
    case AcceptLeave(t) => LeaveAccept(s.f, s.acc.calls[t].result.Delivered?)
    case LeaseClose(_) => ReleaseLease(s.f)
    case PauseBegin(_) => BeginPause(s.f)
    case PauseEnd(_, _) => EndPause(s.f)
    case ResumeBegin(_) => BeginResume(s.f)
    case ResumeEnd(t) =>
      EndResume(s.f, s.own.resumes[t].gen, Held(s.own, Resumer(t)), s.own.resumes[t].failed)
    case CloseBegin(_) => BeginClose(s.f)
    case _ => s.f
  }

  function ApplyInners(s: State, step: Step): Inners
    requires Enabled(s, step)
  {
    var own := s.own;
    match step
    case PauseBegin(t) =>
      Take(own, TakenByPause(s.f), Pauser(t)).(pauses := own.pauses[t := ClosingInner])
    case PauseClosed(t, closeFailed) =>
      CloseHeld(own, Pauser(t)).(pauses := own.pauses[t := Draining(closeFailed && Pauser(t) in own.held)])
    case PauseEnd(t, _) => own.(pauses := own.pauses - {t})
    case ResumeBegin(t) => own.(resumes := own.resumes[t := Opening(s.f.generation)])
    case ResumeOpened(t, reopened, failed) =>
      Take(own, reopened, Resumer(t)).(resumes := own.resumes[t := Opened(own.resumes[t].gen, failed)])
    case ResumeEnd(t) =>
      (if InstallsAt(s, step) then InstallHeld(own, Resumer(t)) else PassHeld(own, Resumer(t), Discarder(t)))
        .(resumes := own.resumes - {t})
    case ResumeDiscarded(t) => CloseHeld(own, Discarder(t))
    case CloseBegin(t) => Take(own, s.f.inner, Closer(t))
    case CloseDone(t) => CloseHeld(own, Closer(t))
    case _ => own
  }

  function Apply(s: State, step: Step): State
    requires Enabled(s, step)
  {
    State(ApplyFields(s, step), ApplyAccept(s.f, s.acc, step), ApplyInners(s, step))
  }

  // What Accept does after its second critical section.
  function AcceptOutcomeOf(s: State, t: Tid): AcceptOutcome
    requires Enabled(s, AcceptLeave(t))
  {
    var c := s.acc.calls[t];
    match c.result
    case Delivered(conn) => Leased(conn)
    case Failed(stale) =>
      if s.f.closed then ListenerClosed
      else if s.f.paused || c.gen != s.f.generation then Retried
      else InnerError(stale)
  }

  // What Pause returns from its last critical section.
  function PauseOutcomeOf(s: State, t: Tid, ctxDone: bool): PauseOutcome
    requires Enabled(s, PauseEnd(t, ctxDone))
  {
    if s.f.closed || ctxDone || s.own.pauses[t].closeFailed then PauseError
    else if s.f.active == 0 then Idle
    else Busy
  }

  // ---------------------------------------------------------------- invariant

  // Accept call `t` has been given connection `c` and has not leased it yet.
  predicate Delivering(acc: Accepts, t: Tid, c: Conn) {
    t in acc.calls && acc.calls[t].Returned? && acc.calls[t].result == Delivered(c)
  }

  ghost predicate Counted(pending: int, active: int, acc: Accepts) {
    && pending == |acc.calls|
    && active == |acc.leases|
  }

  // A connection is delivered once, and is leased only after that.
  ghost predicate DeliveredOnce(acc: Accepts) {
    && acc.leases <= acc.conns
    && (forall t, c :: Delivering(acc, t, c) ==> c in acc.conns && c !in acc.leases)
    && (forall t, u, c :: Delivering(acc, t, c) && Delivering(acc, u, c) ==> t == u)
  }

  ghost predicate OnePause(pausing: bool, own: Inners) {
    && (pausing <==> own.pauses != map[])
    && (forall t, u :: t in own.pauses && u in own.pauses ==> t == u)
    && (forall t :: Pauser(t) in own.held ==> t in own.pauses && own.pauses[t].ClosingInner?)
  }

  ghost predicate OneReopen(reopening: bool, own: Inners) {
    && (reopening <==> own.resumes != map[])
    && (forall t, u :: t in own.resumes && u in own.resumes ==> t == u)
    && (forall t :: Resumer(t) in own.held ==> t in own.resumes && own.resumes[t].Opened?)
    && (forall t :: t in own.resumes ==> Discarder(t) !in own.held)
  }

  ghost predicate InstalledOk(f: Fields) {
    (f.inner.Some? <==> !f.paused && !f.closed) && (f.pausing ==> f.paused)
  }

  // A call's generation snapshot is current only while what it saw still holds.
  ghost predicate AcceptSnapshots(f: Fields, acc: Accepts, closes: multiset<Inner>) {
    forall t :: t in acc.calls ==>
      && acc.calls[t].gen <= f.generation
      && (acc.calls[t].gen == f.generation ==> f.inner == Some(acc.calls[t].inner))
      && (acc.calls[t].Returned? && acc.calls[t].result == Failed(true) ==> closes[acc.calls[t].inner] > 0)
  }

  ghost predicate ResumeSnapshots(f: Fields, resumes: map<Tid, ResumeCall>) {
    forall t :: t in resumes ==>
      && resumes[t].gen <= f.generation
      && f.paused
      && (resumes[t].gen == f.generation ==> !f.pausing)
  }

  ghost predicate Snapshots(f: Fields, acc: Accepts, own: Inners) {
    InstalledOk(f) && AcceptSnapshots(f, acc, own.closes) && ResumeSnapshots(f, own.resumes)
  }

  // Every inner listener ever opened is installed, held by exactly one call that
  // will close or install it, or has been closed exactly once.
  ghost predicate Owned(inner: Option<Inner>, own: Inners) {
    && (inner.Some? ==> inner.value in own.fate && own.fate[inner.value] == Installed)
    && (forall i :: i in own.fate && own.fate[i] == Installed ==> inner == Some(i))
    && (forall a :: a in own.held ==> own.held[a] in own.fate && own.fate[own.held[a]] == HeldBy(a))
    && (forall i :: i in own.fate && own.fate[i].HeldBy? ==>
        own.fate[i].actor in own.held && own.held[own.fate[i].actor] == i)
    && (forall i :: own.closes[i] == if i in own.fate && own.fate[i] == Closed then 1 else 0)
  }

  ghost predicate Inv(s: State) {
    && Counted(s.f.pending, s.f.active, s.acc)
    && DeliveredOnce(s.acc)
    && OnePause(s.f.pausing, s.own)
    && OneReopen(s.f.reopening, s.own)
    && Snapshots(s.f, s.acc, s.own)
    && Owned(s.f.inner, s.own)
  }

  lemma CountedLeave(s: State, t: Tid)
    requires Counted(s.f.pending, s.f.active, s.acc) && DeliveredOnce(s.acc) && Enabled(s, AcceptLeave(t))
    ensures var f := ApplyFields(s, AcceptLeave(t));
            Counted(f.pending, f.active, ApplyAccept(s.f, s.acc, AcceptLeave(t)))
  {
    var acc := s.acc;
    RemoveCard(acc.calls, t);
    if acc.calls[t].result.Delivered? { assert Delivering(acc, t, acc.calls[t].result.conn); }
  }

  lemma CountedEnter(s: State, step: Step)
    requires Counted(s.f.pending, s.f.active, s.acc) && Enabled(s, step) && (step.AcceptEnter? || step.AcceptReturn?)
    ensures var f := ApplyFields(s, step); Counted(f.pending, f.active, ApplyAccept(s.f, s.acc, step))
  {
    InsertCard(s.acc.calls, step.t, ApplyAccept(s.f, s.acc, step).calls[step.t]);
  }

  lemma CountedStep(s: State, step: Step)
    requires Counted(s.f.pending, s.f.active, s.acc) && DeliveredOnce(s.acc) && Enabled(s, step)
    ensures var f := ApplyFields(s, step); Counted(f.pending, f.active, ApplyAccept(s.f, s.acc, step))
  {
    match step
    case AcceptEnter(_) => CountedEnter(s, step);
    case AcceptReturn(_, _) => CountedEnter(s, step);
    case AcceptLeave(t) => CountedLeave(s, t);
    case _ =>
  }

  lemma DeliveredOnceStep(s: State, step: Step)
    requires DeliveredOnce(s.acc) && Enabled(s, step)
    ensures DeliveredOnce(ApplyAccept(s.f, s.acc, step))
  {
    var acc, acc' := s.acc, ApplyAccept(s.f, s.acc, step);
    assert forall u, c :: Delivering(acc', u, c) ==> Delivering(acc, u, c) || step == AcceptReturn(u, Delivered(c));
    if step.AcceptLeave? && acc.calls[step.t].result.Delivered? {
      assert Delivering(acc, step.t, acc.calls[step.t].result.conn);
    }
  }

  lemma OnePauseStep(s: State, step: Step)
    requires OnePause(s.f.pausing, s.own) && Enabled(s, step)
    ensures OnePause(ApplyFields(s, step).pausing, ApplyInners(s, step))
  {
    var own' := ApplyInners(s, step);
    match step
    case PauseBegin(t) => assert t in own'.pauses;
    case PauseClosed(t, _) => assert t in own'.pauses;
    case PauseEnd(t, _) => assert own'.pauses == map[];
    case _ =>
  }

  lemma OneReopenStep(s: State, step: Step)
    requires OneReopen(s.f.reopening, s.own) && Enabled(s, step)
    ensures OneReopen(ApplyFields(s, step).reopening, ApplyInners(s, step))
  {
    var own' := ApplyInners(s, step);
    match step
    case ResumeBegin(t) => assert t in own'.resumes;
    case ResumeOpened(t, _, _) => assert t in own'.resumes;
    case ResumeEnd(t) => assert own'.resumes == map[];
    case _ =>
  }

  lemma InstalledStep(s: State, step: Step)
    requires InstalledOk(s.f) && ResumeSnapshots(s.f, s.own.resumes) && Enabled(s, step)
    ensures InstalledOk(ApplyFields(s, step))
  {
  }

  lemma ClosesGrow(s: State, step: Step, i: Inner)
    requires Enabled(s, step)
    ensures s.own.closes[i] <= ApplyInners(s, step).closes[i]
  {
  }

  // What a step does to an accept call that is neither entering nor returning.
  lemma AcceptSnapshotStays(s: State, step: Step, t: Tid)
    requires InstalledOk(s.f) && ResumeSnapshots(s.f, s.own.resumes)
    requires AcceptSnapshots(s.f, s.acc, s.own.closes) && Enabled(s, step) && t in s.acc.calls
    ensures var f := ApplyFields(s, step);
            && s.acc.calls[t].gen <= f.generation
            && (s.acc.calls[t].gen == f.generation ==> f.inner == Some(s.acc.calls[t].inner))
  {
  }

  lemma AcceptSnapshotsStep(s: State, step: Step)
    requires InstalledOk(s.f) && ResumeSnapshots(s.f, s.own.resumes)
    requires AcceptSnapshots(s.f, s.acc, s.own.closes) && Enabled(s, step)
    ensures AcceptSnapshots(ApplyFields(s, step), ApplyAccept(s.f, s.acc, step), ApplyInners(s, step).closes)
  {
    var acc' := ApplyAccept(s.f, s.acc, step);
    forall t | t in acc'.calls
      ensures var f := ApplyFields(s, step);
              && acc'.calls[t].gen <= f.generation
              && (acc'.calls[t].gen == f.generation ==> f.inner == Some(acc'.calls[t].inner))
              && (acc'.calls[t].Returned? && acc'.calls[t].result == Failed(true) ==>
                  ApplyInners(s, step).closes[acc'.calls[t].inner] > 0)
    {
      ClosesGrow(s, step, acc'.calls[t].inner);
      if t in s.acc.calls { AcceptSnapshotStays(s, step, t); }
    }
  }

  lemma ResumeSnapshotsStep(s: State, step: Step)
    requires OneReopen(s.f.reopening, s.own) && ResumeSnapshots(s.f, s.own.resumes) && Enabled(s, step)
    ensures ResumeSnapshots(ApplyFields(s, step), ApplyInners(s, step).resumes)
  {
  }

  lemma SnapshotsStep(s: State, step: Step)
    requires OneReopen(s.f.reopening, s.own) && Snapshots(s.f, s.acc, s.own) && Enabled(s, step)
    ensures var s' := Apply(s, step); Snapshots(s'.f, s'.acc, s'.own)
  {
    InstalledStep(s, step);
    AcceptSnapshotsStep(s, step);
    ResumeSnapshotsStep(s, step);
  }

  lemma TakeOwned(inner: Option<Inner>, own: Inners, i: Inner, a: Actor)
    requires Owned(inner, own) && a !in own.held && (inner == Some(i) || i !in own.fate)
    ensures Owned(if inner == Some(i) then None else inner, Take(own, Some(i), a))
  {
  }

  lemma CloseHeldOwned(inner: Option<Inner>, own: Inners, a: Actor)
    requires Owned(inner, own)
    ensures Owned(inner, CloseHeld(own, a))
  {
  }

  lemma InstallHeldOwned(own: Inners, a: Actor)
    requires Owned(None, own) && a in own.held
    ensures Owned(Some(own.held[a]), InstallHeld(own, a))
  {
  }

  lemma PassHeldOwned(inner: Option<Inner>, own: Inners, a: Actor, b: Actor)
    requires Owned(inner, own) && b !in own.held
    ensures Owned(inner, PassHeld(own, a, b))
  {
  }

  lemma OwnedStep(s: State, step: Step)
    requires OnePause(s.f.pausing, s.own) && OneReopen(s.f.reopening, s.own) && Snapshots(s.f, s.acc, s.own)
    requires Owned(s.f.inner, s.own) && Enabled(s, step)
    ensures Owned(ApplyFields(s, step).inner, ApplyInners(s, step))
  {
    match step
    case PauseBegin(t) => if s.f.inner.Some? { TakeOwned(s.f.inner, s.own, s.f.inner.value, Pauser(t)); }
    case PauseClosed(t, _) => CloseHeldOwned(s.f.inner, s.own, Pauser(t));
    case ResumeOpened(t, r, _) => if r.Some? { TakeOwned(s.f.inner, s.own, r.value, Resumer(t)); }
    case ResumeEnd(t) =>
      if InstallsAt(s, step) { InstallHeldOwned(s.own, Resumer(t)); }
      else { PassHeldOwned(s.f.inner, s.own, Resumer(t), Discarder(t)); }
    case ResumeDiscarded(t) => CloseHeldOwned(s.f.inner, s.own, Discarder(t));
    case CloseBegin(t) => if s.f.inner.Some? { TakeOwned(s.f.inner, s.own, s.f.inner.value, Closer(t)); }
    case CloseDone(t) => CloseHeldOwned(s.f.inner, s.own, Closer(t));
    case _ =>
  }

  lemma StepKeepsInv(s: State, step: Step)
    requires Inv(s) && Enabled(s, step)
    ensures Inv(Apply(s, step))
  {
    CountedStep(s, step);
    DeliveredOnceStep(s, step);
    OnePauseStep(s, step);
    OneReopenStep(s, step);
    SnapshotsStep(s, step);
    OwnedStep(s, step);
  }

  lemma InitInv(inner: Inner)
    ensures Inv(Init(inner))
  {
  }

  // ---------------------------------------------------------------- whole runs

  ghost predicate Next(s: State, step: Step, s': State) {
    Enabled(s, step) && s' == Apply(s, step)
  }

  ghost predicate IsRun(states: seq<State>, steps: seq<Step>) {
    && |states| == |steps| + 1
    && (exists inner :: states[0] == Init(inner))
    && (forall k {:trigger steps[k]} :: 0 <= k < |steps| ==> Next(states[k], steps[k], states[k + 1]))
  }

  lemma {:induction false} RunKeepsInv(states: seq<State>, steps: seq<Step>, k: nat)
    requires IsRun(states, steps) && k < |states|
    ensures Inv(states[k])
  {
    if k == 0 {
      var inner :| states[0] == Init(inner);
      InitInv(inner);
    } else {
      RunKeepsInv(states, steps, k - 1);
      StepKeepsInv(states[k - 1], steps[k - 1]);
    }
  }

  /** In every reachable state an inner listener is installed exactly when the
      listener is neither paused nor closed, and every inner listener ever opened
      is installed, held by exactly one call, or has been closed exactly once. */
  lemma EveryInnerIsAccountedFor(states: seq<State>, steps: seq<Step>, k: nat, i: Inner)
    requires IsRun(states, steps) && k < |states|
    ensures states[k].f.inner.Some? <==> !states[k].f.paused && !states[k].f.closed
    ensures var own := states[k].own;
            i in own.fate ==>
              && own.closes[i] <= 1
              && (own.closes[i] == 1 ==> states[k].f.inner != Some(i) && forall a :: a in own.held ==> own.held[a] != i)
              && (own.closes[i] == 0 && states[k].f.inner != Some(i) ==>
                    exists a :: a in own.held && own.held[a] == i
                                && forall b :: b in own.held && own.held[b] == i ==> b == a)
              && (states[k].f.inner == Some(i) ==> forall a :: a in own.held ==> own.held[a] != i)
  {
    RunKeepsInv(states, steps, k);
    var own := states[k].own;
    if i in own.fate && own.fate[i].HeldBy? {
      assert own.held[own.fate[i].actor] == i;
    }
  }

  /** An error that Accept passes on to its caller is a failure of the inner
      listener that is still installed, never the echo of a Pause closing it;
      net.ErrClosed is returned only once the listener is closed. */
  lemma PauseNeverFailsAccept(states: seq<State>, steps: seq<Step>, k: nat, t: Tid)
    requires IsRun(states, steps) && k < |states| && Enabled(states[k], AcceptLeave(t))
    ensures var o := AcceptOutcomeOf(states[k], t);
            && (o.InnerError? ==> !o.stale && states[k].f.inner == Some(states[k].acc.calls[t].inner)
                                  && states[k].own.closes[states[k].acc.calls[t].inner] == 0)
            && (o.ListenerClosed? ==> states[k].f.closed)
  {
    RunKeepsInv(states, steps, k);
  }

  predicate Quiet(s: State) {
    s.f.paused && s.f.pending == 0 && s.f.active == 0 && s.acc.calls == map[] && s.acc.leases == {}
  }

  lemma QuietUntilInstall(s: State, step: Step)
    requires Enabled(s, step) && Quiet(s) && !InstallsAt(s, step)
    ensures Quiet(Apply(s, step))
  {
  }

  lemma IdlePauseIsQuiet(s: State, step: Step)
    requires Inv(s) && PausedIdle(s, step)
    ensures Quiet(Apply(s, step))
  {
    assert |s.acc.calls.Keys| == 0;
  }

  // Step `step` is a Pause returning (true, nil).
  predicate PausedIdle(s: State, step: Step) {
    && step.PauseEnd? && Enabled(s, step)
    && PauseOutcomeOf(s, step.t, step.ctxDone) == Idle
  }

  ghost predicate NoInstall(states: seq<State>, steps: seq<Step>, j: nat, m: nat) {
    && m < |states| && |states| == |steps| + 1
    && forall k {:trigger InstallsAt(states[k], steps[k])} :: j <= k < m ==> !InstallsAt(states[k], steps[k])
  }

  lemma {:induction false} QuietPersists(states: seq<State>, steps: seq<Step>, j: nat, m: nat)
    requires IsRun(states, steps) && j <= m && NoInstall(states, steps, j, m) && Quiet(states[j])
    ensures Quiet(states[m])
    decreases m
  {
    if j < m {
      QuietPersists(states, steps, j, m - 1);
      QuietUntilInstall(states[m - 1], steps[m - 1]);
    }
  }

  /** If Pause returns (true, nil) at step `j`, no accept is pending and no lease
      is live from then on, until a Resume installs a new inner listener. */
  lemma IdlePauseStaysQuiet(states: seq<State>, steps: seq<Step>, j: nat, m: nat)
    requires IsRun(states, steps) && j < m < |states| && PausedIdle(states[j], steps[j])
    requires NoInstall(states, steps, j + 1, m)
    ensures Quiet(states[m])
  {
    RunKeepsInv(states, steps, j);
    IdlePauseIsQuiet(states[j], steps[j]);
    QuietPersists(states, steps, j + 1, m);
  }

  // Resume call `t` was begun by step `i` and is still reopening in state `m`.
  ghost predicate SameResume(states: seq<State>, steps: seq<Step>, t: Tid, i: nat, m: nat) {
    && i < m < |states| == |steps| + 1
    && steps[i] == ResumeBegin(t)
    && forall k :: i < k <= m ==> t in states[k].own.resumes
  }

  lemma GenerationStep(s: State, step: Step, t: Tid)
    requires Enabled(s, step)
    ensures var s' := Apply(s, step);
            && s.f.generation <= s'.f.generation
            && (step.PauseBegin? || step.CloseBegin? <==> s.f.generation != s'.f.generation)
            && (s.f.generation == s'.f.generation ==> (s'.f.pausing ==> s.f.pausing) && s'.f.closed == s.f.closed)
            && (t in s.own.resumes && t in s'.own.resumes ==> s'.own.resumes[t].gen == s.own.resumes[t].gen)
  {
  }

  lemma {:induction false} GenerationGrows(states: seq<State>, steps: seq<Step>, i: nat, m: nat)
    requires IsRun(states, steps) && i <= m < |states|
    ensures states[i].f.generation <= states[m].f.generation
    decreases m
  {
    if i < m {
      GenerationGrows(states, steps, i, m - 1);
      GenerationStep(states[m - 1], steps[m - 1], 0);
    }
  }

  lemma {:induction false} ReopenKeepsSnapshot(states: seq<State>, steps: seq<Step>, t: Tid, i: nat, m: nat)
    requires IsRun(states, steps) && SameResume(states, steps, t, i, m)
    ensures states[m].own.resumes[t].gen == states[i].f.generation
    decreases m
  {
    if i + 1 < m {
      ReopenKeepsSnapshot(states, steps, t, i, m - 1);
      GenerationStep(states[m - 1], steps[m - 1], t);
    }
  }

  // While the generation has not moved, nothing paused or closed the listener.
  lemma {:induction false} ReopenUndisturbed(states: seq<State>, steps: seq<Step>, t: Tid, i: nat, m: nat)
    requires IsRun(states, steps) && SameResume(states, steps, t, i, m)
    requires states[m].f.generation == states[i].f.generation
    ensures !states[m].f.pausing && !states[m].f.closed
    ensures forall k :: i < k < m ==> !steps[k].PauseBegin? && !steps[k].CloseBegin?
    decreases m
  {
    if i + 1 < m {
      GenerationGrows(states, steps, i, m - 1);
      GenerationStep(states[m - 1], steps[m - 1], t);
      ReopenUndisturbed(states, steps, t, i, m - 1);
    }
  }

  /** A Resume that installs its listener at step `m`, having begun at step `i`,
      saw no Pause and no Close in between: none began, none was in progress. */
  lemma InstallMeansNoOverlap(states: seq<State>, steps: seq<Step>, t: Tid, i: nat, m: nat)
    requires IsRun(states, steps) && m < |steps| && SameResume(states, steps, t, i, m)
    requires steps[m] == ResumeEnd(t) && InstallsAt(states[m], steps[m])
    ensures forall k :: i < k < m ==> !steps[k].PauseBegin? && !steps[k].CloseBegin?
    ensures forall k :: i < k <= m ==> !states[k].f.pausing && !states[k].f.closed
  {
    ReopenKeepsSnapshot(states, steps, t, i, m);
    ReopenUndisturbed(states, steps, t, i, m);
    forall k | i < k <= m ensures !states[k].f.closed && !states[k].f.pausing {
      GenerationGrows(states, steps, i, k);
      GenerationGrows(states, steps, k, m);
      ReopenUndisturbed(states, steps, t, i, k);
    }
  }

  lemma PauseEndsWhilePausing(states: seq<State>, steps: seq<Step>, j: nat)
    requires IsRun(states, steps) && j < |steps| && steps[j].PauseEnd?
    ensures states[j].f.pausing
  {
    RunKeepsInv(states, steps, j);
    var step := steps[j];
    assert OnePause(states[j].f.pausing, states[j].own) && step.t in states[j].own.pauses;
  }

  /** Whatever ends the quiet after a Pause that finished at step `j` is a Resume
      that took its generation snapshot after `j`. */
  lemma InstallAfterPauseBeganAfterIt(states: seq<State>, steps: seq<Step>, t: Tid, i: nat, j: nat, m: nat)
    requires IsRun(states, steps) && j < m < |steps| && SameResume(states, steps, t, i, m)
    requires steps[j].PauseEnd?
    requires steps[m] == ResumeEnd(t) && InstallsAt(states[m], steps[m])
    ensures j < i
  {
    PauseEndsWhilePausing(states, steps, j);
    InstallMeansNoOverlap(states, steps, t, i, m);
  }

  lemma ResumingStep(s: State, step: Step, t: Tid)
    requires Enabled(s, step) && t in Apply(s, step).own.resumes
    ensures t in s.own.resumes || step == ResumeBegin(t)
  {
  }

  // Every Resume that is reopening was begun by a step of the run.
  lemma {:induction false} ResumeBegan(states: seq<State>, steps: seq<Step>, t: Tid, m: nat) returns (i: nat)
    requires IsRun(states, steps) && m < |states| && t in states[m].own.resumes
    ensures SameResume(states, steps, t, i, m)
  {
    var step := steps[m - 1];
    ResumingStep(states[m - 1], step, t);
    if step == ResumeBegin(t) {
      i := m - 1;
    } else {
      i := ResumeBegan(states, steps, t, m - 1);
    }
  }

  // Resume `t` begins at step `i` and installs its listener at step `n`.
  ghost predicate Reinstalls(states: seq<State>, steps: seq<Step>, t: Tid, i: nat, n: nat) {
    && i < n < |steps| && SameResume(states, steps, t, i, n)
    && steps[n] == ResumeEnd(t) && InstallsAt(states[n], steps[n])
  }

  lemma InstallWasBegun(states: seq<State>, steps: seq<Step>, j: nat, n: nat)
    requires IsRun(states, steps) && j < n < |steps| && steps[j].PauseEnd? && InstallsAt(states[n], steps[n])
    ensures exists t, i: nat :: j < i && Reinstalls(states, steps, t, i, n)
  {
    var t := steps[n].t;
    var i := ResumeBegan(states, steps, t, n);
    InstallAfterPauseBeganAfterIt(states, steps, t, i, j, n);
    assert Reinstalls(states, steps, t, i, n);
  }

  /** A listener that is no longer quiet after a Pause returned (true, nil) at step `j` was given a new
      inner listener by a Resume that both began and installed after `j`. */
  lemma QuietEndsByLaterResume(states: seq<State>, steps: seq<Step>, j: nat, m: nat)
    requires IsRun(states, steps) && j < m < |states| && PausedIdle(states[j], steps[j]) && !Quiet(states[m])
    ensures exists t, i: nat, n: nat :: j < i && n < m && Reinstalls(states, steps, t, i, n)
  {
    if NoInstall(states, steps, j + 1, m) {
      IdlePauseStaysQuiet(states, steps, j, m);
    } else {
      var n :| j + 1 <= n < m && InstallsAt(states[n], steps[n]);
      InstallWasBegun(states, steps, j, n);
    }
  }

  /** A Pause that begins at step `j` while a Resume is reopening dooms it: the
      Resume ends without installing, and the listener stays paused. */
  lemma OverlappedResumeInstallsNothing(states: seq<State>, steps: seq<Step>, t: Tid, i: nat, j: nat, m: nat)
    requires IsRun(states, steps) && i < j < m < |steps| && SameResume(states, steps, t, i, m)
    requires steps[j].PauseBegin? || steps[j].CloseBegin?
    requires steps[m] == ResumeEnd(t)
    ensures !InstallsAt(states[m], steps[m])
    ensures states[m + 1].f.inner.None? && (states[m + 1].f.paused || states[m + 1].f.closed)
  {
    if InstallsAt(states[m], steps[m]) {
      InstallMeansNoOverlap(states, steps, t, i, m);
    }
    RunKeepsInv(states, steps, m);
    RunKeepsInv(states, steps, m + 1);
  }

  // ---------------------------------------------------------------- exactly when a Resume installs

  // Between steps `i` and `m` no Pause and no Close began.
  predicate Undisturbed(steps: seq<Step>, i: nat, m: nat)
    requires m <= |steps|
  {
    forall k :: i < k < m ==> !steps[k].PauseBegin? && !steps[k].CloseBegin?
  }

  lemma {:induction false} UndisturbedStays(states: seq<State>, steps: seq<Step>, i: nat, m: nat)
    requires IsRun(states, steps) && i < m < |states| && Undisturbed(steps, i, m)
    ensures states[m].f.generation == states[i + 1].f.generation
    ensures (states[m].f.pausing ==> states[i + 1].f.pausing) && states[m].f.closed == states[i + 1].f.closed
    decreases m
  {
    if i + 1 < m {
      UndisturbedStays(states, steps, i, m - 1);
      GenerationStep(states[m - 1], steps[m - 1], 0);
    }
  }

  // Step `o` is the return of the reopen function in the Resume of `t` that runs from `i` to `m`.
  predicate ReopensAt(steps: seq<Step>, t: Tid, i: nat, o: nat, m: nat) {
    i < o < m <= |steps| && steps[o].ResumeOpened? && steps[o].t == t
  }

  // What Resume `t` has in its local variables once the reopen function has returned.
  ghost predicate Got(s: State, t: Tid, reopened: Option<Inner>, failed: bool) {
    && t in s.own.resumes && s.own.resumes[t].Opened? && s.own.resumes[t].failed == failed
    && Held(s.own, Resumer(t)) == reopened
  }

  lemma GotStep(s: State, step: Step, t: Tid)
    requires OneReopen(s.f.reopening, s.own) && Enabled(s, step)
    requires t in s.own.resumes && t in Apply(s, step).own.resumes
    ensures step.ResumeOpened? && step.t == t ==> Got(Apply(s, step), t, step.reopened, step.failed)
    ensures s.own.resumes[t].Opened? ==> Got(Apply(s, step), t, Held(s.own, Resumer(t)), s.own.resumes[t].failed)
    ensures Apply(s, step).own.resumes[t].Opened? ==>
              s.own.resumes[t].Opened? || (step.ResumeOpened? && step.t == t)
  {
  }

  lemma RunGotStep(states: seq<State>, steps: seq<Step>, t: Tid, k: nat)
    requires IsRun(states, steps) && k < |steps| && t in states[k].own.resumes && t in states[k + 1].own.resumes
    ensures steps[k].ResumeOpened? && steps[k].t == t ==> Got(states[k + 1], t, steps[k].reopened, steps[k].failed)
    ensures states[k].own.resumes[t].Opened? ==>
              Got(states[k + 1], t, Held(states[k].own, Resumer(t)), states[k].own.resumes[t].failed)
    ensures states[k + 1].own.resumes[t].Opened? ==>
              states[k].own.resumes[t].Opened? || (steps[k].ResumeOpened? && steps[k].t == t)
  {
    RunKeepsInv(states, steps, k);
    var step := steps[k];
    GotStep(states[k], step, t);
  }

  lemma {:induction false} GotAt(states: seq<State>, steps: seq<Step>, t: Tid, i: nat, o: nat, m: nat)
    requires IsRun(states, steps) && SameResume(states, steps, t, i, m) && ReopensAt(steps, t, i, o, m)
    ensures Got(states[m], t, steps[o].reopened, steps[o].failed)
    decreases m
  {
    RunGotStep(states, steps, t, m - 1);
    if o < m - 1 { GotAt(states, steps, t, i, o, m - 1); }
  }

  lemma JustBegun(states: seq<State>, steps: seq<Step>, t: Tid, i: nat)
    requires IsRun(states, steps) && i < |steps| && steps[i] == ResumeBegin(t)
    ensures t in states[i + 1].own.resumes && states[i + 1].own.resumes[t].Opening?
  {
  }

  /** A Resume that ends has had its reopen function return. */
  lemma {:induction false} ReopenReturned(states: seq<State>, steps: seq<Step>, t: Tid, i: nat, m: nat)
      returns (o: nat)
    requires IsRun(states, steps) && SameResume(states, steps, t, i, m) && states[m].own.resumes[t].Opened?
    ensures ReopensAt(steps, t, i, o, m)
    decreases m
  {
    JustBegun(states, steps, t, i);
    if steps[m - 1].ResumeOpened? && steps[m - 1].t == t {
      o := m - 1;
    } else {
      RunGotStep(states, steps, t, m - 1);
      o := ReopenReturned(states, steps, t, i, m - 1);
    }
  }

  lemma InstallsIff(states: seq<State>, steps: seq<Step>, t: Tid, i: nat, o: nat, m: nat)
    requires IsRun(states, steps) && m < |steps| && SameResume(states, steps, t, i, m)
    requires steps[m] == ResumeEnd(t) && ReopensAt(steps, t, i, o, m)
    ensures InstallsAt(states[m], steps[m]) <==>
              Undisturbed(steps, i, m) && !steps[o].failed && steps[o].reopened.Some?
  {
    GotAt(states, steps, t, i, o, m);
    ReopenKeepsSnapshot(states, steps, t, i, m);
    assert Next(states[m], steps[m], states[m + 1]) && Next(states[i], steps[i], states[i + 1]);
    if InstallsAt(states[m], steps[m]) { ReopenUndisturbed(states, steps, t, i, m); }
    if Undisturbed(steps, i, m) { UndisturbedStays(states, steps, i, m); }
  }

  lemma EndsUnpaused(s: State, t: Tid)
    requires Inv(s) && Enabled(s, ResumeEnd(t))
    ensures var f := Apply(s, ResumeEnd(t)).f;
            if InstallsAt(s, ResumeEnd(t)) then f.inner == Held(s.own, Resumer(t)) && !f.paused && !f.closed
            else f.paused && f.inner.None?
  {
  }

  /** A Resume leaves the listener running on what its reopen function gave if and only if that function
      gave an inner listener without failing and no Pause and no Close began meanwhile.  Otherwise the
      listener stays paused. */
  lemma ResumeInstallsExactly(states: seq<State>, steps: seq<Step>, t: Tid, i: nat, o: nat, m: nat)
    requires IsRun(states, steps) && m < |steps| && SameResume(states, steps, t, i, m)
    requires steps[m] == ResumeEnd(t) && ReopensAt(steps, t, i, o, m)
    ensures var f := states[m + 1].f;
            if Undisturbed(steps, i, m) && !steps[o].failed && steps[o].reopened.Some?
            then f.inner == steps[o].reopened && !f.paused && !f.closed
            else f.paused && f.inner.None?
  {
    InstallsIff(states, steps, t, i, o, m);
    GotAt(states, steps, t, i, o, m);
    RunKeepsInv(states, steps, m);
    EndsUnpaused(states[m], t);
    assert Next(states[m], steps[m], states[m + 1]);
  }

  // ---------------------------------------------------------------- exactly when an Accept runs and how it ends

  /** A call may enter the inner listener's Accept exactly while the listener is neither paused nor closed,
      and it is given the inner listener that is installed. */
  lemma AcceptsExactlyWhileRunning(states: seq<State>, steps: seq<Step>, k: nat, t: Tid)
    requires IsRun(states, steps) && k < |states| && t !in states[k].acc.calls
    ensures Enabled(states[k], AcceptEnter(t)) <==> !states[k].f.paused && !states[k].f.closed
    ensures Enabled(states[k], AcceptEnter(t)) ==>
              Apply(states[k], AcceptEnter(t)).acc.calls[t].inner == states[k].f.inner.value
  {
    RunKeepsInv(states, steps, k);
  }

  // Accept call `t` entered the inner listener at step `i` and has not left in state `m`.
  ghost predicate SameAccept(states: seq<State>, steps: seq<Step>, t: Tid, i: nat, m: nat) {
    && i < m < |states| == |steps| + 1
    && steps[i] == AcceptEnter(t)
    && forall k :: i < k <= m ==> t in states[k].acc.calls
  }

  lemma AcceptGenStep(s: State, step: Step, t: Tid)
    requires Enabled(s, step) && t in s.acc.calls && t in Apply(s, step).acc.calls
    ensures Apply(s, step).acc.calls[t].gen == s.acc.calls[t].gen
    ensures (!s.f.paused && !s.f.closed && !step.PauseBegin? && !step.CloseBegin?) ==>
              !Apply(s, step).f.paused && !Apply(s, step).f.closed
  {
  }

  lemma {:induction false} AcceptKeepsSnapshot(states: seq<State>, steps: seq<Step>, t: Tid, i: nat, m: nat)
    requires IsRun(states, steps) && SameAccept(states, steps, t, i, m)
    ensures states[m].acc.calls[t].gen == states[i].f.generation
    ensures Undisturbed(steps, i, m) ==> !states[m].f.paused && !states[m].f.closed
    decreases m
  {
    assert Next(states[m - 1], steps[m - 1], states[m]);
    if i + 1 < m {
      AcceptKeepsSnapshot(states, steps, t, i, m - 1);
      AcceptGenStep(states[m - 1], steps[m - 1], t);
    }
  }

  lemma {:induction false} GenerationCounts(states: seq<State>, steps: seq<Step>, i: nat, m: nat)
    requires IsRun(states, steps) && i < m < |states| && states[m].f.generation == states[i + 1].f.generation
    ensures Undisturbed(steps, i, m)
    decreases m
  {
    if i + 1 < m {
      GenerationGrows(states, steps, i + 1, m - 1);
      GenerationStep(states[m - 1], steps[m - 1], 0);
      GenerationCounts(states, steps, i, m - 1);
    }
  }

  /** How an accept that entered at step `i` ends at step `m`: a delivered connection is always leased; a
      failure is passed on exactly when no Pause and no Close began meanwhile, and is retried exactly when
      one did and the listener is still open. */
  lemma AcceptEndsExactly(states: seq<State>, steps: seq<Step>, t: Tid, i: nat, m: nat)
    requires IsRun(states, steps) && m < |steps| && SameAccept(states, steps, t, i, m) && steps[m] == AcceptLeave(t)
    ensures Enabled(states[m], AcceptLeave(t))
    ensures match states[m].acc.calls[t].result
            case Delivered(conn) => AcceptOutcomeOf(states[m], t) == Leased(conn)
            case Failed(stale) =>
              && (AcceptOutcomeOf(states[m], t) == InnerError(stale) <==> Undisturbed(steps, i, m))
              && (AcceptOutcomeOf(states[m], t) == Retried <==> !Undisturbed(steps, i, m) && !states[m].f.closed)
  {
    assert Next(states[m], steps[m], states[m + 1]) && Next(states[i], steps[i], states[i + 1]);
    AcceptKeepsSnapshot(states, steps, t, i, m);
    if Undisturbed(steps, i, m) {
      UndisturbedStays(states, steps, i, m);
    } else if states[m].f.generation == states[i + 1].f.generation {
      GenerationCounts(states, steps, i, m);
    }
  }

  // ---------------------------------------------------------------- exactly what a Pause reports

  // Pause `t` had its inner listener closed by step `c` and has not ended in state `e`.
  ghost predicate SamePause(states: seq<State>, steps: seq<Step>, t: Tid, c: nat, e: nat) {
    && c < e < |states| == |steps| + 1
    && steps[c].PauseClosed? && steps[c].t == t
    && forall k :: c < k <= e ==> t in states[k].own.pauses
  }

  lemma DrainStep(s: State, step: Step, t: Tid)
    requires Enabled(s, step) && t in s.own.pauses && t in Apply(s, step).own.pauses
    ensures s.own.pauses[t].Draining? ==> Apply(s, step).own.pauses[t] == s.own.pauses[t]
    ensures step.PauseClosed? && step.t == t ==>
              Apply(s, step).own.pauses[t] == Draining(step.closeFailed && Pauser(t) in s.own.held)
  {
  }

  lemma {:induction false} StillDraining(states: seq<State>, steps: seq<Step>, t: Tid, c: nat, e: nat)
    requires IsRun(states, steps) && SamePause(states, steps, t, c, e)
    ensures states[e].own.pauses[t] == Draining(steps[c].closeFailed && Pauser(t) in states[c].own.held)
    decreases e
  {
    var step := steps[e - 1];
    assert Next(states[e - 1], step, states[e]);
    DrainStep(states[e - 1], step, t);
    if c + 1 < e { StillDraining(states, steps, t, c, e - 1); }
  }

  /** A Pause that ends in time, on an open listener and without an error from closing the inner listener it
      took, reports idle exactly when no connection is leased and busy otherwise; any other is an error. */
  lemma PauseReportsExactly(states: seq<State>, steps: seq<Step>, t: Tid, c: nat, e: nat, ctxDone: bool)
    requires IsRun(states, steps) && e < |steps| && SamePause(states, steps, t, c, e)
    requires steps[e] == PauseEnd(t, ctxDone)
    ensures Enabled(states[e], steps[e])
    ensures var well := !states[e].f.closed && !ctxDone && !(steps[c].closeFailed && Pauser(t) in states[c].own.held);
            PauseOutcomeOf(states[e], t, ctxDone)
            == if !well then PauseError else if states[e].acc.leases == {} then Idle else Busy
  {
    assert Next(states[e], steps[e], states[e + 1]);
    RunKeepsInv(states, steps, e);
    StillDraining(states, steps, t, c, e);
  }

  // ---------------------------------------------------------------- the object

  /** The listener object: each method is one critical section, and `View` ties
      it to the functions the runs above are made of. */
  class Listener {
    var inner: Option<Inner>
    var paused: bool
    var closed: bool
    var pausing: bool
    var reopening: bool
    var generation: nat
    var pending: int
    var active: int
    const canReopen: bool    // a reopen function was given

    function View(): Fields
      reads this
    {
      Fields(inner, paused, closed, pausing, reopening, generation, pending, active)
    }

    constructor (inner: Inner, canReopen: bool)
      ensures View() == Init(inner).f && this.canReopen == canReopen
    {
      this.inner, this.canReopen := Some(inner), canReopen;
      paused, closed, pausing, reopening := false, false, false, false;
      generation, pending, active := 0, 0, 0;
    }

    // Accept up to its call of the inner listener; None when it has to wait or give up.
    method AcceptEnter() returns (target: Option<(Inner, nat)>)
      modifies this
      ensures View() == if old(CanAccept(View())) then EnterAccept(old(View())) else old(View())
      ensures target == if old(CanAccept(View())) then Some((old(inner).value, old(generation))) else None
    {
      if closed || paused || inner.None? { return None; }
      target := Some((inner.value, generation));
      pending := pending + 1;
    }

    method AcceptLeave(gen: nat, delivered: bool) returns (wasClosed: bool, retry: bool)
      modifies this
      ensures View() == LeaveAccept(old(View()), delivered)
      ensures wasClosed == old(closed) && retry == (old(paused) || gen != old(generation))
    {
      if delivered { active := active + 1; }
      pending := pending - 1;
      wasClosed, retry := closed, paused || gen != generation;
    }

    method PauseBegin() returns (ok: bool, taken: Option<Inner>)
      modifies this
      ensures ok == !(old(closed) || old(pausing))
      ensures View() == if ok then BeginPause(old(View())) else old(View())
      ensures taken == if ok then TakenByPause(old(View())) else None
    {
      ok, taken := !closed && !pausing, None;
      if !ok { return; }
      pausing := true;
      generation := generation + 1;
      if !paused {
        paused := true;
        taken := inner;
        inner := None;
      }
    }

    method PauseEnd(ctxDone: bool, closeFailed: bool) returns (outcome: PauseOutcome)
      modifies this
      ensures View() == EndPause(old(View()))
      ensures outcome == Idle <==> !old(closed) && !ctxDone && !closeFailed && old(active) == 0
      ensures outcome == Busy <==> !old(closed) && !ctxDone && !closeFailed && old(active) != 0
    {
      if closed { outcome := PauseError; }
      else if ctxDone { outcome := PauseError; }
      else if closeFailed { outcome := PauseError; }
      else if active == 0 { outcome := Idle; }
      else { outcome := Busy; }
      pausing := false;
    }

    method ResumeBegin() returns (snapshot: Option<nat>)
      modifies this
      ensures snapshot.Some? <==> canReopen && !old(closed) && !old(pausing) && !old(reopening) && old(paused)
      ensures snapshot.Some? ==> snapshot.value == old(generation)
      ensures View() == if snapshot.Some? then BeginResume(old(View())) else old(View())
    {
      if closed || pausing || reopening || !paused { return None; }
      if !canReopen { return None; }
      reopening := true;
      snapshot := Some(generation);
    }

    // Returns the inner listener the caller has to close, if any.
    method ResumeEnd(gen: nat, got: Option<Inner>, failed: bool) returns (discard: Option<Inner>)
      modifies this
      ensures View() == EndResume(old(View()), gen, got, failed)
      ensures discard == if Installs(old(View()), gen, got, failed) then None else got
    {
      reopening := false;
      if closed { return got; }
      if gen != generation || pausing { return got; }
      if failed { return got; }
      if got.None? { return None; }
      inner := got;
      paused := false;
      discard := None;
    }

    method CloseBegin() returns (taken: Option<Inner>)
      modifies this
      ensures View() == if old(closed) then old(View()) else BeginClose(old(View()))
      ensures taken == if old(closed) then None else old(inner)
    {
      if closed { return None; }
      closed := true;
      generation := generation + 1;
      taken := inner;
      inner := None;
    }

    method LeaseClose()
      modifies this
      ensures View() == ReleaseLease(old(View()))
    {
      active := active - 1;
    }
  }

  /** A leased connection, which gives its lease back once however often it is closed. */
  class Lease {
    const owner: Listener
    var returned: bool

    constructor (owner: Listener)
      ensures this.owner == owner && !returned
    {
      this.owner, returned := owner, false;
    }

    method Close()
      modifies this, owner
      ensures returned
      ensures owner.View() == if old(returned) then old(owner.View()) else ReleaseLease(old(owner.View()))
    {
      if !returned {
        returned := true;
        owner.LeaseClose();
      }
    }
  }
}
