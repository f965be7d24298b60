/**
 The quiesce-and-restart protocol: two pausable listeners, the admission gate
 (internal/daemon/update.go), the connection handlers (internal/daemon/server.go)
 and the controller that composes them (internal/daemon/update_controller.go).

 The manager appears as counts of what it runs; its own bookkeeping is the subject
 of WatcherTable and RuntimePool.  Only admitted work can make the counts grow.
 */
module UpdateProtocol {
  import opened Common
  import UL = UpdateListener

  type Conn = UL.Conn

  datatype Which = Main | Admin

  // The controller goroutine is the only caller of Pause and Resume.
  const CTRL: UL.Tid := 0

  // ---------------------------------------------------------------- admission gate

  datatype Gate = Gate(active: int, barrier: bool)

  function Begin(g: Gate): Gate {
    if g.barrier then g else g.(active := g.active + 1)
  }

  function Finish(g: Gate): Gate {
    g.(active := g.active - 1)
  }

  predicate BarrierFree(g: Gate) {
    !g.barrier && g.active == 0
  }

  function TryIdleBarrier(g: Gate): Gate {
    if BarrierFree(g) then g.(barrier := true) else g
  }

  // ---------------------------------------------------------------- state

  // Work that holds an admission: a connection handler, an admin request or a telemetry purge.
  datatype Token = Handler(conn: Conn) | Request(n: nat)

  datatype Phase =
    | Accepted      // has its lease, has not asked the gate yet
    | Refused       // the gate said no; the connection is still to be closed
    | Serving       // admitted, connection open
    | Finishing     // connection closed, admission still to be returned

  datatype Load = Load(runtimes: nat, watchers: nat, transitions: nat, sessions: nat)

  const NO_LOAD := Load(0, 0, 0, 0)

  datatype Pc =
    | Idle
    | Checked
    | Pausing(w: Which)
    | PausedMain
    | JobsHeld
    | BarrierHeld
    | Rechecked
    | PausedAdmin
    | Committed
    | ShutDown
    | Resuming(w: Which)
    | Discarding(w: Which)
    | ReleasingGate(committed: bool)
    | ReleasingJobs(committed: bool)
    | Exited

  datatype State = State(
    main: UL.State,
    admin: UL.State,
    gate: Gate,
    tokens: set<Token>,
    handlers: map<Conn, Phase>,
    load: Load,
    jobs: nat,
    jobsPaused: bool,
    stopping: bool,          // shutdownStarted
    failed: set<Which>,      // listeners that could not be reopened, until the next Pause
    pc: Pc)

  function Init(m: UL.Inner, a: UL.Inner): State {
    State(UL.Init(m), UL.Init(a), Gate(0, false), {}, map[], NO_LOAD, 0, false, false, {}, Idle)
  }

  function At(s: State, w: Which): UL.State {
    if w.Main? then s.main else s.admin
  }

  function With(s: State, w: Which, l: UL.State): State {
    if w.Main? then s.(main := l) else s.(admin := l)
  }

  // ---------------------------------------------------------------- steps

  datatype Step =
    // the accept loops, the handlers and other admitted work
    | Ingress(w: Which, u: UL.Step)
    | HandlerBegin(conn: Conn)
    | HandlerRefuse(conn: Conn)
    | HandlerClose(conn: Conn)
    | HandlerEnd(conn: Conn)
    | RequestBegin(n: nat)
    | RequestEnd(n: nat)
    | Grow(worker: Token, load: Load)
    | Settle(load: Load)
    | JobStart
    | JobEnd
    | StopRequest
    // the controller
    | Check
    | Call(w: Which, u: UL.Step)    // inside Pause or Resume
    | Refuse(w: Which)              // Pause or Resume returns without touching the listener
    | HoldJobs
    | HoldBarrier
    | Recheck
    | Abort
    | Commit
    | CallShutdown
    | Launch
    | ReleaseGate
    | ReleaseJobs

  // Steps of a listener that neither the handlers nor the controller take.
  predicate IsIngress(w: Which, u: UL.Step) {
    || u.AcceptEnter? || u.AcceptReturn? || u.AcceptLeave? || u.CloseBegin? || u.CloseDone?
    || (w.Admin? && u.LeaseClose?)
  }

  // The controller gives up before it has anything to undo but the gate, or with the admin listener paused.
  predicate CanAbort(pc: Pc) {
    pc.BarrierHeld? || pc.Rechecked? || pc.PausedAdmin?
  }

  function BeforePause(w: Which): Pc {
    if w.Main? then Checked else Rechecked
  }

  function AfterPause(w: Which): Pc {
    if w.Main? then PausedMain else PausedAdmin
  }

  // Deferred releases run before the deferred Resume of the main listener.
  function AfterResume(w: Which): Pc {
    if w.Main? then Idle else ReleasingGate(false)
  }

  predicate InCallStep(pc: Pc, w: Which, u: UL.Step) {
    match u
    case PauseBegin(t) => t == CTRL && pc == BeforePause(w)
    case PauseClosed(t, _) => t == CTRL && pc == Pausing(w)
    case PauseEnd(t, _) => t == CTRL && pc == Pausing(w)
    case ResumeBegin(t) => t == CTRL && pc == Resuming(w)
    case ResumeOpened(t, _, _) => t == CTRL && pc == Resuming(w)
    case ResumeEnd(t) => t == CTRL && pc == Resuming(w)
    case ResumeDiscarded(t) => t == CTRL && pc == Discarding(w)
    case _ => false
  }

  // Where step `u` of a call on listener `l` takes the controller.
  function CallPc(l: UL.State, pc: Pc, w: Which, u: UL.Step): Pc
    requires UL.Enabled(l, u)
  {
    match u
    case PauseBegin(_) => Pausing(w)
    case PauseEnd(t, ctxDone) => if UL.PauseOutcomeOf(l, t, ctxDone) == UL.Idle then AfterPause(w) else Resuming(w)
    case ResumeEnd(t) =>
      if UL.InstallsAt(l, u) || UL.Held(l.own, UL.Resumer(t)).None? then AfterResume(w) else Discarding(w)
    case ResumeDiscarded(_) => AfterResume(w)
    case _ => pc
  }

  predicate Enabled(s: State, step: Step) {
    match step
    case Ingress(w, u) =>
      IsIngress(w, u) && UL.Enabled(At(s, w), u) && (u.CloseBegin? ==> s.stopping)
    case HandlerBegin(c) => c in s.handlers && s.handlers[c] == Accepted
    case HandlerRefuse(c) => c in s.handlers && s.handlers[c] == Refused && UL.Enabled(s.main, UL.LeaseClose(c))
    case HandlerClose(c) => c in s.handlers && s.handlers[c] == Serving && UL.Enabled(s.main, UL.LeaseClose(c))
    case HandlerEnd(c) => c in s.handlers && s.handlers[c] == Finishing
    case RequestBegin(n) => Request(n) !in s.tokens
    case RequestEnd(n) => Request(n) in s.tokens
    case Grow(worker, _) => worker in s.tokens
    case Settle(load) =>
      && load.runtimes <= s.load.runtimes && load.watchers <= s.load.watchers && load.sessions <= s.load.sessions
      && load.watchers + load.transitions <= s.load.watchers + s.load.transitions
    case JobStart => !s.jobsPaused
    case JobEnd => s.jobs > 0
    case StopRequest => true
    case Check => s.pc.Idle? && s.load == NO_LOAD
    case Call(w, u) => UL.Enabled(At(s, w), u) && InCallStep(s.pc, w, u)
    case Refuse(w) =>
      || (s.pc == BeforePause(w) && At(s, w).f.closed)
      || (s.pc == Resuming(w) && CTRL !in At(s, w).own.resumes && (At(s, w).f.closed || !At(s, w).f.paused))
    case HoldJobs => s.pc.PausedMain?
    case HoldBarrier => s.pc.JobsHeld?
    case Recheck => s.pc.BarrierHeld?
    case Abort => CanAbort(s.pc)
    case Commit => s.pc.PausedAdmin?
    case CallShutdown => s.pc.Committed?
    case Launch => s.pc.ShutDown?
    case ReleaseGate => s.pc.ReleasingGate?
    case ReleaseJobs => s.pc.ReleasingJobs?
  }

  function ApplyIngress(s: State, w: Which, u: UL.Step): State
    requires Enabled(s, Ingress(w, u))
  {
    var s' := With(s, w, UL.Apply(At(s, w), u));
    if w.Main? && u.AcceptLeave? && s.main.acc.calls[u.t].result.Delivered? then
      s'.(handlers := s.handlers[s.main.acc.calls[u.t].result.conn := Accepted])
    else s'
  }

  function ApplyWork(s: State, step: Step): State
    requires Enabled(s, step)
  {
    match step
    case HandlerBegin(c) =>
      if s.gate.barrier then s.(handlers := s.handlers[c := Refused])
      else s.(gate := Begin(s.gate), tokens := s.tokens + {Handler(c)}, handlers := s.handlers[c := Serving])
    case HandlerRefuse(c) =>
      s.(main := UL.Apply(s.main, UL.LeaseClose(c)), handlers := s.handlers - {c})
    case HandlerClose(c) =>
      s.(main := UL.Apply(s.main, UL.LeaseClose(c)), handlers := s.handlers[c := Finishing])
    case HandlerEnd(c) =>
      s.(gate := Finish(s.gate), tokens := s.tokens - {Handler(c)}, handlers := s.handlers - {c})
    case RequestBegin(n) =>
      if s.gate.barrier then s else s.(gate := Begin(s.gate), tokens := s.tokens + {Request(n)})
    case RequestEnd(n) => s.(gate := Finish(s.gate), tokens := s.tokens - {Request(n)})
    case Grow(_, load) => s.(load := load)
    case Settle(load) => s.(load := load)
    case JobStart => s.(jobs := s.jobs + 1)
    case JobEnd => s.(jobs := s.jobs - 1)
    case StopRequest => s.(stopping := true)
    case _ => s
  }

  function ApplyCtl(s: State, step: Step): State
    requires Enabled(s, step)
  {
    match step
    case Check => s.(pc := Checked)
    case HoldJobs =>
      if s.jobs == 0 && !s.jobsPaused then s.(jobsPaused := true, pc := JobsHeld) else s.(pc := Resuming(Main))
    case HoldBarrier =>
      if BarrierFree(s.gate) then s.(gate := TryIdleBarrier(s.gate), pc := BarrierHeld)
      else s.(pc := ReleasingJobs(false))
    case Recheck => s.(pc := if s.load == NO_LOAD then Rechecked else ReleasingGate(false))
    case Abort => s.(pc := if s.pc.PausedAdmin? then Resuming(Admin) else ReleasingGate(false))
    case Commit => s.(pc := if !s.stopping && s.load == NO_LOAD then Committed else Resuming(Admin))
    case CallShutdown => s.(stopping := true, pc := ShutDown)
    case Launch => s.(pc := ReleasingGate(true))
    case ReleaseGate => s.(gate := s.gate.(barrier := false), pc := ReleasingJobs(s.pc.committed))
    case ReleaseJobs => s.(jobsPaused := false, pc := if s.pc.committed then Exited else Resuming(Main))
    case _ => s
  }

  // A step of a call in which the reopen function fails or gives nothing.
  predicate Unopened(u: UL.Step) {
    u.ResumeOpened? && (u.failed || u.reopened.None?)
  }

  // A new Pause forgets an earlier failure to reopen.
  function FailedAfter(w: Which, u: UL.Step, failed: set<Which>): set<Which> {
    if u.PauseBegin? then failed - {w} else if Unopened(u) then failed + {w} else failed
  }

  function ApplyCall(s: State, w: Which, u: UL.Step): State
    requires Enabled(s, Call(w, u))
  {
    With(s, w, UL.Apply(At(s, w), u))
      .(pc := CallPc(At(s, w), s.pc, w, u),
        failed := FailedAfter(w, u, s.failed))
  }

  function ApplyRefuse(s: State, w: Which): State
    requires Enabled(s, Refuse(w))
  {
    if s.pc == BeforePause(w) then s.(pc := Resuming(w))
    else s.(pc := AfterResume(w))
  }

  function Apply(s: State, step: Step): State
    requires Enabled(s, step)
  {
    if step.Ingress? then ApplyIngress(s, step.w, step.u)
    else if step.Call? then ApplyCall(s, step.w, step.u)
    else if step.Refuse? then ApplyRefuse(s, step.w)
    else if IsCtl(step) then ApplyCtl(s, step)
    else ApplyWork(s, step)
  }

  predicate IsCtl(step: Step) {
    || step.Check? || step.HoldJobs? || step.HoldBarrier? || step.Recheck? || step.Abort? || step.Commit?
    || step.CallShutdown? || step.Launch? || step.ReleaseGate? || step.ReleaseJobs?
  }

  // ---------------------------------------------------------------- invariant

  ghost predicate GateOk(s: State) {
    && s.gate.active == |s.tokens|
    && (s.gate.barrier ==> s.tokens == {})
  }

  // A handler has a lease until it closes its connection and an admission from the gate until it ends.
  ghost predicate Covered(acc: UL.Accepts, tokens: set<Token>, handlers: map<Conn, Phase>) {
    && (forall c :: c in acc.leases <==> c in handlers && handlers[c] != Finishing)
    && (forall c :: Handler(c) in tokens <==> c in handlers && (handlers[c] == Serving || handlers[c] == Finishing))
    && (forall c :: c in handlers ==> c in acc.conns)
    && (forall t, c :: UL.Delivering(acc, t, c) ==> c !in handlers)
  }

  predicate HoldsBarrier(pc: Pc) {
    || pc.BarrierHeld? || pc.Rechecked? || pc.PausedAdmin? || pc.Committed? || pc.ShutDown? || pc.ReleasingGate?
    || pc == Pausing(Admin) || pc == Resuming(Admin) || pc == Discarding(Admin)
  }

  predicate HoldsJobs(pc: Pc) {
    HoldsBarrier(pc) || pc.JobsHeld? || pc.ReleasingJobs?
  }

  // The controller has paused listener `w` and has not resumed it since.
  predicate Owes(pc: Pc, w: Which) {
    match w
    case Main => pc.PausedMain? || pc.Exited? || HoldsJobs(pc)
    case Admin =>
      || pc.PausedAdmin? || pc.Committed? || pc.ShutDown? || pc.Exited?
      || pc == ReleasingGate(true) || pc == ReleasingJobs(true)
  }

  predicate InCall(pc: Pc, w: Which) {
    pc == Pausing(w) || pc == Resuming(w) || pc == Discarding(w)
  }

  ghost predicate CtlOk(s: State) {
    && s.gate.barrier == HoldsBarrier(s.pc)
    && s.jobsPaused == HoldsJobs(s.pc)
    && (s.jobsPaused ==> s.jobs == 0)
    && (s.pc.Committed? || s.pc.ShutDown? ==> s.load == NO_LOAD)
  }

  // What the controller's Resume knows of listener `l`, unless it was closed meanwhile: no Pause has begun,
  // and what the reopen function gave is still to be installed.
  ghost predicate ReopenOk(l: UL.State, w: Which, failed: set<Which>)
    requires CTRL in l.own.resumes
  {
    var c := l.own.resumes[CTRL];
    || l.f.closed
    || (c.gen == l.f.generation && !l.f.pausing
        && (c.Opened? && (c.failed || UL.Resumer(CTRL) !in l.own.held) ==> w in failed))
  }

  ghost predicate ListenerOk(l: UL.State, pc: Pc, w: Which, failed: set<Which>) {
    && l.own.pauses.Keys == (if pc == Pausing(w) then {CTRL} else {})
    && l.own.resumes.Keys <= (if pc == Resuming(w) then {CTRL} else {})
    && (UL.Discarder(CTRL) in l.own.held ==> pc == Discarding(w))
    && (CTRL in l.own.resumes ==> ReopenOk(l, w, failed))
    && (pc == Discarding(w) ==> l.f.closed || w in failed)
    && (Owes(pc, w) ==> UL.Quiet(l))
    && (!Owes(pc, w) && !InCall(pc, w) && l.f.paused ==> l.f.closed || w in failed)
  }

  ghost predicate Inv(s: State) {
    && UL.Inv(s.main) && UL.Inv(s.admin)
    && GateOk(s)
    && Covered(s.main.acc, s.tokens, s.handlers)
    && CtlOk(s)
    && ListenerOk(s.main, s.pc, Main, s.failed)
    && ListenerOk(s.admin, s.pc, Admin, s.failed)
  }

  lemma IngressFrame(l: UL.State, w: Which, u: UL.Step)
    requires UL.Enabled(l, u) && IsIngress(w, u)
    ensures var l' := UL.Apply(l, u);
            && l'.own.pauses == l.own.pauses && l'.own.resumes == l.own.resumes
            && l'.f.paused == l.f.paused && (l.f.closed ==> l'.f.closed) && l'.f.pausing == l.f.pausing
            && (l'.f.closed || l'.f.generation == l.f.generation)
            && (UL.Resumer(CTRL) in l'.own.held <==> UL.Resumer(CTRL) in l.own.held)
            && (UL.Discarder(CTRL) in l'.own.held <==> UL.Discarder(CTRL) in l.own.held)
            && (UL.Quiet(l) ==> UL.Quiet(l'))
  {
    if UL.Quiet(l) { UL.QuietUntilInstall(l, u); }
  }

  lemma IngressListenerOk(l: UL.State, w: Which, u: UL.Step, pc: Pc, failed: set<Which>)
    requires UL.Enabled(l, u) && IsIngress(w, u) && ListenerOk(l, pc, w, failed)
    ensures ListenerOk(UL.Apply(l, u), pc, w, failed)
  {
    IngressFrame(l, w, u);
  }

  // Accept steps of the main listener, seen from its accept calls alone.
  lemma AcceptCovered(l: UL.State, u: UL.Step, tokens: set<Token>, handlers: map<Conn, Phase>)
    requires UL.DeliveredOnce(l.acc) && Covered(l.acc, tokens, handlers)
    requires UL.Enabled(l, u) && IsIngress(Main, u)
    ensures Covered(UL.ApplyAccept(l.f, l.acc, u), tokens,
                    if u.AcceptLeave? && l.acc.calls[u.t].result.Delivered?
                    then handlers[l.acc.calls[u.t].result.conn := Accepted] else handlers)
  {
    var acc, acc' := l.acc, UL.ApplyAccept(l.f, l.acc, u);
    assert forall t, c :: UL.Delivering(acc', t, c) ==>
      (UL.Delivering(acc, t, c) && u != UL.AcceptLeave(t)) || u == UL.AcceptReturn(t, UL.Delivered(c));
    if u.AcceptLeave? && acc.calls[u.t].result.Delivered? {
      assert UL.Delivering(acc, u.t, acc.calls[u.t].result.conn);
    }
  }

  lemma IngressKeeps(s: State, w: Which, u: UL.Step)
    requires Inv(s) && Enabled(s, Ingress(w, u))
    ensures Inv(ApplyIngress(s, w, u))
  {
    UL.StepKeepsInv(At(s, w), u);
    IngressListenerOk(At(s, w), w, u, s.pc, s.failed);
    if w.Main? { AcceptCovered(s.main, u, s.tokens, s.handlers); }
  }

  lemma LeaseCloseFrame(l: UL.State, c: Conn, pc: Pc, failed: set<Which>)
    requires UL.Inv(l) && UL.Enabled(l, UL.LeaseClose(c)) && ListenerOk(l, pc, Main, failed)
    ensures var l' := UL.Apply(l, UL.LeaseClose(c));
            && UL.Inv(l') && ListenerOk(l', pc, Main, failed)
            && l'.acc == l.acc.(leases := l.acc.leases - {c})
  {
    UL.StepKeepsInv(l, UL.LeaseClose(c));
  }

  lemma HandlerCovered(s: State, step: Step)
    requires Covered(s.main.acc, s.tokens, s.handlers) && Enabled(s, step)
    requires IsHandler(step)
    ensures var s' := ApplyWork(s, step); Covered(s'.main.acc, s'.tokens, s'.handlers)
  {
    var acc' := ApplyWork(s, step).main.acc;
    assert forall t, c :: UL.Delivering(acc', t, c) == UL.Delivering(s.main.acc, t, c);
  }

  lemma WorkGateOk(s: State, step: Step)
    requires GateOk(s) && Covered(s.main.acc, s.tokens, s.handlers) && Enabled(s, step)
    requires !step.Ingress? && !step.Call? && !step.Refuse? && !IsCtl(step)
    ensures GateOk(ApplyWork(s, step))
  {
  }

  lemma WorkCtlOk(s: State, step: Step)
    requires GateOk(s) && CtlOk(s) && Enabled(s, step)
    requires !step.Ingress? && !step.Call? && !step.Refuse? && !IsCtl(step)
    ensures CtlOk(ApplyWork(s, step))
  {
  }

  lemma WorkFrame(s: State, step: Step)
    requires Enabled(s, step) && !step.Ingress? && !step.Call? && !step.Refuse? && !IsCtl(step)
    ensures var s' := ApplyWork(s, step);
            && s'.admin == s.admin && s'.pc == s.pc && s'.failed == s.failed
            && s'.main == (if step.HandlerRefuse? || step.HandlerClose?
                           then UL.Apply(s.main, UL.LeaseClose(step.conn)) else s.main)
            && (IsHandler(step)
                || (s'.handlers == s.handlers && forall c :: Handler(c) in s'.tokens <==> Handler(c) in s.tokens))
  {
  }

  predicate IsHandler(step: Step) {
    step.HandlerBegin? || step.HandlerRefuse? || step.HandlerClose? || step.HandlerEnd?
  }

  lemma WorkKeeps(s: State, step: Step)
    requires Inv(s) && Enabled(s, step)
    requires !step.Ingress? && !step.Call? && !step.Refuse? && !IsCtl(step)
    ensures Inv(ApplyWork(s, step))
  {
    WorkGateOk(s, step);
    WorkCtlOk(s, step);
    WorkFrame(s, step);
    if step.HandlerRefuse? || step.HandlerClose? { LeaseCloseFrame(s.main, step.conn, s.pc, s.failed); }
    if IsHandler(step) { HandlerCovered(s, step); }
  }

  // The controller's moves that touch neither listener.
  predicate CtlMove(a: Pc, b: Pc) {
    || (a.Idle? && b.Checked?)
    || (a.PausedMain? && (b.JobsHeld? || b == Resuming(Main)))
    || (a.JobsHeld? && (b.BarrierHeld? || b == ReleasingJobs(false)))
    || (a.BarrierHeld? && (b.Rechecked? || b == ReleasingGate(false)))
    || (a.Rechecked? && b == ReleasingGate(false))
    || (a.PausedAdmin? && (b.Committed? || b == Resuming(Admin)))
    || (a.Committed? && b.ShutDown?)
    || (a.ShutDown? && b == ReleasingGate(true))
    || (a.ReleasingGate? && b == ReleasingJobs(a.committed))
    || (a.ReleasingJobs? && b == if a.committed then Exited else Resuming(Main))
  }

  lemma CtlMovesListenerOk(l: UL.State, a: Pc, b: Pc, w: Which, failed: set<Which>)
    requires ListenerOk(l, a, w, failed) && CtlMove(a, b)
    ensures ListenerOk(l, b, w, failed)
  {
  }

  lemma CtlStepOk(s: State, step: Step)
    requires GateOk(s) && CtlOk(s) && Enabled(s, step) && IsCtl(step)
    ensures var s' := ApplyCtl(s, step); CtlMove(s.pc, s'.pc) && GateOk(s') && CtlOk(s')
  {
  }

  lemma CtlFrame(s: State, step: Step)
    requires Enabled(s, step) && IsCtl(step)
    ensures var s' := ApplyCtl(s, step);
            && s'.main == s.main && s'.admin == s.admin && s'.failed == s.failed
            && s'.tokens == s.tokens && s'.handlers == s.handlers
  {
  }

  lemma CtlKeeps(s: State, step: Step)
    requires Inv(s) && Enabled(s, step) && IsCtl(step)
    ensures Inv(ApplyCtl(s, step))
  {
    CtlFrame(s, step);
    CtlStepOk(s, step);
    CtlMovesListenerOk(s.main, s.pc, ApplyCtl(s, step).pc, Main, s.failed);
    CtlMovesListenerOk(s.admin, s.pc, ApplyCtl(s, step).pc, Admin, s.failed);
  }

  // The controller's moves while it is inside a call on listener `w`.
  predicate CallMove(a: Pc, b: Pc, w: Which) {
    || (a == BeforePause(w) && (b == Pausing(w) || b == Resuming(w)))
    || (a == Pausing(w) && (b == Pausing(w) || b == Resuming(w) || b == AfterPause(w)))
    || (a == Resuming(w) && (b == Resuming(w) || b == Discarding(w) || b == AfterResume(w)))
    || (a == Discarding(w) && b == AfterResume(w))
  }

  function Other(w: Which): Which {
    if w.Main? then Admin else Main
  }

  lemma CallMoves(l: UL.State, pc: Pc, w: Which, u: UL.Step)
    requires UL.Enabled(l, u) && InCallStep(pc, w, u)
    ensures CallMove(pc, CallPc(l, pc, w, u), w)
    ensures UL.Apply(l, u).acc == l.acc
  {
  }

  lemma OtherListenerOk(l: UL.State, a: Pc, b: Pc, w: Which, failed: set<Which>, failed': set<Which>)
    requires ListenerOk(l, a, Other(w), failed) && CallMove(a, b, w)
    requires Other(w) in failed <==> Other(w) in failed'
    ensures ListenerOk(l, b, Other(w), failed')
  {
  }

  lemma PauseBeginOk(l: UL.State, w: Which, failed: set<Which>)
    requires ListenerOk(l, BeforePause(w), w, failed) && UL.Enabled(l, UL.PauseBegin(CTRL))
    ensures ListenerOk(UL.Apply(l, UL.PauseBegin(CTRL)), Pausing(w), w, failed - {w})
  {
  }

  lemma PauseClosedOk(l: UL.State, w: Which, closeFailed: bool, failed: set<Which>)
    requires ListenerOk(l, Pausing(w), w, failed) && UL.Enabled(l, UL.PauseClosed(CTRL, closeFailed))
    ensures ListenerOk(UL.Apply(l, UL.PauseClosed(CTRL, closeFailed)), Pausing(w), w, failed)
  {
  }

  lemma PauseEndOk(l: UL.State, w: Which, ctxDone: bool, failed: set<Which>)
    requires ListenerOk(l, Pausing(w), w, failed) && UL.Enabled(l, UL.PauseEnd(CTRL, ctxDone))
    requires var u := UL.PauseEnd(CTRL, ctxDone); UL.PausedIdle(l, u) ==> UL.Quiet(UL.Apply(l, u))
    ensures var u := UL.PauseEnd(CTRL, ctxDone); ListenerOk(UL.Apply(l, u), CallPc(l, Pausing(w), w, u), w, failed)
  {
  }

  lemma ResumeBeginOk(l: UL.State, w: Which, failed: set<Which>)
    requires ListenerOk(l, Resuming(w), w, failed) && UL.Enabled(l, UL.ResumeBegin(CTRL))
    ensures ListenerOk(UL.Apply(l, UL.ResumeBegin(CTRL)), Resuming(w), w, failed)
  {
  }

  lemma ResumeOpenedOk(l: UL.State, w: Which, reopened: Option<UL.Inner>, bad: bool, failed: set<Which>)
    requires ListenerOk(l, Resuming(w), w, failed) && UL.Enabled(l, UL.ResumeOpened(CTRL, reopened, bad))
    ensures var u := UL.ResumeOpened(CTRL, reopened, bad);
            ListenerOk(UL.Apply(l, u), Resuming(w), w, FailedAfter(w, u, failed))
  {
  }

  lemma ResumeEndOk(l: UL.State, w: Which, failed: set<Which>)
    requires ListenerOk(l, Resuming(w), w, failed) && UL.Enabled(l, UL.ResumeEnd(CTRL))
    ensures var u := UL.ResumeEnd(CTRL);
            ListenerOk(UL.Apply(l, u), CallPc(l, Resuming(w), w, u), w, failed)
  {
  }

  lemma ResumeDiscardedOk(l: UL.State, w: Which, failed: set<Which>)
    requires ListenerOk(l, Discarding(w), w, failed) && UL.Enabled(l, UL.ResumeDiscarded(CTRL))
    ensures ListenerOk(UL.Apply(l, UL.ResumeDiscarded(CTRL)), AfterResume(w), w, failed)
  {
  }

  lemma CallListenerOk(l: UL.State, pc: Pc, w: Which, u: UL.Step, failed: set<Which>)
    requires UL.Inv(l) && ListenerOk(l, pc, w, failed) && UL.Enabled(l, u) && InCallStep(pc, w, u)
    ensures ListenerOk(UL.Apply(l, u), CallPc(l, pc, w, u), w, FailedAfter(w, u, failed))
  {
    match u
    case PauseBegin(_) => PauseBeginOk(l, w, failed);
    case PauseClosed(_, closeFailed) => PauseClosedOk(l, w, closeFailed, failed);
    case PauseEnd(_, ctxDone) =>
      if UL.PausedIdle(l, u) { UL.IdlePauseIsQuiet(l, u); }
      PauseEndOk(l, w, ctxDone, failed);
    case ResumeBegin(_) => ResumeBeginOk(l, w, failed);
    case ResumeOpened(_, reopened, bad) => ResumeOpenedOk(l, w, reopened, bad, failed);
    case ResumeEnd(_) => ResumeEndOk(l, w, failed);
    case ResumeDiscarded(_) => ResumeDiscardedOk(l, w, failed);
  }

  lemma CallCtlOk(s: State, s': State, w: Which)
    requires GateOk(s) && CtlOk(s) && CallMove(s.pc, s'.pc, w)
    requires s'.gate == s.gate && s'.tokens == s.tokens && s'.jobs == s.jobs && s'.jobsPaused == s.jobsPaused
    requires s'.load == s.load
    ensures GateOk(s') && CtlOk(s')
  {
  }

  lemma CallFrame(s: State, w: Which, u: UL.Step)
    requires Enabled(s, Call(w, u))
    ensures var s' := ApplyCall(s, w, u);
            && At(s', w) == UL.Apply(At(s, w), u) && At(s', Other(w)) == At(s, Other(w))
            && s'.pc == CallPc(At(s, w), s.pc, w, u)
            && (Other(w) in s'.failed <==> Other(w) in s.failed)
            && s'.tokens == s.tokens && s'.handlers == s.handlers && s'.gate == s.gate
            && s'.jobs == s.jobs && s'.jobsPaused == s.jobsPaused && s'.load == s.load
  {
  }

  // Both listeners, named by the one that is called and the other one.
  lemma InvOf(s: State, w: Which)
    requires GateOk(s) && Covered(s.main.acc, s.tokens, s.handlers) && CtlOk(s)
    requires UL.Inv(At(s, w)) && UL.Inv(At(s, Other(w)))
    requires ListenerOk(At(s, w), s.pc, w, s.failed) && ListenerOk(At(s, Other(w)), s.pc, Other(w), s.failed)
    ensures Inv(s)
  {
  }

  lemma ListenersOf(s: State, w: Which)
    requires Inv(s)
    ensures UL.Inv(At(s, w)) && UL.Inv(At(s, Other(w)))
    ensures ListenerOk(At(s, w), s.pc, w, s.failed) && ListenerOk(At(s, Other(w)), s.pc, Other(w), s.failed)
  {
  }

  // A step of a call into listener `w` moves only that listener and the controller.
  ghost predicate OnlyCall(s: State, s': State, w: Which) {
    && At(s', Other(w)) == At(s, Other(w)) && s'.main.acc == s.main.acc
    && s'.tokens == s.tokens && s'.handlers == s.handlers && s'.gate == s.gate
    && s'.jobs == s.jobs && s'.jobsPaused == s.jobsPaused && s'.load == s.load
  }

  lemma AfterCall(s: State, s': State, w: Which)
    requires GateOk(s) && CtlOk(s) && Covered(s.main.acc, s.tokens, s.handlers)
    requires OnlyCall(s, s', w) && CallMove(s.pc, s'.pc, w)
    requires UL.Inv(At(s', w)) && UL.Inv(At(s', Other(w)))
    requires ListenerOk(At(s', w), s'.pc, w, s'.failed) && ListenerOk(At(s', Other(w)), s'.pc, Other(w), s'.failed)
    ensures Inv(s')
  {
    CallCtlOk(s, s', w);
    InvOf(s', w);
  }

  lemma CallKeeps(s: State, w: Which, u: UL.Step)
    requires Inv(s) && Enabled(s, Call(w, u))
    ensures Inv(ApplyCall(s, w, u))
  {
    var l, s' := At(s, w), ApplyCall(s, w, u);
    CallFrame(s, w, u);
    UL.StepKeepsInv(l, u);
    CallMoves(l, s.pc, w, u);
    ListenersOf(s, w);
    CallListenerOk(l, s.pc, w, u, s.failed);
    OtherListenerOk(At(s, Other(w)), s.pc, s'.pc, w, s.failed, s'.failed);
    AfterCall(s, s', w);
  }

  lemma RefuseListenerOk(s: State, w: Which)
    requires ListenerOk(At(s, w), s.pc, w, s.failed) && Enabled(s, Refuse(w))
    ensures var s' := ApplyRefuse(s, w); ListenerOk(At(s, w), s'.pc, w, s'.failed) && CallMove(s.pc, s'.pc, w)
  {
  }

  lemma RefuseFrame(s: State, w: Which)
    requires Enabled(s, Refuse(w))
    ensures var s' := ApplyRefuse(s, w);
            && OnlyCall(s, s', w) && At(s', w) == At(s, w)
            && (Other(w) in s'.failed <==> Other(w) in s.failed)
  {
  }

  lemma RefuseKeeps(s: State, w: Which)
    requires Inv(s) && Enabled(s, Refuse(w))
    ensures Inv(ApplyRefuse(s, w))
  {
    var s' := ApplyRefuse(s, w);
    RefuseFrame(s, w);
    ListenersOf(s, w);
    RefuseListenerOk(s, w);
    OtherListenerOk(At(s, Other(w)), s.pc, s'.pc, w, s.failed, s'.failed);
    AfterCall(s, s', w);
  }

  lemma StepKeepsInv(s: State, step: Step)
    requires Inv(s) && Enabled(s, step)
    ensures Inv(Apply(s, step))
  {
    if step.Ingress? { IngressKeeps(s, step.w, step.u); }
    else if step.Call? { CallKeeps(s, step.w, step.u); }
    else if step.Refuse? { RefuseKeeps(s, step.w); }
    else if IsCtl(step) { CtlKeeps(s, step); }
    else { WorkKeeps(s, step); }
  }

  // ---------------------------------------------------------------- whole runs

  ghost predicate Next(s: State, step: Step, s': State) {
    Enabled(s, step) && s' == Apply(s, step)
  }

  ghost predicate Starts(s: State) {
    exists m, a :: s == Init(m, a)
  }

  ghost predicate IsRun(states: seq<State>, steps: seq<Step>) {
    && |states| == |steps| + 1
    && Starts(states[0])
    && (forall k {:trigger steps[k]} :: 0 <= k < |steps| ==> Next(states[k], steps[k], states[k + 1]))
  }

  lemma InitInv(m: UL.Inner, a: UL.Inner)
    ensures Inv(Init(m, a))
  {
    UL.InitInv(m);
    UL.InitInv(a);
    InitListenerOk(m, Main);
    InitListenerOk(a, Admin);
    InvOf(Init(m, a), Main);
  }

  lemma InitListenerOk(i: UL.Inner, w: Which)
    ensures ListenerOk(UL.Init(i), Idle, w, {})
  {
  }

  lemma RunStartInv(states: seq<State>, steps: seq<Step>)
    requires IsRun(states, steps)
    ensures Inv(states[0])
  {
    var m, a :| states[0] == Init(m, a);
    InitInv(m, a);
  }

  lemma RunStepInv(states: seq<State>, steps: seq<Step>, k: nat)
    requires IsRun(states, steps) && k < |steps| && Inv(states[k])
    ensures Inv(states[k + 1])
  {
    var step := steps[k];
    StepKeepsInv(states[k], step);
  }

  lemma {:induction false} RunKeepsInv(states: seq<State>, steps: seq<Step>, k: nat)
    requires IsRun(states, steps) && k < |states|
    ensures Inv(states[k])
  {
    if k == 0 {
      RunStartInv(states, steps);
    } else {
      RunKeepsInv(states, steps, k - 1);
      RunStepInv(states, steps, k - 1);
    }
  }

  // Connection `c` was returned by an inner Accept of the main listener and its handler has not ended.
  ghost predicate Live(s: State, c: Conn) {
    c in s.handlers || exists t :: UL.Delivering(s.main.acc, t, c)
  }

  /** Every live connection is covered by a pending accept, a lease or an admission. */
  lemma LiveConnectionIsCovered(states: seq<State>, steps: seq<Step>, k: nat, c: Conn)
    requires IsRun(states, steps) && k < |states| && Live(states[k], c)
    ensures states[k].main.f.pending > 0 || c in states[k].main.acc.leases || Handler(c) in states[k].tokens
    ensures states[k].gate.barrier ==> states[k].gate.active == 0 && states[k].tokens == {}
    ensures states[k].gate.barrier ==> !UL.Quiet(states[k].main)
  {
    RunKeepsInv(states, steps, k);
    var s := states[k];
    if c !in s.handlers {
      var t :| UL.Delivering(s.main.acc, t, c);
      assert |s.main.acc.calls.Keys| != 0;
    }
  }

  /** Whenever the controller reaches Shutdown, nothing is running: both listeners
      are paused without a pending accept or a lease, the barrier is held with no
      admission out, no background job, no runtime, no watcher, no watcher in
      transition and no session exists, and no connection is live. */
  lemma CommitIsQuiescent(states: seq<State>, steps: seq<Step>, k: nat)
    requires IsRun(states, steps) && k < |states| && (states[k].pc.Committed? || states[k].pc.ShutDown?)
    ensures UL.Quiet(states[k].main) && UL.Quiet(states[k].admin)
    ensures states[k].gate == Gate(0, true) && states[k].tokens == {}
    ensures states[k].jobsPaused && states[k].jobs == 0 && states[k].load == NO_LOAD
    ensures forall c :: !Live(states[k], c)
  {
    RunKeepsInv(states, steps, k);
    forall c ensures !Live(states[k], c) {
      if Live(states[k], c) { LiveConnectionIsCovered(states, steps, k, c); }
    }
  }

  lemma IdleListener(l: UL.State, w: Which, failed: set<Which>)
    requires ListenerOk(l, Idle, w, failed)
    ensures l.f.paused ==> l.f.closed || w in failed
    ensures l.own.pauses == map[] && l.own.resumes == map[]
  {
    assert l.own.pauses.Keys == {} && l.own.resumes.Keys == {};
  }

  lemma IdleReleased(s: State)
    requires CtlOk(s) && s.pc.Idle?
    ensures !s.gate.barrier && !s.jobsPaused
  {
  }

  predicate PausesAt(step: Step, w: Which) {
    step.Call? && step.w == w && step.u.PauseBegin?
  }

  // The reopen function of listener `w` fails or gives nothing.
  predicate FailsAt(step: Step, w: Which) {
    step.Call? && step.w == w && Unopened(step.u)
  }

  lemma OthersKeepFailed(s: State, step: Step)
    requires Enabled(s, step) && !step.Call? && !step.Refuse?
    ensures Apply(s, step).failed == s.failed
  {
  }

  lemma FailedStep(s: State, step: Step, w: Which)
    requires Enabled(s, step) && w in Apply(s, step).failed
    ensures FailsAt(step, w) || (w in s.failed && !PausesAt(step, w))
  {
    if !step.Call? && !step.Refuse? { OthersKeepFailed(s, step); }
  }

  lemma RunFailedStep(states: seq<State>, steps: seq<Step>, k: nat, w: Which)
    requires IsRun(states, steps) && k < |steps| && w in states[k + 1].failed
    ensures FailsAt(steps[k], w) || (w in states[k].failed && !PausesAt(steps[k], w))
  {
    var step := steps[k];
    FailedStep(states[k], step, w);
  }

  lemma RunStartsClean(states: seq<State>, steps: seq<Step>)
    requires IsRun(states, steps)
    ensures states[0].failed == {}
  {
  }

  // Before step `k` the reopen function of `w` failed or gave nothing, with no Pause of it since.
  ghost predicate FailedSince(steps: seq<Step>, k: nat, w: Which)
    requires k <= |steps|
  {
    exists m :: 0 <= m < k && FailsAt(steps[m], w) && forall n :: m < n < k ==> !PausesAt(steps[n], w)
  }

  lemma StillFailed(steps: seq<Step>, k: nat, w: Which)
    requires k < |steps| && FailedSince(steps, k, w) && !PausesAt(steps[k], w)
    ensures FailedSince(steps, k + 1, w)
  {
  }

  lemma {:induction false} FailedMeansSo(states: seq<State>, steps: seq<Step>, k: nat, w: Which)
    requires IsRun(states, steps) && k < |states| && w in states[k].failed
    ensures FailedSince(steps, k, w)
  {
    RunStartsClean(states, steps);
    RunFailedStep(states, steps, k - 1, w);
    if !FailsAt(steps[k - 1], w) {
      FailedMeansSo(states, steps, k - 1, w);
      StillFailed(steps, k - 1, w);
    }
  }

  /** Every exit that did not commit has given back the barrier and the background jobs, is in no
      call on a listener, and has left each listener running unless it was closed or, since its last
      Pause, its reopen function failed or gave nothing. */
  lemma AbortIsClean(states: seq<State>, steps: seq<Step>, k: nat, w: Which)
    requires IsRun(states, steps) && k < |states| && states[k].pc.Idle?
    ensures !states[k].gate.barrier && !states[k].jobsPaused
    ensures At(states[k], w).f.paused ==> At(states[k], w).f.closed || FailedSince(steps, k, w)
    ensures At(states[k], w).own.pauses == map[] && At(states[k], w).own.resumes == map[]
  {
    RunKeepsInv(states, steps, k);
    ListenersOf(states[k], w);
    IdleListener(At(states[k], w), w, states[k].failed);
    IdleReleased(states[k]);
    if w in states[k].failed { FailedMeansSo(states, steps, k, w); }
  }

  // ---------------------------------------------------------------- when the controller goes forward

  /** Every move forward is made in a state that allows it: nothing runs at the check and at the recheck,
      no job when the jobs are held, no admission when the barrier is taken, and at the commit nothing runs
      and no shutdown has been asked for. */
  lemma ForwardOnlyWhenFree(states: seq<State>, steps: seq<Step>, k: nat)
    requires IsRun(states, steps) && k < |steps| && states[k].pc != states[k + 1].pc
    ensures var s, pc := states[k], states[k + 1].pc;
            && (pc.Checked? || pc.Rechecked? || pc.Committed? ==> s.load == NO_LOAD)
            && (pc.JobsHeld? ==> s.jobs == 0)
            && (pc.BarrierHeld? ==> s.tokens == {} && !s.gate.barrier)
            && (pc.Committed? ==> !s.stopping && steps[k] == Commit)
            && (pc.ShutDown? ==> s.pc.Committed?)
  {
    RunKeepsInv(states, steps, k);
    var step := steps[k];
    ForwardStep(states[k], step);
  }

  lemma ForwardStep(s: State, step: Step)
    requires GateOk(s) && Enabled(s, step) && s.pc != Apply(s, step).pc
    ensures var pc := Apply(s, step).pc;
            && (pc.Checked? || pc.Rechecked? || pc.Committed? ==> s.load == NO_LOAD)
            && (pc.JobsHeld? ==> s.jobs == 0)
            && (pc.BarrierHeld? ==> s.tokens == {} && !s.gate.barrier)
            && (pc.Committed? ==> !s.stopping && step == Commit)
            && (pc.ShutDown? ==> s.pc.Committed?)
  {
    if step.Call? || step.Refuse? { CallPcs(s, step); }
    else { OnlyCtlMoves(s, step); }
  }

  lemma OnlyCtlMoves(s: State, step: Step)
    requires Enabled(s, step) && !step.Call? && !step.Refuse?
    ensures if IsCtl(step) then Apply(s, step) == ApplyCtl(s, step) else Apply(s, step).pc == s.pc
  {
  }

  lemma CallPcs(s: State, step: Step)
    requires Enabled(s, step) && (step.Call? || step.Refuse?)
    ensures CallMove(s.pc, Apply(s, step).pc, step.w)
  {
    if step.Call? { CallMoves(At(s, step.w), s.pc, step.w, step.u); }
  }

  /** Work is admitted exactly while the controller does not hold the barrier, and a connection that is not
      admitted is closed without being served. */
  lemma AdmittedExactlyOutsideBarrier(states: seq<State>, steps: seq<Step>, k: nat)
    requires IsRun(states, steps) && k < |steps|
    ensures steps[k].HandlerBegin? ==>
              var c := steps[k].conn;
              && (Handler(c) in states[k + 1].tokens <==> !HoldsBarrier(states[k].pc))
              && c in states[k + 1].handlers
              && states[k + 1].handlers[c] == if HoldsBarrier(states[k].pc) then Refused else Serving
    ensures steps[k].RequestBegin? ==> (Request(steps[k].n) in states[k + 1].tokens <==> !HoldsBarrier(states[k].pc))
  {
    RunKeepsInv(states, steps, k);
    var step := steps[k];
    AdmissionStep(states[k], step);
  }

  lemma AdmissionStep(s: State, step: Step)
    requires GateOk(s) && CtlOk(s) && Covered(s.main.acc, s.tokens, s.handlers) && Enabled(s, step)
    ensures var s' := Apply(s, step);
            && (step.HandlerBegin? ==>
                  && (Handler(step.conn) in s'.tokens <==> !HoldsBarrier(s.pc))
                  && step.conn in s'.handlers
                  && s'.handlers[step.conn] == if HoldsBarrier(s.pc) then Refused else Serving)
            && (step.RequestBegin? ==> (Request(step.n) in s'.tokens <==> !HoldsBarrier(s.pc)))
  {
  }

  ghost predicate Leads(s: State, steps: seq<Step>, s': State)
    decreases |steps|
  {
    if steps == [] then s' == s else Enabled(s, steps[0]) && Leads(Apply(s, steps[0]), steps[1..], s')
  }

  // The controller's own steps, and accepts that end without a connection.
  predicate Undemanding(step: Step) {
    || IsCtl(step) || step.Call?
    || (step.Ingress? && (step.u.AcceptLeave? || (step.u.AcceptReturn? && step.u.result.Failed?)))
  }

  // `steps` leads from `s` to `s'`, and nobody but the controller needs to do anything.
  ghost predicate Alone(s: State, steps: seq<Step>, s': State) {
    Leads(s, steps, s') && forall i :: 0 <= i < |steps| ==> Undemanding(steps[i])
  }

  lemma {:induction false} AloneOn(s: State, steps: seq<Step>, mid: State, more: seq<Step>, s': State)
    requires Alone(s, steps, mid) && Alone(mid, more, s')
    ensures Alone(s, steps + more, s')
    decreases |steps|
  {
    if steps == [] {
      assert steps + more == more;
    } else {
      assert Alone(Apply(s, steps[0]), steps[1..], mid);
      AloneOn(Apply(s, steps[0]), steps[1..], mid, more, s');
      assert (steps + more)[1..] == steps[1..] + more;
    }
  }

  ghost predicate Reaches(s: State, s': State) {
    exists steps :: Alone(s, steps, s')
  }

  lemma ReachesOn(a: State, b: State, c: State)
    requires Reaches(a, b) && Reaches(b, c)
    ensures Reaches(a, c)
  {
    var first :| Alone(a, first, b);
    var more :| Alone(b, more, c);
    AloneOn(a, first, b, more, c);
  }

  lemma ReachesStep(s: State, step: Step)
    requires Enabled(s, step) && Undemanding(step)
    ensures Reaches(s, Apply(s, step))
  {
    assert [step][1..] == [];
    assert Leads(s, [step], Apply(s, step));
    assert Alone(s, [step], Apply(s, step));
  }

  // No connection of listener `l` is open or about to be.
  ghost predicate Unused(l: UL.State) {
    l.acc.leases == {} && forall t, c :: !UL.Delivering(l.acc, t, c)
  }

  // Listener `l` after some of its accepts have ended without a connection.
  ghost predicate Emptier(l: UL.State, l': UL.State) {
    UL.Inv(l') && Unused(l') && l'.own == l.own && l'.f == l.f.(pending := l'.f.pending)
  }

  lemma LeaveEmptyHanded(l: UL.State, t: UL.Tid)
    requires UL.Inv(l) && Unused(l) && t in l.acc.calls && l.acc.calls[t].Returned?
    ensures l.acc.calls[t].result.Failed? && UL.Enabled(l, UL.AcceptLeave(t))
    ensures var l' := UL.Apply(l, UL.AcceptLeave(t)); Emptier(l, l') && l'.acc.calls == l.acc.calls - {t}
  {
    UL.StepKeepsInv(l, UL.AcceptLeave(t));
    if l.acc.calls[t].result.Delivered? { assert UL.Delivering(l.acc, t, l.acc.calls[t].result.conn); }
    var l' := UL.Apply(l, UL.AcceptLeave(t));
    assert forall u, c :: UL.Delivering(l'.acc, u, c) ==> UL.Delivering(l.acc, u, c);
  }

  lemma ReturnEmptyHanded(l: UL.State, t: UL.Tid) returns (u: UL.Step)
    requires UL.Inv(l) && Unused(l) && t in l.acc.calls && l.acc.calls[t].Accepting?
    ensures u.AcceptReturn? && u.result.Failed? && UL.Enabled(l, u)
    ensures var l' := UL.Apply(l, u);
            && Emptier(l, l') && l'.acc.calls.Keys == l.acc.calls.Keys
            && t in l'.acc.calls && l'.acc.calls[t].Returned?
  {
    u := UL.AcceptReturn(t, UL.Failed(l.own.closes[l.acc.calls[t].inner] > 0));
    UL.StepKeepsInv(l, u);
    var l' := UL.Apply(l, u);
    assert forall v, c :: UL.Delivering(l'.acc, v, c) ==> UL.Delivering(l.acc, v, c);
  }

  lemma AcceptMoves(s: State, w: Which, u: UL.Step)
    requires UL.Enabled(At(s, w), u)
    requires (u.AcceptReturn? && u.result.Failed?) || (u.AcceptLeave? && At(s, w).acc.calls[u.t].result.Failed?)
    ensures Reaches(s, With(s, w, UL.Apply(At(s, w), u)))
  {
    ReachesStep(s, Ingress(w, u));
  }

  // One accept that is waiting in the inner listener gives up.
  lemma OneGivesUp(s: State, w: Which, t: UL.Tid) returns (l: UL.State)
    requires UL.Inv(At(s, w)) && Unused(At(s, w)) && t in At(s, w).acc.calls
    ensures Reaches(s, With(s, w, l)) && Emptier(At(s, w), l) && l.acc.calls.Keys == At(s, w).acc.calls.Keys - {t}
  {
    if At(s, w).acc.calls[t].Accepting? {
      var u := ReturnEmptyHanded(At(s, w), t);
      AcceptMoves(s, w, u);
      var l1 := UL.Apply(At(s, w), u);
      l := LastGivesUp(With(s, w, l1), w, t);
      WithTwice(s, w, l1, l);
    } else {
      l := LastGivesUp(s, w, t);
    }
  }

  lemma LastGivesUp(s: State, w: Which, t: UL.Tid) returns (l: UL.State)
    requires UL.Inv(At(s, w)) && Unused(At(s, w)) && t in At(s, w).acc.calls && At(s, w).acc.calls[t].Returned?
    ensures Reaches(s, With(s, w, l)) && Emptier(At(s, w), l) && l.acc.calls == At(s, w).acc.calls - {t}
  {
    LeaveEmptyHanded(At(s, w), t);
    AcceptMoves(s, w, UL.AcceptLeave(t));
    l := UL.Apply(At(s, w), UL.AcceptLeave(t));
  }

  lemma WithTwice(s: State, w: Which, l1: UL.State, l2: UL.State)
    requires Reaches(s, With(s, w, l1)) && Reaches(With(s, w, l1), With(With(s, w, l1), w, l2))
    ensures Reaches(s, With(s, w, l2)) && At(With(s, w, l1), w) == l1
  {
    assert With(With(s, w, l1), w, l2) == With(s, w, l2);
    ReachesOn(s, With(s, w, l1), With(s, w, l2));
  }

  lemma FewerCalls(l: UL.State, l1: UL.State, t: UL.Tid)
    requires t in l.acc.calls && l1.acc.calls.Keys == l.acc.calls.Keys - {t}
    ensures |l1.acc.calls| < |l.acc.calls|
  {
    assert |l1.acc.calls.Keys| == |l.acc.calls.Keys| - 1;
  }

  lemma {:induction false} AllGiveUp(s: State, w: Which) returns (l: UL.State)
    requires UL.Inv(At(s, w)) && Unused(At(s, w))
    ensures Reaches(s, With(s, w, l)) && Emptier(At(s, w), l) && l.acc.calls == map[]
    decreases |At(s, w).acc.calls|
  {
    if At(s, w).acc.calls == map[] {
      l := At(s, w);
      assert Alone(s, [], s) && With(s, w, l) == s;
    } else {
      var t :| t in At(s, w).acc.calls;
      var l1 := OneGivesUp(s, w, t);
      FewerCalls(At(s, w), l1, t);
      l := AllGiveUp(With(s, w, l1), w);
      WithTwice(s, w, l1, l);
    }
  }

  // An open listener without connections, and the Pause it is in.
  ghost predicate Calm(l: UL.State, pauses: map<UL.Tid, UL.PauseCall>) {
    UL.Inv(l) && Unused(l) && !l.f.closed && l.own.pauses == pauses
  }

  lemma PauseTakesHold(l: UL.State)
    requires Calm(l, map[])
    ensures UL.Enabled(l, UL.PauseBegin(CTRL))
    ensures Calm(UL.Apply(l, UL.PauseBegin(CTRL)), map[CTRL := UL.ClosingInner])
  {
    UL.StepKeepsInv(l, UL.PauseBegin(CTRL));
  }

  lemma CloseFrame(own: UL.Inners, t: UL.Tid)
    requires own.pauses == map[t := UL.ClosingInner]
    ensures UL.CloseHeld(own, UL.Pauser(t)).(pauses := own.pauses[t := UL.Draining(false)]).pauses
            == map[t := UL.Draining(false)]
  {
  }

  lemma PauseCloses(l: UL.State)
    requires Calm(l, map[CTRL := UL.ClosingInner])
    ensures UL.Enabled(l, UL.PauseClosed(CTRL, false))
    ensures Calm(UL.Apply(l, UL.PauseClosed(CTRL, false)), map[CTRL := UL.Draining(false)])
  {
    var l' := UL.Apply(l, UL.PauseClosed(CTRL, false));
    UL.StepKeepsInv(l, UL.PauseClosed(CTRL, false));
    assert l'.acc == l.acc && l'.f == l.f;
    CloseFrame(l.own, CTRL);
  }

  // A Pause that has closed its inner listener and waits for nobody ends idle.
  lemma PauseEndsIdle(l: UL.State)
    requires Calm(l, map[CTRL := UL.Draining(false)]) && l.acc.calls == map[]
    ensures UL.Enabled(l, UL.PauseEnd(CTRL, false)) && UL.PauseOutcomeOf(l, CTRL, false) == UL.Idle
  {
  }

  function Moved(s: State, w: Which, l: UL.State, pc: Pc, failed: set<Which>): State {
    With(s, w, l).(pc := pc, failed := failed)
  }

  lemma CallMovesOn(s: State, w: Which, u: UL.Step)
    requires UL.Enabled(At(s, w), u) && InCallStep(s.pc, w, u)
    ensures var l := At(s, w);
            Reaches(s, Moved(s, w, UL.Apply(l, u), CallPc(l, s.pc, w, u), FailedAfter(w, u, s.failed)))
  {
    ReachesStep(s, Call(w, u));
  }

  lemma PauseBegins(s: State, w: Which) returns (l: UL.State)
    requires s.pc == BeforePause(w) && Calm(At(s, w), map[])
    ensures Reaches(s, Moved(s, w, l, Pausing(w), s.failed - {w})) && Calm(l, map[CTRL := UL.ClosingInner])
  {
    PauseTakesHold(At(s, w));
    CallMovesOn(s, w, UL.PauseBegin(CTRL));
    l := UL.Apply(At(s, w), UL.PauseBegin(CTRL));
  }

  lemma PauseGoesOn(s: State, w: Which) returns (l: UL.State)
    requires s.pc == Pausing(w) && Calm(At(s, w), map[CTRL := UL.ClosingInner])
    ensures Reaches(s, Moved(s, w, l, Pausing(w), s.failed)) && Calm(l, map[CTRL := UL.Draining(false)])
  {
    PauseCloses(At(s, w));
    CallMovesOn(s, w, UL.PauseClosed(CTRL, false));
    l := UL.Apply(At(s, w), UL.PauseClosed(CTRL, false));
  }

  lemma PauseEnds(s: State, w: Which) returns (l: UL.State)
    requires s.pc == Pausing(w) && Calm(At(s, w), map[CTRL := UL.Draining(false)]) && At(s, w).acc.calls == map[]
    ensures Reaches(s, Moved(s, w, l, AfterPause(w), s.failed))
  {
    PauseEndsIdle(At(s, w));
    CallMovesOn(s, w, UL.PauseEnd(CTRL, false));
    l := UL.Apply(At(s, w), UL.PauseEnd(CTRL, false));
  }

  lemma MovedTwice(s: State, w: Which, l1: UL.State, pc1: Pc, l: UL.State, pc: Pc, failed: set<Which>)
    requires Reaches(s, Moved(s, w, l1, pc1, failed))
    requires var s1 := Moved(s, w, l1, pc1, failed); Reaches(s1, Moved(s1, w, l, pc, failed))
    ensures Reaches(s, Moved(s, w, l, pc, failed))
  {
    var s1 := Moved(s, w, l1, pc1, failed);
    assert Moved(s1, w, l, pc, failed) == Moved(s, w, l, pc, failed);
    ReachesOn(s, s1, Moved(s, w, l, pc, failed));
  }

  // With no connection open, a Pause of the controller can end idle.
  lemma PauseGetsThrough(s: State, w: Which) returns (l: UL.State)
    requires s.pc == BeforePause(w) && Calm(At(s, w), map[])
    ensures Reaches(s, Moved(s, w, l, AfterPause(w), s.failed - {w}))
  {
    var failed := s.failed - {w};
    var l1 := PauseBegins(s, w);
    var l2 := PauseGoesOn(Moved(s, w, l1, Pausing(w), failed), w);
    MovedTwice(s, w, l1, Pausing(w), l2, Pausing(w), failed);
    var s2 := Moved(s, w, l2, Pausing(w), failed);
    var l3 := AllGiveUp(s2, w);
    assert With(s2, w, l3) == Moved(s2, w, l3, Pausing(w), failed);
    MovedTwice(s, w, l2, Pausing(w), l3, Pausing(w), failed);
    l := PauseEnds(Moved(s, w, l3, Pausing(w), failed), w);
    MovedTwice(s, w, l3, Pausing(w), l, AfterPause(w), failed);
  }

  lemma HoldsAndRechecks(s: State)
    requires s.pc.PausedMain? && s.jobs == 0 && !s.jobsPaused && BarrierFree(s.gate) && s.load == NO_LOAD
    ensures Reaches(s, s.(jobsPaused := true, gate := s.gate.(barrier := true), pc := Rechecked))
  {
    var s1 := Apply(s, HoldJobs);
    var s2 := Apply(s1, HoldBarrier);
    ReachesStep(s, HoldJobs);
    ReachesStep(s1, HoldBarrier);
    ReachesStep(s2, Recheck);
    ReachesOn(s, s1, s2);
    ReachesOn(s, s2, Apply(s2, Recheck));
  }

  lemma CommitsAndShutsDown(s: State)
    requires s.pc.PausedAdmin? && !s.stopping && s.load == NO_LOAD
    ensures CanShutDown(s)
  {
    var s1 := Apply(s, Commit);
    ReachesStep(s, Commit);
    ReachesStep(s1, CallShutdown);
    ReachesOn(s, s1, Apply(s1, CallShutdown));
  }

  // The controller is at rest, nothing is under way, and nobody has asked for a shutdown.
  ghost predicate AtRest(s: State) {
    && s.pc.Idle? && !s.stopping && !s.main.f.closed && !s.admin.f.closed
    && s.tokens == {} && s.jobs == 0 && s.load == NO_LOAD && s.handlers == map[]
    && Unused(s.main) && Unused(s.admin)
  }

  ghost predicate CanShutDown(s: State) {
    exists s' :: Reaches(s, s') && s'.pc.ShutDown?
  }

  lemma ThenShutsDown(s: State, s1: State)
    requires Reaches(s, s1) && CanShutDown(s1)
    ensures CanShutDown(s)
  {
    var s' :| Reaches(s1, s') && s'.pc.ShutDown?;
    ReachesOn(s, s1, s');
  }

  lemma FromRechecked(s: State)
    requires s.pc.Rechecked? && !s.stopping && s.load == NO_LOAD && Calm(s.admin, map[])
    ensures CanShutDown(s)
  {
    var l := PauseGetsThrough(s, Admin);
    var s1 := Moved(s, Admin, l, AfterPause(Admin), s.failed - {Admin});
    CommitsAndShutsDown(s1);
    ThenShutsDown(s, s1);
  }

  lemma FromPausedMain(s: State)
    requires s.pc.PausedMain? && s.jobs == 0 && !s.jobsPaused && BarrierFree(s.gate)
    requires !s.stopping && s.load == NO_LOAD && Calm(s.admin, map[])
    ensures CanShutDown(s)
  {
    HoldsAndRechecks(s);
    var s1 := s.(jobsPaused := true, gate := s.gate.(barrier := true), pc := Rechecked);
    FromRechecked(s1);
    ThenShutsDown(s, s1);
  }

  lemma FromChecked(s: State)
    requires s.pc.Checked? && s.jobs == 0 && !s.jobsPaused && BarrierFree(s.gate)
    requires !s.stopping && s.load == NO_LOAD && Calm(s.main, map[]) && Calm(s.admin, map[])
    ensures CanShutDown(s)
  {
    var l := PauseGetsThrough(s, Main);
    var s1 := Moved(s, Main, l, AfterPause(Main), s.failed - {Main});
    FromPausedMain(s1);
    ThenShutsDown(s, s1);
  }

  lemma RestIsCalm(s: State)
    requires Inv(s) && AtRest(s)
    ensures Calm(s.main, map[]) && Calm(s.admin, map[]) && !s.jobsPaused && BarrierFree(s.gate)
  {
    IdleListener(s.main, Main, s.failed);
    IdleListener(s.admin, Admin, s.failed);
    IdleReleased(s);
  }

  lemma ChecksOn(s: State)
    requires s.pc.Idle? && s.load == NO_LOAD
    ensures Reaches(s, s.(pc := Checked))
  {
    ReachesStep(s, Check);
  }

  lemma FromIdle(s: State)
    requires s.pc.Idle? && s.jobs == 0 && !s.jobsPaused && BarrierFree(s.gate)
    requires !s.stopping && s.load == NO_LOAD && Calm(s.main, map[]) && Calm(s.admin, map[])
    ensures CanShutDown(s)
  {
    ChecksOn(s);
    FromChecked(s.(pc := Checked));
    ThenShutsDown(s, s.(pc := Checked));
  }

  lemma FromRest(s: State)
    requires Inv(s) && AtRest(s)
    ensures CanShutDown(s)
  {
    RestIsCalm(s);
    FromIdle(s);
  }

  /** Whenever the controller is at rest with nothing under way, it can by its own steps bring the daemon to
      Shutdown, even after an earlier Resume has failed: an update that is due gets installed. */
  lemma UpdateGoesThrough(states: seq<State>, steps: seq<Step>, k: nat)
    requires IsRun(states, steps) && k < |states| && AtRest(states[k])
    ensures CanShutDown(states[k])
  {
    RunKeepsInv(states, steps, k);
    FromRest(states[k]);
  }

  // ---------------------------------------------------------------- past the commit

  predicate PastCommit(pc: Pc) {
    pc.Committed? || pc.ShutDown? || pc.Exited? || pc == ReleasingGate(true) || pc == ReleasingJobs(true)
  }

  lemma PastCommitStays(s: State, step: Step)
    requires Enabled(s, step) && PastCommit(s.pc)
    ensures PastCommit(Apply(s, step).pc)
  {
  }

  lemma PastCommitQuiet(s: State)
    requires Inv(s) && PastCommit(s.pc)
    ensures UL.Quiet(s.main) && UL.Quiet(s.admin)
  {
  }

  lemma {:induction false} StaysPastCommit(states: seq<State>, steps: seq<Step>, j: nat, k: nat)
    requires IsRun(states, steps) && j <= k < |states| && PastCommit(states[j].pc)
    ensures PastCommit(states[k].pc)
    decreases k
  {
    if j < k {
      StaysPastCommit(states, steps, j, k - 1);
      PastCommitStays(states[k - 1], steps[k - 1]);
    }
  }

  /** A committed controller never goes back: no listener is resumed, and both stay
      quiet while the replacement is launched and the process winds down. */
  lemma CommitIsFinal(states: seq<State>, steps: seq<Step>, j: nat, k: nat)
    requires IsRun(states, steps) && j <= k < |states| && states[j].pc.Committed?
    ensures PastCommit(states[k].pc) && UL.Quiet(states[k].main) && UL.Quiet(states[k].admin)
  {
    StaysPastCommit(states, steps, j, k);
    RunKeepsInv(states, steps, k);
    PastCommitQuiet(states[k]);
  }

  // ---------------------------------------------------------------- the gate object

  /** The admission gate.  A function handed out by the gate acts once, so it is a
      ticket that is live until its first use. */
  class AdmissionGate {
    var active: int
    var barrier: bool
    var tickets: set<nat>     // admissions not yet finished
    var releases: set<nat>    // barrier releases not yet used
    var issued: nat

    function View(): Gate
      reads this
    {
      Gate(active, barrier)
    }

    ghost predicate Valid()
      reads this
    {
      && active == |tickets| && (barrier ==> tickets == {}) && |releases| == (if barrier then 1 else 0)
      && (forall t :: t in tickets || t in releases ==> t < issued)
    }

    constructor ()
      ensures Valid() && View() == Gate(0, false) && tickets == {} && releases == {}
    {
      active, barrier, tickets, releases, issued := 0, false, {}, {}, 0;
    }

    method BeginActivity() returns (ticket: Option<nat>)
      requires Valid()
      modifies this
      ensures Valid() && View() == Begin(old(View())) && releases == old(releases)
      ensures ticket.None? <==> old(barrier)
      ensures ticket.Some? ==> ticket.value !in old(tickets)
      ensures tickets == if ticket.Some? then old(tickets) + {ticket.value} else old(tickets)
    {
      if barrier { return None; }
      active := active + 1;
      ticket := Some(issued);
      tickets, issued := tickets + {issued}, issued + 1;
    }

    // Calling the function returned by BeginActivity, any number of times.
    method FinishActivity(ticket: nat)
      requires Valid()
      modifies this
      ensures Valid() && tickets == old(tickets) - {ticket} && releases == old(releases)
      ensures View() == if ticket in old(tickets) then Finish(old(View())) else old(View())
    {
      if ticket in tickets {
        tickets := tickets - {ticket};
        active := active - 1;
      }
    }

    method TryBarrier() returns (release: Option<nat>)
      requires Valid()
      modifies this
      ensures Valid() && View() == TryIdleBarrier(old(View())) && tickets == old(tickets)
      ensures release.Some? <==> !old(barrier) && old(tickets) == {}
      ensures releases == if release.Some? then {release.value} else old(releases)
    {
      if barrier || active != 0 { return None; }
      barrier := true;
      release := Some(issued);
      releases, issued := {issued}, issued + 1;
    }

    // Calling the function returned by TryBarrier, any number of times.
    method ReleaseBarrier(release: nat)
      requires Valid()
      modifies this
      ensures Valid() && tickets == old(tickets) && releases == old(releases) - {release}
      ensures View() == if release in old(releases) then old(View()).(barrier := false) else old(View())
    {
      if release in releases {
        assert |releases - {release}| == |releases| - 1;
        releases := releases - {release};
        barrier := false;
      }
    }
  }
}
