/** How internal/debug/manager.go and internal/exec/session.go close together,
    for one executable Session: the debug gate encloses the exec gate, and the
    close hook runs between draining the exec gate and releasing the Plans.
    Sections under a lock are steps, blocking waits are guards, and activity on
    other executable Sessions is an arbitrary step that leaves this one alone. */
module DebugLeases {
  import opened Base
  import opened Lifecycle
  import opened DebugPlans
  import Reg = DebugRegistry

  type Call = nat
  type DebugId = Reg.DebugId
  type GroupRef = Reg.GroupRef

  /** Where a debug CreateSession call is. From Entered to LeavingExec it is
      admitted to the exec gate; from Leased to Dropping it owns a lease. */
  datatype Pc =
    | Gated
    | Entered
    | Awaiting(done: Channel)
    | Compiling(done: Channel)
    | Discarding(plan: PlanRef)
    | LeavingExec
    | Leased
    | Opened
    | Ready
    | Dropping
    | Ending

  predicate InExec(pc: Pc) {
    pc.Entered? || pc.Awaiting? || pc.Compiling? || pc.Discarding? || pc.LeavingExec? || pc.Leased? || pc.Opened?
  }

  predicate HasLease(pc: Pc) { pc.Leased? || pc.Opened? || pc.Ready? || pc.Dropping? }

  /** Where a committed debug Session is. */
  datatype DebugStage = Retained | Detached | Settling | Settled | Completed | Gone

  /** The stages whose runtime may still be open. */
  predicate MayLease(d: DebugStage) { d.Retained? || d.Detached? || d.Settling? }

  predicate Listed(d: DebugStage) { d.Detached? || d.Settling? || d.Settled? || d.Completed? }

  predicate Over(d: DebugStage) { d.Completed? || d.Gone? }

  /** Where a group worker is with one CloseSession call: none running, holding
      the session it detached, or waiting for its close. */
  datatype Asking = Nobody | Holding(d: DebugId) | Awaited(d: DebugId)

  /** Where a debug group is in finishExecutionSessionClose. */
  datatype GroupStage =
    | GroupWaiting
    | GroupJoining(pending: set<DebugId>, asking: Asking)
    | GroupFinished
    | GroupRemoved

  /** Where the executable Session is in finishSessionClose. */
  datatype Stage =
    | Open | Waiting | Hooking | HookWaiting(group: GroupRef) | Hooked
    | Capturing(compile: Option<Channel>, leases: Option<Channel>)
    | ClosingPlan(plan: Option<PlanRef>) | Publishing | Closed

  /** The exec gate has drained. */
  predicate Drained(s: Stage) { !s.Open? && !s.Waiting? }

  /** The debug close hook has returned. */
  predicate HookReturned(s: Stage) {
    s.Hooked? || s.Capturing? || s.ClosingPlan? || s.Publishing? || s.Closed?
  }

  /** `leases` are the live leases by creating call, `closes` counts how often
      each compiled debug Plan was closed, `ops` holds the close operation of
      each debug Session, and `leased`, `used` are history. */
  datatype State = State(
    parent: Reg.ParentId,
    reg: Reg.Registry,
    gate: Admission,
    plans: Plans,
    stage: Stage,
    calls: map<Call, Pc>,
    others: set<Call>,
    leases: map<Call, PlanRef>,
    leased: set<Call>,
    closes: map<PlanRef, nat>,
    debug: map<DebugId, DebugStage>,
    ops: map<DebugId, Phase>,
    gwork: map<GroupRef, GroupStage>,
    used: set<Call>,
    panicked: bool)

  function Init(p: Reg.ParentId): State {
    State(p, Reg.NO_DEBUG, OPEN_ADMISSION, NO_PLANS, Open, map[], {}, map[], {}, map[], map[], map[], map[], {}, false)
  }

  /** Steps of debug CreateSession calls, and of ordinary CreateExecution calls
      that pass the same exec gate. */
  datatype CreateStep =
    | Begin(call: Call)
    | EnterExec(call: Call)
    | Refuse(call: Call)
    | LookForPlan(call: Call)
    | Wake(call: Call)
    | GiveUp(call: Call)
    | EndCompile(call: Call, plan: Option<PlanRef>, err: Errors, cancelled: bool)
    | Discard(call: Call)
    | OpenRuntime(call: Call, ok: bool)
    | LeaveExec(call: Call)
    | CommitDebug(call: Call)
    | DropRuntime(call: Call)
    | End(call: Call)
    | EnterOther(call: Call)
    | LeaveOther(call: Call)

  /** Steps on committed debug Sessions. */
  datatype DebugStep =
    | Terminate(d: DebugId)
    | DetachDebug(d: DebugId)
    | BeginSettle(d: DebugId)
    | Settle(d: DebugId)
    | Complete(d: DebugId, err: Errors)
    | FinishDebug(d: DebugId)

  /** Steps on the debug group, on the debug manager and on other parents. */
  datatype GroupStep =
    | CloseGroup
    | WaitForCreations(g: GroupRef)
    | CollectGroup(g: GroupRef)
    | AskDebug(g: GroupRef, d: DebugId)
    | BeginAsked(g: GroupRef)
    | WaitForAsked(g: GroupRef)
    | JoinDebug(g: GroupRef)
    | FinishGroup(g: GroupRef, err: Errors)
    | RemoveGroup(g: GroupRef)
    | StopManager
    | Elsewhere(reg: Reg.Registry)

  /** Steps of closing the executable Session. */
  datatype ExecStep =
    | BeginExecClose
    | WaitForRuntimes
    | Drain
    | BeginHook
    | WaitForHook
    | EndHook
    | CaptureWaits
    | TakePlan
    | ClosePlan
    | PublishClose(err: Errors)

  datatype Step =
    | OnCreate(create: CreateStep)
    | OnDebug(debug: DebugStep)
    | OnGroup(group: GroupStep)
    | OnExec(exec: ExecStep)

  predicate At(st: State, call: Call, pc: Pc) { call in st.calls && st.calls[call] == pc }

  predicate Staged(st: State, d: DebugId, stage: DebugStage) { d in st.debug && st.debug[d] == stage }

  predicate Shaped(st: State) { Reg.Formed(st.reg) && PlansOk(st.plans) }

  function Goto(st: State, call: Call, pc: Pc): State { st.(calls := st.calls[call := pc]) }

  /** The lease of `call` is released once: debugPlanLease.release. */
  function ReleaseLease(st: State, call: Call): State
    requires PlansOk(st.plans)
  {
    if call in st.leases then st.(leases := st.leases - {call}, plans := Release(st.plans)) else st
  }

  function GrantLease(st: State, call: Call, plan: PlanRef): State {
    st.(leases := st.leases[call := plan], leased := st.leased + {call}, calls := st.calls[call := Leased])
  }

  // -------------------------------------------------------------- create steps

  predicate Fresh(st: State, call: Call) {
    call !in st.used && call !in st.reg.sessions && call !in st.reg.closing
  }

  /** The step is none of the Session's, and grants and compiles nothing. */
  predicate Unpromised(st: State, n: State) {
    n.stage == st.stage && n.leased == st.leased && n.closes == st.closes
  }

  function DoBegin(st: State, call: Call): (n: State)
    requires Shaped(st)
    ensures Unpromised(st, n)
  {
    var n := st.(reg := Reg.BeginCreate(st.reg, st.parent, call), used := st.used + {call});
    if Reg.BeginAllowed(st.reg, st.parent) then Goto(n, call, Gated) else n
  }

  function DoEnter(st: State, call: Call): (n: State)
    ensures Unpromised(st, n)
  {
    if st.gate.phase.Idle? then Goto(st.(gate := Admit(st.gate, call)), call, Entered)
    else Goto(st, call, Ending)
  }

  function DoLook(st: State, call: Call): (n: State)
    requires Shaped(st)
    ensures Shaped(n)
  {
    var accepting := st.gate.phase.Idle?;
    var n := st.(plans := AfterLook(st.plans, accepting));
    match LookAt(st.plans, accepting)
    case Closing => Goto(n, call, LeavingExec)
    case Lease(plan) => GrantLease(n, call, plan)
    case CompileFailed(_) => Goto(n, call, LeavingExec)
    case Await(done) => Goto(n, call, Awaiting(done))
    case Compile(done) => Goto(n, call, Compiling(done))
  }

  predicate CanWake(st: State, call: Call) {
    call in st.calls && st.calls[call].Awaiting? && st.calls[call].done in st.plans.closed
  }

  predicate CanEndCompile(st: State, call: Call, plan: Option<PlanRef>) {
    && call in st.calls && st.calls[call].Compiling? && st.plans.compiling
    && (plan.Some? ==> plan.value !in st.closes)
  }

  function DoEndCompile(st: State, call: Call, plan: Option<PlanRef>, err: Errors, cancelled: bool): State
    requires Shaped(st) && CanEndCompile(st, call, plan)
  {
    var accepting := st.gate.phase.Idle?;
    var n := st.(plans := AfterCompile(st.plans, accepting, plan, err, cancelled),
                 closes := if plan.Some? then st.closes[plan.value := 0] else st.closes);
    if !Failed(plan, err) && accepting then GrantLease(n, call, plan.value)
    else if Discards(accepting, plan, err) then Goto(n, call, Discarding(plan.value))
    else Goto(n, call, LeavingExec)
  }

  predicate CanDiscard(st: State, call: Call) {
    call in st.calls && st.calls[call].Discarding? && st.calls[call].plan in st.closes
  }

  function DoDiscard(st: State, call: Call): State
    requires CanDiscard(st, call)
  {
    var p := st.calls[call].plan;
    Goto(st.(closes := st.closes[p := st.closes[p] + 1]), call, LeavingExec)
  }

  function DoOpen(st: State, call: Call, ok: bool): State
    requires Shaped(st)
  {
    if ok then Goto(st, call, Opened) else Goto(ReleaseLease(st, call), call, LeavingExec)
  }

  predicate CanLeave(st: State, call: Call) {
    call in st.calls && (st.calls[call].Opened? || st.calls[call].LeavingExec?)
  }

  function DoLeave(st: State, call: Call): State
    requires CanLeave(st, call)
  {
    Goto(st.(gate := Leave(st.gate, call)), call, if st.calls[call].Opened? then Ready else Ending)
  }

  function DoCommit(st: State, call: Call): (n: State)
    requires Shaped(st)
    ensures Unpromised(st, n)
  {
    if Reg.CommitAllowed(st.reg, st.parent) then
      Goto(st.(reg := Reg.CommitSession(st.reg, st.parent, call), debug := st.debug[call := Retained],
               ops := st.ops[call := Idle]), call, Ending)
    else Goto(st, call, Dropping)
  }

  function DoDrop(st: State, call: Call): (n: State)
    requires Shaped(st)
    ensures Unpromised(st, n)
  {
    Goto(ReleaseLease(st, call), call, Ending)
  }

  function DoEnd(st: State, call: Call): (n: State)
    requires Shaped(st)
    ensures Unpromised(st, n)
  {
    st.(reg := Reg.FinishCreate(st.reg, st.parent, call), calls := st.calls - {call})
  }

  function DoEnterOther(st: State, call: Call): (n: State)
    ensures Unpromised(st, n)
  {
    var n := st.(used := st.used + {call});
    if st.gate.phase.Idle? then n.(gate := Admit(st.gate, call), others := st.others + {call}) else n
  }

  function DoLeaveOther(st: State, call: Call): (n: State)
    ensures Unpromised(st, n)
  {
    st.(gate := Leave(st.gate, call), others := st.others - {call})
  }

  predicate CreateEnabled(st: State, step: CreateStep) {
    match step
    case Begin(call) => Fresh(st, call)
    case EnterExec(call) => At(st, call, Gated)
    case Refuse(call) => At(st, call, Gated)
    case LookForPlan(call) => At(st, call, Entered)
    case Wake(call) => CanWake(st, call)
    case GiveUp(call) => call in st.calls && st.calls[call].Awaiting?
    case EndCompile(call, plan, _, _) => CanEndCompile(st, call, plan)
    case Discard(call) => CanDiscard(st, call)
    case OpenRuntime(call, _) => At(st, call, Leased)
    case LeaveExec(call) => CanLeave(st, call)
    case CommitDebug(call) => At(st, call, Ready)
    case DropRuntime(call) => At(st, call, Dropping)
    case End(call) => At(st, call, Ending)
    case EnterOther(call) => Fresh(st, call)
    case LeaveOther(call) => call in st.others
  }

  /** Guards that panic, and releases that the source ignores silently. */
  predicate CreatePanics(st: State, step: CreateStep)
    requires Shaped(st) && CreateEnabled(st, step)
  {
    match step
    case OpenRuntime(call, ok) => !ok && (call !in st.leases || st.plans.runtimes == 0)
    case LeaveExec(call) => call !in st.gate.holders
    case DropRuntime(call) => call !in st.leases || st.plans.runtimes == 0
    case End(call) => st.parent !in st.reg.groups || Reg.FinishPanics(st.reg, st.parent, call)
    case LeaveOther(call) => call !in st.gate.holders
    case _ => false
  }

  function NextCreate(st: State, step: CreateStep): State
    requires Shaped(st) && CreateEnabled(st, step)
  {
    match step
    case Begin(call) => DoBegin(st, call)
    case EnterExec(call) => DoEnter(st, call)
    case Refuse(call) => Goto(st, call, Ending)
    case LookForPlan(call) => DoLook(st, call)
    case Wake(call) => Goto(st, call, Entered)
    case GiveUp(call) => Goto(st, call, LeavingExec)
    case EndCompile(call, plan, err, cancelled) => DoEndCompile(st, call, plan, err, cancelled)
    case Discard(call) => DoDiscard(st, call)
    case OpenRuntime(call, ok) => DoOpen(st, call, ok)
    case LeaveExec(call) => DoLeave(st, call)
    case CommitDebug(call) => DoCommit(st, call)
    case DropRuntime(call) => DoDrop(st, call)
    case End(call) => DoEnd(st, call)
    case EnterOther(call) => DoEnterOther(st, call)
    case LeaveOther(call) => DoLeaveOther(st, call)
  }

  // --------------------------------------------------------------- debug steps

  function Restage(st: State, d: DebugId, stage: DebugStage): State { st.(debug := st.debug[d := stage]) }

  function DoDetach(st: State, d: DebugId): (n: State)
    requires Shaped(st)
    ensures Unpromised(st, n) && n.gwork == st.gwork
  {
    var n := st.(reg := Reg.Detach(st.reg, d));
    if Staged(st, d, Retained) then Restage(n, d, Detached) else n
  }

  /** beginClose of a caller that holds the session; the first starts the worker. */
  function DoBeginSettle(st: State, d: DebugId): (n: State)
    requires d in st.ops
    ensures Unpromised(st, n)
  {
    if st.ops[d].Idle? then Restage(st, d, Settling).(ops := st.ops[d := Started]) else st
  }

  function DoComplete(st: State, d: DebugId, err: Errors): (n: State)
    ensures Unpromised(st, n)
  {
    Restage(st, d, Completed).(ops := st.ops[d := Finished(err)])
  }

  function DoSettle(st: State, d: DebugId): (n: State)
    requires Shaped(st)
    ensures Unpromised(st, n)
  {
    Restage(ReleaseLease(st, d), d, Settled)
  }

  function DoFinishDebug(st: State, d: DebugId): (n: State)
    requires Shaped(st)
    ensures Unpromised(st, n)
  {
    Restage(st.(reg := Reg.FinishSession(st.reg, st.parent, d)), d, Gone)
  }

  predicate DebugEnabled(st: State, step: DebugStep) {
    match step
    case Terminate(d) => d in st.debug
    case DetachDebug(d) => d in st.debug
    case BeginSettle(d) => d in st.debug && d in st.ops && !st.debug[d].Retained?
    case Settle(d) => Staged(st, d, Settling)
    case Complete(d, _) => Staged(st, d, Settled) && d in st.ops
    case FinishDebug(d) => Staged(st, d, Completed)
  }

  predicate DebugPanics(st: State, step: DebugStep)
    requires Shaped(st) && DebugEnabled(st, step)
  {
    match step
    case Terminate(d) => d in st.leases && st.plans.runtimes == 0
    case BeginSettle(d) => DoBeginSettle(st, d).ops[d].Idle?
    case Settle(d) => d in st.leases && st.plans.runtimes == 0
    case Complete(d, _) => !st.ops[d].Started?
    case _ => false
  }

  function NextDebug(st: State, step: DebugStep): State
    requires Shaped(st) && DebugEnabled(st, step)
  {
    match step
    case Terminate(d) => ReleaseLease(st, d)
    case DetachDebug(d) => DoDetach(st, d)
    case BeginSettle(d) => DoBeginSettle(st, d)
    case Settle(d) => DoSettle(st, d)
    case Complete(d, err) => DoComplete(st, d, err)
    case FinishDebug(d) => DoFinishDebug(st, d)
  }

  // --------------------------------------------------------------- group steps

  /** closeExecutionSession up to its unlock; the owner starts the worker. */
  function DoCloseGroup(st: State): (n: State)
    requires Shaped(st)
    ensures Unpromised(st, n)
  {
    var n := st.(reg := Reg.BeginGroupClose(st.reg, st.parent));
    if Reg.Admits(st.reg, st.parent) then n.(gwork := st.gwork[st.reg.groups[st.parent] := GroupWaiting]) else n
  }

  predicate Working(st: State, g: GroupRef, stage: GroupStage) {
    g in st.gwork && g in st.reg.table && st.gwork[g] == stage
  }

  predicate CanCollect(st: State, g: GroupRef) {
    Working(st, g, GroupWaiting) && st.reg.table[g].gate.holders == {}
  }

  function DoCollect(st: State, g: GroupRef): (n: State)
    requires CanCollect(st, g)
    ensures Unpromised(st, n)
  {
    st.(gwork := st.gwork[g := GroupJoining(st.reg.table[g].sessions, Nobody)])
  }

  predicate Joins(st: State, g: GroupRef) { g in st.gwork && st.gwork[g].GroupJoining? }

  predicate CanAsk(st: State, g: GroupRef, d: DebugId) {
    Joins(st, g) && st.gwork[g].asking.Nobody? && d in st.gwork[g].pending && d in st.debug
  }

  function SetAsking(st: State, g: GroupRef, asking: Asking): State
    requires Joins(st, g)
  {
    st.(gwork := st.gwork[g := st.gwork[g].(asking := asking)])
  }

  function Struck(st: State, g: GroupRef, d: DebugId): State
    requires Joins(st, g)
  {
    st.(gwork := st.gwork[g := GroupJoining(st.gwork[g].pending - {d}, Nobody)])
  }

  /** detachSession of the worker; a session that is gone needs no close. */
  function DoAsk(st: State, g: GroupRef, d: DebugId): (n: State)
    requires Shaped(st) && CanAsk(st, g, d)
    ensures Unpromised(st, n)
  {
    if d in Reg.Detach(st.reg, d).closing then SetAsking(DoDetach(st, d), g, Holding(d)) else Struck(st, g, d)
  }

  predicate Holds(st: State, g: GroupRef) {
    Joins(st, g) && st.gwork[g].asking.Holding? && st.gwork[g].asking.d in st.ops && st.gwork[g].asking.d in st.debug
  }

  function DoBeginAsked(st: State, g: GroupRef): (n: State)
    requires Holds(st, g)
    ensures Unpromised(st, n)
  {
    var d := st.gwork[g].asking.d;
    SetAsking(DoBeginSettle(st, d), g, Awaited(d))
  }

  predicate Awaits(st: State, g: GroupRef) {
    Joins(st, g) && st.gwork[g].asking.Awaited? && st.gwork[g].asking.d in st.ops
  }

  predicate CanJoin(st: State, g: GroupRef) { Awaits(st, g) && st.ops[st.gwork[g].asking.d].Finished? }

  function DoJoin(st: State, g: GroupRef): (n: State)
    requires CanJoin(st, g)
    ensures Unpromised(st, n)
  {
    Struck(st, g, st.gwork[g].asking.d)
  }

  const ALL_JOINED := GroupJoining({}, Nobody)

  function DoFinishGroup(st: State, g: GroupRef, err: Errors): (n: State)
    requires Shaped(st) && Working(st, g, ALL_JOINED)
    ensures Unpromised(st, n)
  {
    st.(reg := Reg.PublishGroup(st.reg, g, err), gwork := st.gwork[g := GroupFinished])
  }

  function DoRemoveGroup(st: State, g: GroupRef): (n: State)
    requires Shaped(st)
    ensures Unpromised(st, n)
  {
    st.(reg := Reg.RemoveGroup(st.reg, st.parent, g), gwork := st.gwork[g := GroupRemoved])
  }

  /** Identifiers are unique: no other parent uses one of this parent's. */
  predicate OwnIds(parent: Reg.ParentId, reg: Reg.Registry, used: set<Call>) {
    && (forall d <- reg.sessions :: d in used ==> reg.sessions[d] == parent)
    && (forall d <- reg.closing :: d in used ==> reg.closing[d] == parent)
  }

  ghost predicate GroupEnabled(st: State, step: GroupStep) {
    match step
    case CloseGroup => true
    case WaitForCreations(g) => Working(st, g, GroupWaiting)
    case CollectGroup(g) => CanCollect(st, g)
    case AskDebug(g, d) => CanAsk(st, g, d)
    case BeginAsked(g) => Holds(st, g)
    case WaitForAsked(g) => Awaits(st, g)
    case JoinDebug(g) => CanJoin(st, g)
    case FinishGroup(g, _) => Working(st, g, ALL_JOINED)
    case RemoveGroup(g) => Working(st, g, GroupFinished)
    case StopManager => true
    case Elsewhere(reg) => Reg.Formed(reg) && Reg.SameFor(st.reg, reg, st.parent) && OwnIds(st.parent, reg, st.used)
  }

  ghost predicate GroupPanics(st: State, step: GroupStep)
    requires Shaped(st) && GroupEnabled(st, step)
  {
    match step
    case CloseGroup => Reg.Admits(DoCloseGroup(st).reg, st.parent)
    case WaitForCreations(g) => st.reg.table[g].gate.phase.Idle?
    case WaitForAsked(g) => st.ops[st.gwork[g].asking.d].Idle?
    case FinishGroup(g, _) => st.reg.table[g].gate.holders != {} || !st.reg.table[g].gate.phase.Started?
    case _ => false
  }

  ghost function NextGroup(st: State, step: GroupStep): State
    requires Shaped(st) && GroupEnabled(st, step)
  {
    match step
    case CloseGroup => DoCloseGroup(st)
    case WaitForCreations(_) => st
    case CollectGroup(g) => DoCollect(st, g)
    case AskDebug(g, d) => DoAsk(st, g, d)
    case BeginAsked(g) => DoBeginAsked(st, g)
    case WaitForAsked(_) => st
    case JoinDebug(g) => DoJoin(st, g)
    case FinishGroup(g, err) => DoFinishGroup(st, g, err)
    case RemoveGroup(g) => DoRemoveGroup(st, g)
    case StopManager => st.(reg := st.reg.(closed := true))
    case Elsewhere(reg) => st.(reg := reg)
  }

  // ---------------------------------------------------------------- exec steps

  function DoBeginHook(st: State): State
    requires Shaped(st)
  {
    DoCloseGroup(st).(stage :=
      if st.parent in st.reg.groups then HookWaiting(st.reg.groups[st.parent]) else Hooked)
  }

  predicate CanEndHook(st: State) {
    && st.stage.HookWaiting? && st.stage.group in st.reg.table
    && st.reg.table[st.stage.group].gate.phase.Finished?
  }

  predicate CanTake(st: State) {
    st.stage.Capturing? && Reached(st.stage.compile, st.plans.closed) && Reached(st.stage.leases, st.plans.closed)
  }

  function DoTake(st: State): State {
    st.(stage := ClosingPlan(st.plans.debugPlan), plans := st.plans.(debugPlan := None))
  }

  predicate CanClosePlan(st: State) {
    st.stage.ClosingPlan? && (st.stage.plan.Some? ==> st.stage.plan.value in st.closes)
  }

  function DoClosePlan(st: State): State
    requires CanClosePlan(st)
  {
    var n := st.(stage := Publishing);
    if st.stage.plan.None? then n
    else n.(closes := st.closes[st.stage.plan.value := st.closes[st.stage.plan.value] + 1])
  }

  predicate ExecEnabled(st: State, step: ExecStep) {
    match step
    case BeginExecClose => st.stage.Open?
    case WaitForRuntimes => st.stage.Waiting?
    case Drain => st.stage.Waiting? && st.gate.holders == {}
    case BeginHook => st.stage.Hooking?
    case WaitForHook => st.stage.HookWaiting? && st.stage.group in st.reg.table
    case EndHook => CanEndHook(st)
    case CaptureWaits => st.stage.Hooked?
    case TakePlan => CanTake(st)
    case ClosePlan => CanClosePlan(st)
    case PublishClose(_) => st.stage.Publishing?
  }

  predicate ExecPanics(st: State, step: ExecStep)
    requires Shaped(st) && ExecEnabled(st, step)
  {
    match step
    case WaitForRuntimes => st.gate.phase.Idle?
    case WaitForHook => st.reg.table[st.stage.group].gate.phase.Idle?
    case TakePlan => st.plans.runtimes != 0 || st.plans.compiling
    case PublishClose(_) => st.gate.holders != {} || !st.gate.phase.Started?
    case _ => false
  }

  function NextExec(st: State, step: ExecStep): State
    requires Shaped(st) && ExecEnabled(st, step)
  {
    match step
    case BeginExecClose => st.(stage := Waiting, gate := Commit(st.gate))
    case WaitForRuntimes => st
    case Drain => st.(stage := Hooking)
    case BeginHook => DoBeginHook(st)
    case WaitForHook => st
    case EndHook => st.(stage := Hooked)
    case CaptureWaits => st.(stage := Capturing(st.plans.compileDone, st.plans.runtimeDone))
    case TakePlan => DoTake(st)
    case ClosePlan => DoClosePlan(st)
    case PublishClose(err) => st.(stage := Closed, gate := Publish(st.gate, err))
  }

  // --------------------------------------------------------------- transitions

  ghost predicate Enabled(st: State, step: Step) {
    && Shaped(st)
    && match step
       case OnCreate(c) => CreateEnabled(st, c)
       case OnDebug(d) => DebugEnabled(st, d)
       case OnGroup(g) => GroupEnabled(st, g)
       case OnExec(x) => ExecEnabled(st, x)
  }

  ghost predicate PanicsAt(st: State, step: Step)
    requires Enabled(st, step)
  {
    match step
    case OnCreate(c) => CreatePanics(st, c)
    case OnDebug(d) => DebugPanics(st, d)
    case OnGroup(g) => GroupPanics(st, g)
    case OnExec(x) => ExecPanics(st, x)
  }

  ghost function Next(st: State, step: Step): State
    requires Enabled(st, step)
  {
    if PanicsAt(st, step) then st.(panicked := true) else
    match step
    case OnCreate(c) => NextCreate(st, c)
    case OnDebug(d) => NextDebug(st, d)
    case OnGroup(g) => NextGroup(st, g)
    case OnExec(x) => NextExec(st, x)
  }
}
