/** The hierarchical close protocol of internal/exec/manager.go as one state
    machine: Workspaces own Sessions, Sessions own Executions. Every section
    under a lock is one atomic step, every goroutine hand-off is a worker stage
    that any later step may schedule, and every blocking wait is a guard. */
module CloseProtocol {
  import opened Base
  import opened Lifecycle
  import opened ExecutionRegistry
  import opened SessionRegistry

  /** Where a Session is in finishSessionClose. */
  datatype Stage =
    | Open | Waiting | Joining | Hooking | Releasing | Publishing | Published | Retired

  /** The close worker of a registered session: `children` are the executions
      it collected, `joined` how many of them it has waited for, and `early`
      (history) those that left the group while the Session still admitted. */
  datatype SessionWork = SessionWork(
    children: seq<ExecutionId>, joined: nat, result: Errors, early: set<ExecutionId>)

  /** The workspace of a session and the group it was committed to. */
  datatype Home = Home(workspace: WorkspaceId, group: GroupRef)

  /** The ordinary Plan of a compiled session: the CreateSession call that
      compiled it, whether it is still held, and how often it was closed. */
  datatype Plan = Plan(creator: Call, held: bool, closes: nat)

  datatype GroupStage = GroupWaiting | GroupJoining | GroupClosed

  /** Where a workspace group is in finishWorkspaceClose. */
  datatype GroupWork = GroupWork(
    stage: GroupStage, list: seq<SessionId>, joined: nat, asked: bool, result: Errors)

  const GROUP_STARTED := GroupWork(GroupWaiting, [], 0, false, [])

  /** An in-flight CreateSession call. */
  datatype Creation =
    | Admitted(workspace: WorkspaceId, group: GroupRef)
    | Prepared(workspace: WorkspaceId, group: GroupRef, session: SessionId)
    | Leaving(workspace: WorkspaceId, group: GroupRef)

  /** Where an execution is in finishExecutionClose. */
  datatype Closer = Settling | Completed | Gone

  /** `home` and `admitted` (every execution ever added) are history. */
  datatype State = State(
    reg: Sessions,
    exec: Registry,
    stage: map<SessionId, Stage>,
    work: map<SessionId, SessionWork>,
    plans: map<SessionId, Plan>,
    home: map<SessionId, Home>,
    admitted: map<SessionId, set<ExecutionId>>,
    gwork: map<GroupRef, GroupWork>,
    creations: map<Call, Creation>,
    runtimes: map<Call, SessionId>,
    closers: map<ExecutionId, Closer>,
    panicked: bool)

  const INIT := State(NO_SESSIONS, EMPTY, map[], map[], map[], map[], map[], map[], map[], map[], map[], false)

  /** Steps of CreateSession and CreateExecution calls. */
  datatype CreationStep =
    | BeginCreation(call: Call, w: WorkspaceId)
    | Prepare(call: Call, s: SessionId)
    | PrepareFails(call: Call)
    | CommitSession(call: Call, cancelled: bool)
    | EndCreation(call: Call)
    | BeginRuntime(call: Call, s: SessionId)
    | AddExecution(call: Call, e: ExecutionId)
    | EndRuntime(call: Call)

  /** Steps of closing an execution. */
  datatype ExecutionStep =
    | CloseExecution(e: ExecutionId)
    | Settle(e: ExecutionId, err: Errors)
    | Detach(e: ExecutionId)

  /** Steps of closing a session. */
  datatype SessionStep =
    | CloseSession(s: SessionId)
    | Collect(s: SessionId, children: seq<ExecutionId>)
    | JoinChild(s: SessionId)
    | FinishJoin(s: SessionId)
    | RunHooks(s: SessionId, err: Errors)
    | ReleasePlan(s: SessionId, err: Errors)
    | PublishSession(s: SessionId)
    | RetireSession(s: SessionId)

  /** Steps of closing a workspace or the whole manager. */
  datatype GroupStep =
    | CloseWorkspace(w: WorkspaceId)
    | Shutdown
    | CollectGroup(g: GroupRef, list: seq<SessionId>)
    | AskSession(g: GroupRef)
    | JoinSession(g: GroupRef)
    | FinishGroup(g: GroupRef)

  /** A worker goes into one of its waits. Nothing changes, but a wait on a close
      that was not begun panics. */
  datatype WaitStep =
    | WaitForRuntimes(s: SessionId)
    | WaitForChild(s: SessionId)
    | WaitForCreations(g: GroupRef)
    | WaitForSession(g: GroupRef)

  datatype Step =
    | OnWait(wait: WaitStep)
    | OnCreation(creation: CreationStep)
    | OnExecution(execution: ExecutionStep)
    | OnSession(session: SessionStep)
    | OnGroup(group: GroupStep)

  ghost predicate Enumerates<T(!new)>(list: seq<T>, elements: set<T>) {
    && (forall x :: x in list <==> x in elements)
    && (forall i, j :: 0 <= i < j < |list| ==> list[i] != list[j])
  }

  function Members(r: Registry, s: SessionId): set<ExecutionId> {
    if s in r.groups then r.groups[s].members else {}
  }

  predicate InStage(st: State, s: SessionId, stage: Stage) {
    s in st.stage && s in st.work && s in st.reg.sessions && st.stage[s] == stage
  }

  predicate InGroupStage(st: State, g: GroupRef, stage: GroupStage) {
    g in st.gwork && g in st.reg.table && st.gwork[g].stage == stage
  }

  ghost predicate Shaped(st: State) { Formed(st.reg) && WellFormed(st.exec) }

  function SetStage(st: State, s: SessionId, stage: Stage): State { st.(stage := st.stage[s := stage]) }

  function SetWork(st: State, s: SessionId, k: SessionWork): State { st.(work := st.work[s := k]) }

  function SetCreation(st: State, call: Call, c: Creation): State { st.(creations := st.creations[call := c]) }

  /** Taking the plan out of the session and closing it, when it is there. */
  function ClosePlan(p: Plan): Plan { if p.held then p.(held := false, closes := p.closes + 1) else p }

  // Each step has a guard `Can...`, which blocks it until what it waits for has
  // happened, and an effect `Do...`. Identifiers chosen by a step are fresh.

  // --- CreateSession

  predicate FreshCall(st: State, call: Call) { call !in st.creations && call !in st.runtimes }

  function DoBeginCreation(st: State, call: Call, w: WorkspaceId): State
    requires Formed(st.reg)
  {
    var (reg, reply) := BeginCreate(st.reg, w, call);
    st.(reg := reg,
        creations := if reply.AdmittedTo? then st.creations[call := Admitted(w, reply.group)] else st.creations)
  }

  predicate CanPrepare(st: State, call: Call, s: SessionId) {
    call in st.creations && st.creations[call].Admitted? && s !in st.plans
  }

  function DoPrepare(st: State, call: Call, s: SessionId): State
    requires CanPrepare(st, call, s)
  {
    var c := st.creations[call];
    SetCreation(st, call, Prepared(c.workspace, c.group, s)).(plans := st.plans[s := Plan(call, true, 0)])
  }

  predicate CanFailPrepare(st: State, call: Call) { call in st.creations && st.creations[call].Admitted? }

  function DoFailPrepare(st: State, call: Call): State
    requires CanFailPrepare(st, call)
  {
    SetCreation(st, call, Leaving(st.creations[call].workspace, st.creations[call].group))
  }

  predicate CanCommit(st: State, call: Call) {
    && call in st.creations && st.creations[call].Prepared?
    && st.creations[call].session in st.plans && st.creations[call].group in st.reg.table
  }

  function DoCommit(st: State, call: Call, cancelled: bool): State
    requires CanCommit(st, call)
  {
    var c := st.creations[call];
    var left := SetCreation(st, call, Leaving(c.workspace, c.group));
    if !CommitAllowed(st.reg, c.workspace, c.group, cancelled) then
      left.(plans := st.plans[c.session := ClosePlan(st.plans[c.session])])
    else
      left.(reg := CommitCreate(st.reg, c.workspace, c.group, c.session, cancelled),
            stage := st.stage[c.session := Open],
            work := st.work[c.session := SessionWork([], 0, [], {})],
            home := st.home[c.session := Home(c.workspace, c.group)],
            admitted := st.admitted[c.session := {}])
  }

  predicate CanEndCreation(st: State, call: Call) {
    call in st.creations && st.creations[call].Leaving? && st.creations[call].group in st.reg.table
  }

  function DoEndCreation(st: State, call: Call): State
    requires CanEndCreation(st, call)
  {
    var c := st.creations[call];
    st.(reg := FinishCreate(st.reg, c.workspace, c.group, call), creations := st.creations - {call})
  }

  // --- CreateExecution and CreateDebugRuntime; only the former adds an execution

  function DoBeginRuntime(st: State, call: Call, s: SessionId): State
    requires Formed(st.reg)
  {
    st.(reg := BeginRuntimeCreate(st.reg, s, call),
        runtimes := if RuntimeAllowed(st.reg, s) then st.runtimes[call := s] else st.runtimes)
  }

  predicate CanAdd(st: State, call: Call, e: ExecutionId) {
    call in st.runtimes && st.runtimes[call] in st.admitted && e !in st.exec.table
  }

  function DoAdd(st: State, call: Call, e: ExecutionId): State
    requires CanAdd(st, call, e)
  {
    var s := st.runtimes[call];
    st.(exec := Add(st.exec, e, s), admitted := st.admitted[s := st.admitted[s] + {e}])
  }

  predicate CanEndRuntime(st: State, call: Call) { call in st.runtimes && st.runtimes[call] in st.reg.sessions }

  function DoEndRuntime(st: State, call: Call): State
    requires CanEndRuntime(st, call)
  {
    st.(reg := FinishRuntimeCreate(st.reg, st.runtimes[call], call), runtimes := st.runtimes - {call})
  }

  // --- CloseExecution and its worker finishExecutionClose

  function DoCloseExecution(st: State, e: ExecutionId): State
    requires WellFormed(st.exec)
  {
    st.(exec := BeginOne(st.exec, e),
        closers := if e in st.exec.public && st.exec.table[e].state.Active?
                   then st.closers[e := Settling] else st.closers)
  }

  predicate CanSettle(st: State, e: ExecutionId) {
    e in st.closers && st.closers[e].Settling? && e in st.exec.table
  }

  function DoSettle(st: State, e: ExecutionId, err: Errors): State
    requires CanSettle(st, e)
  {
    st.(exec := CompleteClose(st.exec, e, err), closers := st.closers[e := Completed])
  }

  predicate CanDetach(st: State, e: ExecutionId) {
    && e in st.closers && st.closers[e].Completed? && e in st.exec.table
    && st.exec.table[e].session in st.reg.sessions && st.exec.table[e].session in st.work
  }

  function DoDetach(st: State, e: ExecutionId): State
    requires CanDetach(st, e)
  {
    var s := st.exec.table[e].session;
    var parentClosing := !st.reg.sessions[s].children.phase.Idle?;
    var k := st.work[s];
    SetWork(st, s, if parentClosing then k else k.(early := k.early + {e}))
      .(exec := FinishOne(st.exec, e, parentClosing), closers := st.closers[e := Gone])
  }

  // --- closeSession and its worker finishSessionClose

  /** Manager.closeSession up to its wait: the owner starts the close worker. */
  function DoCloseSession(st: State, s: SessionId, retained: bool): State
    requires Formed(st.reg)
  {
    var begun := st.(reg := BeginSession(st.reg, s, retained));
    if CloseOwned(st.reg, s, retained) then SetStage(begun, s, Waiting)
    else begun
  }

  ghost predicate CanCollect(st: State, s: SessionId, children: seq<ExecutionId>) {
    && InStage(st, s, Waiting) && st.reg.sessions[s].children.holders == {}
    && Enumerates(children, Members(st.exec, s))
  }

  function DoCollect(st: State, s: SessionId, children: seq<ExecutionId>): State
    requires WellFormed(st.exec) && InStage(st, s, Waiting)
  {
    var started := map e | e in Members(st.exec, s) && st.exec.table[e].state.Active? :: Settling;
    SetWork(SetStage(st, s, Joining), s, st.work[s].(children := children))
      .(exec := BeginMembers(st.exec, s), closers := st.closers + started)
  }

  predicate CanJoinChild(st: State, s: SessionId) {
    && InStage(st, s, Joining) && st.work[s].joined < |st.work[s].children|
    && var e := st.work[s].children[st.work[s].joined];
       e in st.exec.table && st.exec.table[e].close.Finished?
  }

  function DoJoinChild(st: State, s: SessionId): State
    requires CanJoinChild(st, s)
  {
    var k := st.work[s];
    SetWork(st, s, k.(joined := k.joined + 1,
                      result := Join(k.result, st.exec.table[k.children[k.joined]].close.result)))
  }

  predicate CanFinishJoin(st: State, s: SessionId) {
    InStage(st, s, Joining) && st.work[s].joined == |st.work[s].children|
  }

  function DoFinishJoin(st: State, s: SessionId): State
    requires CanFinishJoin(st, s)
  {
    SetStage(st, s, Hooking).(exec := FinishSessionClose(st.exec, s))
  }

  function DoRunHooks(st: State, s: SessionId, err: Errors): State
    requires InStage(st, s, Hooking)
  {
    SetWork(SetStage(st, s, Releasing), s, st.work[s].(result := Join(st.work[s].result, err)))
  }

  predicate CanRelease(st: State, s: SessionId) { InStage(st, s, Releasing) && s in st.plans }

  function DoRelease(st: State, s: SessionId, err: Errors): State
    requires CanRelease(st, s)
  {
    SetWork(SetStage(st, s, Publishing), s, st.work[s].(result := Join(st.work[s].result, err)))
      .(plans := st.plans[s := ClosePlan(st.plans[s])])
  }

  function DoPublish(st: State, s: SessionId): State
    requires InStage(st, s, Publishing)
  {
    SetStage(st, s, Published)
      .(reg := SetChildren(st.reg, s, Publish(st.reg.sessions[s].children, st.work[s].result)))
  }

  function DoRetire(st: State, s: SessionId): State
    requires Formed(st.reg) && InStage(st, s, Published)
  {
    SetStage(st, s, Retired).(reg := FinishSessionEntry(st.reg, s))
  }

  // --- CloseWorkspace, Close and their worker finishWorkspaceClose

  function DoCloseWorkspace(st: State, w: WorkspaceId): State
    requires Formed(st.reg)
  {
    var ensured := EnsureGroup(st.reg, w);
    var g := ensured.groups[w];
    st.(reg := BeginWorkspaceClose(st.reg, w),
        gwork := if ensured.table[g].gate.phase.Idle? then st.gwork[g := GROUP_STARTED] else st.gwork)
  }

  function DoShutdown(st: State): State
    requires Formed(st.reg)
  {
    var started := map g | g in st.reg.groups.Values && st.reg.table[g].gate.phase.Idle? :: GROUP_STARTED;
    st.(reg := BeginShutdown(st.reg), gwork := st.gwork + started)
  }

  ghost predicate CanCollectGroup(st: State, g: GroupRef, list: seq<SessionId>) {
    && InGroupStage(st, g, GroupWaiting) && st.reg.table[g].gate.holders == {}
    && Enumerates(list, st.reg.table[g].sessions)
  }

  function DoCollectGroup(st: State, g: GroupRef, list: seq<SessionId>): State
    requires g in st.gwork
  {
    st.(gwork := st.gwork[g := st.gwork[g].(stage := GroupJoining, list := list)])
  }

  predicate CanAsk(st: State, g: GroupRef) {
    InGroupStage(st, g, GroupJoining) && st.gwork[g].joined < |st.gwork[g].list| && !st.gwork[g].asked
  }

  function DoAsk(st: State, g: GroupRef): State
    requires Formed(st.reg) && CanAsk(st, g)
  {
    DoCloseSession(st, st.gwork[g].list[st.gwork[g].joined], true)
      .(gwork := st.gwork[g := st.gwork[g].(asked := true)])
  }

  predicate CanJoinSession(st: State, g: GroupRef) {
    && InGroupStage(st, g, GroupJoining) && st.gwork[g].joined < |st.gwork[g].list| && st.gwork[g].asked
    && var s := st.gwork[g].list[st.gwork[g].joined];
       s in st.reg.sessions && st.reg.sessions[s].children.phase.Finished?
  }

  function DoJoinSession(st: State, g: GroupRef): State
    requires CanJoinSession(st, g)
  {
    var k := st.gwork[g];
    st.(gwork := st.gwork[g := k.(joined := k.joined + 1, asked := false,
          result := Join(k.result, st.reg.sessions[k.list[k.joined]].children.phase.result))])
  }

  predicate CanFinishGroup(st: State, g: GroupRef) {
    InGroupStage(st, g, GroupJoining) && st.gwork[g].joined == |st.gwork[g].list|
  }

  function DoFinishGroup(st: State, g: GroupRef): State
    requires CanFinishGroup(st, g)
  {
    st.(reg := FinishWorkspaceClose(st.reg, st.reg.table[g].workspace, g, st.gwork[g].result),
        gwork := st.gwork[g := st.gwork[g].(stage := GroupClosed)])
  }

  // ------------------------------------------------------------ transitions

  predicate CreationEnabled(st: State, step: CreationStep) {
    match step
    case BeginCreation(call, w) => FreshCall(st, call)
    case Prepare(call, s) => CanPrepare(st, call, s)
    case PrepareFails(call) => CanFailPrepare(st, call)
    case CommitSession(call, _) => CanCommit(st, call)
    case EndCreation(call) => CanEndCreation(st, call)
    case BeginRuntime(call, s) => FreshCall(st, call)
    case AddExecution(call, e) => CanAdd(st, call, e)
    case EndRuntime(call) => CanEndRuntime(st, call)
  }

  ghost predicate CreationPanics(st: State, step: CreationStep)
    requires Shaped(st) && CreationEnabled(st, step)
  {
    match step
    case EndCreation(call) => call !in st.reg.table[st.creations[call].group].gate.holders
    case BeginRuntime(_, s) => RuntimePanics(st.reg, s)
    case AddExecution(call, e) => AddPanics(st.exec, e, st.runtimes[call])
    case EndRuntime(call) => call !in st.reg.sessions[st.runtimes[call]].children.holders
    case _ => false
  }

  ghost function NextCreation(st: State, step: CreationStep): State
    requires Shaped(st) && CreationEnabled(st, step)
  {
    match step
    case BeginCreation(call, w) => DoBeginCreation(st, call, w)
    case Prepare(call, s) => DoPrepare(st, call, s)
    case PrepareFails(call) => DoFailPrepare(st, call)
    case CommitSession(call, cancelled) => DoCommit(st, call, cancelled)
    case EndCreation(call) => DoEndCreation(st, call)
    case BeginRuntime(call, s) => DoBeginRuntime(st, call, s)
    case AddExecution(call, e) => DoAdd(st, call, e)
    case EndRuntime(call) => DoEndRuntime(st, call)
  }

  predicate AtChild(st: State, s: SessionId) {
    && InStage(st, s, Joining) && st.work[s].joined < |st.work[s].children|
    && st.work[s].children[st.work[s].joined] in st.exec.table
  }

  predicate AtSession(st: State, g: GroupRef) {
    && InGroupStage(st, g, GroupJoining) && st.gwork[g].asked && st.gwork[g].joined < |st.gwork[g].list|
    && st.gwork[g].list[st.gwork[g].joined] in st.reg.sessions
  }

  predicate WaitEnabled(st: State, step: WaitStep) {
    match step
    case WaitForRuntimes(s) => InStage(st, s, Waiting)
    case WaitForChild(s) => AtChild(st, s)
    case WaitForCreations(g) => InGroupStage(st, g, GroupWaiting)
    case WaitForSession(g) => AtSession(st, g)
  }

  predicate WaitPanics(st: State, step: WaitStep)
    requires WaitEnabled(st, step)
  {
    match step
    case WaitForRuntimes(s) => st.reg.sessions[s].children.phase.Idle?
    case WaitForChild(s) => st.exec.table[st.work[s].children[st.work[s].joined]].close.Idle?
    case WaitForCreations(g) => st.reg.table[g].gate.phase.Idle?
    case WaitForSession(g) => st.reg.sessions[st.gwork[g].list[st.gwork[g].joined]].children.phase.Idle?
  }

  // The caller of a close goes on to wait for it, so a close step also panics if
  // it leaves the close it found idle.

  predicate ExecutionEnabled(st: State, step: ExecutionStep) {
    match step
    case CloseExecution(e) => true
    case Settle(e, _) => CanSettle(st, e)
    case Detach(e) => CanDetach(st, e)
  }

  ghost predicate ExecutionPanics(st: State, step: ExecutionStep)
    requires Shaped(st) && ExecutionEnabled(st, step)
  {
    match step
    case CloseExecution(e) =>
      e in st.exec.public && (BeginPanics(st.exec.table[e]) || DoCloseExecution(st, e).exec.table[e].close.Idle?)
    case Settle(e, _) => !st.exec.table[e].close.Started?
    case Detach(_) => false
  }

  ghost function NextExecution(st: State, step: ExecutionStep): State
    requires Shaped(st) && ExecutionEnabled(st, step)
  {
    match step
    case CloseExecution(e) => DoCloseExecution(st, e)
    case Settle(e, err) => DoSettle(st, e, err)
    case Detach(e) => DoDetach(st, e)
  }

  ghost predicate SessionEnabled(st: State, step: SessionStep) {
    match step
    case CloseSession(s) => true
    case Collect(s, children) => CanCollect(st, s, children)
    case JoinChild(s) => CanJoinChild(st, s)
    case FinishJoin(s) => CanFinishJoin(st, s)
    case RunHooks(s, err) => InStage(st, s, Hooking)
    case ReleasePlan(s, err) => CanRelease(st, s)
    case PublishSession(s) => InStage(st, s, Publishing)
    case RetireSession(s) => InStage(st, s, Published)
  }

  /** The session a close found is still not closing. */
  predicate LeavesIdle(st: State, s: SessionId)
    requires Formed(st.reg)
  {
    s in st.reg.entries && BeginSession(st.reg, s, false).sessions[s].children.phase.Idle?
  }

  ghost predicate SessionPanics(st: State, step: SessionStep)
    requires Shaped(st) && SessionEnabled(st, step)
  {
    match step
    case CloseSession(s) => SessionClosePanics(st.reg, s, false) || LeavesIdle(st, s)
    case Collect(s, _) => exists e :: e in Members(st.exec, s) && BeginPanics(st.exec.table[e])
    case PublishSession(s) =>
      st.reg.sessions[s].children.holders != {} || !st.reg.sessions[s].children.phase.Started?
    case _ => false
  }

  ghost function NextSession(st: State, step: SessionStep): State
    requires Shaped(st) && SessionEnabled(st, step)
  {
    match step
    case CloseSession(s) => DoCloseSession(st, s, false)
    case Collect(s, children) => DoCollect(st, s, children)
    case JoinChild(s) => DoJoinChild(st, s)
    case FinishJoin(s) => DoFinishJoin(st, s)
    case RunHooks(s, err) => DoRunHooks(st, s, err)
    case ReleasePlan(s, err) => DoRelease(st, s, err)
    case PublishSession(s) => DoPublish(st, s)
    case RetireSession(s) => DoRetire(st, s)
  }

  ghost predicate GroupEnabled(st: State, step: GroupStep) {
    match step
    case CloseWorkspace(w) => true
    case Shutdown => true
    case CollectGroup(g, list) => CanCollectGroup(st, g, list)
    case AskSession(g) => CanAsk(st, g)
    case JoinSession(g) => CanJoinSession(st, g)
    case FinishGroup(g) => CanFinishGroup(st, g)
  }

  ghost predicate GroupPanics(st: State, step: GroupStep)
    requires Shaped(st) && GroupEnabled(st, step)
  {
    match step
    case CloseWorkspace(w) =>
      var b := DoCloseWorkspace(st, w); b.reg.table[b.reg.groups[w]].gate.phase.Idle?
    case Shutdown =>
      exists w <- st.reg.groups :: DoShutdown(st).reg.table[st.reg.groups[w]].gate.phase.Idle?
    case AskSession(g) => SessionClosePanics(st.reg, st.gwork[g].list[st.gwork[g].joined], true)
    case FinishGroup(g) => st.reg.table[g].gate.holders != {} || !st.reg.table[g].gate.phase.Started?
    case _ => false
  }

  ghost function NextGroup(st: State, step: GroupStep): State
    requires Shaped(st) && GroupEnabled(st, step)
  {
    match step
    case CloseWorkspace(w) => DoCloseWorkspace(st, w)
    case Shutdown => DoShutdown(st)
    case CollectGroup(g, list) => DoCollectGroup(st, g, list)
    case AskSession(g) => DoAsk(st, g)
    case JoinSession(g) => DoJoinSession(st, g)
    case FinishGroup(g) => DoFinishGroup(st, g)
  }

  ghost predicate Enabled(st: State, step: Step) {
    && Shaped(st)
    && match step
       case OnWait(k) => WaitEnabled(st, k)
       case OnCreation(c) => CreationEnabled(st, c)
       case OnExecution(x) => ExecutionEnabled(st, x)
       case OnSession(k) => SessionEnabled(st, k)
       case OnGroup(g) => GroupEnabled(st, g)
  }

  /** The guards of the source that panic. */
  ghost predicate PanicsAt(st: State, step: Step)
    requires Enabled(st, step)
  {
    match step
    case OnWait(k) => WaitPanics(st, k)
    case OnCreation(c) => CreationPanics(st, c)
    case OnExecution(x) => ExecutionPanics(st, x)
    case OnSession(k) => SessionPanics(st, k)
    case OnGroup(g) => GroupPanics(st, g)
  }

  ghost function Next(st: State, step: Step): State
    requires Enabled(st, step)
  {
    if PanicsAt(st, step) then st.(panicked := true) else
    match step
    case OnWait(_) => st
    case OnCreation(c) => NextCreation(st, c)
    case OnExecution(x) => NextExecution(st, x)
    case OnSession(k) => NextSession(st, k)
    case OnGroup(g) => NextGroup(st, g)
  }
}
