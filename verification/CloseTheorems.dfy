/** What every run of the close protocol guarantees. A run is any sequence of
    enabled steps from the empty manager, in any interleaving. */
module CloseTheorems {
  import opened Base
  import opened Lifecycle
  import opened ExecutionRegistry
  import opened SessionRegistry
  import opened CloseProtocol
  import opened CloseInvariant

  ghost predicate CanStep(a: State, b: State) {
    exists step :: Enabled(a, step) && b == Next(a, step)
  }

  ghost predicate IsRun(run: seq<State>) {
    && run != [] && run[0] == INIT
    && forall i :: 0 <= i < |run| - 1 ==> CanStep(run[i], run[i + 1])
  }

  /** No worker ever waits for a close that was not begun. */
  lemma WaitSafe(st: State, step: WaitStep)
    requires Inv(st) && WaitEnabled(st, step)
    ensures !WaitPanics(st, step)
  {
    hide AllSessions, AllHomes, AllChildren, AllPlans, AllExecutions, AllGroups, AllGroupWork, AllCreations,
         AllRuntimes;
    match step
    case WaitForRuntimes(s) => SessionOf(st, s);
    case WaitForChild(s) =>
      ChildrenOf(st, s);
      var e := st.work[s].children[st.work[s].joined];
      assert e in st.work[s].children;
      ExecutionOf(st, e);
    case WaitForCreations(g) => GroupWorkOf(st, g);
    case WaitForSession(g) => GroupWorkOf(st, g);
  }

  lemma CreationSafe(st: State, step: CreationStep)
    requires Inv(st) && CreationEnabled(st, step)
    ensures !CreationPanics(st, step)
  {
    hide AllSessions, AllHomes, AllChildren, AllPlans, AllExecutions, AllGroups, AllGroupWork, AllCreations,
         AllRuntimes;
    match step
    case EndCreation(call) => CreationOf(st, call);
    case BeginRuntime(_, s) => if s in st.reg.entries { SessionOf(st, s); }
    case AddExecution(call, e) => KeepAdd(st, call, e);
    case EndRuntime(call) => RuntimeOf(st, call);
    case _ =>
  }

  lemma ExecutionSafe(st: State, step: ExecutionStep)
    requires Inv(st) && ExecutionEnabled(st, step)
    ensures !ExecutionPanics(st, step)
  {
    hide AllSessions, AllHomes, AllChildren, AllPlans, AllExecutions, AllGroups, AllGroupWork, AllCreations,
         AllRuntimes;
    if !step.CloseExecution? || step.e in st.exec.public { ExecutionOf(st, step.e); }
  }

  lemma CloseSessionSafe(st: State, s: SessionId)
    requires Inv(st)
    ensures !SessionClosePanics(st.reg, s, false) && !LeavesIdle(st, s)
  {
    hide AllSessions, AllHomes, AllChildren, AllPlans, AllExecutions, AllGroups, AllGroupWork, AllCreations,
         AllRuntimes;
    KeepCloseSession(st, s, false);
    if s in st.reg.entries { SessionOf(st, s); }
  }

  lemma SessionSafe(st: State, step: SessionStep)
    requires Inv(st) && SessionEnabled(st, step)
    ensures !SessionPanics(st, step)
  {
    hide AllSessions, AllHomes, AllChildren, AllPlans, AllExecutions, AllGroups, AllGroupWork, AllCreations,
         AllRuntimes;
    match step
    case CloseSession(s) => CloseSessionSafe(st, s);
    case Collect(s, _) =>
      forall e | e in Members(st.exec, s) ensures !BeginPanics(st.exec.table[e]) { ExecutionOf(st, e); }
    case PublishSession(s) => PublishedGates(st, s);
    case _ =>
  }

  lemma GroupSafe(st: State, step: GroupStep)
    requires Inv(st) && GroupEnabled(st, step)
    ensures !GroupPanics(st, step)
  {
    hide AllSessions, AllHomes, AllChildren, AllPlans, AllExecutions, AllGroups, AllGroupWork, AllCreations,
         AllRuntimes;
    match step
    case AskSession(g) => KeepCloseSession(st, st.gwork[g].list[st.gwork[g].joined], true);
    case FinishGroup(g) => GroupWorkOf(st, g);
    case _ =>
  }

  /** No guard of the source panics on an enabled step. */
  lemma StepSafe(st: State, step: Step)
    requires Inv(st) && Enabled(st, step)
    ensures !PanicsAt(st, step)
  {
    hide Inv, WaitEnabled, CreationEnabled, ExecutionEnabled, SessionEnabled, GroupEnabled;
    hide WaitPanics, CreationPanics, ExecutionPanics, SessionPanics, GroupPanics;
    match step
    case OnWait(k) => WaitSafe(st, k);
    case OnCreation(c) => CreationSafe(st, c);
    case OnExecution(x) => ExecutionSafe(st, x);
    case OnSession(k) => SessionSafe(st, k);
    case OnGroup(g) => GroupSafe(st, g);
  }

  lemma CreationKeepsInv(st: State, step: CreationStep)
    requires Inv(st) && CreationEnabled(st, step)
    ensures Inv(NextCreation(st, step))
  {
    hide Inv;
    match step
    case BeginCreation(call, w) => KeepBeginCreation(st, call, w);
    case Prepare(call, s) => KeepPrepare(st, call, s);
    case PrepareFails(call) => KeepFailPrepare(st, call);
    case CommitSession(call, cancelled) => KeepCommit(st, call, cancelled);
    case EndCreation(call) => KeepEndCreation(st, call);
    case BeginRuntime(call, s) => KeepBeginRuntime(st, call, s);
    case AddExecution(call, e) => KeepAdd(st, call, e);
    case EndRuntime(call) => KeepEndRuntime(st, call);
  }

  lemma ExecutionKeepsInv(st: State, step: ExecutionStep)
    requires Inv(st) && ExecutionEnabled(st, step)
    ensures Inv(NextExecution(st, step))
  {
    hide Inv;
    match step
    case CloseExecution(e) => KeepCloseExecution(st, e);
    case Settle(e, err) => KeepSettle(st, e, err);
    case Detach(e) => KeepDetach(st, e);
  }

  lemma SessionKeepsInv(st: State, step: SessionStep)
    requires Inv(st) && SessionEnabled(st, step)
    ensures Inv(NextSession(st, step))
  {
    hide Inv;
    match step
    case CloseSession(s) => KeepCloseSession(st, s, false);
    case Collect(s, children) => KeepCollect(st, s, children);
    case JoinChild(s) => KeepJoinChild(st, s);
    case FinishJoin(s) => KeepFinishJoin(st, s);
    case RunHooks(s, err) => KeepRunHooks(st, s, err);
    case ReleasePlan(s, err) => KeepRelease(st, s, err);
    case PublishSession(s) => KeepPublish(st, s);
    case RetireSession(s) => KeepRetire(st, s);
  }

  lemma GroupKeepsInv(st: State, step: GroupStep)
    requires Inv(st) && GroupEnabled(st, step)
    ensures Inv(NextGroup(st, step))
  {
    hide Inv;
    match step
    case CloseWorkspace(w) => KeepCloseWorkspace(st, w);
    case Shutdown => KeepShutdown(st);
    case CollectGroup(g, list) => KeepCollectGroup(st, g, list);
    case AskSession(g) => KeepAsk(st, g);
    case JoinSession(g) => KeepJoinSession(st, g);
    case FinishGroup(g) => KeepFinishGroup(st, g);
  }

  /** Every step of the protocol keeps the invariant. */
  lemma StepKeepsInv(st: State, step: Step)
    requires Inv(st) && Enabled(st, step)
    ensures Inv(Next(st, step))
  {
    StepSafe(st, step);
    hide Inv, CreationEnabled, ExecutionEnabled, SessionEnabled, GroupEnabled;
    hide NextCreation, NextExecution, NextSession, NextGroup, PanicsAt;
    match step
    case OnWait(_) =>
    case OnCreation(c) => CreationKeepsInv(st, c);
    case OnExecution(x) => ExecutionKeepsInv(st, x);
    case OnSession(k) => SessionKeepsInv(st, k);
    case OnGroup(g) => GroupKeepsInv(st, g);
  }

  lemma AnyStepKeepsInv(a: State, b: State)
    requires Inv(a) && CanStep(a, b)
    ensures Inv(b)
  {
    hide Inv;
    var step :| Enabled(a, step) && b == Next(a, step);
    StepKeepsInv(a, step);
  }

  lemma InitInv()
    ensures Inv(INIT)
  {
  }

  /** The invariant holds in every state of every run. */
  lemma {:induction false} RunInv(run: seq<State>, i: nat)
    requires IsRun(run) && i < |run|
    ensures Inv(run[i])
  {
    hide Inv, CanStep;
    if i == 0 {
      InitInv();
    } else {
      RunInv(run, i - 1);
      AnyStepKeepsInv(run[i - 1], run[i - 1 + 1]);
    }
  }

  /** In every state of every run nothing has panicked, and no step the
      scheduler may take next panics. */
  lemma NoPanicReachable(run: seq<State>, i: nat, step: Step)
    requires IsRun(run) && i < |run| && Enabled(run[i], step)
    ensures !run[i].panicked && !PanicsAt(run[i], step)
  {
    RunInv(run, i);
    StepSafe(run[i], step);
  }

  // --------------------------------------------------- what is true at any time

  /** Every execution ever admitted under `s` has finished its own close. */
  ghost predicate ExecutionsFinished(st: State, s: SessionId) {
    forall e <- st.exec.table :: st.exec.table[e].session == s ==> st.exec.table[e].close.Finished?
  }

  predicate SessionClosed(st: State, s: SessionId) {
    s in st.reg.sessions && st.reg.sessions[s].children.phase.Finished?
  }

  predicate PlanClosedOnce(st: State, s: SessionId) {
    s in st.plans && !st.plans[s].held && st.plans[s].closes == 1
  }

  /** When a Session's close result is published, every Execution ever admitted
      under it has finished its own close, nobody is admitted, its Plan was
      closed exactly once, and the result starts with the close errors of its
      collected children: each admitted execution that had not left before
      admission stopped, exactly once. */
  lemma SessionCloseComplete(st: State, s: SessionId)
    requires Inv(st) && SessionClosed(st, s)
    ensures ExecutionsFinished(st, s) && st.reg.sessions[s].children.holders == {} && PlanClosedOnce(st, s)
    ensures s in st.work && s in st.admitted && Enumerates(st.work[s].children, st.admitted[s] - st.work[s].early)
    ensures Settled(st.exec.table, st.work[s].children)
    ensures ChildErrors(st.exec.table, st.work[s].children) <= st.reg.sessions[s].children.phase.result
  {
    hide AllSessions, AllHomes, AllChildren, AllPlans, AllExecutions, AllGroups, AllGroupWork, AllCreations,
         AllRuntimes;
    SessionOf(st, s);
    ChildrenOf(st, s);
    PlanOf(st, s);
    var k := st.work[s];
    assert k.children[..k.joined] == k.children;
    forall e | e in st.exec.table && st.exec.table[e].session == s ensures st.exec.table[e].close.Finished? {
      ExecutionOf(st, e);
      assert e in k.children || e in k.early;
    }
  }

  lemma TidyAt(st: State)
    requires Inv(st)
    ensures forall s <- st.reg.sessions :: !st.reg.sessions[s].children.phase.Finished? ==>
              && s in st.home && Registered(st.reg, st.reg.sessions[s].workspace, st.home[s].group)
              && st.home[s].group in st.reg.table && s in st.reg.table[st.home[s].group].sessions
    ensures forall w <- st.reg.groups :: st.reg.groups[w] in st.reg.table && !Idling(st.reg.table[st.reg.groups[w]])
  {
    hide AllSessions, AllHomes, AllChildren, AllPlans, AllExecutions, AllGroups, AllGroupWork, AllCreations,
         AllRuntimes;
    forall s | s in st.reg.sessions && !st.reg.sessions[s].children.phase.Finished?
      ensures Registered(st.reg, st.reg.sessions[s].workspace, st.home[s].group)
      ensures st.home[s].group in st.reg.table && s in st.reg.table[st.home[s].group].sessions
    {
      SessionOf(st, s);
      HomeOf(st, s);
    }
    forall w | w in st.reg.groups ensures !Idling(st.reg.table[st.reg.groups[w]]) {
      GroupOf(st, st.reg.groups[w]);
    }
  }

  /** When a workspace close completes, no creator is admitted, every Session
      ever committed to the group has closed (so all the above holds of it), and
      the result joins the close result of each retained session exactly once. */
  lemma WorkspaceCloseComplete(st: State, g: GroupRef)
    requires Inv(st) && g in st.reg.table && st.reg.table[g].gate.phase.Finished?
    ensures st.reg.table[g].gate.holders == {} && g in st.gwork
    ensures forall s <- st.home :: st.home[s].group == g ==>
              SessionClosed(st, s) && ExecutionsFinished(st, s) && PlanClosedOnce(st, s)
    ensures Enumerates(st.gwork[g].list, st.reg.table[g].sessions) && AllClosed(st.reg.sessions, st.gwork[g].list)
    ensures st.reg.table[g].gate.phase.result == SessionErrors(st.reg.sessions, st.gwork[g].list)
  {
    hide AllSessions, AllHomes, AllChildren, AllPlans, AllExecutions, AllGroups, AllGroupWork, AllCreations,
         AllRuntimes;
    GroupWorkOf(st, g);
    GroupSessionsClosed(st, g);
    assert st.gwork[g].list[..st.gwork[g].joined] == st.gwork[g].list;
    forall s | s in st.home && st.home[s].group == g
      ensures SessionClosed(st, s) && ExecutionsFinished(st, s) && PlanClosedOnce(st, s)
    {
      SessionOf(st, s);
      SessionCloseComplete(st, s);
    }
  }

  // ------------------------------------------------------- what never changes

  predicate Known(st: State, s: SessionId) {
    s in st.stage && s in st.work && s in st.admitted && s in st.home && s in st.reg.sessions
  }

  /** What later states keep about a session: an execution that has left or
      that is retained keeps its fate once admission stopped, the set of
      admitted executions and the collected list are final once the close
      worker has collected, and a published result is final. */
  ghost predicate Kept(a: State, b: State, s: SessionId)
    requires Known(a, s)
  {
    && Known(b, s) && b.home[s] == a.home[s]
    && a.admitted[s] <= b.admitted[s]
    && (!a.stage[s].Open? ==> !b.stage[s].Open? && b.work[s].early == a.work[s].early)
    && (Collected(a.stage[s]) ==>
          Collected(b.stage[s]) && b.admitted[s] == a.admitted[s] && b.work[s].children == a.work[s].children)
    && (SessionClosed(a, s) ==> b.reg.sessions[s].children.phase == a.reg.sessions[s].children.phase)
  }

  /** The sessions, their children and their close workers stay as they are. */
  ghost predicate Unmoved(a: State, b: State) {
    && a.stage == b.stage && a.work == b.work && a.admitted == b.admitted && a.home == b.home
    && a.reg.sessions == b.reg.sessions
  }

  lemma UnmovedByBegin(a: State, call: Call, w: WorkspaceId)
    requires Shaped(a)
    ensures Unmoved(a, DoBeginCreation(a, call, w))
  {
    hide Formed, WellFormed;
  }

  lemma UnmovedByCreation(a: State, call: Call, t: SessionId)
    ensures CanPrepare(a, call, t) ==> Unmoved(a, DoPrepare(a, call, t))
    ensures CanFailPrepare(a, call) ==> Unmoved(a, DoFailPrepare(a, call))
    ensures CanEndCreation(a, call) ==> Unmoved(a, DoEndCreation(a, call))
  {
  }

  lemma UnmovedByExecution(a: State, e: ExecutionId, err: Errors)
    requires Shaped(a)
    ensures Unmoved(a, DoCloseExecution(a, e))
    ensures CanSettle(a, e) ==> Unmoved(a, DoSettle(a, e, err))
  {
    hide Formed, WellFormed;
  }

  lemma UnmovedByStop(a: State, w: WorkspaceId)
    requires Shaped(a)
    ensures Unmoved(a, DoCloseWorkspace(a, w)) && Unmoved(a, DoShutdown(a))
  {
    hide Formed, WellFormed;
    hide BeginWorkspaceClose, BeginShutdown;
  }

  lemma UnmovedByGroup(a: State, g: GroupRef, list: seq<SessionId>)
    ensures g in a.gwork ==> Unmoved(a, DoCollectGroup(a, g, list))
  {
  }

  lemma UnmovedByJoin(a: State, g: GroupRef)
    ensures CanJoinSession(a, g) ==> Unmoved(a, DoJoinSession(a, g))
    ensures CanFinishGroup(a, g) ==> Unmoved(a, DoFinishGroup(a, g))
  {
  }

  /** Only the gate and stage of `t` move, and never back. */
  lemma KeptGate(a: State, b: State, t: SessionId, s: SessionId)
    requires Known(a, s) && Known(a, t) && t in b.stage && t in b.reg.sessions
    requires a.admitted == b.admitted && a.work == b.work && a.home == b.home
    requires SameBut(a.stage, b.stage, t) && SameBut(a.reg.sessions, b.reg.sessions, t)
    requires !a.stage[t].Open? ==> !b.stage[t].Open?
    requires Collected(a.stage[t]) ==> Collected(b.stage[t])
    requires a.reg.sessions[t].children.phase.Finished? ==>
               b.reg.sessions[t].children.phase == a.reg.sessions[t].children.phase
    ensures Kept(a, b, s)
  {
  }

  /** Only the close worker of `t` moves, and never back. */
  lemma KeptWorker(a: State, b: State, t: SessionId, s: SessionId)
    requires Known(a, s) && t in a.stage && t in a.work && t in b.stage && t in b.work
    requires a.admitted == b.admitted && a.reg.sessions == b.reg.sessions && a.home == b.home
    requires SameBut(a.stage, b.stage, t) && SameBut(a.work, b.work, t)
    requires Collected(b.stage[t]) && b.work[t].early == a.work[t].early
    requires Collected(a.stage[t]) ==> b.work[t].children == a.work[t].children
    ensures Kept(a, b, s)
  {
  }

  lemma KeptDetach(a: State, e: ExecutionId, s: SessionId)
    requires Known(a, s) && CanDetach(a, e) && Domains(a) && SessionsOk(a)
    ensures Kept(a, DoDetach(a, e), s)
  {
    hide AllSessions;
    SessionOf(a, s);
  }

  lemma KeptAdd(a: State, call: Call, e: ExecutionId, s: SessionId)
    requires Known(a, s) && CanAdd(a, call, e) && Domains(a) && SessionsOk(a) && RuntimesOk(a)
    ensures Kept(a, DoAdd(a, call, e), s)
  {
    hide AllSessions, AllRuntimes;
    RuntimeOf(a, call);
    SessionOf(a, s);
  }

  lemma KeptCommit(a: State, call: Call, cancelled: bool, s: SessionId)
    requires Known(a, s) && CanCommit(a, call) && CreationsOk(a)
    ensures Kept(a, DoCommit(a, call, cancelled), s)
  {
    hide AllCreations;
    CreationOf(a, call);
  }

  lemma KeptCloseSession(a: State, t: SessionId, retained: bool, s: SessionId)
    requires Known(a, s) && Domains(a) && SessionsOk(a)
    ensures Kept(a, DoCloseSession(a, t, retained), s)
  {
    hide AllSessions;
    if CloseOwned(a.reg, t, retained) {
      SessionOf(a, t);
      KeptGate(a, DoCloseSession(a, t, retained), t, s);
    }
  }

  lemma KeptBeginRuntime(a: State, call: Call, t: SessionId, s: SessionId)
    requires Known(a, s) && Domains(a)
    ensures Kept(a, DoBeginRuntime(a, call, t), s)
  {
    if RuntimeAllowed(a.reg, t) { KeptGate(a, DoBeginRuntime(a, call, t), t, s); }
  }

  lemma KeptEndRuntime(a: State, call: Call, s: SessionId)
    requires Known(a, s) && CanEndRuntime(a, call) && Domains(a)
    ensures Kept(a, DoEndRuntime(a, call), s)
  {
    KeptGate(a, DoEndRuntime(a, call), a.runtimes[call], s);
  }

  lemma KeptPublish(a: State, t: SessionId, s: SessionId)
    requires Known(a, s) && InStage(a, t, Publishing) && Domains(a) && SessionsOk(a)
    ensures Kept(a, DoPublish(a, t), s)
  {
    hide AllSessions;
    SessionOf(a, t);
    KeptGate(a, DoPublish(a, t), t, s);
  }

  lemma KeptCollect(a: State, t: SessionId, children: seq<ExecutionId>, s: SessionId)
    requires Known(a, s) && InStage(a, t, Waiting) && Shaped(a)
    ensures Kept(a, DoCollect(a, t, children), s)
  {
    KeptWorker(a, DoCollect(a, t, children), t, s);
  }

  lemma KeptJoin(a: State, t: SessionId, s: SessionId)
    requires Known(a, s)
    ensures CanJoinChild(a, t) ==> Kept(a, DoJoinChild(a, t), s)
    ensures CanFinishJoin(a, t) ==> Kept(a, DoFinishJoin(a, t), s)
  {
    if CanJoinChild(a, t) { KeptWorker(a, DoJoinChild(a, t), t, s); }
    if CanFinishJoin(a, t) { KeptWorker(a, DoFinishJoin(a, t), t, s); }
  }

  lemma KeptLate(a: State, t: SessionId, err: Errors, s: SessionId)
    requires Known(a, s)
    ensures InStage(a, t, Hooking) ==> Kept(a, DoRunHooks(a, t, err), s)
    ensures CanRelease(a, t) ==> Kept(a, DoRelease(a, t, err), s)
  {
    if InStage(a, t, Hooking) { KeptWorker(a, DoRunHooks(a, t, err), t, s); }
    if CanRelease(a, t) { KeptWorker(a, DoRelease(a, t, err), t, s); }
  }

  lemma KeptRetire(a: State, t: SessionId, s: SessionId)
    requires Known(a, s) && InStage(a, t, Published) && Shaped(a)
    ensures Kept(a, DoRetire(a, t), s)
  {
    hide FinishSessionEntry;
    KeptWorker(a, DoRetire(a, t), t, s);
  }

  lemma KeptUnmoved(a: State, b: State, s: SessionId)
    requires Known(a, s) && Unmoved(a, b)
    ensures Kept(a, b, s)
  {
  }

  lemma CreationKeeps(a: State, step: CreationStep, s: SessionId)
    requires Known(a, s) && Shaped(a) && CreationEnabled(a, step)
    requires Domains(a) && SessionsOk(a) && RuntimesOk(a) && CreationsOk(a)
    ensures Kept(a, NextCreation(a, step), s)
  {
    hide Domains, SessionsOk, RuntimesOk, CreationsOk, Formed, WellFormed, Kept, Unmoved;
    hide DoBeginCreation, DoPrepare, DoFailPrepare, DoEndCreation, DoCommit, DoAdd, DoBeginRuntime, DoEndRuntime;
    match step
    case AddExecution(call, e) => KeptAdd(a, call, e, s);
    case CommitSession(call, cancelled) => KeptCommit(a, call, cancelled, s);
    case BeginRuntime(call, t) => KeptBeginRuntime(a, call, t, s);
    case EndRuntime(call) => KeptEndRuntime(a, call, s);
    case BeginCreation(call, w) => UnmovedByBegin(a, call, w); KeptUnmoved(a, NextCreation(a, step), s);
    case Prepare(call, t) => UnmovedByCreation(a, call, t); KeptUnmoved(a, NextCreation(a, step), s);
    case PrepareFails(call) => UnmovedByCreation(a, call, 0); KeptUnmoved(a, NextCreation(a, step), s);
    case EndCreation(call) => UnmovedByCreation(a, call, 0); KeptUnmoved(a, NextCreation(a, step), s);
  }

  lemma ExecutionKeeps(a: State, step: ExecutionStep, s: SessionId)
    requires Known(a, s) && Shaped(a) && ExecutionEnabled(a, step) && Domains(a) && SessionsOk(a)
    ensures Kept(a, NextExecution(a, step), s)
  {
    hide Domains, SessionsOk, Formed, WellFormed, Kept, Unmoved, DoDetach, DoCloseExecution, DoSettle;
    match step
    case Detach(e) => KeptDetach(a, e, s);
    case CloseExecution(e) => UnmovedByExecution(a, e, []); KeptUnmoved(a, NextExecution(a, step), s);
    case Settle(e, err) => UnmovedByExecution(a, e, err); KeptUnmoved(a, NextExecution(a, step), s);
  }

  lemma SessionKeeps(a: State, step: SessionStep, s: SessionId)
    requires Known(a, s) && Shaped(a) && SessionEnabled(a, step) && Domains(a) && SessionsOk(a)
    ensures Kept(a, NextSession(a, step), s)
  {
    hide Domains, SessionsOk, Formed, WellFormed, Kept;
    hide DoCloseSession, DoCollect, DoJoinChild, DoFinishJoin, DoRunHooks, DoRelease, DoRetire, DoPublish;
    match step
    case CloseSession(t) => KeptCloseSession(a, t, false, s);
    case PublishSession(t) => KeptPublish(a, t, s);
    case Collect(t, children) => KeptCollect(a, t, children, s);
    case JoinChild(t) => KeptJoin(a, t, s);
    case FinishJoin(t) => KeptJoin(a, t, s);
    case RunHooks(t, err) => KeptLate(a, t, err, s);
    case ReleasePlan(t, err) => KeptLate(a, t, err, s);
    case RetireSession(t) => KeptRetire(a, t, s);
  }

  lemma KeptAsk(a: State, g: GroupRef, s: SessionId)
    requires Known(a, s) && CanAsk(a, g) && Domains(a) && SessionsOk(a)
    ensures Kept(a, DoAsk(a, g), s)
  {
    KeptCloseSession(a, a.gwork[g].list[a.gwork[g].joined], true, s);
  }

  lemma GroupKeeps(a: State, step: GroupStep, s: SessionId)
    requires Known(a, s) && Shaped(a) && GroupEnabled(a, step) && Domains(a) && SessionsOk(a)
    ensures Kept(a, NextGroup(a, step), s)
  {
    hide Domains, SessionsOk, Formed, WellFormed, Kept, Unmoved;
    hide DoAsk, DoCloseWorkspace, DoShutdown, DoCollectGroup, DoJoinSession, DoFinishGroup;
    match step
    case AskSession(g) => KeptAsk(a, g, s);
    case CloseWorkspace(w) => UnmovedByStop(a, w); KeptUnmoved(a, NextGroup(a, step), s);
    case Shutdown => UnmovedByStop(a, 0); KeptUnmoved(a, NextGroup(a, step), s);
    case CollectGroup(g, list) => UnmovedByGroup(a, g, list); KeptUnmoved(a, NextGroup(a, step), s);
    case JoinSession(g) => UnmovedByJoin(a, g); KeptUnmoved(a, NextGroup(a, step), s);
    case FinishGroup(g) => UnmovedByJoin(a, g); KeptUnmoved(a, NextGroup(a, step), s);
  }

  lemma KeptItself(a: State, s: SessionId)
    requires Known(a, s)
    ensures Kept(a, a, s)
  {
  }

  lemma StepKeeps(a: State, step: Step, s: SessionId)
    requires Known(a, s) && Inv(a) && Enabled(a, step)
    ensures Kept(a, Next(a, step), s)
  {
    StepSafe(a, step);
    assert Domains(a) && SessionsOk(a) && RuntimesOk(a) && CreationsOk(a);
    hide Inv, Domains, SessionsOk, RuntimesOk, CreationsOk, Kept, PanicsAt;
    hide CreationEnabled, ExecutionEnabled, SessionEnabled, GroupEnabled;
    hide NextCreation, NextExecution, NextSession, NextGroup;
    match step
    case OnWait(_) => KeptItself(a, s);
    case OnCreation(c) => CreationKeeps(a, c, s);
    case OnExecution(x) => ExecutionKeeps(a, x, s);
    case OnSession(k) => SessionKeeps(a, k, s);
    case OnGroup(g) => GroupKeeps(a, g, s);
  }

  lemma KeptTransitive(a: State, b: State, c: State, s: SessionId)
    requires Known(a, s) && Kept(a, b, s) && Kept(b, c, s)
    ensures Kept(a, c, s)
  {
  }

  lemma AnyStepKeeps(a: State, b: State, s: SessionId)
    requires Known(a, s) && Inv(a) && CanStep(a, b)
    ensures Kept(a, b, s)
  {
    hide Inv, Kept;
    var step :| Enabled(a, step) && b == Next(a, step);
    StepKeeps(a, step, s);
  }

  lemma {:induction false} RunKeeps(run: seq<State>, i: nat, j: nat, s: SessionId)
    requires IsRun(run) && i <= j < |run| && Known(run[i], s)
    ensures Kept(run[i], run[j], s)
    decreases j - i
  {
    if i < j {
      hide Inv, CanStep;
      RunKeeps(run, i, j - 1, s);
      RunInv(run, j - 1);
      AnyStepKeeps(run[j - 1], run[j - 1 + 1], s);
      KeptTransitive(run[i], run[j - 1], run[j], s);
    }
  }

  // ----------------------------------------------------------- whole runs

  /** From the moment a Session's close result is published, every Execution
      ever admitted under it has finished, and none is admitted in any later
      state of the run. */
  lemma PublishedForGood(run: seq<State>, i: nat, j: nat, s: SessionId)
    requires IsRun(run) && i <= j < |run| && SessionClosed(run[i], s)
    ensures SessionClosed(run[j], s)
    ensures run[j].reg.sessions[s].children.phase == run[i].reg.sessions[s].children.phase
    ensures ExecutionsFinished(run[i], s) && ExecutionsFinished(run[j], s)
    ensures forall e <- run[j].exec.table :: run[j].exec.table[e].session == s ==> e in run[i].exec.table
    ensures PlanClosedOnce(run[i], s) && PlanClosedOnce(run[j], s)
  {
    hide AllSessions, AllHomes, AllChildren, AllPlans, AllExecutions, AllGroups, AllGroupWork, AllCreations,
         AllRuntimes;
    hide CanStep;
    RunInv(run, i);
    RunInv(run, j);
    RunKeeps(run, i, j, s);
    SessionOf(run[i], s);
    SessionCloseComplete(run[i], s);
    SessionCloseComplete(run[j], s);
    ChildrenOf(run[i], s);
    forall e | e in run[j].exec.table && run[j].exec.table[e].session == s ensures e in run[i].exec.table {
      ExecutionOf(run[j], e);
    }
  }

  /** A child still in the group when the parent has stopped admission and not
      yet collected, finished or not, has its close error joined into the
      published result exactly once. */
  lemma RetainedChildJoinedOnce(run: seq<State>, i: nat, j: nat, s: SessionId, e: ExecutionId)
    requires IsRun(run) && i <= j < |run| && InStage(run[i], s, Waiting) && e in Members(run[i].exec, s)
    requires SessionClosed(run[j], s)
    ensures s in run[j].work && Settled(run[j].exec.table, run[j].work[s].children)
    ensures ChildErrors(run[j].exec.table, run[j].work[s].children) <= run[j].reg.sessions[s].children.phase.result
    ensures exists n :: 0 <= n < |run[j].work[s].children| && run[j].work[s].children[n] == e
    ensures forall m, n :: 0 <= m < n < |run[j].work[s].children| ==>
              !(run[j].work[s].children[m] == e && run[j].work[s].children[n] == e)
  {
    hide AllSessions, AllHomes, AllChildren, AllPlans, AllExecutions, AllGroups, AllGroupWork, AllCreations,
         AllRuntimes;
    hide CanStep;
    RunInv(run, i);
    RunInv(run, j);
    ChildrenOf(run[i], s);
    RunKeeps(run, i, j, s);
    SessionCloseComplete(run[j], s);
    assert e in run[j].work[s].children;
  }

  /** A completed workspace close, in every state of every run: every Session
      ever committed to the group is closed with all its Executions and its
      Plan, and the result is the join of the sessions' results, each once. */
  lemma WorkspaceClosed(run: seq<State>, i: nat, g: GroupRef)
    requires IsRun(run) && i < |run| && g in run[i].reg.table && run[i].reg.table[g].gate.phase.Finished?
    ensures forall s <- run[i].home :: run[i].home[s].group == g ==>
              SessionClosed(run[i], s) && ExecutionsFinished(run[i], s) && PlanClosedOnce(run[i], s)
    ensures g in run[i].gwork && Enumerates(run[i].gwork[g].list, run[i].reg.table[g].sessions)
    ensures AllClosed(run[i].reg.sessions, run[i].gwork[g].list)
    ensures run[i].reg.table[g].gate.phase.result == SessionErrors(run[i].reg.sessions, run[i].gwork[g].list)
  {
    hide Inv, CanStep;
    RunInv(run, i);
    WorkspaceCloseComplete(run[i], g);
  }

  /** Each active Session lies in the registered group of its workspace, and no
      accepting, idle, empty group stays registered, in every state of every run. */
  lemma RegistryTidy(run: seq<State>, i: nat)
    requires IsRun(run) && i < |run|
    ensures forall s <- run[i].reg.sessions :: !run[i].reg.sessions[s].children.phase.Finished? ==>
              && s in run[i].home && Registered(run[i].reg, run[i].reg.sessions[s].workspace, run[i].home[s].group)
              && run[i].home[s].group in run[i].reg.table && s in run[i].reg.table[run[i].home[s].group].sessions
    ensures forall w <- run[i].reg.groups ::
              run[i].reg.groups[w] in run[i].reg.table && !Idling(run[i].reg.table[run[i].reg.groups[w]])
  {
    hide Inv, CanStep;
    RunInv(run, i);
    TidyAt(run[i]);
  }

  // ------------------------------------------------- Plans and shutdown in runs

  /** Plans are never forgotten and a closed one never moves again; after
      shutdown nothing is created. */
  ghost predicate Carries(a: State, b: State) {
    && (forall s <- a.plans :: s in b.plans && (a.plans[s].held || b.plans[s] == a.plans[s]))
    && (a.reg.closed ==>
          && b.reg.closed && b.reg.sessions.Keys == a.reg.sessions.Keys
          && b.creations.Keys <= a.creations.Keys && b.runtimes.Keys <= a.runtimes.Keys)
  }

  lemma BeginCarries(a: State, call: Call, w: WorkspaceId, t: SessionId)
    requires Shaped(a)
    ensures Carries(a, DoBeginCreation(a, call, w)) && Carries(a, DoBeginRuntime(a, call, t))
  {
    hide Formed, WellFormed;
  }

  lemma PrepareCarries(a: State, call: Call, t: SessionId)
    ensures CanPrepare(a, call, t) ==> Carries(a, DoPrepare(a, call, t))
    ensures CanFailPrepare(a, call) ==> Carries(a, DoFailPrepare(a, call))
  {
  }

  lemma CommitCarries(a: State, call: Call, cancelled: bool)
    requires CanCommit(a, call)
    ensures Carries(a, DoCommit(a, call, cancelled))
  {
    var c := a.creations[call];
    if CommitAllowed(a.reg, c.workspace, c.group, cancelled) {
      CommittedCarries(a, call, cancelled);
    } else {
      RefusedCarries(a, call, cancelled);
    }
  }

  lemma CommittedCarries(a: State, call: Call, cancelled: bool)
    requires CanCommit(a, call)
    requires CommitAllowed(a.reg, a.creations[call].workspace, a.creations[call].group, cancelled)
    ensures Carries(a, DoCommit(a, call, cancelled))
  {
    hide CommitCreate, ClosePlan, Registered;
  }

  lemma RefusedCarries(a: State, call: Call, cancelled: bool)
    requires CanCommit(a, call)
    requires !CommitAllowed(a.reg, a.creations[call].workspace, a.creations[call].group, cancelled)
    ensures Carries(a, DoCommit(a, call, cancelled))
  {
    hide CommitAllowed, CommitCreate, Registered;
  }

  /** Nothing is created and no Plan is touched. */
  lemma CarriesFrom(a: State, b: State)
    requires b.plans == a.plans && b.reg.closed == a.reg.closed && b.reg.sessions.Keys == a.reg.sessions.Keys
    requires b.creations.Keys <= a.creations.Keys && b.runtimes.Keys <= a.runtimes.Keys
    ensures Carries(a, b)
  {
  }

  lemma EndCarries(a: State, call: Call)
    requires CanEndCreation(a, call)
    ensures Carries(a, DoEndCreation(a, call))
  {
    hide Carries, Leave, Idling;
    CarriesFrom(a, DoEndCreation(a, call));
  }

  lemma EndRuntimeCarries(a: State, call: Call)
    requires CanEndRuntime(a, call)
    ensures Carries(a, DoEndRuntime(a, call))
  {
    hide Carries, Leave;
    CarriesFrom(a, DoEndRuntime(a, call));
  }

  lemma AddCarries(a: State, call: Call, e: ExecutionId)
    requires CanAdd(a, call, e)
    ensures Carries(a, DoAdd(a, call, e))
  {
    hide Carries, Add;
    CarriesFrom(a, DoAdd(a, call, e));
  }

  lemma CreationCarries(a: State, step: CreationStep)
    requires Shaped(a) && CreationEnabled(a, step)
    ensures Carries(a, NextCreation(a, step))
  {
    hide Carries, DoBeginCreation, DoPrepare, DoFailPrepare, DoCommit, DoEndCreation, DoBeginRuntime, DoAdd,
         DoEndRuntime;
    hide Formed, WellFormed;
    match step
    case BeginCreation(call, w) => BeginCarries(a, call, w, 0);
    case Prepare(call, t) => PrepareCarries(a, call, t);
    case PrepareFails(call) => PrepareCarries(a, call, 0);
    case CommitSession(call, cancelled) => CommitCarries(a, call, cancelled);
    case EndCreation(call) => EndCarries(a, call);
    case BeginRuntime(call, t) => BeginCarries(a, call, 0, t);
    case AddExecution(call, e) => AddCarries(a, call, e);
    case EndRuntime(call) => EndRuntimeCarries(a, call);
  }

  lemma ExecutionCarries(a: State, step: ExecutionStep)
    requires Shaped(a) && ExecutionEnabled(a, step)
    ensures Carries(a, NextExecution(a, step))
  {
    hide Formed, WellFormed, BeginOne, CompleteClose, FinishOne;
  }

  lemma CloseCarries(a: State, t: SessionId, retained: bool)
    requires Shaped(a)
    ensures Carries(a, DoCloseSession(a, t, retained))
  {
    hide Carries, Formed, WellFormed, CloseOwned, BeginSession;
    CarriesFrom(a, DoCloseSession(a, t, retained));
  }

  lemma CollectCarries(a: State, t: SessionId, children: seq<ExecutionId>)
    requires Shaped(a) && InStage(a, t, Waiting)
    ensures Carries(a, DoCollect(a, t, children))
  {
    hide Carries, Formed, WellFormed, BeginMembers;
    CarriesFrom(a, DoCollect(a, t, children));
  }

  lemma JoinCarries(a: State, t: SessionId)
    ensures CanJoinChild(a, t) ==> Carries(a, DoJoinChild(a, t))
    ensures CanFinishJoin(a, t) ==> Carries(a, DoFinishJoin(a, t))
  {
    hide Carries, FinishSessionClose;
    if CanJoinChild(a, t) { CarriesFrom(a, DoJoinChild(a, t)); }
    if CanFinishJoin(a, t) { CarriesFrom(a, DoFinishJoin(a, t)); }
  }

  lemma ReleaseCarries(a: State, t: SessionId, err: Errors)
    ensures InStage(a, t, Hooking) ==> Carries(a, DoRunHooks(a, t, err))
    ensures CanRelease(a, t) ==> Carries(a, DoRelease(a, t, err))
  {
  }

  lemma PublishCarries(a: State, t: SessionId)
    requires Shaped(a)
    ensures InStage(a, t, Publishing) ==> Carries(a, DoPublish(a, t))
    ensures InStage(a, t, Published) ==> Carries(a, DoRetire(a, t))
  {
    hide Formed, WellFormed;
  }

  lemma SessionCarries(a: State, step: SessionStep)
    requires Shaped(a) && SessionEnabled(a, step)
    ensures Carries(a, NextSession(a, step))
  {
    hide Carries, DoCloseSession, DoCollect, DoJoinChild, DoFinishJoin, DoRunHooks, DoRelease, DoPublish, DoRetire;
    hide Formed, WellFormed, Enumerates;
    match step
    case CloseSession(t) => CloseCarries(a, t, false);
    case Collect(t, children) => CollectCarries(a, t, children);
    case JoinChild(t) => JoinCarries(a, t);
    case FinishJoin(t) => JoinCarries(a, t);
    case RunHooks(t, err) => ReleaseCarries(a, t, err);
    case ReleasePlan(t, err) => ReleaseCarries(a, t, err);
    case PublishSession(t) => PublishCarries(a, t);
    case RetireSession(t) => PublishCarries(a, t);
  }

  lemma StopCarries(a: State, w: WorkspaceId)
    requires Shaped(a)
    ensures Carries(a, DoCloseWorkspace(a, w)) && Carries(a, DoShutdown(a))
  {
    hide Formed, WellFormed;
  }

  lemma GroupJoinCarries(a: State, g: GroupRef, list: seq<SessionId>)
    ensures g in a.gwork ==> Carries(a, DoCollectGroup(a, g, list))
    ensures CanJoinSession(a, g) ==> Carries(a, DoJoinSession(a, g))
  {
    hide Carries;
    if g in a.gwork { CarriesFrom(a, DoCollectGroup(a, g, list)); }
    if CanJoinSession(a, g) { CarriesFrom(a, DoJoinSession(a, g)); }
  }

  lemma FinishGroupCarries(a: State, g: GroupRef)
    requires CanFinishGroup(a, g)
    ensures Carries(a, DoFinishGroup(a, g))
  {
    hide Carries;
    CarriesFrom(a, DoFinishGroup(a, g));
  }

  lemma AskCarries(a: State, g: GroupRef)
    requires Shaped(a) && CanAsk(a, g)
    ensures Carries(a, DoAsk(a, g))
  {
    hide Formed, WellFormed, DoCloseSession, Carries;
    var n := DoCloseSession(a, a.gwork[g].list[a.gwork[g].joined], true);
    CloseCarries(a, a.gwork[g].list[a.gwork[g].joined], true);
    WorkCarries(a, n, DoAsk(a, g).gwork);
  }

  lemma WorkCarries(a: State, n: State, gwork: map<GroupRef, GroupWork>)
    requires Carries(a, n)
    ensures Carries(a, n.(gwork := gwork))
  {
  }

  lemma GroupCarries(a: State, step: GroupStep)
    requires Shaped(a) && GroupEnabled(a, step)
    ensures Carries(a, NextGroup(a, step))
  {
    hide Carries, DoCloseWorkspace, DoShutdown, DoCollectGroup, DoAsk, DoJoinSession, DoFinishGroup;
    hide Formed, WellFormed, Enumerates;
    match step
    case CloseWorkspace(w) => StopCarries(a, w);
    case Shutdown => StopCarries(a, 0);
    case CollectGroup(g, list) => GroupJoinCarries(a, g, list);
    case AskSession(g) => AskCarries(a, g);
    case JoinSession(g) => GroupJoinCarries(a, g, []);
    case FinishGroup(g) => FinishGroupCarries(a, g);
  }

  lemma AnyStepCarries(a: State, b: State)
    requires Inv(a) && CanStep(a, b)
    ensures Carries(a, b)
  {
    hide Inv, Carries, PanicsAt, NextCreation, NextExecution, NextSession, NextGroup;
    hide WaitEnabled, CreationEnabled, ExecutionEnabled, SessionEnabled, GroupEnabled;
    var step :| Enabled(a, step) && b == Next(a, step);
    StepSafe(a, step);
    match step
    case OnWait(_) => CarriesItself(a);
    case OnCreation(c) => CreationCarries(a, c);
    case OnExecution(x) => ExecutionCarries(a, x);
    case OnSession(k) => SessionCarries(a, k);
    case OnGroup(g) => GroupCarries(a, g);
  }

  lemma CarriesItself(a: State)
    ensures Carries(a, a)
  {
  }

  lemma CarriesTransitive(a: State, b: State, c: State)
    requires Carries(a, b) && Carries(b, c)
    ensures Carries(a, c)
  {
  }

  lemma {:induction false} RunCarries(run: seq<State>, i: nat, j: nat)
    requires IsRun(run) && i <= j < |run|
    ensures Carries(run[i], run[j])
    decreases j - i
  {
    hide Inv, CanStep, Carries;
    if i == j {
      CarriesItself(run[i]);
    } else {
      RunCarries(run, i, j - 1);
      RunInv(run, j - 1);
      AnyStepCarries(run[j - 1], run[j - 1 + 1]);
      CarriesTransitive(run[i], run[j - 1], run[j]);
    }
  }

  /** Along every run a compiled Plan is never forgotten, is closed at most once
      and only after it was let go, and once closed stays closed once. */
  lemma PlansClosedOnce(run: seq<State>, i: nat, j: nat, s: SessionId)
    requires IsRun(run) && i <= j < |run| && s in run[i].plans
    ensures s in run[j].plans && run[i].plans[s].closes <= run[j].plans[s].closes <= 1
    ensures run[j].plans[s].closes == if run[j].plans[s].held then 0 else 1
    ensures run[i].plans[s].closes == 1 ==> run[j].plans[s] == run[i].plans[s]
  {
    hide AllSessions, AllHomes, AllChildren, AllExecutions, AllGroups, AllGroupWork, AllCreations, AllRuntimes;
    hide CanStep;
    RunInv(run, i);
    RunInv(run, j);
    RunCarries(run, i, j);
    PlanOf(run[i], s);
    PlanOf(run[j], s);
  }

  /** From the moment Manager.Close has begun, and in every later state, no
      Session is ever committed and no creation or runtime creation is admitted. */
  lemma ShutdownRefuses(run: seq<State>, i: nat, j: nat)
    requires IsRun(run) && i <= j < |run| && run[i].reg.closed
    ensures run[j].reg.closed && run[j].reg.sessions.Keys == run[i].reg.sessions.Keys
    ensures run[j].creations.Keys <= run[i].creations.Keys && run[j].runtimes.Keys <= run[i].runtimes.Keys
  {
    hide CanStep;
    RunCarries(run, i, j);
  }

  /** Manager.Close: when every group registered after it began has finished
      closing, every Session there is, whenever and wherever it was committed,
      is closed with all its Executions and its Plan. */
  lemma ShutdownComplete(run: seq<State>, i: nat, j: nat)
    requires IsRun(run) && i <= j < |run| && run[i].reg.closed
    requires forall w <- run[i].reg.groups ::
               var g := run[i].reg.groups[w]; g in run[j].reg.table && run[j].reg.table[g].gate.phase.Finished?
    ensures forall s <- run[j].reg.sessions ::
              SessionClosed(run[j], s) && ExecutionsFinished(run[j], s) && PlanClosedOnce(run[j], s)
  {
    hide AllSessions, AllHomes, AllChildren, AllPlans, AllExecutions, AllGroups, AllGroupWork, AllCreations,
         AllRuntimes;
    hide CanStep;
    RunInv(run, i);
    RunInv(run, j);
    ShutdownRefuses(run, i, j);
    TidyAt(run[i]);
    forall s | s in run[j].reg.sessions
      ensures SessionClosed(run[j], s) && ExecutionsFinished(run[j], s) && PlanClosedOnce(run[j], s)
    {
      RunKeeps(run, i, j, s);
      if !SessionClosed(run[i], s) { WorkspaceClosed(run, j, run[i].home[s].group); }
      SessionCloseComplete(run[j], s);
    }
  }

  // ------------------------------------------------------------------ progress

  lemma {:induction false} Listing<T(!new)>(elements: set<T>) returns (list: seq<T>)
    ensures Enumerates(list, elements)
    decreases |elements|
  {
    if elements == {} {
      list := [];
    } else {
      var x :| x in elements;
      var rest := Listing(elements - {x});
      list := [x] + rest;
    }
  }

  /** The step belongs to the close of `s`: its own worker, a runtime creation it
      waits for, or the close of one of its executions. */
  predicate ServesSession(st: State, step: Step, s: SessionId) {
    match step
    case OnSession(k) => k.s == s
    case OnCreation(c) => c.EndRuntime? && c.call in st.runtimes && st.runtimes[c.call] == s
    case OnExecution(x) => x.Settle? && x.e in st.exec.table && st.exec.table[x.e].session == s
    case _ => false
  }

  /** The step belongs to the close of `g`: its own worker, a creation it waits
      for, or the close of one of its sessions. */
  predicate ServesGroup(st: State, step: Step, g: GroupRef) {
    || (step.OnGroup? && !step.group.CloseWorkspace? && !step.group.Shutdown? && step.group.g == g)
    || (step.OnCreation? && step.creation.call in st.creations && st.creations[step.creation.call].group == g)
    || (exists s <- st.home :: st.home[s].group == g && ServesSession(st, step, s))
  }

  lemma ExecutionProceeds(st: State, e: ExecutionId)
    requires Inv(st) && e in st.exec.table && st.exec.table[e].close.Started?
    ensures Enabled(st, OnExecution(Settle(e, [])))
  {
    hide AllSessions, AllHomes, AllChildren, AllPlans, AllExecutions, AllGroups, AllGroupWork, AllCreations,
         AllRuntimes;
    ExecutionOf(st, e);
  }

  lemma JoiningProceeds(st: State, s: SessionId) returns (step: Step)
    requires Inv(st) && InStage(st, s, Joining)
    ensures Enabled(st, step) && ServesSession(st, step, s)
  {
    hide AllSessions, AllHomes, AllChildren, AllPlans, AllExecutions, AllGroups, AllGroupWork, AllCreations,
         AllRuntimes;
    ChildrenOf(st, s);
    var k := st.work[s];
    if k.joined == |k.children| {
      step := OnSession(FinishJoin(s));
    } else {
      var e := k.children[k.joined];
      assert e in k.children;
      ExecutionOf(st, e);
      step := if st.exec.table[e].close.Finished? then OnSession(JoinChild(s)) else OnExecution(Settle(e, []));
    }
  }

  /** A committed close of a Session that is not published yet has an enabled
      step of its own: neither its worker nor what it waits for is stuck. */
  lemma SessionProceeds(st: State, s: SessionId) returns (step: Step)
    requires Inv(st) && s in st.reg.sessions && st.reg.sessions[s].children.phase.Started?
    ensures Enabled(st, step) && ServesSession(st, step, s)
  {
    hide AllSessions, AllHomes, AllChildren, AllPlans, AllExecutions, AllGroups, AllGroupWork, AllCreations,
         AllRuntimes;
    SessionOf(st, s);
    match st.stage[s]
    case Waiting =>
      if call :| call in st.reg.sessions[s].children.holders {
        step := OnCreation(EndRuntime(call));
      } else {
        var children := Listing(Members(st.exec, s));
        step := OnSession(Collect(s, children));
      }
    case Joining => step := JoiningProceeds(st, s);
    case Hooking => step := OnSession(RunHooks(s, []));
    case Releasing => step := OnSession(ReleasePlan(s, []));
    case _ => step := OnSession(PublishSession(s));
  }

  lemma CreationProceeds(st: State, call: Call) returns (step: CreationStep)
    requires Inv(st) && call in st.creations
    ensures CreationEnabled(st, step) && step.call == call
  {
    hide AllSessions, AllHomes, AllChildren, AllPlans, AllExecutions, AllGroups, AllGroupWork, AllCreations,
         AllRuntimes;
    CreationOf(st, call);
    match st.creations[call]
    case Admitted(_, _) => step := PrepareFails(call);
    case Prepared(_, _, _) => step := CommitSession(call, true);
    case Leaving(_, _) => step := EndCreation(call);
  }

  /** The same for the committed close of a workspace group, down to its
      sessions and executions. */
  lemma GroupProceeds(st: State, g: GroupRef) returns (step: Step)
    requires Inv(st) && g in st.reg.table && st.reg.table[g].gate.phase.Started?
    ensures Enabled(st, step) && ServesGroup(st, step, g)
  {
    hide AllSessions, AllHomes, AllChildren, AllPlans, AllExecutions, AllGroups, AllGroupWork, AllCreations,
         AllRuntimes;
    GroupOf(st, g);
    GroupWorkOf(st, g);
    var k := st.gwork[g];
    if k.stage.GroupWaiting? {
      if call :| call in st.reg.table[g].gate.holders {
        var c := CreationProceeds(st, call);
        step := OnCreation(c);
      } else {
        var list := Listing(st.reg.table[g].sessions);
        step := OnGroup(CollectGroup(g, list));
      }
    } else if k.joined == |k.list| {
      step := OnGroup(FinishGroup(g));
    } else if !k.asked {
      step := OnGroup(AskSession(g));
    } else {
      var s := k.list[k.joined];
      assert s in k.list;
      if st.reg.sessions[s].children.phase.Finished? {
        step := OnGroup(JoinSession(g));
      } else {
        step := SessionProceeds(st, s);
      }
    }
  }

  /** In every state of every run, each committed close that is not published yet
      has an enabled step within its own subtree, for executions, Sessions and
      workspaces alike. */
  lemma ClosesCanProceed(run: seq<State>, i: nat, e: ExecutionId, s: SessionId, g: GroupRef)
    requires IsRun(run) && i < |run|
    ensures e in run[i].exec.table && run[i].exec.table[e].close.Started? ==>
              Enabled(run[i], OnExecution(Settle(e, [])))
    ensures s in run[i].reg.sessions && run[i].reg.sessions[s].children.phase.Started? ==>
              exists step :: Enabled(run[i], step) && ServesSession(run[i], step, s)
    ensures g in run[i].reg.table && run[i].reg.table[g].gate.phase.Started? ==>
              exists step :: Enabled(run[i], step) && ServesGroup(run[i], step, g)
  {
    hide Inv, Enabled, ServesSession, ServesGroup, CanStep;
    RunInv(run, i);
    var st := run[i];
    if e in st.exec.table && st.exec.table[e].close.Started? { ExecutionProceeds(st, e); }
    if s in st.reg.sessions && st.reg.sessions[s].children.phase.Started? { var step := SessionProceeds(st, s); }
    if g in st.reg.table && st.reg.table[g].gate.phase.Started? { var step := GroupProceeds(st, g); }
  }
}
