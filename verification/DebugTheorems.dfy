/** What every run of the debug lease protocol guarantees. */
module DebugTheorems {
  import opened Base
  import opened Lifecycle
  import opened DebugPlans
  import opened DebugLeases
  import opened DebugInvariant
  import Reg = DebugRegistry

  ghost predicate CanStep(a: State, b: State) {
    exists step :: Enabled(a, step) && b == Next(a, step)
  }

  ghost predicate IsRun(p: Reg.ParentId, run: seq<State>) {
    && run != [] && run[0] == Init(p)
    && forall i :: 0 <= i < |run| - 1 ==> CanStep(run[i], run[i + 1])
  }

  lemma CreateSafe(st: State, step: CreateStep)
    requires Inv(st) && Shaped(st) && CreateEnabled(st, step)
    ensures !CreatePanics(st, step)
  {
    hide GateHolds, CompileHolds, CountHolds, ClosesHold, LeaseHolds, OpsHold, RegHolds, WorkHolds, StageHolds, OwnIds;
    match step
    case OpenRuntime(call, ok) => KeepGiven(st, call, LeavingExec);
    case LeaveExec(call) => NotYet(st, call);
    case DropRuntime(call) => KeepGiven(st, call, Ending);
    case End(call) => RegEnd(st, call);
    case LeaveOther(call) => KeepOther(st, call);
    case _ =>
  }

  lemma DebugSafe(st: State, step: DebugStep)
    requires Inv(st) && Shaped(st) && DebugEnabled(st, step)
    ensures !DebugPanics(st, step)
  {
    hide GateHolds, CompileHolds, CountHolds, ClosesHold, LeaseHolds, OpsHold, RegHolds, WorkHolds, StageHolds, OwnIds;
    match step
    case Terminate(d) => KeepTerminate(st, d);
    case BeginSettle(d) => KeepBeginSettle(st, d);
    case Settle(d) => KeepTerminate(st, d);
    case Complete(d, err) => KeepComplete(st, d, err);
    case _ =>
  }

  /** A group that a caller has begun to close is one it can wait for. */
  lemma GroupBegun(st: State)
    requires Shaped(st)
    ensures !Reg.Admits(DoCloseGroup(st).reg, st.parent)
  {
    hide Reg.Formed, PlansOk, Reg.Admits, Reg.BeginGroupClose;
  }

  /** A group with a running worker has its close begun. */
  lemma WorkerBegun(st: State, g: GroupRef)
    requires Inv(st) && g in st.gwork
    ensures g in st.reg.table && !st.reg.table[g].gate.phase.Idle?
  {
    hide GateHolds, CompileHolds, CountHolds, ClosesHold, LeaseHolds, OpsHold, RegHolds, StageHolds, OwnIds;
    assert WorkInv(st.parent, st.reg, g, st.gwork[g], st.debug);
  }

  lemma GroupSafe(st: State, step: GroupStep)
    requires Inv(st) && Shaped(st) && GroupEnabled(st, step)
    ensures !GroupPanics(st, step)
  {
    hide GateHolds, CompileHolds, CountHolds, ClosesHold, LeaseHolds, OpsHold, RegHolds, WorkHolds, StageHolds, OwnIds;
    match step
    case CloseGroup => GroupBegun(st);
    case WaitForCreations(g) => WorkerBegun(st, g);
    case WaitForAsked(g) => AwaitedBegun(st, g);
    case FinishGroup(g, err) => WorkFinished(st, g, err);
    case _ =>
  }

  lemma GateBegun(gate: Admission, stage: Stage, calls: map<Call, Pc>, others: set<Call>)
    requires GateHolds(gate, stage, calls, others) && !stage.Open?
    ensures !gate.phase.Idle?
  {
  }

  lemma HookBegun(stage: Stage, gwork: map<GroupRef, GroupStage>, leases: map<Call, PlanRef>)
    requires StageHolds(stage, gwork, leases) && stage.HookWaiting?
    ensures stage.group in gwork
  {
  }

  lemma ExecSafe(st: State, step: ExecStep)
    requires Inv(st) && Shaped(st) && ExecEnabled(st, step)
    ensures !ExecPanics(st, step)
  {
    hide GateHolds, CompileHolds, CountHolds, ClosesHold, LeaseHolds, OpsHold, RegHolds, WorkHolds, StageHolds, OwnIds;
    match step
    case WaitForRuntimes => GateBegun(st.gate, st.stage, st.calls, st.others);
    case WaitForHook =>
      HookBegun(st.stage, st.gwork, st.leases);
      WorkerBegun(st, st.stage.group);
    case TakePlan => HookLeavesNothing(st);
    case PublishClose(err) => GatePublish(st.gate, st.calls, st.others, err);
    case _ =>
  }

  /** No guard panics, nobody waits for a close that was not begun, no lease
      release is ignored, and the debug Plan is never taken while a lease or a
      compilation is outstanding. */
  lemma StepSafe(st: State, step: Step)
    requires Inv(st) && Enabled(st, step)
    ensures !PanicsAt(st, step)
  {
    hide Inv, CreateEnabled, DebugEnabled, GroupEnabled, ExecEnabled, CreatePanics, DebugPanics, GroupPanics,
         ExecPanics;
    match step
    case OnCreate(c) => CreateSafe(st, c);
    case OnDebug(d) => DebugSafe(st, d);
    case OnGroup(g) => GroupSafe(st, g);
    case OnExec(x) => ExecSafe(st, x);
  }

  lemma KeepTurned(st: State, call: Call, pc: Pc)
    requires Inv(st) && call in st.calls
    requires (st.calls[call].Gated? && pc.Ending?) || (st.calls[call].Awaiting? && (pc.Entered? || pc.LeavingExec?))
    ensures Inv(Goto(st, call, pc))
  {
    NotYet(st, call);
    hide Inv;
    KeepMove(st, call, pc);
  }

  lemma KeepDropped(st: State, call: Call)
    requires Inv(st) && Shaped(st) && At(st, call, Dropping)
    ensures Inv(DoDrop(st, call))
  {
    hide Inv;
    KeepGiven(st, call, Ending);
  }

  lemma CreateKeepsInv(st: State, step: CreateStep)
    requires Inv(st) && Shaped(st) && CreateEnabled(st, step)
    ensures Inv(NextCreate(st, step))
  {
    hide Inv, CreatePanics;
    hide DoBegin, DoEnter, DoLook, DoEndCompile, DoDiscard, DoOpen, DoLeave, DoCommit, DoDrop, DoEnd, DoEnterOther,
         DoLeaveOther;
    match step
    case Begin(call) => KeepBegin(st, call);
    case EnterExec(call) => KeepEnter(st, call);
    case Refuse(call) => KeepTurned(st, call, Ending);
    case LookForPlan(call) => KeepLook(st, call);
    case Wake(call) => KeepTurned(st, call, Entered);
    case GiveUp(call) => KeepTurned(st, call, LeavingExec);
    case EndCompile(call, plan, err, cancelled) => KeepEndCompile(st, call, plan, err, cancelled);
    case Discard(call) => KeepDiscard(st, call);
    case OpenRuntime(call, ok) => KeepOpen(st, call, ok);
    case LeaveExec(call) => KeepLeave(st, call);
    case CommitDebug(call) => KeepCommit(st, call);
    case DropRuntime(call) => KeepDropped(st, call);
    case End(call) => KeepEnd(st, call);
    case EnterOther(call) => KeepOther(st, call);
    case LeaveOther(call) => KeepOther(st, call);
  }

  lemma DebugKeepsInv(st: State, step: DebugStep)
    requires Inv(st) && Shaped(st) && DebugEnabled(st, step)
    ensures Inv(NextDebug(st, step))
  {
    hide Inv;
    match step
    case Terminate(d) => KeepTerminate(st, d);
    case DetachDebug(d) => KeepDetach(st, d);
    case BeginSettle(d) => KeepBeginSettle(st, d);
    case Settle(d) => KeepSettle(st, d);
    case Complete(d, err) => KeepComplete(st, d, err);
    case FinishDebug(d) => KeepFinishDebug(st, d);
  }

  lemma GroupKeepsInv(st: State, step: GroupStep)
    requires Inv(st) && Shaped(st) && GroupEnabled(st, step)
    ensures Inv(NextGroup(st, step))
  {
    hide Inv;
    match step
    case CloseGroup => KeepCloseGroup(st);
    case WaitForCreations(_) =>
    case CollectGroup(g) => KeepCollect(st, g);
    case AskDebug(g, d) => KeepAsk(st, g, d);
    case BeginAsked(g) => KeepBeginAsked(st, g);
    case WaitForAsked(_) =>
    case JoinDebug(g) => KeepJoin(st, g);
    case FinishGroup(g, err) => KeepFinishGroup(st, g, err);
    case RemoveGroup(g) => KeepRemoveGroup(st, g);
    case StopManager => KeepStop(st);
    case Elsewhere(reg) => KeepElsewhere(st, reg);
  }

  lemma ExecKeepsInv(st: State, step: ExecStep)
    requires Inv(st) && Shaped(st) && ExecEnabled(st, step)
    ensures Inv(NextExec(st, step))
  {
    hide Inv;
    match step
    case BeginExecClose => KeepBeginClose(st);
    case WaitForRuntimes =>
    case Drain => KeepDrain(st);
    case BeginHook => KeepBeginHook(st);
    case WaitForHook =>
    case EndHook => KeepEndHook(st);
    case CaptureWaits => KeepCapture(st);
    case TakePlan => KeepTake(st);
    case ClosePlan => KeepClosePlan(st);
    case PublishClose(err) => KeepPublish(st, err);
  }

  /** Every step of the lease protocol keeps the invariant. */
  lemma StepKeepsInv(st: State, step: Step)
    requires Inv(st) && Enabled(st, step)
    ensures Inv(Next(st, step))
  {
    StepSafe(st, step);
    hide Inv, CreateEnabled, DebugEnabled, GroupEnabled, ExecEnabled, PanicsAt;
    hide NextCreate, NextDebug, NextGroup, NextExec;
    match step
    case OnCreate(c) => CreateKeepsInv(st, c);
    case OnDebug(d) => DebugKeepsInv(st, d);
    case OnGroup(g) => GroupKeepsInv(st, g);
    case OnExec(x) => ExecKeepsInv(st, x);
  }

  lemma AnyStepKeepsInv(a: State, b: State)
    requires Inv(a) && CanStep(a, b)
    ensures Inv(b)
  {
    hide Inv;
    var step :| Enabled(a, step) && b == Next(a, step);
    StepKeepsInv(a, step);
  }

  /** The invariant holds in every state of every run. */
  lemma {:induction false} RunInv(p: Reg.ParentId, run: seq<State>, i: nat)
    requires IsRun(p, run) && i < |run|
    ensures Inv(run[i])
  {
    hide Inv, CanStep;
    if i == 0 {
      InitInv(p);
    } else {
      RunInv(p, run, i - 1);
      AnyStepKeepsInv(run[i - 1], run[i - 1 + 1]);
    }
  }

  /** In every state of every run nothing has panicked and no next step does. */
  lemma NoPanicReachable(p: Reg.ParentId, run: seq<State>, i: nat, step: Step)
    requires IsRun(p, run) && i < |run| && Enabled(run[i], step)
    ensures !run[i].panicked && !PanicsAt(run[i], step)
  {
    RunInv(p, run, i);
    StepSafe(run[i], step);
  }

  // -------------------------------------------------------------- conservation

  predicate BothCompile(st: State, c: Call, d: Call)
    requires c in st.calls && d in st.calls
  {
    st.calls[c].Compiling? && st.calls[d].Compiling?
  }

  /** Leases are conserved in every state: the count is the number of runtimes
      holding a lease, every lease is on one retained Plan that has not been
      closed, and at most one caller is compiling. */
  lemma LeasesConserved(p: Reg.ParentId, run: seq<State>, i: nat)
    requires IsRun(p, run) && i < |run|
    ensures run[i].plans.runtimes == |run[i].leases|
    ensures forall c <- run[i].leases :: run[i].leases[c] in run[i].closes && run[i].closes[run[i].leases[c]] == 0
    ensures forall c, d :: c in run[i].leases && d in run[i].leases ==> run[i].leases[c] == run[i].leases[d]
    ensures forall c, d :: c in run[i].calls && d in run[i].calls && BothCompile(run[i], c, d) ==> c == d
  {
    RunInv(p, run, i);
    ConservedAt(run[i]);
  }

  lemma ConservedAt(st: State)
    requires Inv(st)
    ensures st.plans.runtimes == |st.leases|
    ensures forall c <- st.leases :: st.leases[c] in st.closes && st.closes[st.leases[c]] == 0
    ensures forall c, d :: c in st.leases && d in st.leases ==> st.leases[c] == st.leases[d]
    ensures forall c, d :: c in st.calls && d in st.calls && BothCompile(st, c, d) ==> c == d
  {
    hide GateHolds, LeaseHolds, OpsHold, RegHolds, WorkHolds, StageHolds, OwnIds;
    forall c | c in st.leases ensures st.leases[c] in st.closes && st.closes[st.leases[c]] == 0 {
      assert Held(st.leases[c], st.plans.debugPlan, st.stage, st.calls);
    }
  }

  /** No compiled debug Plan is ever closed twice, and when the Session's close
      is published every one of them, discarded or retained, was closed once. */
  lemma DebugPlansClosedOnce(p: Reg.ParentId, run: seq<State>, i: nat)
    requires IsRun(p, run) && i < |run|
    ensures forall q <- run[i].closes :: run[i].closes[q] <= 1
    ensures run[i].stage.Closed? ==> forall q <- run[i].closes :: run[i].closes[q] == 1
  {
    RunInv(p, run, i);
    ClosedOnceAt(run[i]);
  }

  lemma ClosedOnceAt(st: State)
    requires Inv(st)
    ensures forall q <- st.closes :: st.closes[q] <= 1
    ensures st.stage.Closed? ==> forall q <- st.closes :: st.closes[q] == 1
  {
    hide LeaseHolds, OpsHold, RegHolds, WorkHolds, OwnIds;
    if st.stage.Closed? {
      HookLeavesNothing(st);
      forall q | q in st.closes ensures st.closes[q] == 1 {
        assert !Held(q, st.plans.debugPlan, st.stage, st.calls);
      }
    }
  }

  /** The retained Plan is leased to the caller, and its runtime does not open. */
  function FailedOpen(st: State, call: Call): State
    requires Shaped(st)
  {
    DoOpen(DoLook(st, call), call, false)
  }

  /** In every run, a caller that gets a lease on the retained Plan and whose
      runtime then fails to open leaves the leases, their count and the channel
      that waits for them as it found them. */
  lemma FailedOpenReturnsLease(p: Reg.ParentId, run: seq<State>, i: nat, call: Call)
    requires IsRun(p, run) && i < |run| && Shaped(run[i]) && At(run[i], call, Entered)
    requires LookAt(run[i].plans, run[i].gate.phase.Idle?).Lease?
    ensures At(DoLook(run[i], call), call, Leased)
    ensures FailedOpen(run[i], call).leases == run[i].leases
    ensures FailedOpen(run[i], call).plans.debugPlan == run[i].plans.debugPlan
    ensures FailedOpen(run[i], call).plans.runtimes == run[i].plans.runtimes
    ensures FailedOpen(run[i], call).plans.runtimeDone == run[i].plans.runtimeDone
  {
    RunInv(p, run, i);
    NotYet(run[i], call);
    hide Inv, IsRun, PlansOk, Reg.Formed;
    var plans := run[i].plans;
    LeaseThenRelease(plans);
    assert run[i].leases[call := plans.debugPlan.value] - {call} == run[i].leases;
  }

  // ------------------------------------------------------------ the close hook

  /** Nothing that happens after the hook undoes it or grants a lease. */
  ghost predicate Stays(a: State, b: State) {
    HookReturned(a.stage) ==> HookReturned(b.stage) && b.leased == a.leased && b.closes.Keys == a.closes.Keys
  }

  /** The steps a creation takes while it is inside the exec gate. */
  predicate Inside(step: CreateStep) {
    || step.LookForPlan? || step.Wake? || step.GiveUp? || step.EndCompile? || step.Discard?
    || step.OpenRuntime? || step.LeaveExec?
  }

  lemma NobodyInside(a: State, step: CreateStep)
    requires Inv(a) && HookReturned(a.stage) && Inside(step)
    ensures !CreateEnabled(a, step)
  {
    hide CompileHolds, CountHolds, ClosesHold, LeaseHolds, OpsHold, RegHolds, WorkHolds, StageHolds, OwnIds;
    if step.call in a.calls { assert !InExec(a.calls[step.call]); }
  }

  lemma OutsideStays(a: State, step: CreateStep)
    requires Shaped(a) && CreateEnabled(a, step) && !Inside(step)
    ensures Stays(a, NextCreate(a, step))
  {
    hide HookReturned, PlansOk, Reg.Formed, DoLook, DoEndCompile, DoDiscard, DoOpen, DoLeave;
    hide DoBegin, DoEnter, DoCommit, DoDrop, DoEnd, DoEnterOther, DoLeaveOther;
  }

  lemma CreateStays(a: State, step: CreateStep)
    requires Inv(a) && Shaped(a) && CreateEnabled(a, step)
    ensures Stays(a, NextCreate(a, step))
  {
    hide Inv, CreateEnabled, NextCreate;
    if !Inside(step) {
      OutsideStays(a, step);
    } else if HookReturned(a.stage) {
      NobodyInside(a, step);
    }
  }

  lemma DebugStays(a: State, step: DebugStep)
    requires Shaped(a) && DebugEnabled(a, step)
    ensures Stays(a, NextDebug(a, step))
  {
    hide HookReturned, PlansOk, Reg.Formed, Release, DoDetach, DoBeginSettle, DoComplete, DoSettle, DoFinishDebug;
  }

  lemma GroupStays(a: State, step: GroupStep)
    requires Shaped(a) && GroupEnabled(a, step)
    ensures Stays(a, NextGroup(a, step))
  {
    hide HookReturned, PlansOk, Reg.Formed, Reg.SameFor, OwnIds;
    hide DoCloseGroup, DoCollect, DoAsk, DoBeginAsked, DoJoin, DoFinishGroup, DoRemoveGroup;
  }

  lemma ExecStays(a: State, step: ExecStep)
    requires Shaped(a) && ExecEnabled(a, step)
    ensures Stays(a, NextExec(a, step))
  {
    hide Reg.Formed, PlansOk, DoCloseGroup;
  }

  lemma AnyStepStays(a: State, b: State)
    requires Inv(a) && CanStep(a, b)
    ensures Stays(a, b)
  {
    hide Inv, Stays, PanicsAt, NextCreate, NextDebug, NextGroup, NextExec;
    hide CreateEnabled, DebugEnabled, GroupEnabled, ExecEnabled;
    var step :| Enabled(a, step) && b == Next(a, step);
    StepSafe(a, step);
    match step
    case OnCreate(c) => CreateStays(a, c);
    case OnDebug(d) => DebugStays(a, d);
    case OnGroup(g) => GroupStays(a, g);
    case OnExec(x) => ExecStays(a, x);
  }

  lemma StaysTransitive(a: State, b: State, c: State)
    requires Stays(a, b) && Stays(b, c)
    ensures Stays(a, c)
  {
  }

  lemma {:induction false} RunStays(p: Reg.ParentId, run: seq<State>, i: nat, j: nat)
    requires IsRun(p, run) && i <= j < |run|
    ensures Stays(run[i], run[j])
    decreases j
  {
    hide CanStep, Inv;
    if i < j {
      RunStays(p, run, i, j - 1);
      RunInv(p, run, j - 1);
      AnyStepStays(run[j - 1], run[j - 1 + 1]);
      StaysTransitive(run[i], run[j - 1], run[j]);
    }
  }

  /** Once the debug close hook has returned, and in every later state, no debug
      runtime of the Session holds a lease, none is inside the exec gate, no
      compilation runs, and neither another lease nor another debug Plan ever
      comes into being: the Plan release that follows finds zero leases. */
  lemma HookReturnsAfterEveryRuntime(p: Reg.ParentId, run: seq<State>, i: nat, j: nat)
    requires IsRun(p, run) && i <= j < |run| && HookReturned(run[i].stage)
    ensures run[j].leases == map[] && run[j].plans.runtimes == 0 && !run[j].plans.compiling
    ensures forall c <- run[j].calls :: !InExec(run[j].calls[c]) && !HasLease(run[j].calls[c])
    ensures run[j].leased == run[i].leased && run[j].closes.Keys == run[i].closes.Keys
  {
    RunStays(p, run, i, j);
    RunInv(p, run, j);
    HookLeavesNothing(run[j]);
    assert LeaseOkay(run[j]);
  }

  /** The step a creation takes next unless its caller gives up, and for one
      that waits: the compilation has ended, or its compiler can end it. */
  ghost predicate CallMoves(st: State, call: Call)
    requires call in st.calls
  {
    match st.calls[call]
    case Gated => Enabled(st, OnCreate(EnterExec(call)))
    case Entered => Enabled(st, OnCreate(LookForPlan(call)))
    case Awaiting(_) => Enabled(st, OnCreate(Wake(call))) || exists c :: CompilerMoves(st, c)
    case Compiling(_) => CompilerMoves(st, call)
    case Discarding(_) => Enabled(st, OnCreate(Discard(call)))
    case LeavingExec => Enabled(st, OnCreate(LeaveExec(call)))
    case Leased => Enabled(st, OnCreate(OpenRuntime(call, true)))
    case Opened => Enabled(st, OnCreate(LeaveExec(call)))
    case Ready => Enabled(st, OnCreate(CommitDebug(call)))
    case Dropping => Enabled(st, OnCreate(DropRuntime(call)))
    case Ending => Enabled(st, OnCreate(End(call)))
  }

  ghost predicate CompilerMoves(st: State, c: Call) {
    c in st.calls && st.calls[c].Compiling? && Enabled(st, OnCreate(EndCompile(c, None, [], false)))
  }

  /** Someone inside the exec gate has its next step. */
  ghost predicate HolderMoves(st: State, c: Call) {
    c in st.gate.holders && ((c in st.calls && CallMoves(st, c)) || Enabled(st, OnCreate(LeaveOther(c))))
  }

  /** The close of the executable Session, or what it waits for, has its next
      step. */
  ghost predicate ExecMoves(st: State) {
    match st.stage
    case Open => Enabled(st, OnExec(BeginExecClose))
    case Waiting => Enabled(st, OnExec(Drain)) || exists c :: HolderMoves(st, c)
    case Hooking => Enabled(st, OnExec(BeginHook))
    case HookWaiting(g) =>
      || Enabled(st, OnExec(EndHook))
      || (g in st.gwork && g in st.reg.table && !st.gwork[g].GroupRemoved? && GroupMoves(st, g))
    case Hooked => Enabled(st, OnExec(CaptureWaits))
    case Capturing(_, _) => Enabled(st, OnExec(TakePlan))
    case ClosingPlan(_) => Enabled(st, OnExec(ClosePlan))
    case Publishing => Enabled(st, OnExec(PublishClose([])))
    case Closed => true
  }

  /** In every run the close of the executable Session never gets stuck: it has
      a next step, or waits for a creation, a group or a debug Session that has;
      releasePlans in particular never blocks. And every creation has its next
      step, or waits for a compilation that its compiler can end. */
  lemma OwnersCanProceed(p: Reg.ParentId, run: seq<State>, i: nat, call: Call)
    requires IsRun(p, run) && i < |run|
    ensures ExecMoves(run[i])
    ensures call in run[i].calls ==> CallMoves(run[i], call)
  {
    RunInv(p, run, i);
    hide Inv, IsRun, ExecMoves, CallMoves;
    ExecMovesAt(run[i]);
    if call in run[i].calls { CallMovesAt(run[i], call); }
  }

  lemma ProceedAt(st: State, call: Call)
    requires Inv(st)
    ensures Shaped(st)
    ensures st.stage.Capturing? ==> CanTake(st)
    ensures st.stage.ClosingPlan? ==> CanClosePlan(st)
    ensures call in st.calls && st.calls[call].Compiling? ==> st.plans.compiling
    ensures call in st.calls && st.calls[call].Discarding? ==> st.calls[call].plan in st.closes
    ensures call in st.calls && st.calls[call].Awaiting? && st.calls[call].done !in st.plans.closed ==>
              st.plans.compiling
  {
    ShapedOf(st);
    hide GateHolds, CountHolds, LeaseHolds, OpsHold, RegHolds, WorkHolds, OwnIds, Held;
    assert call in st.calls ==> AwaitOk(st.plans, st.calls[call]);
  }

  lemma CompilerExists(st: State) returns (c: Call)
    requires Inv(st) && st.plans.compiling
    ensures CompilerMoves(st, c)
  {
    hide GateHolds, CountHolds, ClosesHold, LeaseHolds, OpsHold, RegHolds, WorkHolds, StageHolds, OwnIds;
    ProceedAt(st, 0);
    c :| c in st.calls && st.calls[c].Compiling?;
  }

  lemma CallMovesAt(st: State, call: Call)
    requires Inv(st) && call in st.calls
    ensures CallMoves(st, call)
  {
    hide Inv, PlansOk, Reg.Formed;
    ProceedAt(st, call);
    if st.calls[call].Awaiting? && st.calls[call].done !in st.plans.closed { var c := CompilerExists(st); }
  }

  lemma InsideMoves(st: State, c: Call)
    requires Inv(st) && c in st.gate.holders
    ensures HolderMoves(st, c)
  {
    hide CallMoves, CompileHolds, CountHolds, ClosesHold, LeaseHolds, OpsHold, RegHolds, WorkHolds, StageHolds, OwnIds;
    ShapedOf(st);
    if c in st.calls { CallMovesAt(st, c); }
  }

  lemma HookMoves(st: State)
    requires Inv(st) && st.stage.HookWaiting?
    ensures st.stage.group in st.gwork && st.stage.group in st.reg.table && GroupMoves(st, st.stage.group)
    ensures st.gwork[st.stage.group].GroupFinished? || st.gwork[st.stage.group].GroupRemoved? ==> CanEndHook(st)
  {
    hide GateHolds, CompileHolds, CountHolds, ClosesHold, LeaseHolds, OpsHold, RegHolds, WorkHolds, OwnIds, GroupMoves;
    GroupMovesAt(st, st.stage.group);
    WorkOfInv(st, st.stage.group);
  }

  lemma ExecMovesAt(st: State)
    requires Inv(st)
    ensures ExecMoves(st)
  {
    hide Inv, PlansOk, Reg.Formed, HolderMoves, GroupMoves;
    ProceedAt(st, 0);
    if st.stage.Waiting? && st.gate.holders != {} {
      var c :| c in st.gate.holders;
      InsideMoves(st, c);
    }
    if st.stage.HookWaiting? { HookMoves(st); }
  }

  /** A debug Session on its way to closed has its next step. */
  ghost predicate SessionMoves(st: State, d: DebugId) {
    || Enabled(st, OnDebug(Settle(d))) || Enabled(st, OnDebug(Complete(d, []))) || Enabled(st, OnDebug(FinishDebug(d)))
  }

  /** A creation this group admitted has its next step. */
  ghost predicate AdmittedMoves(st: State, g: GroupRef, c: Call)
    requires g in st.reg.table
  {
    c in st.reg.table[g].gate.holders && c in st.calls && CallMoves(st, c)
  }

  /** The group worker, or what it waits for, has its next step. */
  ghost predicate GroupMoves(st: State, g: GroupRef)
    requires g in st.gwork && g in st.reg.table
  {
    match st.gwork[g]
    case GroupWaiting => Enabled(st, OnGroup(CollectGroup(g))) || exists c :: AdmittedMoves(st, g, c)
    case GroupJoining(pending, Nobody) =>
      if pending == {} then Enabled(st, OnGroup(FinishGroup(g, [])))
      else forall d <- pending :: Enabled(st, OnGroup(AskDebug(g, d)))
    case GroupJoining(_, Holding(_)) => Enabled(st, OnGroup(BeginAsked(g)))
    case GroupJoining(_, Awaited(d)) => Enabled(st, OnGroup(JoinDebug(g))) || SessionMoves(st, d)
    case GroupFinished => Enabled(st, OnGroup(RemoveGroup(g)))
    case GroupRemoved => true
  }

  /** In every run a closing debug Session has a next step, and a closing group
      has one or waits for a creation or a debug Session that has. */
  lemma GroupsCanProceed(p: Reg.ParentId, run: seq<State>, i: nat, g: GroupRef, d: DebugId)
    requires IsRun(p, run) && i < |run|
    ensures d in run[i].debug && Past(run[i].debug[d]) && !run[i].debug[d].Gone? ==> SessionMoves(run[i], d)
    ensures g in run[i].gwork ==> g in run[i].reg.table && GroupMoves(run[i], g)
  {
    RunInv(p, run, i);
    if d in run[i].debug && Past(run[i].debug[d]) && !run[i].debug[d].Gone? { SessionMovesAt(run[i], d); }
    if g in run[i].gwork { GroupMovesAt(run[i], g); }
  }

  lemma SessionMovesAt(st: State, d: DebugId)
    requires Inv(st) && d in st.debug && Past(st.debug[d]) && !st.debug[d].Gone?
    ensures SessionMoves(st, d)
  {
    ShapedOf(st);
    hide GateHolds, CompileHolds, CountHolds, ClosesHold, LeaseHolds, OpsHold, RegHolds, WorkHolds, StageHolds, OwnIds;
    OpsAt(st.debug, st.ops, d);
  }

  /** What the invariant says of a worker, without the rest. */
  lemma WorkerFacts(st: State, g: GroupRef)
    requires Inv(st) && g in st.gwork
    ensures Shaped(st) && g in st.reg.table
    ensures st.gwork[g].GroupWaiting? ==> st.reg.table[g].gate.holders == st.calls.Keys
    ensures st.gwork[g].GroupJoining? ==> st.gwork[g].pending <= st.debug.Keys
    ensures st.gwork[g].GroupJoining? && !st.gwork[g].asking.Nobody? ==>
              && st.gwork[g].asking.d in st.debug && st.gwork[g].asking.d in st.ops
              && (st.gwork[g].asking.Awaited? && !st.ops[st.gwork[g].asking.d].Finished? ==>
                    SessionMoves(st, st.gwork[g].asking.d))
  {
    ShapedOf(st);
    WorkOfInv(st, g);
    hide GateHolds, CompileHolds, CountHolds, ClosesHold, LeaseHolds, OpsHold, RegHolds, WorkHolds, StageHolds, OwnIds;
    hide SessionMoves;
    var work := st.gwork[g];
    if work.GroupWaiting? { GroupHolders(st.parent, st.reg, st.calls, st.debug); }
    if work.GroupJoining? && !work.asking.Nobody? {
      OpsAt(st.debug, st.ops, work.asking.d);
      if work.asking.Awaited? && !st.ops[work.asking.d].Finished? { SessionMovesAt(st, work.asking.d); }
    }
  }

  lemma GroupMovesAt(st: State, g: GroupRef)
    requires Inv(st) && g in st.gwork
    ensures g in st.reg.table && GroupMoves(st, g)
  {
    hide Inv, PlansOk, Reg.Formed, SessionMoves, CallMoves;
    WorkerFacts(st, g);
    if st.gwork[g].GroupWaiting? && st.calls.Keys != {} {
      var c :| c in st.calls;
      CallMovesAt(st, c);
      assert AdmittedMoves(st, g, c);
    }
  }
}
