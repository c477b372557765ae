/** The inductive invariant of the debug lease protocol, one predicate per
    concern, and its preservation by every step. */
module DebugInvariant {
  import opened Base
  import opened Lifecycle
  import opened DebugPlans
  import opened DebugLeases
  import Reg = DebugRegistry

  /** Who is inside the exec gate, and that it drains before the hook. */
  ghost predicate GateHolds(gate: Admission, stage: Stage, calls: map<Call, Pc>, others: set<Call>) {
    && (gate.phase.Idle? <==> stage.Open?) && (gate.phase.Finished? <==> stage.Closed?)
    && (forall c :: c in gate.holders <==> (c in calls && InExec(calls[c])) || c in others)
    && (forall c <- others :: c !in calls)
    && (Drained(stage) ==> gate.holders == {})
  }

  /** What a waiting call waits for is in flight or over. */
  ghost predicate AwaitOk(plans: Plans, pc: Pc) {
    pc.Awaiting? ==> pc.done in plans.closed || plans.compileDone == Some(pc.done)
  }

  /** At most one compilation is in flight, one call runs it, and whoever waits
      for one waits for this one or for one that is over. */
  ghost predicate CompileHolds(plans: Plans, calls: map<Call, Pc>) {
    && (plans.compiling ==> exists c :: c in calls && calls[c].Compiling?)
    && (forall c <- calls :: calls[c].Compiling? ==> plans.compiling && plans.compileDone == Some(calls[c].done))
    && (forall c, d :: c in calls && d in calls && calls[c].Compiling? && calls[d].Compiling? ==> c == d)
    && (forall c <- calls :: AwaitOk(plans, calls[c]))
  }

  /** The count is the number of live leases, all on the retained Plan. */
  ghost predicate CountHolds(plans: Plans, leases: map<Call, PlanRef>) {
    && PlansOk(plans) && plans.runtimes == |leases|
    && (forall c <- leases :: plans.debugPlan == Some(leases[c]))
  }

  /** Somebody still owes this compiled Plan its close. */
  ghost predicate Held(p: PlanRef, debugPlan: Option<PlanRef>, stage: Stage, calls: map<Call, Pc>) {
    debugPlan == Some(p) || stage == ClosingPlan(Some(p)) || exists c :: c in calls && calls[c] == Discarding(p)
  }

  /** A compiled Plan was closed once, or is held by exactly one owner. */
  ghost predicate ClosesHold(debugPlan: Option<PlanRef>, stage: Stage, calls: map<Call, Pc>,
                             closes: map<PlanRef, nat>) {
    && (debugPlan.Some? ==> debugPlan.value in closes)
    && (stage.ClosingPlan? && stage.plan.Some? ==> stage.plan.value in closes)
    && (stage.ClosingPlan? || stage.Publishing? || stage.Closed? ==> debugPlan.None?)
    && (forall c <- calls :: calls[c].Discarding? ==>
          calls[c].plan in closes && debugPlan != Some(calls[c].plan) && stage != ClosingPlan(Some(calls[c].plan)))
    && (forall c, d :: c in calls && d in calls && calls[c].Discarding? && calls[d] == calls[c] ==> c == d)
    && (forall p <- closes :: closes[p] == if Held(p, debugPlan, stage, calls) then 0 else 1)
  }

  /** Who owns each live lease. */
  ghost predicate LeaseHolds(calls: map<Call, Pc>, leases: map<Call, PlanRef>, debug: map<DebugId, DebugStage>) {
    && (forall c <- calls :: HasLease(calls[c]) ==> c in leases)
    && (forall c <- leases :: (c in calls && HasLease(calls[c])) || (c in debug && MayLease(debug[c])))
    && (forall c <- calls :: c in debug ==> calls[c].Ending?)
  }

  /** The group that admitted every running creation and retains every debug
      Session that is not over stays registered. */
  ghost predicate RegHolds(parent: Reg.ParentId, reg: Reg.Registry, calls: map<Call, Pc>,
                           debug: map<DebugId, DebugStage>) {
    && Reg.Formed(reg)
    && (parent in reg.groups ==> reg.table[reg.groups[parent]].gate.holders == calls.Keys)
    && (parent !in reg.groups ==> calls == map[])
    && (forall d <- debug :: debug[d] != Gone && debug[d] != Completed ==>
          parent in reg.groups && d in reg.table[reg.groups[parent]].sessions)
    && (forall g <- reg.table :: reg.table[g].parent == parent ==> reg.table[g].sessions <= debug.Keys)
    && (forall d :: Reg.Lists(reg.sessions, d, parent) <==> d in debug && debug[d].Retained?)
    && (forall d :: Reg.Lists(reg.closing, d, parent) <==> d in debug && Listed(debug[d]))
  }

  ghost predicate JoinedAll(sessions: set<DebugId>, pending: set<DebugId>, debug: map<DebugId, DebugStage>) {
    && pending <= debug.Keys
    && forall d <- sessions :: d in pending || (d in debug && Over(debug[d]))
  }

  /** Whom the worker asks is still pending, detached, and then closing. */
  ghost predicate AskingOk(pending: set<DebugId>, asking: Asking, debug: map<DebugId, DebugStage>) {
    match asking
    case Nobody => true
    case Holding(d) => d in pending && d in debug && !debug[d].Retained?
    case Awaited(d) => d in pending && d in debug && Past(debug[d])
  }

  predicate Past(d: DebugStage) { !d.Retained? && !d.Detached? }

  /** The close operation of a debug Session is where its close is. */
  ghost predicate OpsHold(debug: map<DebugId, DebugStage>, ops: map<DebugId, Phase>) {
    forall d <- debug :: d in ops && (ops[d].Idle? <==> !Past(debug[d])) && (ops[d].Finished? <==> Over(debug[d]))
  }

  ghost predicate WorkInv(parent: Reg.ParentId, reg: Reg.Registry, g: GroupRef, work: GroupStage,
                          debug: map<DebugId, DebugStage>) {
    && g in reg.table && reg.table[g].parent == parent
    && (work != GroupRemoved <==> parent in reg.groups && reg.groups[parent] == g)
    && (reg.table[g].gate.phase.Finished? <==> work.GroupFinished? || work.GroupRemoved?)
    && (!work.GroupWaiting? ==> reg.table[g].gate.holders == {})
    && (work.GroupJoining? ==>
          JoinedAll(reg.table[g].sessions, work.pending, debug) && AskingOk(work.pending, work.asking, debug))
    && (work.GroupFinished? ==> JoinedAll(reg.table[g].sessions, {}, debug))
  }

  /** Where each group worker is; a group is being closed exactly if its gate
      is committed. */
  ghost predicate WorkHolds(parent: Reg.ParentId, reg: Reg.Registry, gwork: map<GroupRef, GroupStage>,
                            debug: map<DebugId, DebugStage>) {
    && Reg.Formed(reg)
    && (forall g <- reg.table :: reg.table[g].parent == parent ==> (reg.table[g].gate.phase.Idle? <==> g !in gwork))
    && (forall g <- gwork :: WorkInv(parent, reg, g, gwork[g], debug))
  }

  /** Once the hook has returned there are no leases. */
  ghost predicate StageHolds(stage: Stage, gwork: map<GroupRef, GroupStage>, leases: map<Call, PlanRef>) {
    && (HookReturned(stage) ==> leases == map[])
    && (stage.HookWaiting? ==> stage.group in gwork && (gwork[stage.group].GroupRemoved? ==> leases == map[]))
    && (stage.Capturing? ==> stage.compile.None? && stage.leases.None?)
  }

  ghost predicate NamesHold(st: State) {
    && OwnIds(st.parent, st.reg, st.used)
    && st.calls.Keys <= st.used && st.others <= st.used && st.debug.Keys <= st.used
    && st.leases.Keys <= st.leased <= st.used
  }

  ghost predicate GateOkay(st: State) { GateHolds(st.gate, st.stage, st.calls, st.others) }
  ghost predicate CompileOkay(st: State) { CompileHolds(st.plans, st.calls) }
  ghost predicate CountOkay(st: State) { CountHolds(st.plans, st.leases) }
  ghost predicate ClosesOkay(st: State) { ClosesHold(st.plans.debugPlan, st.stage, st.calls, st.closes) }
  ghost predicate LeaseOkay(st: State) { LeaseHolds(st.calls, st.leases, st.debug) }
  ghost predicate RegOkay(st: State) { RegHolds(st.parent, st.reg, st.calls, st.debug) }
  ghost predicate WorkOkay(st: State) { WorkHolds(st.parent, st.reg, st.gwork, st.debug) }
  ghost predicate OpsOkay(st: State) { OpsHold(st.debug, st.ops) }
  ghost predicate StageOkay(st: State) { StageHolds(st.stage, st.gwork, st.leases) }

  ghost predicate Inv(st: State) {
    && !st.panicked && NamesHold(st)
    && GateOkay(st) && CompileOkay(st) && CountOkay(st) && ClosesOkay(st)
    && LeaseOkay(st) && OpsOkay(st) && RegOkay(st) && WorkOkay(st) && StageOkay(st)
  }

  lemma InitInv(p: Reg.ParentId)
    ensures Inv(Init(p))
  {
  }

  // ------------------------------------------------- one call changes its place

  lemma GateGoto(gate: Admission, stage: Stage, calls: map<Call, Pc>, others: set<Call>, call: Call, pc: Pc)
    requires GateHolds(gate, stage, calls, others) && call !in others
    requires (call in calls && InExec(calls[call])) == InExec(pc)
    ensures GateHolds(gate, stage, calls[call := pc], others)
  {
  }

  lemma GateForget(gate: Admission, stage: Stage, calls: map<Call, Pc>, others: set<Call>, call: Call)
    requires GateHolds(gate, stage, calls, others) && call in calls && !InExec(calls[call])
    ensures GateHolds(gate, stage, calls - {call}, others)
  {
  }

  lemma CompileGoto(plans: Plans, calls: map<Call, Pc>, call: Call, pc: Pc)
    requires CompileHolds(plans, calls) && !pc.Compiling? && (call in calls ==> !calls[call].Compiling?)
    requires AwaitOk(plans, pc)
    ensures CompileHolds(plans, calls[call := pc])
  {
    if plans.compiling {
      var c :| c in calls && calls[c].Compiling?;
      assert calls[call := pc][c].Compiling?;
    }
  }

  lemma CompileForget(plans: Plans, calls: map<Call, Pc>, call: Call)
    requires CompileHolds(plans, calls) && call in calls && !calls[call].Compiling?
    ensures CompileHolds(plans, calls - {call})
  {
    if plans.compiling {
      var c :| c in calls && calls[c].Compiling?;
      assert (calls - {call})[c].Compiling?;
    }
  }

  /** The same compilation is in flight under other lease counts. */
  lemma CompileSame(p: Plans, q: Plans, calls: map<Call, Pc>)
    requires CompileHolds(p, calls) && q.compiling == p.compiling && q.compileDone == p.compileDone
    requires p.closed <= q.closed
    ensures CompileHolds(q, calls)
  {
  }

  lemma HeldGoto(p: PlanRef, debugPlan: Option<PlanRef>, stage: Stage, calls: map<Call, Pc>, moved: map<Call, Pc>)
    requires forall c :: c in calls && calls[c] == Discarding(p) <==> c in moved && moved[c] == Discarding(p)
    ensures Held(p, debugPlan, stage, calls) == Held(p, debugPlan, stage, moved)
  {
  }

  lemma ClosesMove(debugPlan: Option<PlanRef>, stage: Stage, calls: map<Call, Pc>, closes: map<PlanRef, nat>,
                   moved: map<Call, Pc>)
    requires ClosesHold(debugPlan, stage, calls, closes)
    requires forall c, p :: c in calls && calls[c] == Discarding(p) <==> c in moved && moved[c] == Discarding(p)
    ensures ClosesHold(debugPlan, stage, moved, closes)
  {
    forall p | p in closes ensures Held(p, debugPlan, stage, calls) == Held(p, debugPlan, stage, moved) {
      HeldGoto(p, debugPlan, stage, calls, moved);
    }
    hide Held;
  }

  lemma ClosesGoto(debugPlan: Option<PlanRef>, stage: Stage, calls: map<Call, Pc>, closes: map<PlanRef, nat>,
                   call: Call, pc: Pc)
    requires ClosesHold(debugPlan, stage, calls, closes) && !pc.Discarding?
    requires (call in calls ==> !calls[call].Discarding?)
    ensures ClosesHold(debugPlan, stage, calls[call := pc], closes)
  {
    hide ClosesHold;
    ClosesMove(debugPlan, stage, calls, closes, calls[call := pc]);
  }

  lemma ClosesForget(debugPlan: Option<PlanRef>, stage: Stage, calls: map<Call, Pc>, closes: map<PlanRef, nat>,
                     call: Call)
    requires ClosesHold(debugPlan, stage, calls, closes) && call in calls && !calls[call].Discarding?
    ensures ClosesHold(debugPlan, stage, calls - {call}, closes)
  {
    hide ClosesHold;
    ClosesMove(debugPlan, stage, calls, closes, calls - {call});
  }

  lemma LeaseGoto(calls: map<Call, Pc>, leases: map<Call, PlanRef>, debug: map<DebugId, DebugStage>, call: Call, pc: Pc)
    requires LeaseHolds(calls, leases, debug) && call !in debug
    requires (call in calls && HasLease(calls[call])) == HasLease(pc)
    ensures LeaseHolds(calls[call := pc], leases, debug)
  {
  }

  lemma LeaseForget(calls: map<Call, Pc>, leases: map<Call, PlanRef>, debug: map<DebugId, DebugStage>, call: Call)
    requires LeaseHolds(calls, leases, debug) && call in calls && !HasLease(calls[call])
    ensures LeaseHolds(calls - {call}, leases, debug)
  {
  }

  /** An owner in `calls` gives its lease up. */
  lemma LeaseGiven(calls: map<Call, Pc>, leases: map<Call, PlanRef>, debug: map<DebugId, DebugStage>, call: Call,
                   pc: Pc)
    requires LeaseHolds(calls, leases, debug) && call in calls && call !in debug && !HasLease(pc)
    ensures LeaseHolds(calls[call := pc], leases - {call}, debug)
  {
  }

  lemma LeaseTaken(calls: map<Call, Pc>, leases: map<Call, PlanRef>, debug: map<DebugId, DebugStage>, call: Call,
                   plan: PlanRef)
    requires LeaseHolds(calls, leases, debug) && call !in debug
    ensures LeaseHolds(calls[call := Leased], leases[call := plan], debug)
  {
  }

  lemma RegGoto(parent: Reg.ParentId, reg: Reg.Registry, calls: map<Call, Pc>, debug: map<DebugId, DebugStage>,
                call: Call, pc: Pc)
    requires RegHolds(parent, reg, calls, debug) && call in calls
    ensures RegHolds(parent, reg, calls[call := pc], debug)
  {
    assert calls[call := pc].Keys == calls.Keys;
  }

  lemma CountTaken(p: Plans, leases: map<Call, PlanRef>, call: Call, plan: PlanRef)
    requires CountHolds(p, leases) && call !in leases && p.debugPlan == Some(plan)
    ensures CountHolds(AddLease(p), leases[call := plan])
  {
  }

  lemma CountReleased(p: Plans, leases: map<Call, PlanRef>, call: Call)
    requires CountHolds(p, leases) && call in leases
    ensures p.runtimes > 0 && CountHolds(Release(p), leases - {call})
  {
    assert |leases - {call}| == |leases| - 1;
  }

  lemma StageReleased(stage: Stage, gwork: map<GroupRef, GroupStage>, leases: map<Call, PlanRef>, call: Call)
    requires StageHolds(stage, gwork, leases)
    ensures StageHolds(stage, gwork, leases - {call})
  {
  }

  // ------------------------------------------------------------- create steps

  /** A call moves on without entering or leaving anything. */
  lemma KeepMove(a: State, call: Call, pc: Pc)
    requires Inv(a) && call in a.calls && call !in a.debug
    requires InExec(a.calls[call]) == InExec(pc) && HasLease(a.calls[call]) == HasLease(pc)
    requires !a.calls[call].Compiling? && !pc.Compiling? && !a.calls[call].Discarding? && !pc.Discarding?
    requires AwaitOk(a.plans, pc)
    ensures Inv(Goto(a, call, pc))
  {
    hide GateHolds, CompileHolds, CountHolds, ClosesHold, LeaseHolds, OpsHold, RegHolds, WorkHolds, StageHolds, OwnIds;
    Apart(a, call);
    GateGoto(a.gate, a.stage, a.calls, a.others, call, pc);
    CompileGoto(a.plans, a.calls, call, pc);
    ClosesGoto(a.plans.debugPlan, a.stage, a.calls, a.closes, call, pc);
    LeaseGoto(a.calls, a.leases, a.debug, call, pc);
    RegGoto(a.parent, a.reg, a.calls, a.debug, call, pc);
  }

  lemma Apart(a: State, call: Call)
    requires GateOkay(a) && call in a.calls
    ensures call !in a.others
    ensures InExec(a.calls[call]) <==> call in a.gate.holders
    ensures InExec(a.calls[call]) ==> !Drained(a.stage)
  {
  }

  /** A creation that has not reached its end is not a debug Session yet. */
  lemma NotYet(a: State, call: Call)
    requires Inv(a) && call in a.calls && !a.calls[call].Ending?
    ensures call !in a.debug && call in a.used
    ensures HasLease(a.calls[call]) <==> call in a.leases
    ensures call !in a.others
    ensures InExec(a.calls[call]) <==> call in a.gate.holders
    ensures InExec(a.calls[call]) ==> !Drained(a.stage)
  {
    hide GateHolds, CompileHolds, CountHolds, ClosesHold, OpsHold, RegHolds, WorkHolds, StageHolds, OwnIds;
    Apart(a, call);
  }

  lemma RegGate(parent: Reg.ParentId, reg: Reg.Registry, calls: map<Call, Pc>, debug: map<DebugId, DebugStage>,
                gate: Admission, next: map<Call, Pc>)
    requires RegHolds(parent, reg, calls, debug) && parent in reg.groups && gate.holders == next.Keys
    ensures RegHolds(parent, Reg.SetGate(reg, reg.groups[parent], gate), next, debug)
  {
  }

  lemma RegNew(parent: Reg.ParentId, reg: Reg.Registry, calls: map<Call, Pc>, debug: map<DebugId, DebugStage>)
    requires RegHolds(parent, reg, calls, debug)
    ensures RegHolds(parent, Reg.EnsureGroup(reg, parent), calls, debug)
  {
  }

  lemma RegDropped(parent: Reg.ParentId, reg: Reg.Registry, calls: map<Call, Pc>, debug: map<DebugId, DebugStage>)
    requires RegHolds(parent, reg, calls, debug) && parent in reg.groups
    requires reg.table[reg.groups[parent]].gate.holders == {}
    requires JoinedAll(reg.table[reg.groups[parent]].sessions, {}, debug)
    ensures RegHolds(parent, Reg.Drop(reg, parent), calls, debug)
  {
    assert calls.Keys == {};
    assert calls == map[];
  }

  lemma WorkGate(parent: Reg.ParentId, reg: Reg.Registry, gwork: map<GroupRef, GroupStage>,
                 debug: map<DebugId, DebugStage>,
                 gate: Admission)
    requires WorkHolds(parent, reg, gwork, debug) && parent in reg.groups
    requires gate.phase == reg.table[reg.groups[parent]].gate.phase
    requires gate.phase.Idle? || gate.holders <= reg.table[reg.groups[parent]].gate.holders
    ensures WorkHolds(parent, Reg.SetGate(reg, reg.groups[parent], gate), gwork, debug)
  {
    hide JoinedAll, AskingOk;
  }

  lemma WorkNew(parent: Reg.ParentId, reg: Reg.Registry, gwork: map<GroupRef, GroupStage>,
                debug: map<DebugId, DebugStage>)
    requires WorkHolds(parent, reg, gwork, debug)
    ensures WorkHolds(parent, Reg.EnsureGroup(reg, parent), gwork, debug)
  {
    hide JoinedAll, AskingOk;
  }

  lemma WorkDropped(parent: Reg.ParentId, reg: Reg.Registry, gwork: map<GroupRef, GroupStage>,
                    debug: map<DebugId, DebugStage>)
    requires WorkHolds(parent, reg, gwork, debug) && parent in reg.groups
    requires reg.table[reg.groups[parent]].gate.phase.Idle?
    ensures WorkHolds(parent, Reg.Drop(reg, parent), gwork, debug)
  {
    hide JoinedAll, AskingOk;
  }

  lemma RegBegin(parent: Reg.ParentId, reg: Reg.Registry, calls: map<Call, Pc>, debug: map<DebugId, DebugStage>,
                 call: Call)
    requires RegHolds(parent, reg, calls, debug) && Reg.Formed(reg) && !reg.closed
    ensures RegHolds(parent, Reg.BeginCreate(reg, parent, call),
                     if Reg.BeginAllowed(reg, parent) then calls[call := Gated] else calls, debug)
  {
    hide RegHolds;
    var e := Reg.EnsureGroup(reg, parent);
    RegNew(parent, reg, calls, debug);
    GroupHolders(parent, e, calls, debug);
    var gate := Admit(e.table[e.groups[parent]].gate, call);
    RegGate(parent, e, calls, debug, gate, if gate.phase.Idle? then calls[call := Gated] else calls);
  }

  lemma GroupHolders(parent: Reg.ParentId, reg: Reg.Registry, calls: map<Call, Pc>, debug: map<DebugId, DebugStage>)
    requires RegHolds(parent, reg, calls, debug) && parent in reg.groups
    ensures reg.table[reg.groups[parent]].gate.holders == calls.Keys
  {
  }

  lemma WorkBegin(a: State, call: Call)
    requires Shaped(a) && WorkOkay(a)
    ensures WorkOkay(DoBegin(a, call))
  {
    hide WorkHolds;
    if !a.reg.closed {
      var e := Reg.EnsureGroup(a.reg, a.parent);
      WorkNew(a.parent, a.reg, a.gwork, a.debug);
      WorkGate(a.parent, e, a.gwork, a.debug, Admit(e.table[e.groups[a.parent]].gate, call));
    }
  }

  lemma OwnSame(parent: Reg.ParentId, r: Reg.Registry, n: Reg.Registry, used: set<Call>, more: set<Call>)
    requires OwnIds(parent, r, used) && n.sessions == r.sessions && n.closing == r.closing && used <= more
    requires forall d <- more - used :: d !in r.sessions && d !in r.closing
    ensures OwnIds(parent, n, more)
  {
  }

  lemma KeepBegin(a: State, call: Call)
    requires Inv(a) && Fresh(a, call)
    ensures Inv(DoBegin(a, call))
  {
    hide GateHolds, CompileHolds, CountHolds, ClosesHold, LeaseHolds, OpsHold, RegHolds, WorkHolds, StageHolds, OwnIds;
    hide Reg.BeginCreate;
    ShapedOf(a);
    if a.reg.closed {
      BeginStopped(a.reg, a.parent, call);
    } else {
      RegBegin(a.parent, a.reg, a.calls, a.debug, call);
    }
    WorkBegin(a, call);
    OwnSame(a.parent, a.reg, DoBegin(a, call).reg, a.used, a.used + {call});
    GateGoto(a.gate, a.stage, a.calls, a.others, call, Gated);
    CompileGoto(a.plans, a.calls, call, Gated);
    ClosesGoto(a.plans.debugPlan, a.stage, a.calls, a.closes, call, Gated);
    LeaseGoto(a.calls, a.leases, a.debug, call, Gated);
  }

  lemma BeginStopped(reg: Reg.Registry, parent: Reg.ParentId, call: Call)
    requires Reg.Formed(reg) && reg.closed
    ensures Reg.BeginCreate(reg, parent, call) == reg
  {
  }

  lemma ShapedOf(a: State)
    requires CountOkay(a) && RegOkay(a)
    ensures Shaped(a)
  {
  }

  lemma GateEnter(gate: Admission, stage: Stage, calls: map<Call, Pc>, others: set<Call>, call: Call)
    requires GateHolds(gate, stage, calls, others) && call in calls && !InExec(calls[call]) && gate.phase.Idle?
    ensures GateHolds(Admit(gate, call), stage, calls[call := Entered], others)
  {
  }

  lemma GateLeave(gate: Admission, stage: Stage, calls: map<Call, Pc>, others: set<Call>, call: Call, pc: Pc)
    requires GateHolds(gate, stage, calls, others) && call in calls && !InExec(pc)
    ensures GateHolds(Leave(gate, call), stage, calls[call := pc], others)
  {
  }

  lemma GateOther(gate: Admission, stage: Stage, calls: map<Call, Pc>, others: set<Call>, call: Call)
    requires GateHolds(gate, stage, calls, others)
    ensures gate.phase.Idle? && call !in calls ==> GateHolds(Admit(gate, call), stage, calls, others + {call})
    ensures call in others ==> call in gate.holders && GateHolds(Leave(gate, call), stage, calls, others - {call})
  {
  }

  lemma KeepEnter(a: State, call: Call)
    requires Inv(a) && At(a, call, Gated)
    ensures Inv(DoEnter(a, call))
  {
    hide GateHolds, CompileHolds, CountHolds, ClosesHold, LeaseHolds, OpsHold, RegHolds, WorkHolds, StageHolds, OwnIds;
    NotYet(a, call);
    if a.gate.phase.Idle? {
      GateEnter(a.gate, a.stage, a.calls, a.others, call);
      CompileGoto(a.plans, a.calls, call, Entered);
      ClosesGoto(a.plans.debugPlan, a.stage, a.calls, a.closes, call, Entered);
      LeaseGoto(a.calls, a.leases, a.debug, call, Entered);
      RegGoto(a.parent, a.reg, a.calls, a.debug, call, Entered);
    } else {
      KeepMove(a, call, Ending);
    }
  }

  lemma CompileStarted(p: Plans, calls: map<Call, Pc>, call: Call)
    requires CompileHolds(p, calls) && PlansOk(p) && !p.compiling && call in calls
    ensures CompileHolds(p.(compiling := true, compileDone := Some(p.made), made := p.made + 1),
                         calls[call := Compiling(p.made)])
  {
    assert calls[call := Compiling(p.made)][call].Compiling?;
  }

  lemma KeepCompile(a: State, call: Call)
    requires Inv(a) && At(a, call, Entered) && LookAt(a.plans, a.gate.phase.Idle?).Compile?
    ensures Inv(DoLook(a, call))
  {
    hide GateHolds, CompileHolds, CountHolds, ClosesHold, LeaseHolds, OpsHold, RegHolds, WorkHolds, StageHolds, OwnIds;
    ShapedOf(a);
    NotYet(a, call);
    var pc := Compiling(a.plans.made);
    CompileStarted(a.plans, a.calls, call);
    CountSame(a.plans, AfterLook(a.plans, true), a.leases);
    GateGoto(a.gate, a.stage, a.calls, a.others, call, pc);
    ClosesGoto(a.plans.debugPlan, a.stage, a.calls, a.closes, call, pc);
    LeaseGoto(a.calls, a.leases, a.debug, call, pc);
    RegGoto(a.parent, a.reg, a.calls, a.debug, call, pc);
  }

  lemma CountSame(p: Plans, q: Plans, leases: map<Call, PlanRef>)
    requires CountHolds(p, leases) && PlansOk(q) && q.runtimes == p.runtimes && q.debugPlan == p.debugPlan
    ensures CountHolds(q, leases)
  {
  }

  /** While the Session is open nothing is promised about its stage. */
  lemma OpenStage(a: State)
    requires GateOkay(a) && a.gate.phase.Idle?
    ensures a.stage.Open? && forall gwork, leases :: StageHolds(a.stage, gwork, leases)
  {
  }

  lemma KeepTaken(a: State, call: Call)
    requires Inv(a) && At(a, call, Entered) && LookAt(a.plans, a.gate.phase.Idle?).Lease?
    ensures Inv(DoLook(a, call))
  {
    hide GateHolds, CompileHolds, CountHolds, ClosesHold, LeaseHolds, OpsHold, RegHolds, WorkHolds, StageHolds, OwnIds;
    NotYet(a, call);
    OpenStage(a);
    var plan := a.plans.debugPlan.value;
    CountTaken(a.plans, a.leases, call, plan);
    GateGoto(a.gate, a.stage, a.calls, a.others, call, Leased);
    CompileGoto(a.plans, a.calls, call, Leased);
    CompileSame(a.plans, AddLease(a.plans), a.calls[call := Leased]);
    ClosesGoto(a.plans.debugPlan, a.stage, a.calls, a.closes, call, Leased);
    LeaseTaken(a.calls, a.leases, a.debug, call, plan);
    RegGoto(a.parent, a.reg, a.calls, a.debug, call, Leased);
    hide PlansOk;
  }

  lemma ShapedInv(a: State)
    requires Inv(a)
    ensures Shaped(a)
  {
    ShapedOf(a);
  }

  lemma AwaitLook(p: Plans, accepting: bool)
    requires PlansOk(p)
    ensures LookAt(p, accepting).Await? ==> p.compileDone == Some(LookAt(p, accepting).done)
  {
  }

  lemma KeepLook(a: State, call: Call)
    requires Inv(a) && At(a, call, Entered)
    ensures Inv(DoLook(a, call))
  {
    hide Inv, PlansOk, Reg.Formed, AddLease;
    ShapedInv(a);
    NotYet(a, call);
    AwaitLook(a.plans, a.gate.phase.Idle?);
    match LookAt(a.plans, a.gate.phase.Idle?)
    case Closing => KeepMove(a, call, LeavingExec);
    case CompileFailed(_) => KeepMove(a, call, LeavingExec);
    case Await(done) => KeepMove(a, call, Awaiting(done));
    case Compile(_) => KeepCompile(a, call);
    case Lease(_) => KeepTaken(a, call);
  }

  lemma CompileEnded(p: Plans, q: Plans, calls: map<Call, Pc>, call: Call, pc: Pc)
    requires CompileHolds(p, calls) && call in calls && calls[call].Compiling? && !q.compiling
    requires !pc.Compiling? && !pc.Awaiting? && p.compileDone.Some? && p.closed + {p.compileDone.value} <= q.closed
    ensures CompileHolds(q, calls[call := pc])
  {
  }

  /** A compiled Plan becomes the retained one. */
  lemma ClosesKept(stage: Stage, calls: map<Call, Pc>, closes: map<PlanRef, nat>, plan: PlanRef)
    requires ClosesHold(None, stage, calls, closes) && stage.Open? && plan !in closes
    ensures ClosesHold(Some(plan), stage, calls, closes[plan := 0])
  {
  }

  /** A compiled Plan is left to its compiler to close. */
  lemma ClosesOwed(debugPlan: Option<PlanRef>, stage: Stage, calls: map<Call, Pc>, closes: map<PlanRef, nat>,
                   call: Call, plan: PlanRef)
    requires ClosesHold(debugPlan, stage, calls, closes) && plan !in closes && call in calls && !calls[call].Discarding?
    ensures ClosesHold(debugPlan, stage, calls[call := Discarding(plan)], closes[plan := 0])
  {
    var moved := calls[call := Discarding(plan)];
    assert moved[call] == Discarding(plan);
    forall p | p in closes ensures Held(p, debugPlan, stage, calls) == Held(p, debugPlan, stage, moved) {
      HeldGoto(p, debugPlan, stage, calls, moved);
    }
    assert Held(plan, debugPlan, stage, moved);
    hide Held;
  }

  lemma ClosesPaid(debugPlan: Option<PlanRef>, stage: Stage, calls: map<Call, Pc>, closes: map<PlanRef, nat>,
                   call: Call)
    requires ClosesHold(debugPlan, stage, calls, closes) && call in calls && calls[call].Discarding?
    ensures var p := calls[call].plan;
            p in closes && ClosesHold(debugPlan, stage, calls[call := LeavingExec], closes[p := closes[p] + 1])
  {
    var paid := calls[call].plan;
    var moved := calls[call := LeavingExec];
    assert Held(paid, debugPlan, stage, calls) && !Held(paid, debugPlan, stage, moved);
    forall p | p in closes && p != paid ensures Held(p, debugPlan, stage, calls) == Held(p, debugPlan, stage, moved) {
      HeldGoto(p, debugPlan, stage, calls, moved);
    }
    hide Held;
  }

  lemma CountFirst(p: Plans, leases: map<Call, PlanRef>, call: Call, plan: PlanRef, cancelled: bool)
    requires CountHolds(p, leases) && p.compiling
    ensures p.debugPlan.None? && leases == map[]
    ensures CountHolds(AfterCompile(p, true, Some(plan), [], cancelled), leases[call := plan])
  {
  }

  lemma KeepCompiled(a: State, call: Call, plan: PlanRef, cancelled: bool)
    requires Inv(a) && CanEndCompile(a, call, Some(plan)) && a.gate.phase.Idle?
    ensures Inv(DoEndCompile(a, call, Some(plan), [], cancelled))
  {
    hide GateHolds, CompileHolds, CountHolds, ClosesHold, LeaseHolds, OpsHold, RegHolds, WorkHolds, StageHolds, OwnIds;
    ShapedOf(a);
    NotYet(a, call);
    OpenStage(a);
    CountFirst(a.plans, a.leases, call, plan, cancelled);
    CompileEnded(a.plans, AfterCompile(a.plans, true, Some(plan), [], cancelled), a.calls, call, Leased);
    GateGoto(a.gate, a.stage, a.calls, a.others, call, Leased);
    ClosesGoto(a.plans.debugPlan, a.stage, a.calls, a.closes, call, Leased);
    ClosesKept(a.stage, a.calls[call := Leased], a.closes, plan);
    LeaseTaken(a.calls, a.leases, a.debug, call, plan);
    RegGoto(a.parent, a.reg, a.calls, a.debug, call, Leased);
  }

  lemma KeepNotCompiled(a: State, call: Call, plan: Option<PlanRef>, err: Errors, cancelled: bool)
    requires Inv(a) && CanEndCompile(a, call, plan) && (Failed(plan, err) || !a.gate.phase.Idle?)
    ensures Inv(DoEndCompile(a, call, plan, err, cancelled))
  {
    hide GateHolds, CompileHolds, CountHolds, ClosesHold, LeaseHolds, OpsHold, RegHolds, WorkHolds, StageHolds, OwnIds;
    ShapedOf(a);
    NotYet(a, call);
    var b := DoEndCompile(a, call, plan, err, cancelled);
    CountSame(a.plans, b.plans, a.leases);
    var pc := if plan.Some? then Discarding(plan.value) else LeavingExec;
    CompileEnded(a.plans, b.plans, a.calls, call, pc);
    GateGoto(a.gate, a.stage, a.calls, a.others, call, pc);
    if plan.Some? {
      ClosesOwed(a.plans.debugPlan, a.stage, a.calls, a.closes, call, plan.value);
    } else {
      ClosesGoto(a.plans.debugPlan, a.stage, a.calls, a.closes, call, pc);
    }
    LeaseGoto(a.calls, a.leases, a.debug, call, pc);
    RegGoto(a.parent, a.reg, a.calls, a.debug, call, pc);
  }

  lemma KeepEndCompile(a: State, call: Call, plan: Option<PlanRef>, err: Errors, cancelled: bool)
    requires Inv(a) && CanEndCompile(a, call, plan)
    ensures Inv(DoEndCompile(a, call, plan, err, cancelled))
  {
    if !Failed(plan, err) && a.gate.phase.Idle? {
      KeepCompiled(a, call, plan.value, cancelled);
    } else {
      KeepNotCompiled(a, call, plan, err, cancelled);
    }
  }

  lemma KeepDiscard(a: State, call: Call)
    requires Inv(a) && CanDiscard(a, call)
    ensures Inv(DoDiscard(a, call))
  {
    hide GateHolds, CompileHolds, CountHolds, ClosesHold, LeaseHolds, OpsHold, RegHolds, WorkHolds, StageHolds, OwnIds;
    NotYet(a, call);
    GateGoto(a.gate, a.stage, a.calls, a.others, call, LeavingExec);
    CompileGoto(a.plans, a.calls, call, LeavingExec);
    ClosesPaid(a.plans.debugPlan, a.stage, a.calls, a.closes, call);
    LeaseGoto(a.calls, a.leases, a.debug, call, LeavingExec);
    RegGoto(a.parent, a.reg, a.calls, a.debug, call, LeavingExec);
  }

  /** A call gives its lease back and moves on. */
  lemma KeepGiven(a: State, call: Call, pc: Pc)
    requires Inv(a) && call in a.calls && HasLease(a.calls[call])
    requires (a.calls[call].Leased? && pc.LeavingExec?) || (a.calls[call].Dropping? && pc.Ending?)
    ensures call in a.leases && a.plans.runtimes > 0
    ensures Inv(Goto(ReleaseLease(a, call), call, pc))
  {
    hide GateHolds, CompileHolds, CountHolds, ClosesHold, LeaseHolds, OpsHold, RegHolds, WorkHolds, StageHolds, OwnIds;
    ShapedOf(a);
    NotYet(a, call);
    CountReleased(a.plans, a.leases, call);
    StageReleased(a.stage, a.gwork, a.leases, call);
    GateGoto(a.gate, a.stage, a.calls, a.others, call, pc);
    CompileGoto(a.plans, a.calls, call, pc);
    CompileSame(a.plans, Release(a.plans), a.calls[call := pc]);
    ClosesGoto(a.plans.debugPlan, a.stage, a.calls, a.closes, call, pc);
    LeaseGiven(a.calls, a.leases, a.debug, call, pc);
    RegGoto(a.parent, a.reg, a.calls, a.debug, call, pc);
  }

  lemma KeepOpen(a: State, call: Call, ok: bool)
    requires Inv(a) && At(a, call, Leased)
    ensures Inv(DoOpen(a, call, ok))
  {
    NotYet(a, call);
    if ok { KeepMove(a, call, Opened); } else { KeepGiven(a, call, LeavingExec); }
  }

  lemma KeepLeave(a: State, call: Call)
    requires Inv(a) && CanLeave(a, call)
    ensures Inv(DoLeave(a, call))
  {
    hide GateHolds, CompileHolds, CountHolds, ClosesHold, LeaseHolds, OpsHold, RegHolds, WorkHolds, StageHolds, OwnIds;
    NotYet(a, call);
    var pc := if a.calls[call].Opened? then Ready else Ending;
    GateLeave(a.gate, a.stage, a.calls, a.others, call, pc);
    CompileGoto(a.plans, a.calls, call, pc);
    ClosesGoto(a.plans.debugPlan, a.stage, a.calls, a.closes, call, pc);
    LeaseGoto(a.calls, a.leases, a.debug, call, pc);
    RegGoto(a.parent, a.reg, a.calls, a.debug, call, pc);
  }

  lemma RegCommit(a: State, call: Call)
    requires Shaped(a) && RegOkay(a) && call in a.calls && call !in a.debug && Reg.CommitAllowed(a.reg, a.parent)
    ensures RegOkay(DoCommit(a, call))
  {
    assert a.calls[call := Ending].Keys == a.calls.Keys;
  }

  lemma OwnCommit(a: State, call: Call)
    requires Shaped(a) && OwnIds(a.parent, a.reg, a.used) && Reg.CommitAllowed(a.reg, a.parent)
    ensures OwnIds(a.parent, DoCommit(a, call).reg, a.used)
  {
  }

  lemma WorkCommit(a: State, call: Call)
    requires Shaped(a) && WorkOkay(a) && Reg.CommitAllowed(a.reg, a.parent) && call !in a.debug
    ensures WorkOkay(DoCommit(a, call))
  {
  }

  lemma LeaseCommit(calls: map<Call, Pc>, leases: map<Call, PlanRef>, debug: map<DebugId, DebugStage>, call: Call)
    requires LeaseHolds(calls, leases, debug) && call in calls && call !in debug
    ensures LeaseHolds(calls[call := Ending], leases, debug[call := Retained])
  {
  }

  lemma OpsStaged(debug: map<DebugId, DebugStage>, ops: map<DebugId, Phase>, d: DebugId, stage: DebugStage, op: Phase)
    requires OpsHold(debug, ops)
    requires (op.Idle? <==> !Past(stage)) && (op.Finished? <==> Over(stage))
    ensures OpsHold(debug[d := stage], ops[d := op])
  {
  }

  lemma OpsMoved(debug: map<DebugId, DebugStage>, ops: map<DebugId, Phase>, d: DebugId, stage: DebugStage)
    requires OpsHold(debug, ops) && d in debug
    requires Past(debug[d]) == Past(stage) && Over(debug[d]) == Over(stage)
    ensures OpsHold(debug[d := stage], ops)
  {
  }

  lemma OpsAt(debug: map<DebugId, DebugStage>, ops: map<DebugId, Phase>, d: DebugId)
    requires OpsHold(debug, ops) && d in debug
    ensures d in ops && (ops[d].Idle? <==> !Past(debug[d])) && (ops[d].Finished? <==> Over(debug[d]))
  {
  }

  lemma KeepCommit(a: State, call: Call)
    requires Inv(a) && At(a, call, Ready)
    ensures Inv(DoCommit(a, call))
  {
    hide GateHolds, CompileHolds, CountHolds, ClosesHold, LeaseHolds, OpsHold, RegHolds, WorkHolds, StageHolds, OwnIds;
    ShapedOf(a);
    NotYet(a, call);
    if Reg.CommitAllowed(a.reg, a.parent) {
      RegCommit(a, call);
      OwnCommit(a, call);
      WorkCommit(a, call);
      GateGoto(a.gate, a.stage, a.calls, a.others, call, Ending);
      CompileGoto(a.plans, a.calls, call, Ending);
      ClosesGoto(a.plans.debugPlan, a.stage, a.calls, a.closes, call, Ending);
      LeaseCommit(a.calls, a.leases, a.debug, call);
      OpsStaged(a.debug, a.ops, call, Retained, Idle);
    } else {
      KeepMove(a, call, Dropping);
    }
  }

  lemma RegEnd(a: State, call: Call)
    requires Shaped(a) && RegOkay(a) && call in a.calls
    ensures RegOkay(DoEnd(a, call))
    ensures a.parent in a.reg.groups && !Reg.FinishPanics(a.reg, a.parent, call)
  {
    hide RegHolds;
    Registered(a.parent, a.reg, a.calls, a.debug);
    GroupHolders(a.parent, a.reg, a.calls, a.debug);
    var g := a.reg.groups[a.parent];
    var n := Reg.SetGate(a.reg, g, Leave(a.reg.table[g].gate, call));
    RegGate(a.parent, a.reg, a.calls, a.debug, Leave(a.reg.table[g].gate, call), a.calls - {call});
    if Reg.Disposable(n.table[g]) { RegDropped(a.parent, n, a.calls - {call}, a.debug); }
  }

  lemma Registered(parent: Reg.ParentId, reg: Reg.Registry, calls: map<Call, Pc>, debug: map<DebugId, DebugStage>)
    requires RegHolds(parent, reg, calls, debug) && calls != map[]
    ensures parent in reg.groups
  {
  }

  lemma WorkEnd(a: State, call: Call)
    requires Shaped(a) && WorkOkay(a)
    ensures WorkOkay(DoEnd(a, call))
  {
    hide WorkHolds;
    if a.parent in a.reg.groups {
      var g := a.reg.groups[a.parent];
      var n := Reg.SetGate(a.reg, g, Leave(a.reg.table[g].gate, call));
      WorkGate(a.parent, a.reg, a.gwork, a.debug, Leave(a.reg.table[g].gate, call));
      if Reg.Disposable(n.table[g]) { WorkDropped(a.parent, n, a.gwork, a.debug); }
    }
  }

  lemma KeepEnd(a: State, call: Call)
    requires Inv(a) && At(a, call, Ending)
    ensures Inv(DoEnd(a, call))
  {
    hide GateHolds, CompileHolds, CountHolds, ClosesHold, LeaseHolds, OpsHold, RegHolds, WorkHolds, StageHolds, OwnIds;
    ShapedOf(a);
    OwnSame(a.parent, a.reg, DoEnd(a, call).reg, a.used, a.used);
    RegEnd(a, call);
    WorkEnd(a, call);
    GateForget(a.gate, a.stage, a.calls, a.others, call);
    CompileForget(a.plans, a.calls, call);
    ClosesForget(a.plans.debugPlan, a.stage, a.calls, a.closes, call);
    LeaseForget(a.calls, a.leases, a.debug, call);
  }

  lemma KeepOther(a: State, call: Call)
    requires Inv(a)
    ensures Fresh(a, call) ==> Inv(DoEnterOther(a, call))
    ensures call in a.others ==> Inv(DoLeaveOther(a, call)) && call in a.gate.holders
  {
    hide GateHolds, CompileHolds, CountHolds, ClosesHold, LeaseHolds, OpsHold, RegHolds, WorkHolds, StageHolds, OwnIds;
    GateOther(a.gate, a.stage, a.calls, a.others, call);
    if Fresh(a, call) { OwnSame(a.parent, a.reg, a.reg, a.used, a.used + {call}); }
  }

  // -------------------------------------------------------------- debug steps

  lemma LeaseEnded(calls: map<Call, Pc>, leases: map<Call, PlanRef>, debug: map<DebugId, DebugStage>, d: DebugId)
    requires LeaseHolds(calls, leases, debug) && d in debug
    ensures LeaseHolds(calls, leases - {d}, debug)
  {
  }

  lemma KeepTerminate(a: State, d: DebugId)
    requires Inv(a) && d in a.debug
    ensures d in a.leases ==> a.plans.runtimes > 0
    ensures Inv(ReleaseLease(a, d))
  {
    hide GateHolds, CompileHolds, CountHolds, ClosesHold, LeaseHolds, OpsHold, RegHolds, WorkHolds, StageHolds, OwnIds;
    ShapedOf(a);
    if d in a.leases {
      LeaseEnded(a.calls, a.leases, a.debug, d);
      CountReleased(a.plans, a.leases, d);
      StageReleased(a.stage, a.gwork, a.leases, d);
      CompileSame(a.plans, Release(a.plans), a.calls);
    }
  }

  lemma RegDetach(a: State, d: DebugId)
    requires Shaped(a) && RegOkay(a) && d in a.debug && d in a.used && OwnIds(a.parent, a.reg, a.used)
    ensures RegOkay(DoDetach(a, d))
  {
    assert Reg.Lists(a.reg.sessions, d, a.parent) <==> d in a.reg.sessions;
    assert Reg.Lists(a.reg.closing, d, a.parent) <==> d in a.reg.closing;
    if d in a.reg.sessions {
      assert DoDetach(a, d).debug == a.debug[d := Detached];
      ListedDetached(a.parent, a.reg, a.debug, d);
    } else {
      assert DoDetach(a, d) == a;
    }
  }

  lemma ListedDetached(parent: Reg.ParentId, reg: Reg.Registry, debug: map<DebugId, DebugStage>, d: DebugId)
    requires Reg.Formed(reg) && d in debug && debug[d].Retained? && Reg.Lists(reg.sessions, d, parent)
    requires d !in reg.closing
    requires forall e :: Reg.Lists(reg.sessions, e, parent) <==> e in debug && debug[e].Retained?
    requires forall e :: Reg.Lists(reg.closing, e, parent) <==> e in debug && Listed(debug[e])
    ensures var n := Reg.Detach(reg, d);
            && (forall e :: Reg.Lists(n.sessions, e, parent) <==>
                  e in debug[d := Detached] && debug[d := Detached][e].Retained?)
            && (forall e :: Reg.Lists(n.closing, e, parent) <==>
                  e in debug[d := Detached] && Listed(debug[d := Detached][e]))
  {
    var n := Reg.Detach(reg, d);
    forall e ensures Reg.Lists(n.sessions, e, parent) <==> Reg.Lists(reg.sessions, e, parent) && e != d {}
    forall e ensures Reg.Lists(n.closing, e, parent) <==> Reg.Lists(reg.closing, e, parent) || e == d {}
    hide Reg.Lists, Reg.Detach;
  }

  lemma OwnDetach(a: State, d: DebugId)
    requires Shaped(a) && OwnIds(a.parent, a.reg, a.used)
    ensures OwnIds(a.parent, Reg.Detach(a.reg, d), a.used)
  {
  }

  lemma WorkStaged(parent: Reg.ParentId, reg: Reg.Registry, gwork: map<GroupRef, GroupStage>,
                   debug: map<DebugId, DebugStage>,
                   d: DebugId, stage: DebugStage)
    requires WorkHolds(parent, reg, gwork, debug) && d in debug && Advances(debug[d], stage)
    ensures WorkHolds(parent, reg, gwork, debug[d := stage])
  {
    hide Advances;
    AdvancesOf(debug[d], stage);
  }

  /** The stages of a debug Session follow one another. */
  predicate Advances(d: DebugStage, e: DebugStage) {
    || (d.Retained? && e.Detached?) || (d.Detached? && e.Settling?) || (d.Settling? && e.Settled?)
    || (d.Settled? && e.Completed?) || (d.Completed? && e.Gone?)
  }

  lemma AdvancesOf(d: DebugStage, e: DebugStage)
    requires Advances(d, e)
    ensures !e.Retained? && (Past(d) ==> Past(e)) && (Over(d) ==> Over(e))
  {
  }

  /** The group workers do not look at the lookup maps. */
  lemma WorkSame(parent: Reg.ParentId, r: Reg.Registry, q: Reg.Registry, gwork: map<GroupRef, GroupStage>,
                 debug: map<DebugId, DebugStage>)
    requires WorkHolds(parent, r, gwork, debug) && q.table == r.table && q.groups == r.groups && Reg.Formed(q)
    ensures WorkHolds(parent, q, gwork, debug)
  {
    hide JoinedAll, AskingOk;
  }

  lemma LeaseStaged(calls: map<Call, Pc>, leases: map<Call, PlanRef>, debug: map<DebugId, DebugStage>, d: DebugId,
                    stage: DebugStage)
    requires LeaseHolds(calls, leases, debug) && d in debug
    requires d in leases && MayLease(debug[d]) ==> MayLease(stage)
    ensures LeaseHolds(calls, leases, debug[d := stage])
  {
  }

  lemma KeepDetach(a: State, d: DebugId)
    requires Inv(a) && d in a.debug
    ensures Inv(DoDetach(a, d))
  {
    hide GateHolds, CompileHolds, CountHolds, ClosesHold, LeaseHolds, OpsHold, RegHolds, WorkHolds, StageHolds, OwnIds;
    ShapedOf(a);
    RegDetach(a, d);
    OwnDetach(a, d);
    WorkSame(a.parent, a.reg, Reg.Detach(a.reg, d), a.gwork, a.debug);
    if Staged(a, d, Retained) {
      WorkStaged(a.parent, Reg.Detach(a.reg, d), a.gwork, a.debug, d, Detached);
      LeaseStaged(a.calls, a.leases, a.debug, d, Detached);
      OpsMoved(a.debug, a.ops, d, Detached);
    }
  }

  lemma RegStaged(parent: Reg.ParentId, reg: Reg.Registry, calls: map<Call, Pc>, debug: map<DebugId, DebugStage>,
                  d: DebugId, stage: DebugStage)
    requires RegHolds(parent, reg, calls, debug) && d in debug && Listed(debug[d]) && Listed(stage)
    requires !debug[d].Completed?
    ensures RegHolds(parent, reg, calls, debug[d := stage])
  {
    assert debug[d := stage].Keys == debug.Keys;
  }

  /** One transition of the close operation together with the stage. */
  lemma KeepRestage(a: State, d: DebugId, stage: DebugStage, op: Phase)
    requires Inv(a) && d in a.debug
    requires (a.debug[d].Detached? && stage.Settling? && op.Started?)
          || (a.debug[d].Settled? && stage.Completed? && op.Finished?)
    ensures Inv(Restage(a, d, stage).(ops := a.ops[d := op]))
  {
    hide GateHolds, CompileHolds, CountHolds, ClosesHold, LeaseHolds, OpsHold, RegHolds, WorkHolds, StageHolds, OwnIds;
    RegStaged(a.parent, a.reg, a.calls, a.debug, d, stage);
    WorkStaged(a.parent, a.reg, a.gwork, a.debug, d, stage);
    LeaseStaged(a.calls, a.leases, a.debug, d, stage);
    OpsStaged(a.debug, a.ops, d, stage, op);
  }

  /** A caller that holds the session finds its close begun, and nobody begins
      it twice. */
  lemma KeepBeginSettle(a: State, d: DebugId)
    requires Inv(a) && d in a.debug && !a.debug[d].Retained?
    ensures d in a.ops && Inv(DoBeginSettle(a, d))
    ensures d in DoBeginSettle(a, d).ops && !DoBeginSettle(a, d).ops[d].Idle?
    ensures d in DoBeginSettle(a, d).debug && Past(DoBeginSettle(a, d).debug[d])
  {
    hide OpsHold;
    OpsAt(a.debug, a.ops, d);
    hide Inv;
    if a.ops[d].Idle? { KeepRestage(a, d, Settling, Started); }
  }

  lemma KeepComplete(a: State, d: DebugId, err: Errors)
    requires Inv(a) && Staged(a, d, Settled)
    ensures d in a.ops && a.ops[d].Started? && Inv(DoComplete(a, d, err))
  {
    hide OpsHold;
    OpsAt(a.debug, a.ops, d);
    hide Inv;
    KeepRestage(a, d, Completed, Finished(err));
  }

  lemma KeepSettle(a: State, d: DebugId)
    requires Inv(a) && Staged(a, d, Settling)
    ensures Inv(DoSettle(a, d))
  {
    hide GateHolds, CompileHolds, CountHolds, ClosesHold, LeaseHolds, OpsHold, RegHolds, WorkHolds, StageHolds, OwnIds;
    ShapedOf(a);
    KeepTerminate(a, d);
    var b := ReleaseLease(a, d);
    RegStaged(b.parent, b.reg, b.calls, b.debug, d, Settled);
    WorkStaged(b.parent, b.reg, b.gwork, b.debug, d, Settled);
    LeaseStaged(b.calls, b.leases, b.debug, d, Settled);
    OpsMoved(b.debug, b.ops, d, Settled);
  }

  lemma RegGone(a: State, d: DebugId)
    requires RegOkay(a) && Staged(a, d, Completed)
    ensures RegHolds(a.parent, a.reg.(closing := a.reg.closing - {d}), a.calls, a.debug[d := Gone])
  {
    assert a.debug[d := Gone].Keys == a.debug.Keys;
  }

  lemma RegShrink(parent: Reg.ParentId, reg: Reg.Registry, calls: map<Call, Pc>, debug: map<DebugId, DebugStage>,
                  d: DebugId)
    requires RegHolds(parent, reg, calls, debug) && parent in reg.groups && d in debug && debug[d].Gone?
    ensures RegHolds(parent, Reg.SetSessions(reg, reg.groups[parent], reg.table[reg.groups[parent]].sessions - {d}),
                     calls, debug)
  {
  }

  lemma WorkShrink(parent: Reg.ParentId, reg: Reg.Registry, gwork: map<GroupRef, GroupStage>,
                   debug: map<DebugId, DebugStage>, d: DebugId)
    requires WorkHolds(parent, reg, gwork, debug) && parent in reg.groups
    ensures WorkHolds(parent, Reg.SetSessions(reg, reg.groups[parent], reg.table[reg.groups[parent]].sessions - {d}),
                      gwork, debug)
  {
  }

  lemma RegFinish(a: State, d: DebugId)
    requires Shaped(a) && RegOkay(a) && Staged(a, d, Completed)
    ensures RegOkay(DoFinishDebug(a, d))
  {
    hide RegHolds;
    RegGone(a, d);
    var out := a.reg.(closing := a.reg.closing - {d});
    var debug := a.debug[d := Gone];
    if a.parent in out.groups {
      var g := out.groups[a.parent];
      RegShrink(a.parent, out, a.calls, debug, d);
      var n := Reg.SetSessions(out, g, out.table[g].sessions - {d});
      if Reg.Disposable(n.table[g]) { RegDropped(a.parent, n, a.calls, debug); }
    }
  }

  lemma WorkFinishes(parent: Reg.ParentId, reg: Reg.Registry, gwork: map<GroupRef, GroupStage>,
                     debug: map<DebugId, DebugStage>, d: DebugId)
    requires Reg.Formed(reg) && WorkHolds(parent, reg, gwork, debug)
    ensures WorkHolds(parent, Reg.FinishSession(reg, parent, d), gwork, debug)
  {
    hide WorkHolds;
    var out := reg.(closing := reg.closing - {d});
    WorkSame(parent, reg, out, gwork, debug);
    if parent in out.groups {
      var g := out.groups[parent];
      WorkShrink(parent, out, gwork, debug, d);
      var n := Reg.SetSessions(out, g, out.table[g].sessions - {d});
      if Reg.Disposable(n.table[g]) { WorkDropped(parent, n, gwork, debug); }
    }
  }

  lemma WorkFinish(a: State, d: DebugId)
    requires Shaped(a) && WorkOkay(a) && Staged(a, d, Completed)
    ensures WorkOkay(DoFinishDebug(a, d))
  {
    hide WorkHolds, PlansOk, Reg.Formed, Reg.FinishSession;
    WorkStaged(a.parent, a.reg, a.gwork, a.debug, d, Gone);
    WorkFinishes(a.parent, a.reg, a.gwork, a.debug[d := Gone], d);
  }

  lemma OwnFinish(a: State, d: DebugId)
    requires Shaped(a) && OwnIds(a.parent, a.reg, a.used)
    ensures OwnIds(a.parent, DoFinishDebug(a, d).reg, a.used)
  {
  }

  lemma KeepFinishDebug(a: State, d: DebugId)
    requires Inv(a) && Staged(a, d, Completed)
    ensures Inv(DoFinishDebug(a, d))
  {
    hide GateHolds, CompileHolds, CountHolds, ClosesHold, LeaseHolds, OpsHold, RegHolds, WorkHolds, StageHolds, OwnIds;
    ShapedOf(a);
    RegFinish(a, d);
    WorkFinish(a, d);
    OwnFinish(a, d);
    LeaseStaged(a.calls, a.leases, a.debug, d, Gone);
    OpsMoved(a.debug, a.ops, d, Gone);
  }

  // -------------------------------------------------------------- group steps

  lemma RegCloseGroup(a: State)
    requires Shaped(a) && RegOkay(a)
    ensures RegOkay(DoCloseGroup(a))
  {
    hide RegHolds;
    if a.parent in a.reg.groups {
      GroupHolders(a.parent, a.reg, a.calls, a.debug);
      RegGate(a.parent, a.reg, a.calls, a.debug, Commit(a.reg.table[a.reg.groups[a.parent]].gate), a.calls);
    }
  }

  lemma WorkCommitted(parent: Reg.ParentId, reg: Reg.Registry, gwork: map<GroupRef, GroupStage>,
                      debug: map<DebugId, DebugStage>)
    requires WorkHolds(parent, reg, gwork, debug) && Reg.Admits(reg, parent)
    ensures reg.groups[parent] !in gwork
    ensures var g := reg.groups[parent];
            WorkHolds(parent, Reg.SetGate(reg, g, Commit(reg.table[g].gate)), gwork[g := GroupWaiting], debug)
  {
    hide JoinedAll, AskingOk;
  }

  lemma WorkIdle(parent: Reg.ParentId, reg: Reg.Registry, gwork: map<GroupRef, GroupStage>,
                 debug: map<DebugId, DebugStage>)
    requires WorkHolds(parent, reg, gwork, debug) && parent in reg.groups
    ensures reg.table[reg.groups[parent]].gate.phase.Idle? <==> reg.groups[parent] !in gwork
  {
  }

  lemma WorkCloseGroup(a: State)
    requires Shaped(a) && WorkOkay(a)
    ensures WorkOkay(DoCloseGroup(a))
    ensures a.parent in a.reg.groups ==> a.reg.groups[a.parent] in DoCloseGroup(a).gwork
    ensures forall g <- a.gwork :: g in DoCloseGroup(a).gwork && DoCloseGroup(a).gwork[g] == a.gwork[g]
    ensures forall g <- DoCloseGroup(a).gwork - a.gwork.Keys :: DoCloseGroup(a).gwork[g].GroupWaiting?
  {
    hide WorkHolds;
    if Reg.Admits(a.reg, a.parent) {
      WorkCommitted(a.parent, a.reg, a.gwork, a.debug);
    } else if a.parent in a.reg.groups {
      WorkIdle(a.parent, a.reg, a.gwork, a.debug);
      WorkGate(a.parent, a.reg, a.gwork, a.debug, Commit(a.reg.table[a.reg.groups[a.parent]].gate));
    }
  }

  lemma StageMore(stage: Stage, gwork: map<GroupRef, GroupStage>, more: map<GroupRef, GroupStage>,
                  leases: map<Call, PlanRef>)
    requires StageHolds(stage, gwork, leases)
    requires forall g <- gwork :: g in more && more[g] == gwork[g]
    ensures StageHolds(stage, more, leases)
  {
  }

  lemma CloseGroupLists(a: State)
    requires Shaped(a)
    ensures DoCloseGroup(a).reg.sessions == a.reg.sessions && DoCloseGroup(a).reg.closing == a.reg.closing
  {
    hide Reg.Formed, PlansOk, Reg.Admits, Reg.BeginGroupClose;
  }

  lemma KeepCloseGroup(a: State)
    requires Inv(a)
    ensures Shaped(a) && Inv(DoCloseGroup(a))
  {
    hide PlansOk, Reg.Formed, Reg.BeginGroupClose;
    hide GateHolds, CompileHolds, CountHolds, ClosesHold, LeaseHolds, OpsHold, RegHolds, WorkHolds, StageHolds, OwnIds;
    ShapedOf(a);
    RegCloseGroup(a);
    WorkCloseGroup(a);
    CloseGroupLists(a);
    OwnSame(a.parent, a.reg, DoCloseGroup(a).reg, a.used, a.used);
    StageMore(a.stage, a.gwork, DoCloseGroup(a).gwork, a.leases);
  }

  lemma KeepCollect(a: State, g: GroupRef)
    requires Inv(a) && CanCollect(a, g)
    ensures Inv(DoCollect(a, g))
  {
    WorkCollect(a, g);
    hide GateHolds, CompileHolds, CountHolds, ClosesHold, LeaseHolds, OpsHold, RegHolds, WorkHolds, StageHolds, OwnIds;
    StageAt(a.stage, a.gwork, a.leases, g, DoCollect(a, g).gwork[g]);
  }

  lemma WorkCollect(a: State, g: GroupRef)
    requires WorkOkay(a) && RegOkay(a) && CanCollect(a, g)
    ensures WorkOkay(DoCollect(a, g))
  {
  }

  lemma StageAt(stage: Stage, gwork: map<GroupRef, GroupStage>, leases: map<Call, PlanRef>, g: GroupRef,
                work: GroupStage)
    requires StageHolds(stage, gwork, leases) && (work.GroupRemoved? ==> leases == map[])
    ensures StageHolds(stage, gwork[g := work], leases)
  {
  }

  /** The worker of a group moves on within its loop. */
  lemma KeepJoining(a: State, g: GroupRef, pending: set<DebugId>, asking: Asking)
    requires Inv(a) && Joins(a, g) && WorkInv(a.parent, a.reg, g, GroupJoining(pending, asking), a.debug)
    ensures Inv(a.(gwork := a.gwork[g := GroupJoining(pending, asking)]))
  {
    hide GateHolds, CompileHolds, CountHolds, ClosesHold, LeaseHolds, OpsHold, RegHolds, WorkHolds, StageHolds, OwnIds;
    hide WorkInv;
    WorkAt(a.parent, a.reg, a.gwork, a.debug, g, GroupJoining(pending, asking));
    StageAt(a.stage, a.gwork, a.leases, g, GroupJoining(pending, asking));
  }

  lemma WorkAt(parent: Reg.ParentId, reg: Reg.Registry, gwork: map<GroupRef, GroupStage>,
               debug: map<DebugId, DebugStage>, g: GroupRef, work: GroupStage)
    requires WorkHolds(parent, reg, gwork, debug) && g in gwork && WorkInv(parent, reg, g, work, debug)
    ensures WorkHolds(parent, reg, gwork[g := work], debug)
  {
    hide WorkInv;
  }

  /** What detachSession tells the worker: the session is held, or gone. */
  lemma Detaches(a: State, d: DebugId)
    requires Inv(a) && Shaped(a) && d in a.debug
    ensures d in Reg.Detach(a.reg, d).closing ==> d in DoDetach(a, d).debug && !DoDetach(a, d).debug[d].Retained?
    ensures d !in Reg.Detach(a.reg, d).closing ==> Over(a.debug[d])
  {
    hide GateHolds, CompileHolds, CountHolds, ClosesHold, LeaseHolds, OpsHold, WorkHolds, StageHolds;
    assert Reg.Lists(a.reg.sessions, d, a.parent) <==> d in a.reg.sessions;
    assert Reg.Lists(a.reg.closing, d, a.parent) <==> d in a.reg.closing;
  }

  lemma KeepAsk(a: State, g: GroupRef, d: DebugId)
    requires Inv(a) && Shaped(a) && CanAsk(a, g, d)
    ensures Inv(DoAsk(a, g, d))
  {
    hide Inv, DoDetach, Reg.Formed, PlansOk, Reg.Detach, WorkInv;
    Detaches(a, d);
    if d in Reg.Detach(a.reg, d).closing {
      KeepDetach(a, d);
      HoldsAsked(DoDetach(a, d), g, d);
      KeepJoining(DoDetach(a, d), g, a.gwork[g].pending, Holding(d));
    } else {
      StrikesOver(a, g, d);
      KeepJoining(a, g, a.gwork[g].pending - {d}, Nobody);
    }
  }

  lemma HoldsAsked(a: State, g: GroupRef, d: DebugId)
    requires Inv(a) && Joins(a, g) && d in a.gwork[g].pending && d in a.debug && !a.debug[d].Retained?
    ensures WorkInv(a.parent, a.reg, g, GroupJoining(a.gwork[g].pending, Holding(d)), a.debug)
  {
    hide Inv;
    WorkOfInv(a, g);
  }

  lemma StrikesOver(a: State, g: GroupRef, d: DebugId)
    requires Inv(a) && Joins(a, g) && d in a.debug && Over(a.debug[d])
    ensures WorkInv(a.parent, a.reg, g, GroupJoining(a.gwork[g].pending - {d}, Nobody), a.debug)
  {
    hide Inv, Over;
    WorkOfInv(a, g);
  }

  lemma WorkOfInv(a: State, g: GroupRef)
    requires Inv(a) && g in a.gwork
    ensures WorkInv(a.parent, a.reg, g, a.gwork[g], a.debug)
  {
    hide GateHolds, CompileHolds, CountHolds, ClosesHold, LeaseHolds, OpsHold, RegHolds, StageHolds, OwnIds;
  }

  lemma KeepBeginAsked(a: State, g: GroupRef)
    requires Inv(a) && Holds(a, g)
    ensures Inv(DoBeginAsked(a, g))
  {
    var d := a.gwork[g].asking.d;
    WorkOfInv(a, g);
    KeepBeginSettle(a, d);
    hide Inv;
    var b := DoBeginSettle(a, d);
    WorkOfInv(b, g);
    KeepJoining(b, g, a.gwork[g].pending, Awaited(d));
  }

  /** The worker waits only for a close that has begun. */
  lemma AwaitedBegun(a: State, g: GroupRef)
    requires Inv(a) && Awaits(a, g)
    ensures !a.ops[a.gwork[g].asking.d].Idle?
  {
    WorkOfInv(a, g);
    hide OpsHold;
    OpsAt(a.debug, a.ops, a.gwork[g].asking.d);
  }

  lemma KeepJoin(a: State, g: GroupRef)
    requires Inv(a) && CanJoin(a, g)
    ensures Inv(DoJoin(a, g))
  {
    var d := a.gwork[g].asking.d;
    WorkOfInv(a, g);
    assert Over(a.debug[d]) by { OpsAt(a.debug, a.ops, d); }
    hide Inv, WorkInv;
    StrikesOver(a, g, d);
    KeepJoining(a, g, a.gwork[g].pending - {d}, Nobody);
  }

  lemma WorkFinished(a: State, g: GroupRef, err: Errors)
    requires Shaped(a) && WorkOkay(a) && Working(a, g, ALL_JOINED)
    ensures a.parent in a.reg.groups && a.reg.groups[a.parent] == g
    ensures a.reg.table[g].gate.holders == {} && a.reg.table[g].gate.phase.Started?
    ensures WorkOkay(DoFinishGroup(a, g, err))
  {
  }

  lemma KeepFinishGroup(a: State, g: GroupRef, err: Errors)
    requires Inv(a) && Working(a, g, ALL_JOINED)
    ensures Inv(DoFinishGroup(a, g, err))
  {
    hide GateHolds, CompileHolds, CountHolds, ClosesHold, LeaseHolds, OpsHold, RegHolds, WorkHolds, StageHolds, OwnIds;
    ShapedOf(a);
    WorkFinished(a, g, err);
    GroupHolders(a.parent, a.reg, a.calls, a.debug);
    RegGate(a.parent, a.reg, a.calls, a.debug, Publish(a.reg.table[g].gate, err), a.calls);
    OwnSame(a.parent, a.reg, DoFinishGroup(a, g, err).reg, a.used, a.used);
    StageAt(a.stage, a.gwork, a.leases, g, GroupFinished);
  }

  /** A group that has finished, or is not registered, leaves no lease. */
  lemma NoLeaseLeft(a: State)
    requires LeaseOkay(a) && RegOkay(a) && WorkOkay(a)
    requires a.parent in a.reg.groups ==>
               a.reg.groups[a.parent] in a.gwork && a.gwork[a.reg.groups[a.parent]].GroupFinished?
    ensures a.leases == map[]
  {
  }

  lemma WorkRemoved(a: State, g: GroupRef)
    requires Shaped(a) && WorkOkay(a) && Working(a, g, GroupFinished)
    ensures a.parent in a.reg.groups && a.reg.groups[a.parent] == g
    ensures a.reg.table[g].gate.holders == {} && JoinedAll(a.reg.table[g].sessions, {}, a.debug)
    ensures WorkOkay(DoRemoveGroup(a, g))
  {
    hide JoinedAll, AskingOk;
  }

  lemma KeepRemoveGroup(a: State, g: GroupRef)
    requires Inv(a) && Working(a, g, GroupFinished)
    ensures Inv(DoRemoveGroup(a, g))
  {
    hide GateHolds, CompileHolds, CountHolds, ClosesHold, LeaseHolds, OpsHold, RegHolds, WorkHolds, StageHolds, OwnIds;
    ShapedOf(a);
    WorkRemoved(a, g);
    NoLeaseLeft(a);
    RegDropped(a.parent, a.reg, a.calls, a.debug);
    OwnSame(a.parent, a.reg, DoRemoveGroup(a, g).reg, a.used, a.used);
    StageAt(a.stage, a.gwork, a.leases, g, GroupRemoved);
  }

  lemma KeepStop(a: State)
    requires Inv(a)
    ensures Inv(a.(reg := a.reg.(closed := true)))
  {
    hide GateHolds, CompileHolds, CountHolds, ClosesHold, LeaseHolds, OpsHold, RegHolds, WorkHolds, StageHolds, OwnIds;
    var stopped := a.reg.(closed := true);
    ShapedOf(a);
    RegStopped(a.parent, a.reg, a.calls, a.debug);
    WorkSame(a.parent, a.reg, stopped, a.gwork, a.debug);
    OwnSame(a.parent, a.reg, stopped, a.used, a.used);
  }

  lemma RegStopped(parent: Reg.ParentId, reg: Reg.Registry, calls: map<Call, Pc>, debug: map<DebugId, DebugStage>)
    requires RegHolds(parent, reg, calls, debug)
    ensures RegHolds(parent, reg.(closed := true), calls, debug)
  {
  }

  lemma RegElsewhere(a: State, reg: Reg.Registry)
    requires RegOkay(a) && GroupEnabled(a, Elsewhere(reg))
    ensures RegOkay(a.(reg := reg))
  {
    ListsElsewhere(a.parent, a.reg, reg);
    GroupsElsewhere(a.parent, a.reg, reg);
    hide Reg.Lists, Reg.SameId, Reg.SameGroup, OwnIds;
  }

  lemma ListsElsewhere(parent: Reg.ParentId, r: Reg.Registry, n: Reg.Registry)
    requires Reg.SameFor(r, n, parent)
    ensures forall d :: Reg.Lists(r.sessions, d, parent) <==> Reg.Lists(n.sessions, d, parent)
    ensures forall d :: Reg.Lists(r.closing, d, parent) <==> Reg.Lists(n.closing, d, parent)
  {
    hide Reg.Lists;
    forall d ensures Reg.Lists(r.sessions, d, parent) <==> Reg.Lists(n.sessions, d, parent) {
      assert Reg.SameId(r.sessions, n.sessions, d, parent);
    }
    forall d ensures Reg.Lists(r.closing, d, parent) <==> Reg.Lists(n.closing, d, parent) {
      assert Reg.SameId(r.closing, n.closing, d, parent);
    }
  }

  lemma GroupsElsewhere(parent: Reg.ParentId, r: Reg.Registry, n: Reg.Registry)
    requires Reg.SameFor(r, n, parent)
    ensures forall g <- r.table :: r.table[g].parent == parent ==> g in n.table && n.table[g] == r.table[g]
    ensures forall g <- n.table :: n.table[g].parent == parent ==> g in r.table && r.table[g] == n.table[g]
  {
    forall g | g in r.table && r.table[g].parent == parent ensures g in n.table && n.table[g] == r.table[g] {
      assert Reg.SameGroup(r.table, n.table, g, parent);
    }
    forall g | g in n.table && n.table[g].parent == parent ensures g in r.table && r.table[g] == n.table[g] {
      assert Reg.SameGroup(r.table, n.table, g, parent);
    }
  }

  lemma WorkElsewhere(a: State, reg: Reg.Registry)
    requires WorkOkay(a) && GroupEnabled(a, Elsewhere(reg))
    ensures WorkOkay(a.(reg := reg))
  {
    GroupsElsewhere(a.parent, a.reg, reg);
    hide JoinedAll, AskingOk;
  }

  lemma KeepElsewhere(a: State, reg: Reg.Registry)
    requires Inv(a) && GroupEnabled(a, Elsewhere(reg))
    ensures Inv(a.(reg := reg))
  {
    hide GateHolds, CompileHolds, CountHolds, ClosesHold, LeaseHolds, OpsHold, RegHolds, WorkHolds, StageHolds, OwnIds;
    RegElsewhere(a, reg);
    WorkElsewhere(a, reg);
  }

  // --------------------------------------------------------------- exec steps

  lemma ClosesStage(debugPlan: Option<PlanRef>, stage: Stage, calls: map<Call, Pc>, closes: map<PlanRef, nat>,
                    next: Stage)
    requires ClosesHold(debugPlan, stage, calls, closes)
    requires !stage.ClosingPlan? && !next.ClosingPlan?
    requires next.Publishing? || next.Closed? ==> stage.Publishing?
    ensures ClosesHold(debugPlan, next, calls, closes)
  {
    forall p | p in closes ensures Held(p, debugPlan, stage, calls) == Held(p, debugPlan, next, calls) {}
    hide Held;
  }

  lemma GateStage(gate: Admission, stage: Stage, calls: map<Call, Pc>, others: set<Call>, next: Stage)
    requires GateHolds(gate, stage, calls, others) && (Drained(next) ==> gate.holders == {})
    requires stage.Open? == next.Open? && stage.Closed? == next.Closed?
    ensures GateHolds(gate, next, calls, others)
  {
  }

  lemma GateCommit(gate: Admission, calls: map<Call, Pc>, others: set<Call>)
    requires GateHolds(gate, Open, calls, others)
    ensures GateHolds(Commit(gate), Waiting, calls, others)
  {
  }

  lemma GatePublish(gate: Admission, calls: map<Call, Pc>, others: set<Call>, err: Errors)
    requires GateHolds(gate, Publishing, calls, others)
    ensures gate.holders == {} && gate.phase.Started?
    ensures GateHolds(Publish(gate, err), Closed, calls, others)
  {
  }

  lemma KeepBeginClose(a: State)
    requires Inv(a) && a.stage.Open?
    ensures Inv(a.(stage := Waiting, gate := Commit(a.gate)))
  {
    hide GateHolds, CompileHolds, CountHolds, ClosesHold, LeaseHolds, OpsHold, RegHolds, WorkHolds, OwnIds;
    GateCommit(a.gate, a.calls, a.others);
    ClosesStage(a.plans.debugPlan, a.stage, a.calls, a.closes, Waiting);
  }

  lemma KeepDrain(a: State)
    requires Inv(a) && a.stage.Waiting? && a.gate.holders == {}
    ensures Inv(a.(stage := Hooking))
  {
    hide GateHolds, CompileHolds, CountHolds, ClosesHold, LeaseHolds, OpsHold, RegHolds, WorkHolds, OwnIds;
    GateStage(a.gate, a.stage, a.calls, a.others, Hooking);
    ClosesStage(a.plans.debugPlan, a.stage, a.calls, a.closes, Hooking);
  }

  lemma HookStarted(a: State)
    requires Shaped(a) && StageOkay(a) && a.stage.Hooking? && WorkOkay(a) && RegOkay(a) && LeaseOkay(a)
    ensures StageOkay(DoBeginHook(a))
  {
    hide RegHolds, LeaseHolds, WorkHolds;
    WorkCloseGroup(a);
    if a.parent !in a.reg.groups {
      NoLeaseLeft(a);
    } else {
      NotRemoved(a);
    }
  }

  lemma NotRemoved(a: State)
    requires Shaped(a) && WorkOkay(a) && a.parent in a.reg.groups
    ensures DoCloseGroup(a).gwork[a.reg.groups[a.parent]] != GroupRemoved
  {
  }

  lemma KeepBeginHook(a: State)
    requires Inv(a) && a.stage.Hooking?
    ensures Shaped(a) && Inv(DoBeginHook(a))
  {
    hide GateHolds, CompileHolds, CountHolds, ClosesHold, LeaseHolds, OpsHold, RegHolds, WorkHolds, StageHolds, OwnIds;
    KeepCloseGroup(a);
    HookStarted(a);
    var b := DoCloseGroup(a);
    var next := DoBeginHook(a).stage;
    DrainedGate(a);
    GateStage(b.gate, b.stage, b.calls, b.others, next);
    ClosesStage(b.plans.debugPlan, b.stage, b.calls, b.closes, next);
  }

  lemma DrainedGate(a: State)
    requires GateOkay(a) && Drained(a.stage)
    ensures a.gate.holders == {}
  {
  }

  lemma HookEnded(a: State)
    requires StageOkay(a) && CanEndHook(a) && LeaseOkay(a) && RegOkay(a) && WorkOkay(a)
    ensures a.leases == map[]
  {
    var g := a.stage.group;
    assert WorkInv(a.parent, a.reg, g, a.gwork[g], a.debug);
    if a.gwork[g].GroupFinished? { NoLeaseLeft(a); }
  }

  lemma KeepEndHook(a: State)
    requires Inv(a) && CanEndHook(a)
    ensures Inv(a.(stage := Hooked))
  {
    hide GateHolds, CompileHolds, CountHolds, ClosesHold, LeaseHolds, OpsHold, RegHolds, WorkHolds, OwnIds;
    HookEnded(a);
    DrainedGate(a);
    GateStage(a.gate, a.stage, a.calls, a.others, Hooked);
    ClosesStage(a.plans.debugPlan, a.stage, a.calls, a.closes, Hooked);
  }

  /** After the hook neither a lease nor a compilation is left. */
  lemma HookLeavesNothing(a: State)
    requires GateOkay(a) && CompileOkay(a) && CountOkay(a) && StageOkay(a) && HookReturned(a.stage)
    ensures a.leases == map[] && a.plans.runtimes == 0 && a.plans.runtimeDone.None?
    ensures !a.plans.compiling && a.plans.compileDone.None?
    ensures forall c <- a.calls :: !InExec(a.calls[c])
  {
  }

  lemma KeepCapture(a: State)
    requires Inv(a) && a.stage.Hooked?
    ensures Inv(a.(stage := Capturing(a.plans.compileDone, a.plans.runtimeDone)))
  {
    hide GateHolds, CompileHolds, CountHolds, ClosesHold, LeaseHolds, OpsHold, RegHolds, WorkHolds, OwnIds;
    var next := Capturing(a.plans.compileDone, a.plans.runtimeDone);
    HookLeavesNothing(a);
    DrainedGate(a);
    GateStage(a.gate, a.stage, a.calls, a.others, next);
    ClosesStage(a.plans.debugPlan, a.stage, a.calls, a.closes, next);
  }

  lemma ClosesTaken(debugPlan: Option<PlanRef>, stage: Stage, calls: map<Call, Pc>, closes: map<PlanRef, nat>)
    requires ClosesHold(debugPlan, stage, calls, closes) && stage.Capturing?
    ensures ClosesHold(None, ClosingPlan(debugPlan), calls, closes)
  {
    var next := ClosingPlan(debugPlan);
    forall p | p in closes ensures Held(p, debugPlan, stage, calls) == Held(p, None, next, calls) {}
    hide Held;
  }

  lemma ClosesSettled(stage: Stage, calls: map<Call, Pc>, closes: map<PlanRef, nat>, paid: map<PlanRef, nat>)
    requires ClosesHold(None, stage, calls, closes) && stage.ClosingPlan?
    requires paid == if stage.plan.None? then closes else closes[stage.plan.value := closes[stage.plan.value] + 1]
    ensures ClosesHold(None, Publishing, calls, paid)
  {
    forall p | p in closes && stage.plan != Some(p)
      ensures Held(p, None, stage, calls) == Held(p, None, Publishing, calls) {}
    if stage.plan.Some? {
      assert Held(stage.plan.value, None, stage, calls) && !Held(stage.plan.value, None, Publishing, calls);
    }
    hide Held;
  }

  lemma CountEmptied(p: Plans)
    requires CountHolds(p, map[])
    ensures CountHolds(p.(debugPlan := None), map[])
  {
  }

  lemma KeepTake(a: State)
    requires Inv(a) && CanTake(a)
    ensures Inv(DoTake(a))
  {
    hide GateHolds, CompileHolds, CountHolds, ClosesHold, LeaseHolds, OpsHold, RegHolds, WorkHolds, OwnIds;
    HookLeavesNothing(a);
    DrainedGate(a);
    GateStage(a.gate, a.stage, a.calls, a.others, ClosingPlan(a.plans.debugPlan));
    ClosesTaken(a.plans.debugPlan, a.stage, a.calls, a.closes);
    CountEmptied(a.plans);
    CompileSame(a.plans, DoTake(a).plans, a.calls);
  }

  lemma PlanGiven(a: State)
    requires ClosesOkay(a) && a.stage.ClosingPlan?
    ensures a.plans.debugPlan.None?
  {
  }

  lemma KeepClosePlan(a: State)
    requires Inv(a) && CanClosePlan(a)
    ensures Inv(DoClosePlan(a))
  {
    hide GateHolds, CompileHolds, CountHolds, ClosesHold, LeaseHolds, OpsHold, RegHolds, WorkHolds, OwnIds;
    DrainedGate(a);
    GateStage(a.gate, a.stage, a.calls, a.others, Publishing);
    PlanGiven(a);
    ClosesSettled(a.stage, a.calls, a.closes, DoClosePlan(a).closes);
  }

  lemma KeepPublish(a: State, err: Errors)
    requires Inv(a) && a.stage.Publishing?
    ensures Inv(a.(stage := Closed, gate := Publish(a.gate, err)))
  {
    hide GateHolds, CompileHolds, CountHolds, ClosesHold, LeaseHolds, OpsHold, RegHolds, WorkHolds, OwnIds;
    GatePublish(a.gate, a.calls, a.others, err);
    ClosesStage(a.plans.debugPlan, a.stage, a.calls, a.closes, Closed);
  }
}
