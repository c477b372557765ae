/** The inductive invariant of the close protocol and the proof that every step
    keeps it. Each conjunct is a family over one kind of object; a family is
    re-established from the one object a step touches plus a frame lemma. */
module CloseInvariant {
  import opened Base
  import opened Lifecycle
  import opened ExecutionRegistry
  import opened SessionRegistry
  import opened CloseProtocol

  predicate Collected(stage: Stage) { !stage.Open? && !stage.Waiting? }

  predicate Done(stage: Stage) { stage.Published? || stage.Retired? }

  predicate PlanPending(stage: Stage) { !Done(stage) && !stage.Publishing? }

  ghost predicate Settled(table: map<ExecutionId, Entry>, children: seq<ExecutionId>) {
    forall e <- children :: e in table && table[e].close.Finished?
  }

  /** The joined close results of executions, in order. */
  ghost function ChildErrors(table: map<ExecutionId, Entry>, children: seq<ExecutionId>): Errors
    requires Settled(table, children)
  {
    if children == [] then []
    else Join(ChildErrors(table, children[..|children| - 1]), table[children[|children| - 1]].close.result)
  }

  ghost predicate AllClosed(sessions: map<SessionId, SessionEntry>, list: seq<SessionId>) {
    forall s <- list :: s in sessions && sessions[s].children.phase.Finished?
  }

  /** The joined close results of sessions, in order. */
  ghost function SessionErrors(sessions: map<SessionId, SessionEntry>, list: seq<SessionId>): Errors
    requires AllClosed(sessions, list)
  {
    if list == [] then []
    else Join(SessionErrors(sessions, list[..|list| - 1]), sessions[list[|list| - 1]].children.phase.result)
  }

  /** A registered session: entry state, gate phase, stage and lookup agree. */
  ghost predicate SessionInv(s: SessionId, c: SessionEntry, b: Stage, result: Errors, listed: bool, w: WorkspaceId,
                             runtimes: map<Call, SessionId>) {
    && c.workspace == w
    && (c.state.Active? <==> b.Open?)
    && (c.children.phase.Idle? <==> b.Open?)
    && (c.children.phase.Finished? <==> Done(b))
    && (Done(b) ==> c.children.phase.result == result)
    && (Collected(b) ==> c.children.holders == {})
    && (listed <==> !b.Retired?)
    && (forall call <- c.children.holders :: call in runtimes && runtimes[call] == s)
  }

  /** A session sits in its home group until it is retired, and that group is
      the registered one of its workspace until the session is closed. */
  ghost predicate HomeInv(s: SessionId, h: Home, b: Stage, table: map<GroupRef, WorkspaceGroup>,
                          groups: map<WorkspaceId, GroupRef>) {
    && h.group in table && table[h.group].workspace == h.workspace
    && (s in table[h.group].sessions || b.Retired?)
    && (!Done(b) ==> h.workspace in groups && groups[h.workspace] == h.group)
  }

  /** The admitted executions are known, and early leavers are gone. */
  ghost predicate AdmittedInv(s: SessionId, early: set<ExecutionId>, admitted: set<ExecutionId>,
                              table: map<ExecutionId, Entry>, closers: map<ExecutionId, Closer>) {
    && early <= admitted
    && (forall e <- admitted :: e in table && table[e].session == s)
    && (forall e <- early :: e in closers && closers[e].Gone?)
  }

  /** After collection: the list holds every admitted execution except the early
      leavers exactly once, and the result joins the waited-for ones in order. */
  ghost predicate JoinedInv(s: SessionId, b: Stage, k: SessionWork, admitted: set<ExecutionId>, exec: Registry,
                            closers: map<ExecutionId, Closer>) {
    && Enumerates(k.children, admitted - k.early)
    && (forall e <- admitted :: e in closers)
    && (s in exec.groups ==> b.Joining? && exec.groups[s].state.Closing? && exec.groups[s].members <= admitted)
    && k.joined <= |k.children| && (!b.Joining? ==> k.joined == |k.children|)
    && Settled(exec.table, k.children[..k.joined])
    && ChildErrors(exec.table, k.children[..k.joined]) <= k.result
    && (b.Joining? || b.Hooking? ==> k.result == ChildErrors(exec.table, k.children[..k.joined]))
  }

  /** Collection sees every admitted execution except the early leavers, and
      nothing leaves uncollected after that. */
  ghost predicate ChildrenInv(s: SessionId, b: Stage, k: SessionWork, admitted: set<ExecutionId>, exec: Registry,
                              closers: map<ExecutionId, Closer>) {
    && AdmittedInv(s, k.early, admitted, exec.table, closers)
    && (if Collected(b) then JoinedInv(s, b, k, admitted, exec, closers)
        else
          && (s in exec.groups ==> exec.groups[s] == Group(RegistryState.Active, admitted - k.early))
          && (s !in exec.groups ==> admitted == {})
          && k.children == [] && k.joined == 0 && k.result == [])
  }

  /** The plan is closed at most once, and is open exactly while the creator
      has yet to commit it or the close worker has yet to release it. */
  ghost predicate PlanInv(s: SessionId, p: Plan, stage: map<SessionId, Stage>, creations: map<Call, Creation>) {
    && p.closes == (if p.held then 0 else 1)
    && (s in stage ==> (p.held <==> PlanPending(stage[s])))
    && (s !in stage && p.held ==> p.creator in creations && creations[p.creator].Prepared?
                                  && creations[p.creator].session == s)
  }

  ghost predicate ExecutionInv(e: ExecutionId, x: Entry, listed: bool, admitted: map<SessionId, set<ExecutionId>>,
                               closers: map<ExecutionId, Closer>) {
    && x.session in admitted && e in admitted[x.session]
    && (x.state.Active? <==> x.close.Idle?)
    && (x.close.Idle? <==> e !in closers)
    && (e in closers ==> (x.close.Started? <==> closers[e].Settling?))
    && (listed <==> !(e in closers && closers[e].Gone?))
  }

  /** A group in use is registered, and a registered group is in use. */
  ghost predicate GroupInv(g: GroupRef, t: WorkspaceGroup, groups: map<WorkspaceId, GroupRef>,
                           home: map<SessionId, Home>, creations: map<Call, Creation>) {
    var registered := t.workspace in groups && groups[t.workspace] == g;
    && (t.gate.holders != {} || t.gate.phase.Started? ==> registered)
    && (registered ==> !Idling(t) && !t.gate.phase.Finished?)
    && (forall s <- t.sessions :: s in home && home[s].group == g)
    && (forall call <- t.gate.holders :: call in creations && creations[call].group == g)
  }

  /** The group close worker waits for every retained session. */
  ghost predicate GroupWorkInv(t: WorkspaceGroup, k: GroupWork, sessions: map<SessionId, SessionEntry>) {
    && !t.gate.phase.Idle?
    && (t.gate.phase.Finished? <==> k.stage.GroupClosed?)
    && (t.gate.phase.Finished? ==> t.gate.phase.result == k.result)
    && (k.stage.GroupWaiting? ==> k == GROUP_STARTED)
    && (!k.stage.GroupWaiting? ==> t.gate.holders == {} && Enumerates(k.list, t.sessions))
    && k.joined <= |k.list| && (k.stage.GroupClosed? ==> k.joined == |k.list|)
    && AllClosed(sessions, k.list[..k.joined])
    && (k.asked ==> k.joined < |k.list| && k.list[k.joined] in sessions
                    && !sessions[k.list[k.joined]].children.phase.Idle?)
    && k.result == SessionErrors(sessions, k.list[..k.joined])
  }

  /** An in-flight creation is admitted to its group, and a prepared session is
      known to nobody else. */
  ghost predicate CreationInv(call: Call, c: Creation, table: map<GroupRef, WorkspaceGroup>,
                              plans: map<SessionId, Plan>, stage: map<SessionId, Stage>) {
    && c.group in table && table[c.group].workspace == c.workspace
    && call in table[c.group].gate.holders
    && (c.Prepared? ==>
          c.session in plans && c.session !in stage && plans[c.session].creator == call && plans[c.session].held)
  }

  ghost predicate RuntimeInv(call: Call, s: SessionId, sessions: map<SessionId, SessionEntry>) {
    s in sessions && call in sessions[s].children.holders
  }

  ghost predicate Domains(st: State) {
    && !st.panicked && Shaped(st)
    && st.stage.Keys == st.work.Keys == st.home.Keys == st.admitted.Keys == st.reg.sessions.Keys
    && st.stage.Keys <= st.plans.Keys
    && st.exec.groups.Keys <= st.stage.Keys && st.closers.Keys <= st.exec.table.Keys
    && st.gwork.Keys <= st.reg.table.Keys
  }

  ghost predicate AllSessions(sessions: map<SessionId, SessionEntry>, stage: map<SessionId, Stage>,
                              work: map<SessionId, SessionWork>, entries: set<SessionId>,
                              home: map<SessionId, Home>, runtimes: map<Call, SessionId>) {
    forall s <- sessions :: s in stage && s in work && s in home &&
      SessionInv(s, sessions[s], stage[s], work[s].result, s in entries, home[s].workspace, runtimes)
  }

  ghost predicate AllHomes(home: map<SessionId, Home>, stage: map<SessionId, Stage>,
                           table: map<GroupRef, WorkspaceGroup>, groups: map<WorkspaceId, GroupRef>) {
    forall s <- home :: s in stage && HomeInv(s, home[s], stage[s], table, groups)
  }

  ghost predicate AllChildren(stage: map<SessionId, Stage>, work: map<SessionId, SessionWork>,
                              admitted: map<SessionId, set<ExecutionId>>, exec: Registry,
                              closers: map<ExecutionId, Closer>) {
    forall s <- work :: s in stage && s in admitted && ChildrenInv(s, stage[s], work[s], admitted[s], exec, closers)
  }

  ghost predicate AllPlans(plans: map<SessionId, Plan>, stage: map<SessionId, Stage>, creations: map<Call, Creation>) {
    forall s <- plans :: PlanInv(s, plans[s], stage, creations)
  }

  ghost predicate AllExecutions(exec: Registry, admitted: map<SessionId, set<ExecutionId>>,
                                closers: map<ExecutionId, Closer>) {
    forall e <- exec.table :: ExecutionInv(e, exec.table[e], e in exec.public, admitted, closers)
  }

  ghost predicate AllGroups(table: map<GroupRef, WorkspaceGroup>, groups: map<WorkspaceId, GroupRef>,
                            home: map<SessionId, Home>, creations: map<Call, Creation>) {
    forall g <- table :: GroupInv(g, table[g], groups, home, creations)
  }

  ghost predicate AllGroupWork(table: map<GroupRef, WorkspaceGroup>, gwork: map<GroupRef, GroupWork>,
                               sessions: map<SessionId, SessionEntry>) {
    forall g <- table :: if g in gwork then GroupWorkInv(table[g], gwork[g], sessions) else table[g].gate.phase.Idle?
  }

  ghost predicate AllCreations(creations: map<Call, Creation>, table: map<GroupRef, WorkspaceGroup>,
                               plans: map<SessionId, Plan>, stage: map<SessionId, Stage>) {
    forall call <- creations :: CreationInv(call, creations[call], table, plans, stage)
  }

  ghost predicate AllRuntimes(runtimes: map<Call, SessionId>, sessions: map<SessionId, SessionEntry>) {
    forall call <- runtimes :: RuntimeInv(call, runtimes[call], sessions)
  }

  ghost predicate SessionsOk(st: State) {
    AllSessions(st.reg.sessions, st.stage, st.work, st.reg.entries, st.home, st.runtimes)
  }
  ghost predicate HomesOk(st: State) { AllHomes(st.home, st.stage, st.reg.table, st.reg.groups) }
  ghost predicate ChildrenOk(st: State) { AllChildren(st.stage, st.work, st.admitted, st.exec, st.closers) }
  ghost predicate PlansOk(st: State) { AllPlans(st.plans, st.stage, st.creations) }
  ghost predicate ExecutionsOk(st: State) { AllExecutions(st.exec, st.admitted, st.closers) }
  ghost predicate GroupsOk(st: State) { AllGroups(st.reg.table, st.reg.groups, st.home, st.creations) }
  ghost predicate GroupWorkOk(st: State) { AllGroupWork(st.reg.table, st.gwork, st.reg.sessions) }
  ghost predicate CreationsOk(st: State) { AllCreations(st.creations, st.reg.table, st.plans, st.stage) }
  ghost predicate RuntimesOk(st: State) { AllRuntimes(st.runtimes, st.reg.sessions) }

  ghost predicate Inv(st: State) {
    && Domains(st) && SessionsOk(st) && HomesOk(st) && ChildrenOk(st) && PlansOk(st) && ExecutionsOk(st)
    && GroupsOk(st) && GroupWorkOk(st) && CreationsOk(st) && RuntimesOk(st)
  }

  /** Two maps agree everywhere except perhaps at `k`. */
  ghost predicate SameBut<K(!new), V>(m: map<K, V>, n: map<K, V>, k: K) {
    forall t :: t != k ==> (t in m <==> t in n) && (t in m ==> n[t] == m[t])
  }

  // ------------------------------------- one element changes, the rest is framed

  lemma SessionsAt(a: State, b: State, s: SessionId)
    requires SessionsOk(a)
    requires SameBut(a.reg.sessions, b.reg.sessions, s) && SameBut(a.stage, b.stage, s) && SameBut(a.work, b.work, s)
    requires SameBut(a.home, b.home, s)
    requires forall t :: t != s ==> (t in a.reg.entries <==> t in b.reg.entries)
    requires forall call :: call in a.runtimes && a.runtimes[call] != s ==>
                              call in b.runtimes && b.runtimes[call] == a.runtimes[call]
    requires s in b.reg.sessions ==> (s in b.stage && s in b.work && s in b.home &&
               SessionInv(s, b.reg.sessions[s], b.stage[s], b.work[s].result,
                          s in b.reg.entries, b.home[s].workspace, b.runtimes))
    ensures SessionsOk(b)
  {
  }

  /** Every session of the group, except perhaps `s`, is closed. */
  ghost predicate Deserted(st: State, g: GroupRef, s: SessionId) {
    forall t <- st.home :: st.home[t].group == g && t != s ==> t in st.stage && Done(st.stage[t])
  }

  /** Groups keep their workspace and, except for `s`, their sessions; a
      registration is only dropped for a deserted group. */
  ghost predicate Tended(a: State, b: State, s: SessionId) {
    && (forall g <- a.reg.table ::
          && g in b.reg.table && b.reg.table[g].workspace == a.reg.table[g].workspace
          && (forall t <- a.reg.table[g].sessions :: t != s ==> t in b.reg.table[g].sessions))
    && (forall w <- a.reg.groups ::
          (w in b.reg.groups && b.reg.groups[w] == a.reg.groups[w]) || Deserted(a, a.reg.groups[w], s))
  }

  lemma HomesAt(a: State, b: State, s: SessionId)
    requires HomesOk(a) && SameBut(a.home, b.home, s) && SameBut(a.stage, b.stage, s) && Tended(a, b, s)
    requires s in b.home ==> s in b.stage && HomeInv(s, b.home[s], b.stage[s], b.reg.table, b.reg.groups)
    ensures HomesOk(b)
  {
  }

  lemma ChildErrorsFrame(t: map<ExecutionId, Entry>, u: map<ExecutionId, Entry>, children: seq<ExecutionId>)
    requires Settled(t, children)
    requires forall e <- children :: e in u && u[e].close == t[e].close
    ensures Settled(u, children) && ChildErrors(u, children) == ChildErrors(t, children)
  {
    if children != [] {
      assert children[|children| - 1] in children;
      ChildErrorsFrame(t, u, children[..|children| - 1]);
    }
  }

  lemma ChildrenAt(a: State, b: State, s: SessionId)
    requires ChildrenOk(a)
    requires SameBut(a.stage, b.stage, s) && SameBut(a.work, b.work, s) && SameBut(a.admitted, b.admitted, s)
    requires SameBut(a.exec.groups, b.exec.groups, s)
    requires forall e <- a.exec.table :: a.exec.table[e].session != s ==>
               && e in b.exec.table && b.exec.table[e] == a.exec.table[e]
               && (e in a.closers <==> e in b.closers) && (e in a.closers ==> b.closers[e] == a.closers[e])
    requires s in b.work ==> (s in b.stage && s in b.admitted &&
               ChildrenInv(s, b.stage[s], b.work[s], b.admitted[s], b.exec, b.closers))
    ensures ChildrenOk(b)
  {
    forall t | t in b.work && t != s
      ensures t in b.stage && t in b.admitted && ChildrenInv(t, b.stage[t], b.work[t], b.admitted[t], b.exec, b.closers)
    {
      var k := a.work[t];
      assert ChildrenInv(t, a.stage[t], k, a.admitted[t], a.exec, a.closers);
      if Collected(a.stage[t]) {
        forall e | e in k.children[..k.joined] ensures e in a.admitted[t] { assert e in k.children; }
        ChildErrorsFrame(a.exec.table, b.exec.table, k.children[..k.joined]);
      }
    }
  }

  lemma PlansAt(a: State, b: State, s: SessionId)
    requires PlansOk(a) && SameBut(a.plans, b.plans, s) && SameBut(a.stage, b.stage, s)
    requires forall call <- a.creations :: a.creations[call].Prepared? && a.creations[call].session != s ==>
               call in b.creations && b.creations[call] == a.creations[call]
    requires s in b.plans ==> PlanInv(s, b.plans[s], b.stage, b.creations)
    ensures PlansOk(b)
  {
  }

  lemma ExecutionsAt(a: State, b: State, e: ExecutionId)
    requires ExecutionsOk(a) && SameBut(a.exec.table, b.exec.table, e) && SameBut(a.closers, b.closers, e)
    requires forall d :: d != e ==> (d in a.exec.public <==> d in b.exec.public)
    requires forall s <- a.admitted :: s in b.admitted && a.admitted[s] <= b.admitted[s]
    requires e in b.exec.table ==> ExecutionInv(e, b.exec.table[e], e in b.exec.public, b.admitted, b.closers)
    ensures ExecutionsOk(b)
  {
  }

  lemma GroupsAt(a: State, b: State, g: GroupRef, w: WorkspaceId)
    requires GroupsOk(a) && SameBut(a.reg.table, b.reg.table, g) && SameBut(a.reg.groups, b.reg.groups, w)
    requires g in b.reg.table && b.reg.table[g].workspace == w
    requires w in a.reg.groups && a.reg.groups[w] != g ==> w in b.reg.groups && b.reg.groups[w] == a.reg.groups[w]
    requires w in b.reg.groups && b.reg.groups[w] != g ==> w in a.reg.groups && a.reg.groups[w] == b.reg.groups[w]
    requires forall s <- a.home :: s in b.home && b.home[s] == a.home[s]
    requires forall call <- a.creations :: a.creations[call].group != g ==>
               call in b.creations && b.creations[call].group == a.creations[call].group
    requires GroupInv(g, b.reg.table[g], b.reg.groups, b.home, b.creations)
    ensures GroupsOk(b)
  {
  }

  lemma SessionErrorsFrame(m: map<SessionId, SessionEntry>, n: map<SessionId, SessionEntry>, list: seq<SessionId>)
    requires AllClosed(m, list)
    requires forall s <- list :: s in n && n[s].children.phase == m[s].children.phase
    ensures AllClosed(n, list) && SessionErrors(n, list) == SessionErrors(m, list)
  {
    if list != [] {
      assert list[|list| - 1] in list;
      SessionErrorsFrame(m, n, list[..|list| - 1]);
    }
  }

  /** A committed close stays committed and a published result stays. */
  ghost predicate Progresses(m: map<SessionId, SessionEntry>, n: map<SessionId, SessionEntry>) {
    forall s <- m ::
      && s in n && (!m[s].children.phase.Idle? ==> !n[s].children.phase.Idle?)
      && (m[s].children.phase.Finished? ==> n[s].children.phase == m[s].children.phase)
  }

  lemma GroupWorkKept(t: WorkspaceGroup, k: GroupWork, m: map<SessionId, SessionEntry>, n: map<SessionId, SessionEntry>)
    requires GroupWorkInv(t, k, m) && Progresses(m, n)
    ensures GroupWorkInv(t, k, n)
  {
    SessionErrorsFrame(m, n, k.list[..k.joined]);
  }

  lemma GroupWorkAt(a: State, b: State, g: GroupRef)
    requires GroupWorkOk(a) && SameBut(a.reg.table, b.reg.table, g) && SameBut(a.gwork, b.gwork, g)
    requires Progresses(a.reg.sessions, b.reg.sessions)
    requires g in b.reg.table ==> if g in b.gwork then GroupWorkInv(b.reg.table[g], b.gwork[g], b.reg.sessions)
                                  else b.reg.table[g].gate.phase.Idle?
    ensures GroupWorkOk(b)
  {
    forall h | h in b.reg.table && h != g && h in b.gwork
      ensures GroupWorkInv(b.reg.table[h], b.gwork[h], b.reg.sessions) {
      GroupWorkKept(a.reg.table[h], a.gwork[h], a.reg.sessions, b.reg.sessions);
    }
  }

  lemma GroupWorkFrame(a: State, b: State)
    requires GroupWorkOk(a) && a.reg.table == b.reg.table && a.gwork == b.gwork
    requires Progresses(a.reg.sessions, b.reg.sessions)
    ensures GroupWorkOk(b)
  {
    forall h | h in b.reg.table && h in b.gwork ensures GroupWorkInv(b.reg.table[h], b.gwork[h], b.reg.sessions) {
      GroupWorkKept(a.reg.table[h], a.gwork[h], a.reg.sessions, b.reg.sessions);
    }
  }

  lemma CreationsAt(a: State, b: State, call: Call)
    requires CreationsOk(a) && SameBut(a.creations, b.creations, call)
    requires forall g <- a.reg.table ::
               && g in b.reg.table && b.reg.table[g].workspace == a.reg.table[g].workspace
               && (forall c <- a.reg.table[g].gate.holders :: c != call ==> c in b.reg.table[g].gate.holders)
    requires forall s <- a.plans :: a.plans[s].creator != call && s !in a.stage ==>
               s in b.plans && b.plans[s] == a.plans[s] && s !in b.stage
    requires call in b.creations ==> CreationInv(call, b.creations[call], b.reg.table, b.plans, b.stage)
    ensures CreationsOk(b)
  {
  }

  lemma RuntimesAt(a: State, b: State, call: Call)
    requires RuntimesOk(a) && SameBut(a.runtimes, b.runtimes, call)
    requires forall s <- a.reg.sessions ::
               && s in b.reg.sessions
               && (forall c <- a.reg.sessions[s].children.holders ::
                     c != call ==> c in b.reg.sessions[s].children.holders)
    requires call in b.runtimes ==> RuntimeInv(call, b.runtimes[call], b.reg.sessions)
    ensures RuntimesOk(b)
  {
  }

  lemma HomesFrame(a: State, b: State)
    requires HomesOk(a) && a.home == b.home && a.stage == b.stage
    requires forall g <- a.reg.table ::
               && g in b.reg.table && b.reg.table[g].workspace == a.reg.table[g].workspace
               && a.reg.table[g].sessions <= b.reg.table[g].sessions
    requires forall w <- a.reg.groups ::
               (w in b.reg.groups && b.reg.groups[w] == a.reg.groups[w])
               || (forall t <- a.home :: a.home[t].group == a.reg.groups[w] ==> t in a.stage && Done(a.stage[t]))
    ensures HomesOk(b)
  {
  }

  lemma PlansFrame(a: State, b: State)
    requires PlansOk(a) && a.plans == b.plans && a.stage == b.stage
    requires forall call <- a.creations :: a.creations[call].Prepared? ==>
               call in b.creations && b.creations[call] == a.creations[call]
    ensures PlansOk(b)
  {
  }

  lemma ExecutionsFrame(a: State, b: State)
    requires ExecutionsOk(a) && a.exec.table == b.exec.table && a.exec.public == b.exec.public && a.closers == b.closers
    requires forall s <- a.admitted :: s in b.admitted && a.admitted[s] <= b.admitted[s]
    ensures ExecutionsOk(b)
  {
  }

  lemma CreationsFrame(a: State, b: State)
    requires CreationsOk(a) && a.creations == b.creations && a.stage.Keys == b.stage.Keys
    requires forall s <- a.plans :: s !in a.stage ==> s in b.plans && b.plans[s] == a.plans[s]
    requires forall g <- a.reg.table ::
               && g in b.reg.table && b.reg.table[g].workspace == a.reg.table[g].workspace
               && a.reg.table[g].gate.holders <= b.reg.table[g].gate.holders
    ensures CreationsOk(b)
  {
  }

  lemma RuntimesFrame(a: State, b: State)
    requires RuntimesOk(a) && a.runtimes == b.runtimes
    requires forall s <- a.reg.sessions ::
               s in b.reg.sessions && a.reg.sessions[s].children.holders <= b.reg.sessions[s].children.holders
    ensures RuntimesOk(b)
  {
  }

  // ------------------------------------------------- every step keeps Inv

  lemma SessionOf(a: State, s: SessionId)
    requires Domains(a) && SessionsOk(a) && s in a.stage
    ensures SessionInv(s, a.reg.sessions[s], a.stage[s], a.work[s].result,
                       s in a.reg.entries, a.home[s].workspace, a.runtimes)
  {
  }

  lemma HomeOf(a: State, s: SessionId)
    requires Domains(a) && HomesOk(a) && s in a.stage
    ensures HomeInv(s, a.home[s], a.stage[s], a.reg.table, a.reg.groups)
  {
  }

  lemma ChildrenOf(a: State, s: SessionId)
    requires Domains(a) && ChildrenOk(a) && s in a.stage
    ensures ChildrenInv(s, a.stage[s], a.work[s], a.admitted[s], a.exec, a.closers)
  {
  }

  lemma PlanOf(a: State, s: SessionId)
    requires PlansOk(a) && s in a.plans
    ensures PlanInv(s, a.plans[s], a.stage, a.creations)
  {
  }

  lemma GroupOf(a: State, g: GroupRef)
    requires GroupsOk(a) && g in a.reg.table
    ensures GroupInv(g, a.reg.table[g], a.reg.groups, a.home, a.creations)
  {
  }

  lemma GroupWorkOf(a: State, g: GroupRef)
    requires GroupWorkOk(a) && g in a.reg.table
    ensures if g in a.gwork then GroupWorkInv(a.reg.table[g], a.gwork[g], a.reg.sessions)
            else a.reg.table[g].gate.phase.Idle?
  {
  }

  lemma CreationOf(a: State, call: Call)
    requires CreationsOk(a) && call in a.creations
    ensures CreationInv(call, a.creations[call], a.reg.table, a.plans, a.stage)
  {
  }

  lemma RuntimeOf(a: State, call: Call)
    requires RuntimesOk(a) && call in a.runtimes
    ensures RuntimeInv(call, a.runtimes[call], a.reg.sessions)
  {
  }

  lemma ExecutionOf(a: State, e: ExecutionId)
    requires ExecutionsOk(a) && e in a.exec.table
    ensures ExecutionInv(e, a.exec.table[e], e in a.exec.public, a.admitted, a.closers)
  {
  }

  /** A group without sessions has only closed ones behind it. */
  lemma EmptyDeserted(a: State, g: GroupRef, s: SessionId)
    requires HomesOk(a) && g in a.reg.table && a.reg.table[g].sessions <= {s}
    ensures Deserted(a, g, s)
    ensures s !in a.reg.table[g].sessions ==>
              forall t <- a.home :: a.home[t].group == g ==> t in a.stage && Done(a.stage[t])
  {
  }

  lemma KeepPrepare(a: State, call: Call, s: SessionId)
    requires Inv(a) && CanPrepare(a, call, s)
    ensures Inv(DoPrepare(a, call, s))
  {
    hide AllSessions, AllHomes, AllChildren, AllPlans, AllExecutions, AllGroups, AllGroupWork, AllCreations,
         AllRuntimes;
    var b, c := DoPrepare(a, call, s), a.creations[call];
    CreationOf(a, call);
    assert PlansOk(b) by { PlansAt(a, b, s); }
    assert GroupsOk(b) by { GroupOf(a, c.group); GroupsAt(a, b, c.group, c.workspace); }
    assert CreationsOk(b) by { CreationsAt(a, b, call); }
  }

  lemma KeepFailPrepare(a: State, call: Call)
    requires Inv(a) && CanFailPrepare(a, call)
    ensures Inv(DoFailPrepare(a, call))
  {
    hide AllSessions, AllHomes, AllChildren, AllPlans, AllExecutions, AllGroups, AllGroupWork, AllCreations,
         AllRuntimes;
    var b, c := DoFailPrepare(a, call), a.creations[call];
    CreationOf(a, call);
    assert PlansOk(b) by { PlansFrame(a, b); }
    assert GroupsOk(b) by { GroupOf(a, c.group); GroupsAt(a, b, c.group, c.workspace); }
    assert CreationsOk(b) by { CreationsAt(a, b, call); }
  }

  /** Registering a new group, committed to close or entered by a creator. */
  lemma KeepOpenGroup(a: State, b: State, w: WorkspaceId)
    requires Inv(a) && w !in a.reg.groups
    requires b.reg == EnsureGroup(a.reg, w).(table := b.reg.table) && SameBut(a.reg.table, b.reg.table, a.reg.made)
    requires a.reg.made in b.reg.table && b.reg.table[a.reg.made].workspace == w
    requires b == a.(reg := b.reg, gwork := b.gwork, creations := b.creations)
    requires SameBut(a.gwork, b.gwork, a.reg.made)
    requires forall call <- a.creations :: call in b.creations && b.creations[call] == a.creations[call]
    requires GroupInv(a.reg.made, b.reg.table[a.reg.made], b.reg.groups, b.home, b.creations)
    requires if a.reg.made in b.gwork then GroupWorkInv(b.reg.table[a.reg.made], b.gwork[a.reg.made], b.reg.sessions)
             else b.reg.table[a.reg.made].gate.phase.Idle?
    ensures Domains(b) && HomesOk(b) && PlansOk(b) && GroupsOk(b) && GroupWorkOk(b)
  {
    hide AllSessions, AllHomes, AllChildren, AllPlans, AllExecutions, AllGroups, AllGroupWork, AllCreations,
         AllRuntimes;
    assert PlansOk(b) by { PlansFrame(a, b); }
    assert HomesOk(b) by { HomesFrame(a, b); }
    assert GroupsOk(b) by { GroupsAt(a, b, a.reg.made, w); }
    assert GroupWorkOk(b) by { GroupWorkAt(a, b, a.reg.made); }
  }

  lemma KeepEnterGroup(a: State, call: Call, w: WorkspaceId)
    requires Inv(a) && FreshCall(a, call) && (a.reg.closed || w in a.reg.groups)
    ensures Inv(DoBeginCreation(a, call, w))
  {
    hide AllSessions, AllHomes, AllChildren, AllPlans, AllExecutions, AllGroups, AllGroupWork, AllCreations,
         AllRuntimes;
    var b := DoBeginCreation(a, call, w);
    if a.reg.closed { return; }
    var g := a.reg.groups[w];
    assert PlansOk(b) by { PlansFrame(a, b); }
    assert HomesOk(b) by { HomesFrame(a, b); }
    assert GroupsOk(b) by { GroupOf(a, g); GroupsAt(a, b, g, w); }
    assert GroupWorkOk(b) by { GroupWorkOf(a, g); GroupWorkAt(a, b, g); }
    assert CreationsOk(b) by { CreationsAt(a, b, call); }
  }

  lemma KeepNewGroup(a: State, call: Call, w: WorkspaceId)
    requires Inv(a) && FreshCall(a, call) && !a.reg.closed && w !in a.reg.groups
    ensures Inv(DoBeginCreation(a, call, w))
  {
    hide AllSessions, AllHomes, AllChildren, AllPlans, AllExecutions, AllGroups, AllGroupWork, AllCreations,
         AllRuntimes;
    var b := DoBeginCreation(a, call, w);
    assert a.reg.made !in a.gwork;
    KeepOpenGroup(a, b, w);
    assert CreationsOk(b) by { CreationsAt(a, b, call); }
  }

  lemma KeepBeginCreation(a: State, call: Call, w: WorkspaceId)
    requires Inv(a) && FreshCall(a, call)
    ensures Inv(DoBeginCreation(a, call, w))
  {
    hide AllSessions, AllHomes, AllChildren, AllPlans, AllExecutions, AllGroups, AllGroupWork, AllCreations,
         AllRuntimes;
    if a.reg.closed || w in a.reg.groups {
      KeepEnterGroup(a, call, w);
    } else {
      KeepNewGroup(a, call, w);
    }
  }

  lemma KeepReject(a: State, call: Call, cancelled: bool)
    requires Inv(a) && CanCommit(a, call)
    requires !CommitAllowed(a.reg, a.creations[call].workspace, a.creations[call].group, cancelled)
    ensures Inv(DoCommit(a, call, cancelled))
  {
    hide AllSessions, AllHomes, AllChildren, AllPlans, AllExecutions, AllGroups, AllGroupWork, AllCreations,
         AllRuntimes;
    var b, c := DoCommit(a, call, cancelled), a.creations[call];
    CreationOf(a, call);
    assert PlansOk(b) by { PlanOf(a, c.session); PlansAt(a, b, c.session); }
    assert CreationsOk(b) by { CreationsAt(a, b, call); }
    assert GroupsOk(b) by { GroupOf(a, c.group); GroupsAt(a, b, c.group, c.workspace); }
  }

  /** A committed session is new everywhere. */
  lemma CommitSessionSide(a: State, call: Call)
    requires Inv(a) && CanCommit(a, call)
    requires CommitAllowed(a.reg, a.creations[call].workspace, a.creations[call].group, false)
    ensures var b := DoCommit(a, call, false); SessionsOk(b) && HomesOk(b) && RuntimesOk(b)
  {
    hide AllSessions, AllHomes, AllChildren, AllPlans, AllExecutions, AllGroups, AllGroupWork, AllCreations,
         AllRuntimes,
      Formed, WellFormed;
    var b, s := DoCommit(a, call, false), a.creations[call].session;
    CreationOf(a, call);
    assert SessionsOk(b) by { SessionsAt(a, b, s); }
    assert HomesOk(b) by { HomesAt(a, b, s); }
    assert RuntimesOk(b) by { RuntimesFrame(a, b); }
  }

  lemma CommitChildSide(a: State, call: Call)
    requires Inv(a) && CanCommit(a, call)
    requires CommitAllowed(a.reg, a.creations[call].workspace, a.creations[call].group, false)
    ensures var b := DoCommit(a, call, false); ChildrenOk(b) && ExecutionsOk(b) && PlansOk(b)
  {
    hide AllSessions, AllHomes, AllChildren, AllPlans, AllExecutions, AllGroups, AllGroupWork, AllCreations,
         AllRuntimes;
    var b, s := DoCommit(a, call, false), a.creations[call].session;
    CreationOf(a, call);
    assert ChildrenOk(b) by { ChildrenAt(a, b, s); }
    assert ExecutionsOk(b) by { ExecutionsFrame(a, b); }
    assert PlansOk(b) by { PlanOf(a, s); PlansAt(a, b, s); }
  }

  lemma CommitGroupSide(a: State, call: Call)
    requires Inv(a) && CanCommit(a, call)
    requires CommitAllowed(a.reg, a.creations[call].workspace, a.creations[call].group, false)
    ensures var b := DoCommit(a, call, false); GroupsOk(b) && CreationsOk(b)
  {
    hide AllSessions, AllHomes, AllChildren, AllPlans, AllExecutions, AllGroups, AllGroupWork, AllCreations,
         AllRuntimes,
      Formed, WellFormed;
    var b, c := DoCommit(a, call, false), a.creations[call];
    CreationOf(a, call);
    assert CreationsOk(b) by { CreationsAt(a, b, call); }
    assert GroupsOk(b) by { GroupOf(a, c.group); GroupsAt(a, b, c.group, c.workspace); }
  }

  lemma CommitGroupWorkSide(a: State, call: Call)
    requires Inv(a) && CanCommit(a, call)
    requires CommitAllowed(a.reg, a.creations[call].workspace, a.creations[call].group, false)
    ensures GroupWorkOk(DoCommit(a, call, false))
  {
    hide AllSessions, AllHomes, AllChildren, AllPlans, AllExecutions, AllGroups, AllGroupWork, AllCreations,
         AllRuntimes,
      Formed, WellFormed;
    var c := a.creations[call];
    CreationOf(a, call);
    GroupWorkOf(a, c.group);
    GroupWorkAt(a, DoCommit(a, call, false), c.group);
  }

  lemma KeepCommit(a: State, call: Call, cancelled: bool)
    requires Inv(a) && CanCommit(a, call)
    ensures Inv(DoCommit(a, call, cancelled))
  {
    hide AllSessions, AllHomes, AllChildren, AllPlans, AllExecutions, AllGroups, AllGroupWork, AllCreations,
         AllRuntimes;
    var b, c := DoCommit(a, call, cancelled), a.creations[call];
    if !CommitAllowed(a.reg, c.workspace, c.group, cancelled) {
      KeepReject(a, call, cancelled);
    } else {
      CommitSessionSide(a, call);
      CommitChildSide(a, call);
      CommitGroupSide(a, call);
      CommitGroupWorkSide(a, call);
    }
  }

  lemma KeepEndCreation(a: State, call: Call)
    requires Inv(a) && CanEndCreation(a, call)
    ensures Inv(DoEndCreation(a, call))
  {
    hide AllSessions, AllHomes, AllChildren, AllPlans, AllExecutions, AllGroups, AllGroupWork, AllCreations,
         AllRuntimes,
      Formed, WellFormed;
    var b, c := DoEndCreation(a, call), a.creations[call];
    CreationOf(a, call);
    assert PlansOk(b) by { PlansFrame(a, b); }
    assert CreationsOk(b) by { CreationsAt(a, b, call); }
    assert HomesOk(b) by { if a.reg.table[c.group].sessions == {} { EmptyDeserted(a, c.group, 0); } HomesFrame(a, b); }
    assert GroupsOk(b) by { GroupOf(a, c.group); GroupsAt(a, b, c.group, c.workspace); }
    assert GroupWorkOk(b) by { GroupWorkOf(a, c.group); GroupWorkAt(a, b, c.group); }
  }

  lemma KeepBeginRuntime(a: State, call: Call, s: SessionId)
    requires Inv(a) && FreshCall(a, call)
    ensures Inv(DoBeginRuntime(a, call, s))
  {
    hide AllSessions, AllHomes, AllChildren, AllPlans, AllExecutions, AllGroups, AllGroupWork, AllCreations,
         AllRuntimes,
      Formed, WellFormed;
    var b := DoBeginRuntime(a, call, s);
    if RuntimeAllowed(a.reg, s) {
      SessionOf(a, s);
      assert SessionsOk(b) by { SessionsAt(a, b, s); }
      assert GroupWorkOk(b) by { GroupWorkFrame(a, b); }
      assert RuntimesOk(b) by { RuntimesAt(a, b, call); }
    }
  }

  lemma ChildrenAdd(a: State, call: Call, e: ExecutionId)
    requires Domains(a) && ChildrenOk(a) && CanAdd(a, call, e) && !Collected(a.stage[a.runtimes[call]])
    ensures !AddPanics(a.exec, e, a.runtimes[call]) && ChildrenOk(DoAdd(a, call, e))
  {
    hide AllChildren;
    ChildrenOf(a, a.runtimes[call]);
    ChildrenAt(a, DoAdd(a, call, e), a.runtimes[call]);
  }

  lemma KeepAdd(a: State, call: Call, e: ExecutionId)
    requires Inv(a) && CanAdd(a, call, e)
    ensures !AddPanics(a.exec, e, a.runtimes[call])
    ensures Inv(DoAdd(a, call, e))
  {
    hide AllSessions, AllHomes, AllChildren, AllPlans, AllExecutions, AllGroups, AllGroupWork, AllCreations,
         AllRuntimes;
    assert !Collected(a.stage[a.runtimes[call]]) by { RuntimeOf(a, call); SessionOf(a, a.runtimes[call]); }
    ChildrenAdd(a, call, e);
    ExecutionsAt(a, DoAdd(a, call, e), e);
  }

  lemma KeepEndRuntime(a: State, call: Call)
    requires Inv(a) && CanEndRuntime(a, call)
    ensures Inv(DoEndRuntime(a, call))
  {
    hide AllSessions, AllHomes, AllChildren, AllPlans, AllExecutions, AllGroups, AllGroupWork, AllCreations,
         AllRuntimes;
    var b, s := DoEndRuntime(a, call), a.runtimes[call];
    RuntimeOf(a, call);
    assert SessionsOk(b) by { SessionOf(a, s); SessionsAt(a, b, s); }
    assert GroupWorkOk(b) by { GroupWorkFrame(a, b); }
    assert RuntimesOk(b) by { RuntimesAt(a, b, call); }
  }

  /** Changing one execution that no finished join has read keeps ChildrenInv. */
  lemma ChildrenTouch(a: State, b: State, e: ExecutionId)
    requires Domains(a) && ChildrenOk(a) && ExecutionsOk(a) && e in a.exec.table && e in b.exec.table
    requires !a.exec.table[e].close.Finished? && b.exec.table[e].session == a.exec.table[e].session
    requires SameBut(a.exec.table, b.exec.table, e) && SameBut(a.closers, b.closers, e) && e in b.closers
    requires a.exec.groups == b.exec.groups && a.stage == b.stage && a.work == b.work && a.admitted == b.admitted
    ensures ChildrenOk(b)
  {
    hide AllChildren, AllExecutions;
    ExecutionOf(a, e);
    var s := a.exec.table[e].session;
    ChildrenOf(a, s);
    if Collected(a.stage[s]) {
      ChildErrorsFrame(a.exec.table, b.exec.table, a.work[s].children[..a.work[s].joined]);
    }
    ChildrenAt(a, b, s);
  }

  lemma KeepCloseExecution(a: State, e: ExecutionId)
    requires Inv(a)
    ensures Inv(DoCloseExecution(a, e))
  {
    hide AllSessions, AllHomes, AllChildren, AllPlans, AllExecutions, AllGroups, AllGroupWork, AllCreations,
         AllRuntimes;
    var b := DoCloseExecution(a, e);
    if e in a.exec.public {
      ExecutionOf(a, e);
      if a.exec.table[e].state.Active? {
        assert ExecutionsOk(b) by { ExecutionsAt(a, b, e); }
        assert ChildrenOk(b) by { ChildrenTouch(a, b, e); }
      } else {
        assert b.exec.table == a.exec.table;
      }
    }
  }

  lemma KeepSettle(a: State, e: ExecutionId, err: Errors)
    requires Inv(a) && CanSettle(a, e)
    ensures Inv(DoSettle(a, e, err))
  {
    hide AllSessions, AllHomes, AllChildren, AllPlans, AllExecutions, AllGroups, AllGroupWork, AllCreations,
         AllRuntimes;
    var b := DoSettle(a, e, err);
    ExecutionOf(a, e);
    assert ExecutionsOk(b) by { ExecutionsAt(a, b, e); }
    assert ChildrenOk(b) by { ChildrenTouch(a, b, e); }
  }

  lemma ChildrenDetach(a: State, e: ExecutionId)
    requires Domains(a) && ChildrenOk(a) && CanDetach(a, e) && a.exec.table[e].close.Finished?
    requires e in a.admitted[a.exec.table[e].session]
    requires a.reg.sessions[a.exec.table[e].session].children.phase.Idle? <==> a.stage[a.exec.table[e].session].Open?
    ensures ChildrenOk(DoDetach(a, e))
  {
    hide AllChildren;
    ChildrenOf(a, a.exec.table[e].session);
    ChildrenAt(a, DoDetach(a, e), a.exec.table[e].session);
  }

  lemma KeepDetach(a: State, e: ExecutionId)
    requires Inv(a) && CanDetach(a, e)
    ensures Inv(DoDetach(a, e))
  {
    hide AllSessions, AllHomes, AllChildren, AllPlans, AllExecutions, AllGroups, AllGroupWork, AllCreations,
         AllRuntimes,
      Formed, WellFormed;
    var b, s := DoDetach(a, e), a.exec.table[e].session;
    ExecutionOf(a, e);
    SessionOf(a, s);
    assert ExecutionsOk(b) by { ExecutionsAt(a, b, e); }
    assert SessionsOk(b) by { SessionsAt(a, b, s); }
    assert ChildrenOk(b) by { ChildrenDetach(a, e); }
  }

  /** Stopping admission does not disturb the children. */
  lemma ChildrenStopped(a: State, s: SessionId, retained: bool)
    requires Domains(a) && ChildrenOk(a) && s in a.stage && a.stage[s].Open? && CloseOwned(a.reg, s, retained)
    ensures ChildrenOk(DoCloseSession(a, s, retained))
  {
    hide AllChildren;
    ChildrenOf(a, s);
    ChildrenAt(a, DoCloseSession(a, s, retained), s);
  }

  /** A stage change that neither opens, closes nor retires a session. */
  lemma StageAt(a: State, b: State, s: SessionId)
    requires Domains(a) && HomesOk(a) && PlansOk(a) && CreationsOk(a) && s in a.stage && s in b.stage
    requires SameBut(a.stage, b.stage, s) && a.home == b.home && a.reg.table == b.reg.table
    requires a.reg.groups == b.reg.groups
    requires a.plans == b.plans && a.creations == b.creations
    requires Done(a.stage[s]) == Done(b.stage[s]) && a.stage[s].Retired? == b.stage[s].Retired?
    requires PlanPending(a.stage[s]) == PlanPending(b.stage[s])
    ensures HomesOk(b) && PlansOk(b) && CreationsOk(b)
  {
    hide AllHomes, AllPlans, AllCreations;
    assert HomesOk(b) by { HomeOf(a, s); HomesAt(a, b, s); }
    assert PlansOk(b) by { PlanOf(a, s); PlansAt(a, b, s); }
    assert CreationsOk(b) by { CreationsFrame(a, b); }
  }

  /** The parts of the invariant that watch the gates of sessions. */
  lemma GatesAt(a: State, b: State, s: SessionId)
    requires SessionsOk(a) && GroupWorkOk(a) && RuntimesOk(a) && s in a.reg.sessions
    requires b.reg == a.reg.(sessions := b.reg.sessions) && SameBut(a.reg.sessions, b.reg.sessions, s)
    requires s in b.reg.sessions
    requires SameBut(a.stage, b.stage, s) && a.work == b.work && a.home == b.home && a.runtimes == b.runtimes
    requires a.gwork == b.gwork
    requires Progresses(a.reg.sessions, b.reg.sessions)
    requires a.reg.sessions[s].children.holders <= b.reg.sessions[s].children.holders
    requires s in b.stage && s in b.work && s in b.home &&
               SessionInv(s, b.reg.sessions[s], b.stage[s], b.work[s].result,
                          s in b.reg.entries, b.home[s].workspace, b.runtimes)
    ensures SessionsOk(b) && GroupWorkOk(b) && RuntimesOk(b)
  {
    hide AllSessions, AllGroupWork, AllRuntimes;
    assert SessionsOk(b) by { SessionsAt(a, b, s); }
    assert GroupWorkOk(b) by { GroupWorkFrame(a, b); }
    assert RuntimesOk(b) by { RuntimesFrame(a, b); }
  }

  lemma StoppedGates(a: State, s: SessionId, retained: bool)
    requires Inv(a) && CloseOwned(a.reg, s, retained)
    ensures a.stage[s].Open? && !SessionClosePanics(a.reg, s, retained)
    ensures var b := DoCloseSession(a, s, retained); SessionsOk(b) && GroupWorkOk(b) && RuntimesOk(b)
  {
    hide AllSessions, AllHomes, AllChildren, AllPlans, AllExecutions, AllGroups, AllGroupWork, AllCreations,
         AllRuntimes;
    SessionOf(a, s);
    GatesAt(a, DoCloseSession(a, s, retained), s);
  }

  lemma StoppedRest(a: State, s: SessionId, retained: bool)
    requires Inv(a) && CloseOwned(a.reg, s, retained) && s in a.stage && a.stage[s].Open?
    ensures var b := DoCloseSession(a, s, retained); HomesOk(b) && ChildrenOk(b) && PlansOk(b) && CreationsOk(b)
  {
    hide AllSessions, AllHomes, AllChildren, AllPlans, AllExecutions, AllGroups, AllGroupWork, AllCreations,
         AllRuntimes,
      Formed, WellFormed;
    hide BeginSession;
    ChildrenStopped(a, s, retained);
    StageAt(a, DoCloseSession(a, s, retained), s);
  }

  lemma KeepCloseSession(a: State, s: SessionId, retained: bool)
    requires Inv(a)
    ensures !SessionClosePanics(a.reg, s, retained)
    ensures Inv(DoCloseSession(a, s, retained))
  {
    hide AllSessions, AllHomes, AllChildren, AllPlans, AllExecutions, AllGroups, AllGroupWork, AllCreations,
         AllRuntimes,
      Formed, WellFormed;
    if CloseOwned(a.reg, s, retained) {
      StoppedGates(a, s, retained);
      StoppedRest(a, s, retained);
    } else {
      assert DoCloseSession(a, s, retained) == a;
    }
  }

  lemma MembersBegun(a: State, s: SessionId, children: seq<ExecutionId>)
    requires Domains(a) && ExecutionsOk(a) && CanCollect(a, s, children)
    ensures ExecutionsOk(DoCollect(a, s, children))
    ensures forall e <- Members(a.exec, s) :: e in DoCollect(a, s, children).closers
  {
    var b := DoCollect(a, s, children);
    forall e | e in b.exec.table
      ensures ExecutionInv(e, b.exec.table[e], e in b.exec.public, b.admitted, b.closers)
      ensures e in Members(a.exec, s) ==> e in b.closers
    {
      hide AllExecutions;
      ExecutionOf(a, e);
    }
  }

  lemma CollectedAdmitted(a: State, s: SessionId, children: seq<ExecutionId>)
    requires Domains(a) && ChildrenOk(a) && ExecutionsOk(a) && CanCollect(a, s, children)
    ensures var b := DoCollect(a, s, children);
            && AdmittedInv(s, b.work[s].early, b.admitted[s], b.exec.table, b.closers)
            && (forall e <- b.admitted[s] :: e in b.closers)
  {
    hide AllChildren, AllExecutions;
    ChildrenOf(a, s);
    MembersBegun(a, s, children);
  }

  /** The collected list is every admitted execution but the early leavers. */
  lemma CollectedChildren(a: State, s: SessionId, children: seq<ExecutionId>)
    requires Domains(a) && ChildrenOk(a) && ExecutionsOk(a) && CanCollect(a, s, children)
    ensures var b := DoCollect(a, s, children);
            ChildrenInv(s, b.stage[s], b.work[s], b.admitted[s], b.exec, b.closers)
  {
    hide AllChildren, AllExecutions;
    ChildrenOf(a, s);
    CollectedAdmitted(a, s, children);
    hide AdmittedInv;
    assert Members(a.exec, s) == a.admitted[s] - a.work[s].early;
    assert children[..0] == [];
  }

  lemma CollectFrame(a: State, s: SessionId, children: seq<ExecutionId>)
    requires Domains(a) && CanCollect(a, s, children)
    requires forall e <- Members(a.exec, s) :: a.exec.table[e].session == s
    ensures var b := DoCollect(a, s, children);
            && SameBut(a.exec.groups, b.exec.groups, s)
            && forall e <- a.exec.table :: a.exec.table[e].session != s ==>
                 && e in b.exec.table && b.exec.table[e] == a.exec.table[e]
                 && (e in a.closers <==> e in b.closers) && (e in a.closers ==> b.closers[e] == a.closers[e])
  {
  }

  lemma ChildrenCollect(a: State, s: SessionId, children: seq<ExecutionId>)
    requires Domains(a) && ChildrenOk(a) && ExecutionsOk(a) && CanCollect(a, s, children)
    ensures ChildrenOk(DoCollect(a, s, children))
  {
    hide AllChildren, AllExecutions;
    CollectedChildren(a, s, children);
    assert forall e <- Members(a.exec, s) :: a.exec.table[e].session == s by { ChildrenOf(a, s); }
    CollectFrame(a, s, children);
    hide ChildrenInv, BeginMembers;
    ChildrenAt(a, DoCollect(a, s, children), s);
  }

  lemma KeepCollect(a: State, s: SessionId, children: seq<ExecutionId>)
    requires Inv(a) && CanCollect(a, s, children)
    ensures Inv(DoCollect(a, s, children))
  {
    hide AllSessions, AllHomes, AllChildren, AllPlans, AllExecutions, AllGroups, AllGroupWork, AllCreations,
         AllRuntimes;
    var b := DoCollect(a, s, children);
    assert ExecutionsOk(b) by { MembersBegun(a, s, children); }
    assert ChildrenOk(b) by { ChildrenCollect(a, s, children); }
    assert SessionsOk(b) by { SessionOf(a, s); SessionsAt(a, b, s); }
    assert HomesOk(b) && PlansOk(b) && CreationsOk(b) by { StageAt(a, b, s); }
  }

  lemma ChildrenJoin(a: State, s: SessionId)
    requires Domains(a) && ChildrenOk(a) && CanJoinChild(a, s)
    ensures ChildrenOk(DoJoinChild(a, s))
  {
    hide AllChildren;
    ChildrenOf(a, s);
    var k := a.work[s];
    assert k.children[..k.joined + 1][..k.joined] == k.children[..k.joined];
    ChildrenAt(a, DoJoinChild(a, s), s);
  }

  lemma KeepJoinChild(a: State, s: SessionId)
    requires Inv(a) && CanJoinChild(a, s)
    ensures Inv(DoJoinChild(a, s))
  {
    hide AllSessions, AllHomes, AllChildren, AllPlans, AllExecutions, AllGroups, AllGroupWork, AllCreations,
         AllRuntimes;
    var b := DoJoinChild(a, s);
    assert ChildrenOk(b) by { ChildrenJoin(a, s); }
    assert SessionsOk(b) by { SessionOf(a, s); SessionsAt(a, b, s); }
  }

  /** Once all children are joined the worker only appends to its result. */
  lemma ChildrenLate(a: State, b: State, s: SessionId, err: Errors)
    requires Domains(a) && ChildrenOk(a) && s in a.stage && Collected(a.stage[s])
    requires a.work[s].joined == |a.work[s].children| && s in b.stage && Collected(b.stage[s]) && !b.stage[s].Joining?
    requires SameBut(a.stage, b.stage, s) && b.work == a.work[s := a.work[s].(result := Join(a.work[s].result, err))]
    requires b.stage[s].Hooking? ==> err == [] && a.stage[s].Joining?
    requires b.admitted == a.admitted && b.closers == a.closers && b.exec.table == a.exec.table
    requires SameBut(a.exec.groups, b.exec.groups, s) && s !in b.exec.groups
    ensures ChildrenOk(b)
  {
    hide AllChildren;
    ChildrenOf(a, s);
    ChildrenAt(a, b, s);
  }

  lemma KeepFinishJoin(a: State, s: SessionId)
    requires Inv(a) && CanFinishJoin(a, s)
    ensures Inv(DoFinishJoin(a, s))
  {
    hide AllSessions, AllHomes, AllChildren, AllPlans, AllExecutions, AllGroups, AllGroupWork, AllCreations,
         AllRuntimes,
      Formed, WellFormed;
    var b := DoFinishJoin(a, s);
    assert Join(a.work[s].result, []) == a.work[s].result;
    assert b.work == a.work[s := a.work[s].(result := Join(a.work[s].result, []))];
    assert ChildrenOk(b) by { ChildrenLate(a, b, s, []); }
    assert ExecutionsOk(b) by { ExecutionsFrame(a, b); }
    assert SessionsOk(b) by { SessionOf(a, s); SessionsAt(a, b, s); }
    assert HomesOk(b) && PlansOk(b) && CreationsOk(b) by { StageAt(a, b, s); }
  }

  /** A later step of the close worker: it appends `err` and moves on. */
  lemma KeepLate(a: State, b: State, s: SessionId, err: Errors)
    requires s in a.stage && s in a.work && (a.stage[s].Hooking? || a.stage[s].Releasing?)
    requires s in b.stage && (b.stage[s].Releasing? || b.stage[s].Publishing?)
    requires b == a.(stage := a.stage[s := b.stage[s]], plans := b.plans,
                     work := a.work[s := a.work[s].(result := Join(a.work[s].result, err))])
    requires Domains(a) && SessionsOk(a) && ChildrenOk(a)
    ensures SessionsOk(b) && ChildrenOk(b)
  {
    hide AllSessions, AllHomes, AllChildren, AllPlans, AllExecutions, AllGroups, AllGroupWork, AllCreations,
         AllRuntimes;
    assert s !in a.exec.groups && a.work[s].joined == |a.work[s].children| by { ChildrenOf(a, s); }
    assert ChildrenOk(b) by { ChildrenLate(a, b, s, err); }
    assert SessionsOk(b) by { SessionOf(a, s); SessionsAt(a, b, s); }
  }

  lemma KeepRunHooks(a: State, s: SessionId, err: Errors)
    requires Inv(a) && InStage(a, s, Hooking)
    ensures Inv(DoRunHooks(a, s, err))
  {
    hide AllSessions, AllHomes, AllChildren, AllPlans, AllExecutions, AllGroups, AllGroupWork, AllCreations,
         AllRuntimes;
    var b := DoRunHooks(a, s, err);
    KeepLate(a, b, s, err);
    StageAt(a, b, s);
  }

  lemma KeepRelease(a: State, s: SessionId, err: Errors)
    requires Inv(a) && CanRelease(a, s)
    ensures Inv(DoRelease(a, s, err))
  {
    hide AllSessions, AllHomes, AllChildren, AllPlans, AllExecutions, AllGroups, AllGroupWork, AllCreations,
         AllRuntimes,
      Formed, WellFormed;
    var b := DoRelease(a, s, err);
    KeepLate(a, b, s, err);
    assert HomesOk(b) by { HomeOf(a, s); HomesAt(a, b, s); }
    assert PlansOk(b) by { PlanOf(a, s); PlansAt(a, b, s); }
    assert CreationsOk(b) by { CreationsFrame(a, b); }
  }

  lemma PublishedGates(a: State, s: SessionId)
    requires Inv(a) && InStage(a, s, Publishing)
    ensures a.reg.sessions[s].children.holders == {} && a.reg.sessions[s].children.phase.Started?
    ensures var b := DoPublish(a, s); SessionsOk(b) && GroupWorkOk(b) && RuntimesOk(b)
  {
    hide AllSessions, AllHomes, AllChildren, AllPlans, AllExecutions, AllGroups, AllGroupWork, AllCreations,
         AllRuntimes,
      Formed, WellFormed;
    SessionOf(a, s);
    GatesAt(a, DoPublish(a, s), s);
  }

  lemma KeepPublish(a: State, s: SessionId)
    requires Inv(a) && InStage(a, s, Publishing)
    ensures Inv(DoPublish(a, s))
  {
    hide AllSessions, AllHomes, AllChildren, AllPlans, AllExecutions, AllGroups, AllGroupWork, AllCreations,
         AllRuntimes,
      Formed, WellFormed;
    var b := DoPublish(a, s);
    PublishedGates(a, s);
    assert ChildrenOk(b) by { ChildrenMoved(a, b, s); }
    assert HomesOk(b) by { HomeOf(a, s); HomesAt(a, b, s); }
    assert PlansOk(b) by { PlanOf(a, s); PlansAt(a, b, s); }
    assert CreationsOk(b) by { CreationsFrame(a, b); }
  }

  /** A closed session has nothing left but its place in the registries. */
  lemma ChildrenMoved(a: State, b: State, s: SessionId)
    requires s in a.stage && (a.stage[s].Publishing? || a.stage[s].Published?)
    requires s in b.stage && Done(b.stage[s]) && SameBut(a.stage, b.stage, s)
    requires b.work == a.work && b.admitted == a.admitted && b.exec == a.exec && b.closers == a.closers
    requires Domains(a) && ChildrenOk(a)
    ensures ChildrenOk(b)
  {
    hide AllChildren;
    ChildrenOf(a, s);
    ChildrenAt(a, b, s);
  }

  /** Retiring touches at most the registered group of the workspace. */
  lemma RetireGroups(a: State, s: SessionId)
    requires Inv(a) && InStage(a, s, Published)
    ensures GroupsOk(DoRetire(a, s))
  {
    hide AllSessions, AllHomes, AllChildren, AllPlans, AllExecutions, AllGroups, AllGroupWork, AllCreations,
         AllRuntimes;
    var b, w := DoRetire(a, s), a.reg.sessions[s].workspace;
    if w in a.reg.groups {
      GroupOf(a, a.reg.groups[w]);
      GroupsAt(a, b, a.reg.groups[w], w);
    }
  }

  lemma RetireGroupWork(a: State, s: SessionId)
    requires Inv(a) && InStage(a, s, Published)
    ensures var b := DoRetire(a, s); GroupWorkOk(b) && CreationsOk(b)
  {
    hide AllSessions, AllHomes, AllChildren, AllPlans, AllExecutions, AllGroups, AllGroupWork, AllCreations,
         AllRuntimes;
    var b, w := DoRetire(a, s), a.reg.sessions[s].workspace;
    assert CreationsOk(b) by { CreationsFrame(a, b); }
    if w in a.reg.groups {
      assert GroupWorkOk(b) by { GroupWorkOf(a, a.reg.groups[w]); GroupWorkAt(a, b, a.reg.groups[w]); }
    }
  }

  lemma RetireSessions(a: State, s: SessionId)
    requires Inv(a) && InStage(a, s, Published)
    ensures var b := DoRetire(a, s); SessionsOk(b) && PlansOk(b)
  {
    hide AllSessions, AllHomes, AllChildren, AllPlans, AllExecutions, AllGroups, AllGroupWork, AllCreations,
         AllRuntimes;
    var b := DoRetire(a, s);
    assert SessionsOk(b) by { SessionOf(a, s); SessionsAt(a, b, s); }
    assert PlansOk(b) by { PlanOf(a, s); PlansAt(a, b, s); }
  }

  lemma RetireHomes(a: State, s: SessionId)
    requires Inv(a) && InStage(a, s, Published)
    ensures HomesOk(DoRetire(a, s))
  {
    hide AllSessions, AllHomes, AllChildren, AllPlans, AllExecutions, AllGroups, AllGroupWork, AllCreations,
         AllRuntimes;
    var b, w := DoRetire(a, s), a.reg.sessions[s].workspace;
    HomeOf(a, s);
    if w in a.reg.groups && a.reg.table[a.reg.groups[w]].sessions <= {s} { EmptyDeserted(a, a.reg.groups[w], s); }
    HomesAt(a, b, s);
  }

  lemma KeepRetire(a: State, s: SessionId)
    requires Inv(a) && InStage(a, s, Published)
    ensures Inv(DoRetire(a, s))
  {
    hide AllSessions, AllHomes, AllChildren, AllPlans, AllExecutions, AllGroups, AllGroupWork, AllCreations,
         AllRuntimes;
    hide FinishSessionEntry;
    RetireGroups(a, s);
    RetireGroupWork(a, s);
    RetireSessions(a, s);
    RetireHomes(a, s);
    ChildrenMoved(a, DoRetire(a, s), s);
  }

  /** Committing the close of a registered group. */
  lemma KeepStopGroup(a: State, w: WorkspaceId)
    requires Inv(a) && w in a.reg.groups
    ensures Inv(DoCloseWorkspace(a, w))
  {
    hide AllSessions, AllHomes, AllChildren, AllPlans, AllExecutions, AllGroups, AllGroupWork, AllCreations,
         AllRuntimes;
    var b, g := DoCloseWorkspace(a, w), a.reg.groups[w];
    assert HomesOk(b) by { HomesFrame(a, b); }
    assert GroupsOk(b) by { GroupOf(a, g); GroupsAt(a, b, g, w); }
    assert GroupWorkOk(b) by { GroupWorkOf(a, g); GroupWorkAt(a, b, g); }
    assert CreationsOk(b) by { CreationsFrame(a, b); }
  }

  lemma KeepCloseWorkspace(a: State, w: WorkspaceId)
    requires Inv(a)
    ensures Inv(DoCloseWorkspace(a, w))
  {
    hide AllSessions, AllHomes, AllChildren, AllPlans, AllExecutions, AllGroups, AllGroupWork, AllCreations,
         AllRuntimes;
    if w in a.reg.groups {
      KeepStopGroup(a, w);
    } else {
      var b := DoCloseWorkspace(a, w);
      assert a.reg.made !in a.gwork;
      KeepOpenGroup(a, b, w);
      assert CreationsOk(b) by { CreationsFrame(a, b); }
    }
  }

  lemma KeepShutdown(a: State)
    requires Inv(a)
    ensures Inv(DoShutdown(a))
  {
    hide AllSessions, AllHomes, AllChildren, AllPlans, AllExecutions, AllGroups, AllGroupWork, AllCreations,
         AllRuntimes;
    var b := DoShutdown(a);
    assert HomesOk(b) by { HomesFrame(a, b); }
    assert CreationsOk(b) by { CreationsFrame(a, b); }
    ShutdownGroups(a);
    ShutdownGroupWork(a);
  }

  lemma ShutdownGroups(a: State)
    requires Inv(a)
    ensures GroupsOk(DoShutdown(a))
  {
    hide AllSessions, AllHomes, AllChildren, AllPlans, AllExecutions, AllGroups, AllGroupWork, AllCreations,
         AllRuntimes;
    var b := DoShutdown(a);
    forall g | g in b.reg.table ensures GroupInv(g, b.reg.table[g], b.reg.groups, b.home, b.creations) {
      GroupOf(a, g);
    }
    AllGroupsFrom(b);
  }

  lemma ShutdownGroupWork(a: State)
    requires Inv(a)
    ensures GroupWorkOk(DoShutdown(a))
  {
    hide AllSessions, AllHomes, AllChildren, AllPlans, AllExecutions, AllGroups, AllGroupWork, AllCreations,
         AllRuntimes;
    var b := DoShutdown(a);
    forall g | g in b.reg.table
      ensures if g in b.gwork then GroupWorkInv(b.reg.table[g], b.gwork[g], b.reg.sessions)
              else b.reg.table[g].gate.phase.Idle?
    {
      GroupOf(a, g);
      GroupWorkOf(a, g);
    }
    AllGroupWorkFrom(b);
  }

  lemma AllGroupsFrom(b: State)
    requires forall g <- b.reg.table :: GroupInv(g, b.reg.table[g], b.reg.groups, b.home, b.creations)
    ensures GroupsOk(b)
  {
  }

  lemma AllGroupWorkFrom(b: State)
    requires forall g <- b.reg.table ::
               if g in b.gwork then GroupWorkInv(b.reg.table[g], b.gwork[g], b.reg.sessions)
               else b.reg.table[g].gate.phase.Idle?
    ensures GroupWorkOk(b)
  {
  }

  lemma KeepCollectGroup(a: State, g: GroupRef, list: seq<SessionId>)
    requires Inv(a) && CanCollectGroup(a, g, list)
    ensures Inv(DoCollectGroup(a, g, list))
  {
    hide AllSessions, AllHomes, AllChildren, AllPlans, AllExecutions, AllGroups, AllGroupWork, AllCreations,
         AllRuntimes;
    assert list[..0] == [];
    GroupWorkOf(a, g);
    GroupWorkAt(a, DoCollectGroup(a, g, list), g);
  }

  lemma KeepAsked(a: State, g: GroupRef)
    requires Inv(a) && CanAsk(a, g)
    requires var s := a.gwork[g].list[a.gwork[g].joined];
             s in a.reg.sessions && !a.reg.sessions[s].children.phase.Idle?
    ensures Inv(a.(gwork := a.gwork[g := a.gwork[g].(asked := true)]))
  {
    hide AllSessions, AllHomes, AllChildren, AllPlans, AllExecutions, AllGroups, AllGroupWork, AllCreations,
         AllRuntimes;
    var b := a.(gwork := a.gwork[g := a.gwork[g].(asked := true)]);
    GroupWorkOf(a, g);
    GroupWorkAt(a, b, g);
  }

  lemma KeepAsk(a: State, g: GroupRef)
    requires Inv(a) && CanAsk(a, g)
    ensures Inv(DoAsk(a, g))
  {
    hide AllSessions, AllHomes, AllChildren, AllPlans, AllExecutions, AllGroups, AllGroupWork, AllCreations,
         AllRuntimes;
    var s := a.gwork[g].list[a.gwork[g].joined];
    assert s in a.stage by { GroupWorkOf(a, g); GroupOf(a, g); assert s in a.gwork[g].list; }
    KeepCloseSession(a, s, true);
    assert !BeginSession(a.reg, s, true).sessions[s].children.phase.Idle? by { SessionOf(a, s); }
    hide Domains, BeginSession;
    KeepAsked(DoCloseSession(a, s, true), g);
  }

  lemma KeepJoinSession(a: State, g: GroupRef)
    requires Inv(a) && CanJoinSession(a, g)
    ensures Inv(DoJoinSession(a, g))
  {
    hide AllSessions, AllHomes, AllChildren, AllPlans, AllExecutions, AllGroups, AllGroupWork, AllCreations,
         AllRuntimes,
      Formed, WellFormed;
    var k := a.gwork[g];
    assert k.list[..k.joined + 1][..k.joined] == k.list[..k.joined];
    GroupWorkOf(a, g);
    GroupWorkAt(a, DoJoinSession(a, g), g);
  }

  /** When the group worker publishes, every retained session is closed. */
  lemma GroupSessionsClosed(a: State, g: GroupRef)
    requires Inv(a) && g in a.gwork && g in a.reg.table && a.gwork[g].joined == |a.gwork[g].list|
    requires !a.gwork[g].stage.GroupWaiting?
    ensures forall s <- a.home :: a.home[s].group == g ==> s in a.stage && Done(a.stage[s])
  {
    hide AllHomes, AllChildren, AllPlans, AllExecutions, AllGroups, AllCreations, AllRuntimes, AllSessions,
         AllGroupWork;
    GroupWorkOf(a, g);
    var k := a.gwork[g];
    assert k.list[..k.joined] == k.list;
    forall s | s in a.home && a.home[s].group == g ensures Done(a.stage[s]) {
      HomeOf(a, s);
      SessionOf(a, s);
      assert s in a.reg.table[g].sessions ==> s in k.list;
    }
  }

  lemma KeepFinishGroup(a: State, g: GroupRef)
    requires Inv(a) && CanFinishGroup(a, g)
    ensures !(a.reg.table[g].gate.holders != {} || !a.reg.table[g].gate.phase.Started?)
    ensures Inv(DoFinishGroup(a, g))
  {
    hide AllSessions, AllHomes, AllChildren, AllPlans, AllExecutions, AllGroups, AllGroupWork, AllCreations,
         AllRuntimes,
      Formed, WellFormed;
    var b, w := DoFinishGroup(a, g), a.reg.table[g].workspace;
    GroupWorkOf(a, g);
    assert HomesOk(b) by { GroupSessionsClosed(a, g); HomesFrame(a, b); }
    assert GroupsOk(b) by { GroupOf(a, g); GroupsAt(a, b, g, w); }
    assert GroupWorkOk(b) by { GroupWorkAt(a, b, g); }
    assert CreationsOk(b) by { CreationsFrame(a, b); }
  }
}
