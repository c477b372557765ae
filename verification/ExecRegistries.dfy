/** internal/exec/execution_registry.go: Execution reachability, lifecycle
    state and Session membership. Identifiers are fresh, so an entry pointer
    is named by its identifier; `table` holds every entry ever created,
    `public` is the key set of the source's `entries` map. */
module ExecutionRegistry {
  import opened Base
  import opened Lifecycle

  type SessionId = nat
  type ExecutionId = nat

  datatype RegistryState = Active | Closing

  /** An executionEntry together with the close operation of its execution. */
  datatype Entry = Entry(session: SessionId, state: RegistryState, close: Phase)

  datatype Group = Group(state: RegistryState, members: set<ExecutionId>)

  datatype Registry = Registry(
    table: map<ExecutionId, Entry>,
    public: set<ExecutionId>,
    groups: map<SessionId, Group>)

  const EMPTY := Registry(map[], {}, map[])

  /** The result of beginning one close: nothing to close, or an entry and
      whether the caller owns its teardown. */
  datatype CloseReply = Missing | Found(entry: ExecutionId, owner: bool)

  ghost predicate WellFormed(r: Registry) {
    && r.public <= r.table.Keys
    && (forall s <- r.groups :: r.groups[s].members <= r.table.Keys)
  }

  predicate AddPanics(r: Registry, e: ExecutionId, s: SessionId) {
    e in r.public || (s in r.groups && r.groups[s].state.Closing?)
  }

  function Add(r: Registry, e: ExecutionId, s: SessionId): (n: Registry)
    ensures WellFormed(r) ==> WellFormed(n)
  {
    var members := if s in r.groups then r.groups[s].members else {};
    Registry(
      r.table[e := Entry(s, Active, Idle)],
      r.public + {e},
      r.groups[s := Group(Active, members + {e})])
  }

  predicate BeginPanics(entry: Entry) { entry.state.Active? && !entry.close.Idle? }

  function BeginEntry(entry: Entry): Entry {
    if entry.state.Closing? then entry else entry.(state := Closing, close := Started)
  }

  function BeginOne(r: Registry, e: ExecutionId): (n: Registry)
    requires WellFormed(r)
    ensures WellFormed(n)
  {
    if e !in r.public then r else r.(table := r.table[e := BeginEntry(r.table[e])])
  }

  /** Every member begins its close; an empty group is dropped. */
  function BeginMembers(r: Registry, s: SessionId): (n: Registry)
    ensures WellFormed(r) ==> WellFormed(n)
    ensures n.table.Keys == r.table.Keys && n.groups.Keys <= r.groups.Keys
  {
    if s !in r.groups then r else
    var members := r.groups[s].members;
    r.(table := map e | e in r.table :: if e in members then BeginEntry(r.table[e]) else r.table[e],
       groups := if members == {} then r.groups - {s} else r.groups[s := Group(Closing, members)])
  }

  function CompleteClose(r: Registry, e: ExecutionId, err: Errors): (n: Registry)
    requires e in r.table
    ensures WellFormed(r) ==> WellFormed(n)
  {
    r.(table := r.table[e := r.table[e].(close := Finished(err))])
  }

  /** A completed child leaves public lookup; it stays in its group while the
      parent has stopped admission but not yet collected its children. */
  function FinishOne(r: Registry, e: ExecutionId, parentClosing: bool): (n: Registry)
    requires e in r.table
    ensures WellFormed(r) ==> WellFormed(n)
    ensures n.table == r.table && n.groups.Keys <= r.groups.Keys
  {
    var s := r.table[e].session;
    var hidden := r.(public := r.public - {e});
    if s !in r.groups || (r.groups[s].state.Active? && parentClosing) then hidden
    else
      var group := r.groups[s].(members := r.groups[s].members - {e});
      if group.state.Closing? && group.members == {} then hidden.(groups := r.groups - {s})
      else hidden.(groups := r.groups[s := group])
  }

  function FinishSessionClose(r: Registry, s: SessionId): (n: Registry)
    ensures WellFormed(r) ==> WellFormed(n)
  {
    r.(groups := r.groups - {s})
  }

  /** The registry object; every method is one section under its lock. */
  class ExecutionRegistry {
    var table: map<ExecutionId, Entry>
    var public: set<ExecutionId>
    var groups: map<SessionId, Group>

    ghost function View(): Registry
      reads this
    {
      Registry(table, public, groups)
    }

    ghost predicate Valid()
      reads this
    {
      WellFormed(View())
    }

    constructor ()
      ensures Valid() && View() == EMPTY
    {
      table, public, groups := map[], {}, map[];
    }

    method AddExecution(e: ExecutionId, s: SessionId)
      requires Valid() && !AddPanics(View(), e, s)
      modifies this
      ensures Valid() && View() == Add(old(View()), e, s)
    {
      var group := if s in groups then groups[s] else Group(Active, {});
      table := table[e := Entry(s, Active, Idle)];
      public := public + {e};
      groups := groups[s := group.(members := group.members + {e})];
    }

    method BeginCloseLocked(e: ExecutionId) returns (closing: CloseReply)
      requires Valid() && e in table && !BeginPanics(table[e])
      modifies this`table
      ensures Valid() && table == old(table)[e := BeginEntry(old(table)[e])]
      ensures closing == Found(e, old(table)[e].state.Active?)
    {
      if table[e].state.Closing? {
        assert table == table[e := table[e]];
        return Found(e, false);
      }
      table := table[e := table[e].(state := Closing, close := Started)];
      return Found(e, true);
    }

    method BeginExecutionClose(e: ExecutionId) returns (closing: CloseReply)
      requires Valid() && (e in public ==> !BeginPanics(table[e]))
      modifies this
      ensures Valid() && View() == BeginOne(old(View()), e)
      ensures closing == if e in public then Found(e, old(table)[e].state.Active?) else Missing
    {
      if e !in public { return Missing; }
      closing := BeginCloseLocked(e);
    }

    /** The result lists every member of the group exactly once, each with
        whether this call owns its teardown. */
    method BeginSessionExecutionClose(s: SessionId) returns (result: seq<CloseReply>)
      requires Valid()
      requires s in groups ==> forall e <- groups[s].members :: !BeginPanics(table[e])
      modifies this
      ensures Valid() && View() == BeginMembers(old(View()), s)
      ensures s !in old(groups) ==> result == []
      ensures s in old(groups) ==> |result| == |old(groups)[s].members|
      ensures forall i :: 0 <= i < |result| ==>
                && result[i].Found? && s in old(groups) && result[i].entry in old(groups)[s].members
                && (result[i].owner <==> old(table)[result[i].entry].state.Active?)
      ensures forall i, j :: 0 <= i < j < |result| ==> result[i].entry != result[j].entry
    {
      result := [];
      if s !in groups { return; }
      var members := groups[s].members;
      groups := groups[s := groups[s].(state := RegistryState.Closing)];
      var todo := members;
      while todo != {}
        modifies this`table
        invariant Valid() && todo <= members && members <= old(table).Keys
        invariant table.Keys == old(table).Keys
        invariant forall e <- table ::
                    table[e] == if e in members - todo then BeginEntry(old(table)[e]) else old(table)[e]
        invariant |result| == |members| - |todo|
        invariant forall i :: 0 <= i < |result| ==>
                    && result[i].Found? && result[i].entry in members - todo
                    && (result[i].owner <==> old(table)[result[i].entry].state.Active?)
        invariant forall i, j :: 0 <= i < j < |result| ==> result[i].entry != result[j].entry
      {
        var e :| e in todo;
        todo := todo - {e};
        var closing := BeginCloseLocked(e);
        result := result + [closing];
      }
      if members == {} { groups := groups - {s}; }
      assert table == BeginMembers(old(View()), s).table;
      assert groups == BeginMembers(old(View()), s).groups;
    }

    method FinishExecutionClose(e: ExecutionId, parentClosing: bool)
      requires Valid() && e in table
      modifies this
      ensures Valid() && View() == FinishOne(old(View()), e, parentClosing)
    {
      public := public - {e};
      var s := table[e].session;
      if s !in groups { return; }
      if groups[s].state.Active? && parentClosing { return; }
      groups := groups[s := groups[s].(members := groups[s].members - {e})];
      if groups[s].state.Closing? && groups[s].members == {} { groups := groups - {s}; }
      assert groups == FinishOne(old(View()), e, parentClosing).groups;
    }

    method FinishSession(s: SessionId)
      requires Valid()
      modifies this
      ensures Valid() && View() == FinishSessionClose(old(View()), s)
    {
      groups := groups - {s};
    }
  }
}

/** internal/exec/session_registry.go and workspace_group.go: Session
    reachability, workspace membership and service-wide admission. Group
    objects are numbered by `made`, so a workspace may be served by several
    groups over time; gates appear as the admissions they refine. */
module SessionRegistry {
  import opened Base
  import opened Lifecycle
  import opened ExecutionRegistry

  type WorkspaceId = nat
  type GroupRef = nat
  type Call = nat

  datatype WorkspaceGroup = WorkspaceGroup(workspace: WorkspaceId, gate: Admission, sessions: set<SessionId>)

  /** A sessionEntry together with the child gate of its session. */
  datatype SessionEntry = SessionEntry(workspace: WorkspaceId, state: RegistryState, children: Admission)

  datatype Sessions = Sessions(
    closed: bool,
    entries: set<SessionId>,
    groups: map<WorkspaceId, GroupRef>,
    table: map<GroupRef, WorkspaceGroup>,
    sessions: map<SessionId, SessionEntry>,
    made: GroupRef)

  const NO_SESSIONS := Sessions(false, {}, map[], map[], map[], 0)

  ghost predicate Formed(r: Sessions) {
    && r.entries <= r.sessions.Keys
    && (forall w <- r.groups :: r.groups[w] in r.table && r.table[r.groups[w]].workspace == w)
    && (forall g <- r.table :: g < r.made)
  }

  predicate Registered(r: Sessions, w: WorkspaceId, g: GroupRef) { w in r.groups && r.groups[w] == g }

  /** A group nobody uses: the registry must not retain it. */
  predicate Idling(g: WorkspaceGroup) { g.gate == OPEN_ADMISSION && g.sessions == {} }

  function EnsureGroup(r: Sessions, w: WorkspaceId): (n: Sessions)
    ensures Formed(r) ==> Formed(n)
    ensures w in n.groups && n.sessions == r.sessions && n.table.Keys >= r.table.Keys
  {
    if w in r.groups then r
    else r.(groups := r.groups[w := r.made],
            table := r.table[r.made := WorkspaceGroup(w, OPEN_ADMISSION, {})],
            made := r.made + 1)
  }

  function SetGate(r: Sessions, g: GroupRef, gate: Admission): (n: Sessions)
    requires g in r.table
    ensures Formed(r) ==> Formed(n)
  {
    r.(table := r.table[g := r.table[g].(gate := gate)])
  }

  /** Drops the registration of a group nobody uses any more. */
  function Discard(r: Sessions, w: WorkspaceId, g: GroupRef): (n: Sessions)
    requires g in r.table
    ensures Formed(r) ==> Formed(n)
  {
    if Idling(r.table[g]) && Registered(r, w, g) then r.(groups := r.groups - {w}) else r
  }

  datatype CreateReply = ServiceClosed | WorkspaceClosed | AdmittedTo(group: GroupRef)

  function BeginCreate(r: Sessions, w: WorkspaceId, call: Call): (Sessions, CreateReply)
    requires Formed(r)
  {
    if r.closed then (r, ServiceClosed) else
    var r1 := EnsureGroup(r, w);
    var g := r1.groups[w];
    if !r1.table[g].gate.phase.Idle? then (r1, WorkspaceClosed)
    else (SetGate(r1, g, Admit(r1.table[g].gate, call)), AdmittedTo(g))
  }

  function FinishCreate(r: Sessions, w: WorkspaceId, g: GroupRef, call: Call): (n: Sessions)
    requires g in r.table
    ensures Formed(r) ==> Formed(n)
    ensures n.sessions == r.sessions && n.table.Keys == r.table.Keys
  {
    Discard(SetGate(r, g, Leave(r.table[g].gate, call)), w, g)
  }

  predicate CommitAllowed(r: Sessions, w: WorkspaceId, g: GroupRef, cancelled: bool)
    requires g in r.table
  {
    !r.closed && Registered(r, w, g) && r.table[g].gate.phase.Idle? && !cancelled
  }

  function CommitCreate(r: Sessions, w: WorkspaceId, g: GroupRef, s: SessionId, cancelled: bool): (n: Sessions)
    requires g in r.table
    ensures Formed(r) ==> Formed(n)
  {
    if !CommitAllowed(r, w, g, cancelled) then r
    else r.(table := r.table[g := r.table[g].(sessions := r.table[g].sessions + {s})],
            entries := r.entries + {s},
            sessions := r.sessions[s := SessionEntry(w, Active, OPEN_ADMISSION)])
  }

  predicate RuntimeAllowed(r: Sessions, s: SessionId)
    requires Formed(r)
  {
    !r.closed && s in r.entries && r.sessions[s].state.Active?
  }

  predicate RuntimePanics(r: Sessions, s: SessionId)
    requires Formed(r)
  {
    RuntimeAllowed(r, s) && !r.sessions[s].children.phase.Idle?
  }

  function SetChildren(r: Sessions, s: SessionId, gate: Admission): (n: Sessions)
    requires s in r.sessions
    ensures Formed(r) ==> Formed(n)
  {
    r.(sessions := r.sessions[s := r.sessions[s].(children := gate)])
  }

  function BeginRuntimeCreate(r: Sessions, s: SessionId, call: Call): (n: Sessions)
    requires Formed(r)
    ensures Formed(n) && n.sessions.Keys == r.sessions.Keys
  {
    if RuntimeAllowed(r, s) then SetChildren(r, s, Admit(r.sessions[s].children, call)) else r
  }

  function FinishRuntimeCreate(r: Sessions, s: SessionId, call: Call): (n: Sessions)
    requires s in r.sessions
    ensures Formed(r) ==> Formed(n)
  {
    SetChildren(r, s, Leave(r.sessions[s].children, call))
  }

  /** Whether beginClose finds an entry it may own; `retained` says that the
      caller already holds the entry from a workspace group. */
  predicate CloseOwned(r: Sessions, s: SessionId, retained: bool)
    requires Formed(r)
  {
    (s in r.entries || (retained && s in r.sessions)) && r.sessions[s].state.Active?
  }

  predicate SessionClosePanics(r: Sessions, s: SessionId, retained: bool)
    requires Formed(r)
  {
    CloseOwned(r, s, retained) && !r.sessions[s].children.phase.Idle?
  }

  function BeginSession(r: Sessions, s: SessionId, retained: bool): (n: Sessions)
    requires Formed(r)
    ensures Formed(n) && n.sessions.Keys == r.sessions.Keys && n == r.(sessions := n.sessions)
  {
    if !CloseOwned(r, s, retained) then r
    else r.(sessions := r.sessions[s := r.sessions[s].(state := Closing, children := Commit(r.sessions[s].children))])
  }

  /** A closed session leaves public lookup, and leaves its workspace's current
      group when that group still accepts; an unused group is dropped. */
  function FinishSessionEntry(r: Sessions, s: SessionId): (n: Sessions)
    requires Formed(r) && s in r.sessions
    ensures Formed(n) && n.sessions == r.sessions && n.table.Keys == r.table.Keys
  {
    var hidden := r.(entries := r.entries - {s});
    var w := r.sessions[s].workspace;
    if w !in r.groups then hidden else
    var g := r.groups[w];
    var kept := if r.table[g].gate.phase.Idle?
                then hidden.(table := r.table[g := r.table[g].(sessions := r.table[g].sessions - {s})])
                else hidden;
    Discard(kept, w, g)
  }

  function BeginWorkspaceClose(r: Sessions, w: WorkspaceId): (n: Sessions)
    requires Formed(r)
    ensures Formed(n) && n.sessions == r.sessions && n.table.Keys >= r.table.Keys
  {
    var r1 := EnsureGroup(r, w);
    SetGate(r1, r1.groups[w], Commit(r1.table[r1.groups[w]].gate))
  }

  function CommitGroups(table: map<GroupRef, WorkspaceGroup>, closing: set<GroupRef>): map<GroupRef, WorkspaceGroup> {
    map g | g in table :: if g in closing then table[g].(gate := Commit(table[g].gate)) else table[g]
  }

  /** Shutdown commits the close of every registered group. */
  function BeginShutdown(r: Sessions): (n: Sessions)
    ensures Formed(r) ==> Formed(n)
    ensures n.sessions == r.sessions && n.table.Keys == r.table.Keys
  {
    r.(closed := true, table := CommitGroups(r.table, r.groups.Values))
  }

  function FinishWorkspaceClose(r: Sessions, w: WorkspaceId, g: GroupRef, err: Errors): (n: Sessions)
    requires g in r.table
    ensures Formed(r) ==> Formed(n)
    ensures n.sessions == r.sessions && n.table.Keys == r.table.Keys
  {
    SetGate(if Registered(r, w, g) then r.(groups := r.groups - {w}) else r, g, Publish(r.table[g].gate, err))
  }

  /** The registry object; every method is one section under its lock. */
  class SessionRegistry {
    var closed: bool
    var entries: set<SessionId>
    var groups: map<WorkspaceId, GroupRef>
    var table: map<GroupRef, WorkspaceGroup>
    var sessions: map<SessionId, SessionEntry>
    var made: GroupRef

    ghost function View(): Sessions
      reads this
    {
      Sessions(closed, entries, groups, table, sessions, made)
    }

    ghost predicate Valid()
      reads this
    {
      Formed(View())
    }

    constructor ()
      ensures Valid() && View() == NO_SESSIONS
    {
      closed, entries, groups, table, sessions, made := false, {}, map[], map[], map[], 0;
    }

    method GroupFor(w: WorkspaceId) returns (g: GroupRef)
      requires Valid()
      modifies this
      ensures Valid() && View() == EnsureGroup(old(View()), w) && Registered(View(), w, g)
    {
      if w !in groups {
        groups := groups[w := made];
        table := table[made := WorkspaceGroup(w, OPEN_ADMISSION, {})];
        made := made + 1;
      }
      g := groups[w];
    }

    method BeginCreation(w: WorkspaceId, call: Call) returns (reply: CreateReply)
      requires Valid()
      modifies this
      ensures Valid() && (View(), reply) == BeginCreate(old(View()), w, call)
    {
      if closed { return ServiceClosed; }
      var g := GroupFor(w);
      if !table[g].gate.phase.Idle? { return WorkspaceClosed; }
      table := table[g := table[g].(gate := Admit(table[g].gate, call))];
      return AdmittedTo(g);
    }

    method FinishCreation(w: WorkspaceId, g: GroupRef, call: Call)
      requires Valid() && g in table && call in table[g].gate.holders
      modifies this
      ensures Valid() && View() == FinishCreate(old(View()), w, g, call)
    {
      table := table[g := table[g].(gate := Leave(table[g].gate, call))];
      var gate := table[g].gate;
      var discard := gate.holders == {} && gate.phase.Idle? && table[g].sessions == {};
      if discard && w in groups && groups[w] == g { groups := groups - {w}; }
    }

    method CommitCreation(w: WorkspaceId, g: GroupRef, s: SessionId, cancelled: bool) returns (ok: bool)
      requires Valid() && g in table
      modifies this
      ensures Valid() && View() == CommitCreate(old(View()), w, g, s, cancelled)
      ensures ok == CommitAllowed(old(View()), w, g, cancelled)
    {
      if closed || w !in groups || groups[w] != g || !table[g].gate.phase.Idle? { return false; }
      if cancelled { return false; }
      table := table[g := table[g].(sessions := table[g].sessions + {s})];
      sessions := sessions[s := SessionEntry(w, Active, OPEN_ADMISSION)];
      entries := entries + {s};
      return true;
    }

    method BeginRuntimeCreation(s: SessionId, call: Call) returns (admitted: bool)
      requires Valid() && !RuntimePanics(View(), s)
      modifies this
      ensures Valid() && View() == BeginRuntimeCreate(old(View()), s, call)
      ensures admitted == RuntimeAllowed(old(View()), s)
    {
      if closed || s !in entries || !sessions[s].state.Active? { return false; }
      sessions := sessions[s := sessions[s].(children := Admit(sessions[s].children, call))];
      return true;
    }

    method BeginSessionClose(s: SessionId, retained: bool) returns (owner: bool)
      requires Valid() && !SessionClosePanics(View(), s, retained)
      modifies this
      ensures Valid() && View() == BeginSession(old(View()), s, retained)
      ensures owner == CloseOwned(old(View()), s, retained)
    {
      if s !in entries && (!retained || s !in sessions) { return false; }
      if sessions[s].state.Closing? { return false; }
      sessions := sessions[s := SessionEntry(sessions[s].workspace, Closing, Commit(sessions[s].children))];
      return true;
    }

    method FinishSessionClose(s: SessionId)
      requires Valid() && s in sessions
      modifies this
      ensures Valid() && View() == FinishSessionEntry(old(View()), s)
    {
      entries := entries - {s};
      var w := sessions[s].workspace;
      if w !in groups { return; }
      var g := groups[w];
      if table[g].gate.phase.Idle? {
        table := table[g := table[g].(sessions := table[g].sessions - {s})];
      }
      var gate := table[g].gate;
      if gate.phase.Idle? && gate.holders == {} && table[g].sessions == {} { groups := groups - {w}; }
    }

    method BeginGroupClose(w: WorkspaceId) returns (g: GroupRef, owner: bool)
      requires Valid()
      modifies this
      ensures Valid() && View() == BeginWorkspaceClose(old(View()), w)
      ensures Registered(View(), w, g)
      ensures owner == (w in old(groups) ==> old(table)[g].gate.phase.Idle?)
    {
      g := GroupFor(w);
      owner := table[g].gate.phase.Idle?;
      table := table[g := table[g].(gate := Commit(table[g].gate))];
    }

    /** The result lists every registered group exactly once with whether this
        call owns its teardown. */
    method BeginServiceShutdown() returns (result: seq<(WorkspaceId, GroupRef, bool)>)
      requires Valid()
      modifies this
      ensures Valid() && View() == BeginShutdown(old(View()))
      ensures |result| == |groups|
      ensures forall i :: 0 <= i < |result| ==>
                && Registered(View(), result[i].0, result[i].1)
                && (result[i].2 <==> old(table)[result[i].1].gate.phase.Idle?)
      ensures forall i, j :: 0 <= i < j < |result| ==> result[i].0 != result[j].0
    {
      closed := true;
      result := [];
      var todo := groups.Keys;
      ghost var done: set<GroupRef> := {};
      while todo != {}
        modifies this`table
        invariant todo <= groups.Keys && done <= groups.Values
        invariant forall w <- groups :: groups[w] in done <==> w !in todo
        invariant table == CommitGroups(old(table), done)
        invariant |result| == |groups| - |todo|
        invariant forall i :: 0 <= i < |result| ==>
                    && result[i].0 in groups && result[i].0 !in todo && groups[result[i].0] == result[i].1
                    && (result[i].2 <==> old(table)[result[i].1].gate.phase.Idle?)
        invariant forall i, j :: 0 <= i < j < |result| ==> result[i].0 != result[j].0
      {
        var w :| w in todo;
        var g := groups[w];
        result := result + [(w, g, table[g].gate.phase.Idle?)];
        table := table[g := table[g].(gate := Commit(table[g].gate))];
        todo, done := todo - {w}, done + {g};
      }
      assert done == groups.Values;
    }

    method FinishGroupClose(w: WorkspaceId, g: GroupRef, err: Errors)
      requires Valid() && g in table && table[g].gate.holders == {} && table[g].gate.phase.Started?
      modifies this
      ensures Valid() && View() == FinishWorkspaceClose(old(View()), w, g, err)
    {
      if w in groups && groups[w] == g { groups := groups - {w}; }
      table := table[g := table[g].(gate := Publish(table[g].gate, err))];
    }
  }
}
