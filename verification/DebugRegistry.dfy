/** internal/debug/manager.go: the retained debug Sessions of every executable
    Session, their groups and the two lookup maps. */
module DebugRegistry {
  import opened Base
  import opened Lifecycle

  type ParentId = nat
  /** A debug Session is named after the call that created it. */
  type DebugId = nat
  type GroupRef = nat

  datatype Group = Group(parent: ParentId, gate: Admission, sessions: set<DebugId>)

  /** `sessions` and `closing` give the parent of each listed debug Session;
      `table` holds every group ever made, `groups` those registered. */
  datatype Registry = Registry(
    closed: bool,
    sessions: map<DebugId, ParentId>,
    closing: map<DebugId, ParentId>,
    groups: map<ParentId, GroupRef>,
    table: map<GroupRef, Group>,
    made: nat)

  const NO_DEBUG := Registry(false, map[], map[], map[], map[], 0)

  predicate Formed(r: Registry) {
    && (forall p <- r.groups :: r.groups[p] in r.table && r.table[r.groups[p]].parent == p)
    && (forall g <- r.table :: g < r.made)
  }

  predicate Admits(r: Registry, p: ParentId)
    requires Formed(r)
  {
    p in r.groups && r.table[r.groups[p]].gate.phase.Idle?
  }

  predicate BeginAllowed(r: Registry, p: ParentId)
    requires Formed(r)
  {
    !r.closed && (p in r.groups ==> Admits(r, p))
  }

  function EnsureGroup(r: Registry, p: ParentId): (n: Registry)
    requires Formed(r)
    ensures Formed(n) && p in n.groups
  {
    if p in r.groups then r else
    r.(groups := r.groups[p := r.made],
       table := r.table[r.made := Group(p, OPEN_ADMISSION, {})],
       made := r.made + 1)
  }

  function SetGate(r: Registry, g: GroupRef, gate: Admission): (n: Registry)
    requires Formed(r) && g in r.table
    ensures Formed(n)
  {
    r.(table := r.table[g := r.table[g].(gate := gate)])
  }

  function SetSessions(r: Registry, g: GroupRef, sessions: set<DebugId>): (n: Registry)
    requires Formed(r) && g in r.table
    ensures Formed(n)
  {
    r.(table := r.table[g := r.table[g].(sessions := sessions)])
  }

  function BeginCreate(r: Registry, p: ParentId, call: nat): (n: Registry)
    requires Formed(r)
    ensures Formed(n) && n.sessions == r.sessions && n.closing == r.closing
  {
    if r.closed then r else
    var e := EnsureGroup(r, p);
    SetGate(e, e.groups[p], Admit(e.table[e.groups[p]].gate, call))
  }

  /** An accepting group that nobody uses. */
  predicate Disposable(g: Group) { g.gate.phase.Idle? && g.gate.holders == {} && g.sessions == {} }

  function Drop(r: Registry, p: ParentId): (n: Registry)
    requires Formed(r)
    ensures Formed(n)
  {
    r.(groups := r.groups - {p})
  }

  predicate FinishPanics(r: Registry, p: ParentId, call: nat)
    requires Formed(r)
  {
    p in r.groups && call !in r.table[r.groups[p]].gate.holders
  }

  function FinishCreate(r: Registry, p: ParentId, call: nat): (n: Registry)
    requires Formed(r)
    ensures Formed(n) && n.sessions == r.sessions && n.closing == r.closing
  {
    if p !in r.groups then r else
    var g := r.groups[p];
    var n := SetGate(r, g, Leave(r.table[g].gate, call));
    if Disposable(n.table[g]) then Drop(n, p) else n
  }

  predicate CommitAllowed(r: Registry, p: ParentId)
    requires Formed(r)
  {
    !r.closed && Admits(r, p)
  }

  function CommitSession(r: Registry, p: ParentId, d: DebugId): (n: Registry)
    requires Formed(r) && CommitAllowed(r, p)
    ensures Formed(n)
  {
    SetSessions(r.(sessions := r.sessions[d := p]), r.groups[p], r.table[r.groups[p]].sessions + {d})
  }

  function Detach(r: Registry, d: DebugId): (n: Registry)
    requires Formed(r)
    ensures Formed(n)
  {
    if d in r.closing || d !in r.sessions then r
    else r.(sessions := r.sessions - {d}, closing := r.closing[d := r.sessions[d]])
  }

  function FinishSession(r: Registry, p: ParentId, d: DebugId): (n: Registry)
    requires Formed(r)
    ensures Formed(n)
  {
    var out := r.(closing := r.closing - {d});
    if p !in r.groups then out else
    var g := r.groups[p];
    var n := SetSessions(out, g, out.table[g].sessions - {d});
    if Disposable(n.table[g]) then Drop(n, p) else n
  }

  function BeginGroupClose(r: Registry, p: ParentId): (n: Registry)
    requires Formed(r)
    ensures Formed(n) && n.groups == r.groups && n.sessions == r.sessions && n.closing == r.closing
    ensures !Admits(n, p)
  {
    if p !in r.groups then r
    else SetGate(r, r.groups[p], Commit(r.table[r.groups[p]].gate))
  }

  function PublishGroup(r: Registry, g: GroupRef, err: Errors): (n: Registry)
    requires Formed(r) && g in r.table
    ensures Formed(n) && n.groups == r.groups
  {
    SetGate(r, g, Publish(r.table[g].gate, err))
  }

  function RemoveGroup(r: Registry, p: ParentId, g: GroupRef): (n: Registry)
    requires Formed(r)
    ensures Formed(n)
  {
    if p in r.groups && r.groups[p] == g then Drop(r, p) else r
  }

  // ---------------------------------------------------------- other parents

  predicate Lists(m: map<DebugId, ParentId>, d: DebugId, p: ParentId) { d in m && m[d] == p }

  predicate SameId(a: map<DebugId, ParentId>, b: map<DebugId, ParentId>, d: DebugId, p: ParentId) {
    Lists(a, d, p) <==> Lists(b, d, p)
  }

  predicate SameGroup(a: map<GroupRef, Group>, b: map<GroupRef, Group>, g: GroupRef, p: ParentId) {
    (g in a && a[g].parent == p) || (g in b && b[g].parent == p) ==> g in a && g in b && a[g] == b[g]
  }

  /** Nothing about parent `p` differs, except that the manager may have
      stopped and groups of other parents may have been made. */
  ghost predicate SameFor(a: Registry, b: Registry, p: ParentId) {
    && (a.closed ==> b.closed) && a.made <= b.made
    && (p in a.groups <==> p in b.groups) && (p in a.groups ==> b.groups[p] == a.groups[p])
    && (forall d :: SameId(a.sessions, b.sessions, d, p))
    && (forall d :: SameId(a.closing, b.closing, d, p))
    && (forall g :: SameGroup(a.table, b.table, g, p))
  }

  /** Every operation on another parent leaves `p` alone, so one parent can be
      studied against arbitrary activity elsewhere: creations, ... */
  lemma CreationsApart(r: Registry, p: ParentId, q: ParentId, call: nat)
    requires Formed(r) && p != q
    ensures SameFor(r, BeginCreate(r, q, call), p)
  {
  }

  lemma FinishedCreationsApart(r: Registry, p: ParentId, q: ParentId, call: nat)
    requires Formed(r) && p != q
    ensures SameFor(r, FinishCreate(r, q, call), p)
  {
  }

  /** ... debug Sessions, ... */
  lemma SessionsApart(r: Registry, p: ParentId, q: ParentId, d: DebugId)
    requires Formed(r) && p != q
    requires d in r.sessions ==> r.sessions[d] == q
    requires d in r.closing ==> r.closing[d] == q
    ensures CommitAllowed(r, q) ==> SameFor(r, CommitSession(r, q, d), p)
    ensures SameFor(r, Detach(r, d), p)
  {
  }

  lemma FinishedSessionsApart(r: Registry, p: ParentId, q: ParentId, d: DebugId)
    requires Formed(r) && p != q
    requires d in r.closing ==> r.closing[d] == q
    ensures SameFor(r, FinishSession(r, q, d), p)
  {
  }

  /** ... and groups. */
  lemma GroupsApart(r: Registry, p: ParentId, q: ParentId, g: GroupRef, err: Errors)
    requires Formed(r) && p != q && g in r.table && r.table[g].parent == q
    ensures SameFor(r, BeginGroupClose(r, q), p)
    ensures SameFor(r, PublishGroup(r, g, err), p)
    ensures SameFor(r, RemoveGroup(r, q, g), p)
  {
  }

  // -------------------------------------------------------------- the object

  class DebugManager {
    var stopped: bool
    var sessions: map<DebugId, ParentId>
    var closing: map<DebugId, ParentId>
    var groups: map<ParentId, GroupRef>
    var table: map<GroupRef, Group>
    var made: nat

    ghost function View(): Registry
      reads this
    {
      Registry(stopped, sessions, closing, groups, table, made)
    }

    ghost predicate Valid()
      reads this
    {
      Formed(View())
    }

    constructor ()
      ensures Valid() && View() == NO_DEBUG
    {
      stopped, sessions, closing, groups, table, made := false, map[], map[], map[], map[], 0;
    }

    method BeginCreation(p: ParentId, call: nat) returns (admitted: bool)
      requires Valid()
      modifies this
      ensures Valid() && admitted == BeginAllowed(old(View()), p)
      ensures View() == BeginCreate(old(View()), p, call)
    {
      if stopped { return false; }
      if p !in groups {
        table := table[made := Group(p, OPEN_ADMISSION, {})];
        groups := groups[p := made];
        made := made + 1;
      }
      var g := groups[p];
      admitted := table[g].gate.phase.Idle?;
      table := table[g := table[g].(gate := Admit(table[g].gate, call))];
    }

    method FinishCreation(p: ParentId, call: nat)
      requires Valid() && !FinishPanics(View(), p, call)
      modifies this
      ensures Valid() && View() == FinishCreate(old(View()), p, call)
    {
      if p !in groups { return; }
      var g := groups[p];
      table := table[g := table[g].(gate := Leave(table[g].gate, call))];
      if table[g].gate.holders == {} && table[g].gate.phase.Idle? && table[g].sessions == {} {
        groups := groups - {p};
      }
    }

    /** The locked part of CreateSession after its runtime exists. */
    method CommitCreation(p: ParentId, d: DebugId) returns (committed: bool)
      requires Valid()
      modifies this
      ensures Valid() && committed == CommitAllowed(old(View()), p)
      ensures View() == if committed then CommitSession(old(View()), p, d) else old(View())
    {
      if stopped || p !in groups || !table[groups[p]].gate.phase.Idle? { return false; }
      var g := groups[p];
      sessions := sessions[d := p];
      table := table[g := table[g].(sessions := table[g].sessions + {d})];
      return true;
    }

    method DetachSession(d: DebugId) returns (found: bool)
      requires Valid()
      modifies this
      ensures Valid() && View() == Detach(old(View()), d)
      ensures found <==> d in closing
    {
      if d in closing { return true; }
      if d !in sessions { return false; }
      closing := closing[d := sessions[d]];
      sessions := sessions - {d};
      return true;
    }

    method FinishSessionClose(p: ParentId, d: DebugId)
      requires Valid()
      modifies this
      ensures Valid() && View() == FinishSession(old(View()), p, d)
    {
      if p in groups {
        var g := groups[p];
        table := table[g := table[g].(sessions := table[g].sessions - {d})];
        if table[g].gate.phase.Idle? && table[g].gate.holders == {} && table[g].sessions == {} {
          groups := groups - {p};
        }
      }
      closing := closing - {d};
    }

    method BeginExecutionSessionClose(p: ParentId) returns (owner: bool, found: bool)
      requires Valid()
      modifies this
      ensures Valid() && View() == BeginGroupClose(old(View()), p)
      ensures found == (p in old(groups)) && owner == Admits(old(View()), p)
    {
      if p !in groups { return false, false; }
      var g := groups[p];
      owner, found := table[g].gate.phase.Idle?, true;
      table := table[g := table[g].(gate := Commit(table[g].gate))];
    }

    method RemoveClosedGroup(p: ParentId, g: GroupRef)
      requires Valid()
      modifies this
      ensures Valid() && View() == RemoveGroup(old(View()), p, g)
    {
      if p in groups && groups[p] == g { groups := groups - {p}; }
    }
  }
}
