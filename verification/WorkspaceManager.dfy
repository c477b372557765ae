/** internal/workspace/manager.go: the workspaces by identifier and by root,
    single-flight opens and the clear generation. */
module WorkspaceManager {
  import opened Base
  import opened Lifecycle

  type Id = nat
  type Root = string
  type OpId = nat

  /** `workers` counts the finishClose goroutines that have not published. */
  datatype Entry = Entry(root: Root, active: bool, close: Phase, workers: nat)

  /** Where the owner of an open operation is: loading, failed but not reported
      yet, or returned with a workspace or an error. */
  datatype OpStatus = Loading | Failing | Opened | Failed(err: Errors)

  /** `closes` counts how often the done channel was closed. */
  datatype Op = Op(root: Root, id: Id, generation: nat, status: OpStatus, closes: nat)

  /** `ops` holds every open operation ever begun. */
  datatype Manager = Manager(
    byId: map<Id, Entry>,
    byRoot: map<Root, Id>,
    opening: map<Root, OpId>,
    ops: map<OpId, Op>,
    generation: nat)

  const EMPTY := Manager(map[], map[], map[], map[], 0)

  predicate Done(op: Op) { op.status.Opened? || op.status.Failed? }

  // -------------------------------------------------------------- operations

  predicate Owns(m: Manager, root: Root) { root !in m.byRoot && root !in m.opening }

  function BeginOpen(m: Manager, o: OpId, id: Id, root: Root): Manager {
    if !Owns(m, root) then m
    else m.(opening := m.opening[root := o], ops := m.ops[o := Op(root, id, m.generation, Loading, 0)])
  }

  predicate CommitAllowed(m: Manager, o: OpId)
    requires o in m.ops
  {
    m.ops[o].generation == m.generation
  }

  function SetStatus(m: Manager, o: OpId, status: OpStatus): Manager
    requires o in m.ops
  {
    m.(ops := m.ops[o := m.ops[o].(status := status)])
  }

  /** The operation's owner returns and its done channel is closed. */
  function Release(m: Manager, o: OpId, status: OpStatus): Manager
    requires o in m.ops
  {
    m.(ops := m.ops[o := m.ops[o].(status := status, closes := m.ops[o].closes + 1)])
  }

  /** The locked part of loadAndCommit after a successful load. */
  function CommitLoad(m: Manager, o: OpId): Manager
    requires o in m.ops
  {
    var op := m.ops[o];
    if !CommitAllowed(m, o) then SetStatus(m, o, Failing)
    else Release(m, o, Opened).(
           byId := m.byId[op.id := Entry(op.root, true, Idle, 0)],
           byRoot := m.byRoot[op.root := op.id],
           opening := m.opening - {op.root})
  }

  function FinishOpen(m: Manager, o: OpId, err: Errors): Manager
    requires o in m.ops
  {
    var root := m.ops[o].root;
    Release(m, o, Failed(err)).(
      opening := if root in m.opening && m.opening[root] == o then m.opening - {root} else m.opening)
  }

  predicate CloseOwned(m: Manager, id: Id) { id in m.byId && m.byId[id].active }

  function Closing(e: Entry): Entry { e.(active := false, close := Started, workers := e.workers + 1) }

  function BeginClose(m: Manager, id: Id): Manager {
    if !CloseOwned(m, id) then m
    else m.(byId := m.byId[id := Closing(m.byId[id])], byRoot := m.byRoot - {m.byId[id].root})
  }

  /** The entries after those in `ids` were told to close. */
  function Cleared(byId: map<Id, Entry>, ids: set<Id>): map<Id, Entry> {
    map id | id in byId :: if id in ids && byId[id].active then Closing(byId[id]) else byId[id]
  }

  function Active(byId: map<Id, Entry>, ids: set<Id>): set<Id> { set id | id in ids && id in byId && byId[id].active }

  lemma ClearedNone(byId: map<Id, Entry>)
    ensures Cleared(byId, {}) == byId && Active(byId, {}) == {}
  {
  }

  lemma ClearedOne(byId: map<Id, Entry>, ids: set<Id>, id: Id)
    requires id in byId && id !in ids
    ensures var now := Cleared(byId, ids);
            && id in now && now[id] == byId[id]
            && Cleared(byId, ids + {id}) == now[id := if byId[id].active then Closing(byId[id]) else byId[id]]
    ensures Active(byId, ids + {id}) == Active(byId, ids) + if byId[id].active then {id} else {}
  {
  }

  function Clear(m: Manager): Manager {
    Manager(Cleared(m.byId, m.byId.Keys), map[], map[], m.ops, m.generation + 1)
  }

  function FinishClose(m: Manager, id: Id, err: Errors): Manager
    requires id in m.byId && m.byId[id].workers > 0
  {
    m.(byId := m.byId[id := m.byId[id].(close := Finished(err), workers := m.byId[id].workers - 1)])
  }

  function RemoveEntry(m: Manager, id: Id): Manager { m.(byId := m.byId - {id}) }

  // ------------------------------------------------------------------- steps

  datatype Step =
    | FindStep(root: Root)
    | BeginOpenStep(o: OpId, id: Id, root: Root)
    | LoadFails(o: OpId)
    | CommitStep(o: OpId)
    | FinishOpenStep(o: OpId, err: Errors)
    | BeginCloseStep(id: Id)
    | FinishCloseStep(id: Id, err: Errors)
    | RemoveStep(id: Id)
    | ClearStep

  predicate FreshId(m: Manager, id: Id) { id !in m.byId && forall o <- m.ops :: m.ops[o].id != id }

  predicate IsLoading(m: Manager, o: OpId) { o in m.ops && m.ops[o].status.Loading? }

  predicate Enabled(m: Manager, step: Step) {
    match step
    case FindStep(_) => true
    case BeginOpenStep(o, id, root) => o !in m.ops && FreshId(m, id)
    case LoadFails(o) => IsLoading(m, o)
    case CommitStep(o) => IsLoading(m, o)
    case FinishOpenStep(o, _) => o in m.ops && m.ops[o].status.Failing?
    case BeginCloseStep(id) => true
    case FinishCloseStep(id, _) => id in m.byId && m.byId[id].workers > 0
    case RemoveStep(id) => id in m.byId && m.byId[id].close.Finished?
    case ClearStep => true
  }

  /** Beginning the close of this entry panics, or the caller goes on to wait
      for a close that was not begun. */
  predicate ClosePanics(before: Entry, after: Entry) {
    (before.active && !before.close.Idle?) || after.close.Idle?
  }

  /** An index entry without workspace, closing a done channel twice, beginning
      a close twice, waiting for one that was not begun, or finishing one that
      is not running. */
  predicate Panics(m: Manager, step: Step)
    requires Enabled(m, step)
  {
    match step
    case FindStep(root) => root in m.byRoot && m.byRoot[root] !in m.byId
    case CommitStep(o) => CommitAllowed(m, o) && m.ops[o].closes > 0
    case FinishOpenStep(o, _) => m.ops[o].closes > 0
    case BeginCloseStep(id) => id in m.byId && ClosePanics(m.byId[id], BeginClose(m, id).byId[id])
    case FinishCloseStep(id, _) => !m.byId[id].close.Started?
    case ClearStep => exists id <- m.byId :: ClosePanics(m.byId[id], Clear(m).byId[id])
    case _ => false
  }

  function Next(m: Manager, step: Step): Manager
    requires Enabled(m, step)
  {
    match step
    case FindStep(_) => m
    case BeginOpenStep(o, id, root) => BeginOpen(m, o, id, root)
    case LoadFails(o) => SetStatus(m, o, Failing)
    case CommitStep(o) => CommitLoad(m, o)
    case FinishOpenStep(o, err) => FinishOpen(m, o, err)
    case BeginCloseStep(id) => BeginClose(m, id)
    case FinishCloseStep(id, err) => FinishClose(m, id, err)
    case RemoveStep(id) => RemoveEntry(m, id)
    case ClearStep => Clear(m)
  }

  // --------------------------------------------------------------- invariant

  /** byRoot is exactly the inverse index of the active entries. */
  ghost predicate IndexExact(m: Manager) {
    && (forall root <- m.byRoot :: CloseOwned(m, m.byRoot[root]) && m.byId[m.byRoot[root]].root == root)
    && (forall id <- m.byId :: m.byId[id].active ==> m.byId[id].root in m.byRoot && m.byRoot[m.byId[id].root] == id)
  }

  /** The loading operations of the current generation are the registered ones. */
  ghost predicate OpeningExact(m: Manager) {
    && (forall root <- m.opening ::
          && m.opening[root] in m.ops && m.ops[m.opening[root]].root == root && root !in m.byRoot
          && m.ops[m.opening[root]].generation == m.generation && !Done(m.ops[m.opening[root]]))
    && (forall o <- m.ops :: m.ops[o].generation == m.generation && m.ops[o].status.Loading? ==>
          m.ops[o].root in m.opening && m.opening[m.ops[o].root] == o)
  }

  /** An entry is active until its close begins, and a begun close has one worker. */
  predicate EntryOk(e: Entry) {
    (e.active <==> e.close.Idle?) && e.workers == if e.close.Started? then 1 else 0
  }

  ghost predicate EntriesOk(m: Manager) {
    && (forall id <- m.byId :: EntryOk(m.byId[id]))
    && (forall o <- m.ops :: m.ops[o].closes == if Done(m.ops[o]) then 1 else 0)
    && (forall o <- m.ops :: m.ops[o].generation <= m.generation)
    && (forall o <- m.ops :: !m.ops[o].status.Opened? ==> m.ops[o].id !in m.byId)
    && (forall o, p :: o in m.ops && p in m.ops && m.ops[o].id == m.ops[p].id ==> o == p)
  }

  ghost predicate Inv(m: Manager) { IndexExact(m) && OpeningExact(m) && EntriesOk(m) }

  lemma IndexKept(m: Manager, step: Step)
    requires Inv(m) && Enabled(m, step)
    ensures IndexExact(Next(m, step))
  {
    if step.CommitStep? {
      var op := m.ops[step.o];
      if CommitAllowed(m, step.o) { assert m.opening[op.root] == step.o && op.root !in m.byRoot; }
    }
  }

  predicate OnOpens(step: Step) { step.BeginOpenStep? || step.LoadFails? || step.CommitStep? || step.FinishOpenStep? }

  lemma BeginKeepsOpening(m: Manager, o: OpId, id: Id, root: Root)
    requires OpeningExact(m) && o !in m.ops
    ensures OpeningExact(BeginOpen(m, o, id, root))
  {
  }

  lemma CommitKeepsOpening(m: Manager, o: OpId)
    requires OpeningExact(m) && IsLoading(m, o)
    ensures OpeningExact(CommitLoad(m, o)) && OpeningExact(SetStatus(m, o, Failing))
  {
  }

  lemma FinishKeepsOpening(m: Manager, o: OpId, err: Errors)
    requires OpeningExact(m) && o in m.ops && m.ops[o].status.Failing?
    ensures OpeningExact(FinishOpen(m, o, err))
  {
  }

  lemma OpensKeepOpening(m: Manager, step: Step)
    requires Inv(m) && Enabled(m, step) && OnOpens(step)
    ensures OpeningExact(Next(m, step))
  {
    hide IndexExact, OpeningExact, EntriesOk, BeginOpen, CommitLoad, FinishOpen, SetStatus;
    match step
    case BeginOpenStep(o, id, root) => BeginKeepsOpening(m, o, id, root);
    case LoadFails(o) => CommitKeepsOpening(m, o);
    case CommitStep(o) => CommitKeepsOpening(m, o);
    case FinishOpenStep(o, err) => FinishKeepsOpening(m, o, err);
  }

  lemma BeginKeepsEntries(m: Manager, o: OpId, id: Id, root: Root)
    requires EntriesOk(m) && o !in m.ops && FreshId(m, id)
    ensures EntriesOk(BeginOpen(m, o, id, root))
  {
  }

  lemma StatusKeepsEntries(m: Manager, o: OpId)
    requires EntriesOk(m) && IsLoading(m, o)
    ensures EntriesOk(SetStatus(m, o, Failing))
  {
  }

  lemma CommitKeepsEntries(m: Manager, o: OpId)
    requires EntriesOk(m) && IsLoading(m, o)
    ensures EntriesOk(CommitLoad(m, o))
  {
  }

  lemma FinishKeepsEntries(m: Manager, o: OpId, err: Errors)
    requires EntriesOk(m) && o in m.ops && m.ops[o].status.Failing?
    ensures EntriesOk(FinishOpen(m, o, err))
  {
  }

  lemma OpensKeepEntries(m: Manager, step: Step)
    requires Inv(m) && Enabled(m, step) && OnOpens(step)
    ensures EntriesOk(Next(m, step))
  {
    hide IndexExact, OpeningExact, EntriesOk, BeginOpen, CommitLoad, FinishOpen, SetStatus;
    match step
    case BeginOpenStep(o, id, root) => BeginKeepsEntries(m, o, id, root);
    case LoadFails(o) => StatusKeepsEntries(m, o);
    case CommitStep(o) => CommitKeepsEntries(m, o);
    case FinishOpenStep(o, err) => FinishKeepsEntries(m, o, err);
  }

  lemma ClosesKeep(m: Manager, step: Step)
    requires Inv(m) && Enabled(m, step) && !OnOpens(step)
    ensures OpeningExact(Next(m, step)) && EntriesOk(Next(m, step))
  {
    hide IndexExact;
  }

  // -------------------------------------------------------------------- runs

  ghost predicate CanStep(a: Manager, b: Manager) { exists step :: Enabled(a, step) && b == Next(a, step) }

  ghost predicate IsRun(run: seq<Manager>) {
    && run != [] && run[0] == EMPTY
    && forall i :: 0 <= i < |run| - 1 ==> CanStep(run[i], run[i + 1])
  }

  lemma StepKeepsInv(a: Manager, b: Manager)
    requires Inv(a) && CanStep(a, b)
    ensures Inv(b)
  {
    hide IndexExact, OpeningExact, EntriesOk, Next, Enabled;
    var step :| Enabled(a, step) && b == Next(a, step);
    IndexKept(a, step);
    if OnOpens(step) {
      OpensKeepOpening(a, step);
      OpensKeepEntries(a, step);
    } else {
      ClosesKeep(a, step);
    }
  }

  /** In every interleaving of opens, closes and clears the index is exact. */
  lemma {:induction false} RunInv(run: seq<Manager>, i: nat)
    requires IsRun(run) && i < |run|
    ensures Inv(run[i])
  {
    hide CanStep;
    if i > 0 {
      RunInv(run, i - 1);
      hide Inv;
      StepKeepsInv(run[i - 1], run[i - 1 + 1]);
    }
  }

  /** At most one active workspace per root, a lookup by root finds an existing
      entry, and no two loads of the current generation share a root. */
  lemma OneWorkspacePerRoot(run: seq<Manager>, i: nat)
    requires IsRun(run) && i < |run|
    ensures forall a, b :: CloseOwned(run[i], a) && CloseOwned(run[i], b) ==>
              run[i].byId[a].root == run[i].byId[b].root ==> a == b
    ensures forall root <- run[i].byRoot :: run[i].byRoot[root] in run[i].byId
    ensures forall o, p :: SameFlight(run[i], o, p) ==> o == p
  {
    RunInv(run, i);
  }

  predicate SameFlight(m: Manager, o: OpId, p: OpId) {
    && IsLoading(m, o) && IsLoading(m, p) && m.ops[o].root == m.ops[p].root
    && m.ops[o].generation == m.generation && m.ops[p].generation == m.generation
  }

  lemma NoPanicReachable(run: seq<Manager>, i: nat, step: Step)
    requires IsRun(run) && i < |run| && Enabled(run[i], step)
    ensures !Panics(run[i], step)
  {
    RunInv(run, i);
  }

  /** In every run a done channel is closed once, exactly when its operation's
      owner has returned; until then it is open and waiters block. */
  lemma DoneClosedOnce(run: seq<Manager>, i: nat, o: OpId)
    requires IsRun(run) && i < |run| && o in run[i].ops
    ensures Done(run[i].ops[o]) <==> run[i].ops[o].closes == 1
    ensures !Done(run[i].ops[o]) <==> run[i].ops[o].closes == 0
  {
    RunInv(run, i);
  }

  /** What no step changes: operations persist, a released operation keeps its
      outcome, and one of an earlier generation never opens a workspace. */
  ghost predicate OpPersists(a: Manager, b: Manager, o: OpId)
    requires o in a.ops
  {
    && o in b.ops && b.ops[o].generation == a.ops[o].generation && b.ops[o].id == a.ops[o].id
    && (Done(a.ops[o]) ==> b.ops[o].status == a.ops[o].status)
    && (a.ops[o].generation < a.generation && !a.ops[o].status.Opened? ==> !b.ops[o].status.Opened?)
  }

  lemma StepPersists(a: Manager, step: Step, o: OpId)
    requires Enabled(a, step) && o in a.ops
    ensures OpPersists(a, Next(a, step), o) && a.generation <= Next(a, step).generation
  {
  }

  lemma AnyStepPersists(a: Manager, b: Manager, o: OpId)
    requires CanStep(a, b) && o in a.ops
    ensures OpPersists(a, b, o) && a.generation <= b.generation
  {
    hide Enabled, Next;
    var step :| Enabled(a, step) && b == Next(a, step);
    StepPersists(a, step, o);
  }

  lemma {:induction false} RunPersists(run: seq<Manager>, i: nat, j: nat, o: OpId)
    requires IsRun(run) && i <= j < |run| && o in run[i].ops
    ensures OpPersists(run[i], run[j], o) && run[i].generation <= run[j].generation
    decreases j
  {
    hide CanStep;
    if i < j {
      RunPersists(run, i, j - 1, o);
      AnyStepPersists(run[j - 1], run[j - 1 + 1], o);
    }
  }

  /** A load that began before a Clear, and had not opened by then, never opens
      a workspace after it: no identifier and no root ever leads to one of its.
      And waiters are released with one outcome for good. */
  lemma ClearedLoadNeverOpens(run: seq<Manager>, i: nat, j: nat, o: OpId)
    requires IsRun(run) && i <= j < |run| && o in run[i].ops
    ensures o in run[j].ops
    ensures run[i].ops[o].generation < run[i].generation && !run[i].ops[o].status.Opened? ==>
              && !run[j].ops[o].status.Opened? && run[i].ops[o].id !in run[j].byId
              && forall root <- run[j].byRoot :: run[j].byRoot[root] != run[i].ops[o].id
    ensures Done(run[i].ops[o]) ==> run[j].ops[o].status == run[i].ops[o].status
  {
    RunPersists(run, i, j, o);
    RunInv(run, j);
  }

  // -------------------------------------------------------------- the object

  class WorkspaceManager {
    var byId: map<Id, Entry>
    var byRoot: map<Root, Id>
    var opening: map<Root, OpId>
    var ops: map<OpId, Op>
    var generation: nat

    ghost function View(): Manager
      reads this
    {
      Manager(byId, byRoot, opening, ops, generation)
    }

    constructor ()
      ensures View() == EMPTY
    {
      byId, byRoot, opening, ops, generation := map[], map[], map[], map[], 0;
    }

    method Find(root: Root) returns (existing: Option<Id>, operation: Option<OpId>)
      requires Inv(View())
      ensures existing.Some? <==> exists id :: CloseOwned(View(), id) && byId[id].root == root
      ensures existing.Some? ==> CloseOwned(View(), existing.value) && byId[existing.value].root == root
      ensures existing.None? ==> (operation.None? <==> Owns(View(), root))
      ensures operation.Some? ==>
              operation.value in ops && !Done(ops[operation.value]) && ops[operation.value].root == root
    {
      if root in byRoot { return Some(byRoot[root]), None; }
      return None, if root in opening then Some(opening[root]) else None;
    }

    method BeginOpenOperation(o: OpId, id: Id, root: Root) returns (owner: bool)
      modifies this
      ensures owner == old(Owns(View(), root)) && View() == BeginOpen(old(View()), o, id, root)
    {
      if root in byRoot { return false; }
      if root in opening { return false; }
      ops := ops[o := Op(root, id, generation, Loading, 0)];
      opening := opening[root := o];
      return true;
    }

    method Commit(o: OpId) returns (committed: bool)
      requires o in ops
      modifies this
      ensures committed == old(CommitAllowed(View(), o)) && View() == CommitLoad(old(View()), o)
    {
      var op := ops[o];
      if op.generation != generation {
        ops := ops[o := op.(status := Failing)];
        return false;
      }
      byId := byId[op.id := Entry(op.root, true, Idle, 0)];
      byRoot := byRoot[op.root := op.id];
      opening := opening - {op.root};
      ops := ops[o := op.(status := Opened, closes := op.closes + 1)];
      return true;
    }

    method FinishOpenOperation(o: OpId, err: Errors)
      requires o in ops
      modifies this
      ensures View() == FinishOpen(old(View()), o, err)
    {
      var root := ops[o].root;
      if root in opening && opening[root] == o { opening := opening - {root}; }
      ops := ops[o := ops[o].(status := Failed(err), closes := ops[o].closes + 1)];
    }

    method BeginCloseEntry(id: Id) returns (found: bool, owner: bool)
      requires CloseOwned(View(), id) ==> byId[id].close.Idle?
      modifies this
      ensures found == (id in old(byId)) && owner == old(CloseOwned(View(), id))
      ensures View() == BeginClose(old(View()), id)
    {
      if id !in byId { return false, false; }
      if !byId[id].active { return true, false; }
      byRoot := byRoot - {byId[id].root};
      byId := byId[id := byId[id].(active := false, close := Started, workers := byId[id].workers + 1)];
      return true, true;
    }

    /** One turn of Clear's loop: an active entry starts closing. */
    method CloseOne(id: Id)
      requires id in byId && (byId[id].active ==> byId[id].close.Idle?)
      modifies `byId
      ensures byId == old(byId)[id := if old(byId)[id].active then Closing(old(byId)[id]) else old(byId)[id]]
    {
      if byId[id].active {
        byId := byId[id := byId[id].(active := false, close := Started, workers := byId[id].workers + 1)];
      }
    }

    /** The locked part of Clear; `owned` are the closes it must run. */
    method ClearAll() returns (owned: set<Id>)
      requires forall id <- byId :: byId[id].active ==> byId[id].close.Idle?
      modifies this
      ensures View() == Clear(old(View()))
      ensures owned == set id | id in old(byId) && old(byId)[id].active
    {
      hide Cleared;
      owned := {};
      var remaining := byId.Keys;
      ghost var before := byId;
      ClearedNone(before);
      assert before.Keys - remaining == {};
      while remaining != {}
        invariant remaining <= before.Keys
        invariant byRoot == old(byRoot) && opening == old(opening) && ops == old(ops) && generation == old(generation)
        invariant byId == Cleared(before, before.Keys - remaining)
        invariant owned == Active(before, before.Keys - remaining)
        decreases |remaining|
      {
        var id :| id in remaining;
        ClearedOne(before, before.Keys - remaining, id);
        assert before.Keys - (remaining - {id}) == before.Keys - remaining + {id};
        if byId[id].active { owned := owned + {id}; }
        CloseOne(id);
        remaining := remaining - {id};
      }
      assert before.Keys - remaining == before.Keys;
      byRoot, opening, generation := map[], map[], generation + 1;
    }

    method FinishCloseEntry(id: Id, err: Errors)
      requires id in byId && byId[id].close.Started? && byId[id].workers > 0
      modifies this
      ensures View() == FinishClose(old(View()), id, err)
    {
      byId := byId[id := byId[id].(close := Finished(err), workers := byId[id].workers - 1)];
    }
  }
}
