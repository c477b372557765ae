/** internal/dap/handle_table.go: handles for frames, scopes and variables as a
    compressed form of a history of epochs. */
module HandleTable {
  import opened Base

  datatype Kind = FrameKind | ScopeKind | VariableKind

  /** What a handle was issued for. */
  datatype Target = Target(kind: Kind, value: int)

  datatype Status = Invalid | Current | Stale

  datatype Handles = Handles(
    next: nat, frames: map<nat, int>, scopes: map<nat, int>, variables: map<nat, int>, stale: map<nat, Kind>)

  const NO_HANDLES := Handles(1, map[], map[], map[], map[])

  function Table(h: Handles, kind: Kind): map<nat, int> {
    match kind
    case FrameKind => h.frames
    case ScopeKind => h.scopes
    case VariableKind => h.variables
  }

  function Issue(h: Handles, target: Target): (n: Handles)
    ensures n.next == h.next + 1
  {
    var n := h.(next := h.next + 1);
    match target.kind
    case FrameKind => n.(frames := h.frames[h.next := target.value])
    case ScopeKind => n.(scopes := h.scopes[h.next := target.value])
    case VariableKind => n.(variables := h.variables[h.next := target.value])
  }

  function Marks(handles: set<nat>, kind: Kind): map<nat, Kind> { map n | n in handles :: kind }

  /** An invalidation that drops something forgets what was stale before. */
  function StaleAfter(h: Handles): map<nat, Kind> {
    if |h.frames| + |h.scopes| + |h.variables| == 0 then h.stale
    else Marks(h.frames.Keys, FrameKind) + Marks(h.scopes.Keys, ScopeKind) + Marks(h.variables.Keys, VariableKind)
  }

  function Invalidated(h: Handles): (n: Handles)
    ensures n.next == h.next
  {
    Handles(h.next, map[], map[], map[], StaleAfter(h))
  }

  function Lookup(h: Handles, kind: Kind, handle: int): (Status, int) {
    if handle >= 0 && handle in Table(h, kind) then (Current, Table(h, kind)[handle])
    else if handle >= 0 && handle in h.stale && h.stale[handle] == kind then (Stale, 0)
    else (Invalid, 0)
  }

  // ------------------------------------------------------- the epoch reference

  /** A zero variable reference gets the handle 0 and leaves no trace. */
  datatype Op = IssueOp(target: Target) | InvalidateOp

  /** The targets issued in each epoch, the current one last; handles are
      numbered through all of them from one. */
  function Epochs(ops: seq<Op>): (e: seq<seq<Target>>)
    ensures e != []
  {
    if ops == [] then [[]]
    else
      var before := Epochs(ops[..|ops| - 1]);
      match ops[|ops| - 1]
      case IssueOp(target) => before[|before| - 1 := before[|before| - 1] + [target]]
      case InvalidateOp => before + [[]]
  }

  function Count(epochs: seq<seq<Target>>): nat {
    if epochs == [] then 0 else Count(epochs[..|epochs| - 1]) + |epochs[|epochs| - 1]|
  }

  /** The handles of an epoch lie behind those of the epochs before it. */
  predicate InEpoch(epochs: seq<seq<Target>>, k: nat, handle: int)
    requires k < |epochs|
  {
    Count(epochs[..k]) < handle <= Count(epochs[..k]) + |epochs[k]|
  }

  function TargetOf(epochs: seq<seq<Target>>, k: nat, handle: int): Target
    requires k < |epochs| && InEpoch(epochs, k, handle)
  {
    epochs[k][handle - 1 - Count(epochs[..k])]
  }

  /** The last epoch before the current one in which anything was issued. */
  function LastNonEmpty(epochs: seq<seq<Target>>, k: nat): (last: Option<nat>)
    requires k <= |epochs|
    ensures last.Some? ==> last.value < k
  {
    if k == 0 then None else if epochs[k - 1] != [] then Some(k - 1) else LastNonEmpty(epochs, k - 1)
  }

  /** Current exactly if issued with that kind since the last invalidation,
      stale exactly if issued with that kind in the last non-empty epoch that was
      invalidated, and otherwise invalid. */
  function StatusOf(epochs: seq<seq<Target>>, kind: Kind, handle: int): (Status, int)
    requires epochs != []
  {
    var now := |epochs| - 1;
    if InEpoch(epochs, now, handle) && TargetOf(epochs, now, handle).kind == kind then
      (Current, TargetOf(epochs, now, handle).value)
    else
      var last := LastNonEmpty(epochs, now);
      if last.Some? && InEpoch(epochs, last.value, handle) && TargetOf(epochs, last.value, handle).kind == kind
      then (Stale, 0)
      else (Invalid, 0)
  }

  function After(ops: seq<Op>): Handles {
    if ops == [] then NO_HANDLES
    else
      var before := After(ops[..|ops| - 1]);
      match ops[|ops| - 1]
      case IssueOp(target) => Issue(before, target)
      case InvalidateOp => Invalidated(before)
  }

  // -------------------------------------------------------------- refinement

  /** What a handle was issued for in an epoch that starts behind `base`. */
  function Issued(base: nat, epoch: seq<Target>, n: nat): Option<Target> {
    if base < n <= base + |epoch| then Some(epoch[n - 1 - base]) else None
  }

  predicate Holds(table: map<nat, int>, n: nat, issued: Option<Target>, kind: Kind) {
    && (n in table <==> issued.Some? && issued.value.kind == kind)
    && (n in table && issued.Some? ==> table[n] == issued.value.value)
  }

  ghost predicate CurrentAt(h: Handles, base: nat, epoch: seq<Target>, n: nat) {
    var issued := Issued(base, epoch, n);
    && Holds(h.frames, n, issued, FrameKind) && Holds(h.scopes, n, issued, ScopeKind)
    && Holds(h.variables, n, issued, VariableKind)
  }

  ghost predicate StaleAt(h: Handles, epochs: seq<seq<Target>>, n: nat)
    requires epochs != []
  {
    var last := LastNonEmpty(epochs, |epochs| - 1);
    && (n in h.stale <==> last.Some? && InEpoch(epochs, last.value, n))
    && (n in h.stale && last.Some? && InEpoch(epochs, last.value, n) ==>
          h.stale[n] == TargetOf(epochs, last.value, n).kind)
  }

  ghost predicate Refines(h: Handles, epochs: seq<seq<Target>>)
    requires epochs != []
  {
    var now := |epochs| - 1;
    && h.next == Count(epochs) + 1
    && (forall n :: CurrentAt(h, Count(epochs[..now]), epochs[now], n))
    && (forall n :: StaleAt(h, epochs, n))
  }

  lemma CountSplit(epochs: seq<seq<Target>>)
    requires epochs != []
    ensures Count(epochs) == Count(epochs[..|epochs| - 1]) + |epochs[|epochs| - 1]|
  {
  }

  lemma {:induction false} LastNonEmptySame(a: seq<seq<Target>>, b: seq<seq<Target>>, k: nat)
    requires k <= |a| && k <= |b| && a[..k] == b[..k]
    ensures LastNonEmpty(a, k) == LastNonEmpty(b, k)
    decreases k
  {
    if k > 0 {
      assert a[k - 1] == a[..k][k - 1] == b[..k][k - 1] == b[k - 1];
      assert a[..k - 1] == a[..k][..k - 1] == b[..k][..k - 1] == b[..k - 1];
      LastNonEmptySame(a, b, k - 1);
    }
  }

  lemma SameEpoch(a: seq<seq<Target>>, b: seq<seq<Target>>, k: nat, j: nat, n: nat)
    requires j < k <= |a| && k <= |b| && a[..k] == b[..k]
    ensures InEpoch(a, j, n) == InEpoch(b, j, n) && (InEpoch(a, j, n) ==> TargetOf(a, j, n) == TargetOf(b, j, n))
  {
    assert a[j] == a[..k][j] == b[..k][j] == b[j];
    assert a[..j] == a[..k][..j] == b[..k][..j] == b[..j];
  }

  lemma StaleSame(h: Handles, g: Handles, a: seq<seq<Target>>, b: seq<seq<Target>>, n: nat)
    requires a != [] && |a| == |b| && a[..|a| - 1] == b[..|b| - 1] && g.stale == h.stale && StaleAt(h, a, n)
    ensures StaleAt(g, b, n)
  {
    LastNonEmptySame(a, b, |a| - 1);
    var last := LastNonEmpty(a, |a| - 1);
    if last.Some? { SameEpoch(a, b, |a| - 1, last.value, n); }
  }

  lemma IssueRefines(h: Handles, epochs: seq<seq<Target>>, target: Target)
    requires epochs != [] && Refines(h, epochs)
    ensures var now := |epochs| - 1;
            Refines(Issue(h, target), epochs[now := epochs[now] + [target]])
  {
    hide StaleAt;
    var now := |epochs| - 1;
    var g := epochs[now := epochs[now] + [target]];
    var c := Issue(h, target);
    assert g[..now] == epochs[..now];
    CountSplit(epochs);
    CountSplit(g);
    forall n ensures CurrentAt(c, Count(g[..now]), g[now], n) {
      assert CurrentAt(h, Count(epochs[..now]), epochs[now], n);
    }
    forall n ensures StaleAt(c, g, n) { StaleSame(h, c, epochs, g, n); }
  }

  /** Nothing is listed exactly if the epoch is empty. */
  lemma EmptyEpoch(h: Handles, base: nat, epoch: seq<Target>)
    requires forall n :: CurrentAt(h, base, epoch, n)
    ensures |h.frames| + |h.scopes| + |h.variables| == 0 <==> epoch == []
  {
    if epoch == [] {
      forall n ensures n !in h.frames { assert CurrentAt(h, base, epoch, n); }
      forall n ensures n !in h.scopes { assert CurrentAt(h, base, epoch, n); }
      forall n ensures n !in h.variables { assert CurrentAt(h, base, epoch, n); }
    } else {
      assert CurrentAt(h, base, epoch, base + 1) && Issued(base, epoch, base + 1) == Some(epoch[0]);
      assert base + 1 in h.frames.Keys + h.scopes.Keys + h.variables.Keys;
    }
  }

  lemma InvalidateStale(h: Handles, epochs: seq<seq<Target>>, n: nat)
    requires epochs != [] && Refines(h, epochs)
    ensures StaleAt(Invalidated(h), epochs + [[]], n)
  {
    hide CurrentAt, StaleAt;
    var now := |epochs| - 1;
    var base, epoch := Count(epochs[..now]), epochs[now];
    var g := epochs + [[]];
    EmptyEpoch(h, base, epoch);
    assert g[..|g| - 1] == epochs && g[now] == epoch && g[..now] == epochs[..now];
    if epoch == [] {
      SkipEmpty(h, epochs, n);
    } else {
      assert CurrentAt(h, base, epoch, n);
      FreshStale(h, epochs, n);
    }
  }

  lemma SkipEmpty(h: Handles, epochs: seq<seq<Target>>, n: nat)
    requires epochs != [] && epochs[|epochs| - 1] == [] && StaleAfter(h) == h.stale
    requires forall m :: StaleAt(h, epochs, m)
    ensures StaleAt(Invalidated(h), epochs + [[]], n)
  {
    var now := |epochs| - 1;
    var g := epochs + [[]];
    assert StaleAt(h, epochs, n);
    assert g[..now] == epochs[..now];
    LastNonEmptySame(epochs, g, now);
    var last := LastNonEmpty(epochs, now);
    if last.Some? { SameEpoch(epochs, g, now, last.value, n); }
  }

  lemma MarkedAs(h: Handles, issued: Option<Target>, n: nat)
    requires |h.frames| + |h.scopes| + |h.variables| != 0
    requires Holds(h.frames, n, issued, FrameKind) && Holds(h.scopes, n, issued, ScopeKind)
    requires Holds(h.variables, n, issued, VariableKind)
    ensures n in StaleAfter(h) <==> issued.Some?
    ensures n in StaleAfter(h) && issued.Some? ==> StaleAfter(h)[n] == issued.value.kind
  {
  }

  lemma FreshStale(h: Handles, epochs: seq<seq<Target>>, n: nat)
    requires epochs != [] && epochs[|epochs| - 1] != [] && |h.frames| + |h.scopes| + |h.variables| != 0
    requires CurrentAt(h, Count(epochs[..|epochs| - 1]), epochs[|epochs| - 1], n)
    ensures StaleAt(Invalidated(h), epochs + [[]], n)
  {
    hide Count;
    var now := |epochs| - 1;
    var g := epochs + [[]];
    assert g[..now] == epochs[..now] && g[now] == epochs[now];
    assert LastNonEmpty(g, now + 1) == Some(now);
    var issued := Issued(Count(epochs[..now]), epochs[now], n);
    assert InEpoch(g, now, n) <==> issued.Some?;
    MarkedAs(h, issued, n);
    hide StaleAfter, Holds;
  }

  lemma InvalidateRefines(h: Handles, epochs: seq<seq<Target>>)
    requires epochs != [] && Refines(h, epochs)
    ensures Refines(Invalidated(h), epochs + [[]])
  {
    var g := epochs + [[]];
    assert g[..|g| - 1] == epochs;
    CountSplit(g);
    forall n ensures StaleAt(Invalidated(h), g, n) { InvalidateStale(h, epochs, n); }
    hide StaleAt;
    forall n ensures CurrentAt(Invalidated(h), Count(epochs), [], n) {}
  }

  lemma {:induction false} HistoryRefined(ops: seq<Op>)
    ensures Refines(After(ops), Epochs(ops))
  {
    if ops == [] {
      forall n ensures CurrentAt(NO_HANDLES, 0, [], n) {}
      assert Epochs(ops)[..0] == [];
      assert Count([[]]) == 0;
    } else {
      hide Refines;
      var before, op := ops[..|ops| - 1], ops[|ops| - 1];
      HistoryRefined(before);
      match op
      case IssueOp(target) => IssueRefines(After(before), Epochs(before), target);
      case InvalidateOp => InvalidateRefines(After(before), Epochs(before));
    }
  }

  /** A lookup answers what the history of epochs says, for every history, kind
      and handle, negative and foreign ones included. */
  lemma LookupRefinesEpochs(ops: seq<Op>, kind: Kind, handle: int)
    ensures Lookup(After(ops), kind, handle) == StatusOf(Epochs(ops), kind, handle)
  {
    HistoryRefined(ops);
    var h, epochs := After(ops), Epochs(ops);
    hide After, Epochs;
    if handle >= 0 {
      var now := |epochs| - 1;
      assert CurrentAt(h, Count(epochs[..now]), epochs[now], handle);
      assert StaleAt(h, epochs, handle);
    }
  }

  /** No handle is issued twice: the next one is larger than all before. */
  lemma {:induction false} NeverReissued(ops: seq<Op>, more: seq<Op>)
    ensures After(ops).next <= After(ops + more).next
    ensures more != [] && more[|more| - 1].IssueOp? ==> After(ops).next < After(ops + more).next
    decreases |more|
  {
    hide Issue, Invalidated;
    if more == [] {
      assert ops + more == ops;
    } else {
      var g := ops + more;
      assert g[..|g| - 1] == ops + more[..|more| - 1] && g[|g| - 1] == more[|more| - 1];
      NeverReissued(ops, more[..|more| - 1]);
    }
  }

  // -------------------------------------------------------------- the object

  class HandleTableObject {
    var next: nat
    var frames: map<nat, int>
    var scopes: map<nat, int>
    var variables: map<nat, int>
    var stale: map<nat, Kind>

    ghost function View(): Handles
      reads this
    {
      Handles(next, frames, scopes, variables, stale)
    }

    constructor ()
      ensures View() == NO_HANDLES
    {
      next, frames, scopes, variables, stale := 1, map[], map[], map[], map[];
    }

    method Allocate() returns (handle: nat)
      modifies `next
      ensures handle == old(next) && next == old(next) + 1
    {
      handle := next;
      next := next + 1;
    }

    method Frame(index: int) returns (handle: nat)
      modifies this
      ensures handle == old(next) && View() == Issue(old(View()), Target(FrameKind, index))
    {
      handle := Allocate();
      frames := frames[handle := index];
    }

    method Scope(list: int) returns (handle: nat)
      modifies this
      ensures handle == old(next) && View() == Issue(old(View()), Target(ScopeKind, list))
    {
      handle := Allocate();
      scopes := scopes[handle := list];
    }

    method Variable(reference: int) returns (handle: nat)
      modifies this
      ensures reference == 0 ==> handle == 0 && View() == old(View())
      ensures reference != 0 ==> handle == old(next) && View() == Issue(old(View()), Target(VariableKind, reference))
    {
      if reference == 0 { return 0; }
      handle := Allocate();
      variables := variables[handle := reference];
    }

    method Find(kind: Kind, handle: int) returns (status: Status, value: int)
      ensures (status, value) == Lookup(View(), kind, handle)
    {
      var table := match kind case FrameKind => frames case ScopeKind => scopes case VariableKind => variables;
      if handle >= 0 && handle in table { return Current, table[handle]; }
      if handle >= 0 && handle in stale && stale[handle] == kind { return Stale, 0; }
      return Invalid, 0;
    }

    /** One of the three loops of Invalidate: mark every handle of a table. */
    method MarkStale(table: map<nat, int>, kind: Kind)
      modifies `stale
      ensures stale == old(stale) + Marks(table.Keys, kind)
    {
      var remaining := table.Keys;
      ghost var before := stale;
      while remaining != {}
        invariant remaining <= table.Keys
        invariant stale == before + Marks(table.Keys - remaining, kind)
        decreases |remaining|
      {
        var n :| n in remaining;
        stale := stale[n := kind];
        remaining := remaining - {n};
      }
    }

    method Invalidate()
      modifies this
      ensures View() == Invalidated(old(View()))
    {
      hide Marks;
      if |frames| + |scopes| + |variables| > 0 {
        stale := map[];
        assert map[] + Marks(frames.Keys, FrameKind) == Marks(frames.Keys, FrameKind);
        MarkStale(frames, FrameKind);
        MarkStale(scopes, ScopeKind);
        MarkStale(variables, VariableKind);
      }
      frames, scopes, variables := map[], map[], map[];
    }
  }
}
