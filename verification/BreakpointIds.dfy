/** internal/dap/breakpoint_ids.go: the permanent identities of breakpoints, as a
    compressed form of the full history of replacements and commands. */
module BreakpointIds {
  import opened Base

  datatype Position = Position(line: int, column: int)

  datatype Key = Key(source: string, position: Position)

  type Native = int

  /** A requested position and the native breakpoint made for it. */
  datatype Entry = Entry(position: Position, native: Native)

  datatype Ids = Ids(next: nat, pending: nat,
                     stable: map<Key, nat>, active: map<Native, nat>, retired: map<Native, nat>)

  const NO_IDS := Ids(1, 0, map[], map[], map[])

  datatype Op = ReplaceOp(source: string, entries: seq<Entry>) | StartedOp | StoppedOp | FinishOp

  // -------------------------------------------------------------- operations

  function Assign(b: Ids, key: Key): (c: Ids)
    ensures key in c.stable
  {
    if key in b.stable && b.stable[key] != 0 then b
    else b.(next := b.next + 1, stable := b.stable[key := b.next])
  }

  function ReplaceEntry(b: Ids, source: string, e: Entry): Ids {
    var c := Assign(b, Key(source, e.position));
    c.(active := c.active[e.native := c.stable[Key(source, e.position)]], retired := c.retired - {e.native})
  }

  function ReplaceEntries(b: Ids, source: string, entries: seq<Entry>): Ids
    decreases |entries|
  {
    if entries == [] then b else ReplaceEntries(ReplaceEntry(b, source, entries[0]), source, entries[1..])
  }

  function Replace(b: Ids, source: string, entries: seq<Entry>): Ids {
    ReplaceEntries(b.(retired := if b.pending != 0 then b.retired + b.active else b.retired, active := map[]),
                   source, entries)
  }

  function Stopped(b: Ids): Ids {
    var pending := if b.pending > 0 then b.pending - 1 else 0;
    b.(pending := pending, retired := if pending == 0 then map[] else b.retired)
  }

  function Apply(b: Ids, op: Op): Ids {
    match op
    case ReplaceOp(source, entries) => Replace(b, source, entries)
    case StartedOp => b.(pending := b.pending + 1)
    case StoppedOp => Stopped(b)
    case FinishOp => b.(pending := 0, active := map[], retired := map[])
  }

  function IdOf(b: Ids, native: Native): nat {
    if native in b.active && b.active[native] != 0 then b.active[native]
    else if native in b.retired then b.retired[native] else 0
  }

  function After(h: seq<Op>): Ids {
    if h == [] then NO_IDS else Apply(After(h[..|h| - 1]), h[|h| - 1])
  }

  // ----------------------------------------------------- the history reference

  function AddKeys(keys: seq<Key>, source: string, entries: seq<Entry>): (more: seq<Key>)
    ensures keys <= more
    decreases |entries|
  {
    if entries == [] then keys
    else
      var key := Key(source, entries[0].position);
      AddKeys(if key in keys then keys else keys + [key], source, entries[1..])
  }

  /** Every position ever requested, in order of first request. */
  function Keys(h: seq<Op>): seq<Key> {
    if h == [] then []
    else
      var before := Keys(h[..|h| - 1]);
      var op := h[|h| - 1];
      if op.ReplaceOp? then AddKeys(before, op.source, op.entries) else before
  }

  /** The rank of the first request of a position, counted from one. */
  function Number(keys: seq<Key>, key: Key): nat {
    if keys == [] then 0 else if keys[|keys| - 1] == key then |keys| else Number(keys[..|keys| - 1], key)
  }

  function Pending(h: seq<Op>): nat {
    if h == [] then 0
    else
      var before := Pending(h[..|h| - 1]);
      match h[|h| - 1]
      case ReplaceOp(_, _) => before
      case StartedOp => before + 1
      case StoppedOp => if before > 0 then before - 1 else 0
      case FinishOp => 0
  }

  /** The last entry of a replacement for a native breakpoint. */
  function LastEntry(entries: seq<Entry>, native: Native): Option<Position> {
    if entries == [] then None
    else if LastEntry(entries[1..], native).Some? then LastEntry(entries[1..], native)
    else if entries[0].native == native then Some(entries[0].position) else None
  }

  /** What the latest replacement made of a native breakpoint. */
  function ActiveKey(h: seq<Op>, native: Native): Option<Key> {
    if h == [] then None
    else
      match h[|h| - 1]
      case ReplaceOp(source, entries) =>
        var last := LastEntry(entries, native);
        if last.Some? then Some(Key(source, last.value)) else None
      case FinishOp => None
      case _ => ActiveKey(h[..|h| - 1], native)
  }

  /** The latest assignment of a native breakpoint that was active at some time
      since no command was pending. */
  function ResolvedKey(h: seq<Op>, native: Native): Option<Key> {
    if h == [] then None
    else
      var before := h[..|h| - 1];
      match h[|h| - 1]
      case ReplaceOp(_, _) =>
        if ActiveKey(h, native).Some? || Pending(h) == 0 then ActiveKey(h, native) else ResolvedKey(before, native)
      case StartedOp => ResolvedKey(before, native)
      case StoppedOp => if Pending(h) == 0 then ActiveKey(h, native) else ResolvedKey(before, native)
      case FinishOp => None
  }

  // -------------------------------------------------------------- refinement

  /** The permanent numbers are the ranks of first request. */
  ghost predicate Ranked(b: Ids, keys: seq<Key>) {
    && b.next == |keys| + 1
    && (forall i, j :: 0 <= i < j < |keys| ==> keys[i] != keys[j])
    && (forall i :: 0 <= i < |keys| ==> keys[i] in b.stable && b.stable[keys[i]] == i + 1)
    && (forall key <- b.stable :: key in keys)
  }

  lemma {:induction false} NumberIs(keys: seq<Key>, i: nat)
    requires i < |keys| && forall j, k :: 0 <= j < k < |keys| ==> keys[j] != keys[k]
    ensures Number(keys, keys[i]) == i + 1
  {
    if i < |keys| - 1 {
      NumberIs(keys[..|keys| - 1], i);
    }
  }

  lemma RankedNumber(b: Ids, keys: seq<Key>, key: Key)
    requires Ranked(b, keys) && key in b.stable
    ensures b.stable[key] == Number(keys, key) > 0
  {
    var i :| 0 <= i < |keys| && keys[i] == key;
    NumberIs(keys, i);
  }

  lemma AssignRanked(b: Ids, keys: seq<Key>, key: Key)
    requires Ranked(b, keys)
    ensures Ranked(Assign(b, key), if key in keys then keys else keys + [key])
    ensures forall k <- b.stable :: k in Assign(b, key).stable && Assign(b, key).stable[k] == b.stable[k]
  {
    if key in keys {
      var i :| 0 <= i < |keys| && keys[i] == key;
      assert b.stable[keys[i]] == i + 1;
    }
  }

  ghost predicate Extends(b: Ids, c: Ids) {
    forall k <- b.stable :: k in c.stable && c.stable[k] == b.stable[k]
  }

  lemma {:induction false} EntriesRanked(b: Ids, keys: seq<Key>, source: string, entries: seq<Entry>)
    requires Ranked(b, keys)
    ensures var c := ReplaceEntries(b, source, entries);
            Ranked(c, AddKeys(keys, source, entries)) && Extends(b, c) && c.pending == b.pending
    decreases |entries|
  {
    hide Ranked;
    if entries != [] {
      var key := Key(source, entries[0].position);
      AssignRanked(b, keys, key);
      var d := ReplaceEntry(b, source, entries[0]);
      var more := if key in keys then keys else keys + [key];
      RankedSame(Assign(b, key), d, more);
      EntriesRanked(d, more, source, entries[1..]);
    }
  }

  /** What a replacement's entries leave behind for one native breakpoint. */
  lemma {:induction false} EntriesReplaced(b: Ids, keys: seq<Key>, source: string, entries: seq<Entry>, n: Native)
    requires Ranked(b, keys)
    ensures var c := ReplaceEntries(b, source, entries);
            var last := LastEntry(entries, n);
            && (n in c.active <==> n in b.active || last.Some?)
            && (last.Some? ==> Key(source, last.value) in c.stable && c.active[n] == c.stable[Key(source, last.value)])
            && (last.None? && n in b.active ==> c.active[n] == b.active[n])
            && (n in c.retired <==> n in b.retired && last.None?)
            && (n in c.retired ==> c.retired[n] == b.retired[n])
    decreases |entries|
  {
    hide Ranked;
    if entries != [] {
      var key := Key(source, entries[0].position);
      AssignRanked(b, keys, key);
      var d := ReplaceEntry(b, source, entries[0]);
      var more := if key in keys then keys else keys + [key];
      RankedSame(Assign(b, key), d, more);
      EntriesRanked(d, more, source, entries[1..]);
      EntriesReplaced(d, more, source, entries[1..], n);
    }
  }

  lemma RankedSame(b: Ids, c: Ids, keys: seq<Key>)
    requires Ranked(b, keys) && c.stable == b.stable && c.next == b.next
    ensures Ranked(c, keys)
  {
  }

  /** The maps are the history: every number is that of the key the history
      resolves a native breakpoint to. */
  ghost predicate ActiveAt(b: Ids, h: seq<Op>, n: Native) {
    var key := ActiveKey(h, n);
    if key.Some? then key.value in b.stable && n in b.active && b.active[n] == b.stable[key.value] else n !in b.active
  }

  ghost predicate RetiredAt(b: Ids, h: seq<Op>, n: Native) {
    var key := ResolvedKey(h, n);
    if ActiveKey(h, n).None? && key.Some?
      then key.value in b.stable && n in b.retired && b.retired[n] == b.stable[key.value]
    else n !in b.retired
  }

  ghost predicate Refines(b: Ids, h: seq<Op>) {
    && Ranked(b, Keys(h)) && b.pending == Pending(h)
    && (forall n :: ActiveAt(b, h, n) && RetiredAt(b, h, n))
    && (b.pending == 0 ==> b.retired == map[])
  }

  /** An active native breakpoint resolves to its active key. */
  lemma {:induction false} ActiveResolves(h: seq<Op>, n: Native)
    requires ActiveKey(h, n).Some?
    ensures ResolvedKey(h, n) == ActiveKey(h, n)
  {
    if h != [] {
      var op := h[|h| - 1];
      if op.StartedOp? || op.StoppedOp? { ActiveResolves(h[..|h| - 1], n); }
    }
  }

  lemma ReplaceRefinesAt(b: Ids, h: seq<Op>, source: string, entries: seq<Entry>, n: Native)
    requires Ranked(b, Keys(h)) && b.pending == Pending(h) && (b.pending == 0 ==> b.retired == map[])
    requires ActiveAt(b, h, n) && RetiredAt(b, h, n)
    ensures ActiveAt(Replace(b, source, entries), h + [ReplaceOp(source, entries)], n)
    ensures RetiredAt(Replace(b, source, entries), h + [ReplaceOp(source, entries)], n)
    ensures b.pending == 0 ==> n !in Replace(b, source, entries).retired
  {
    hide Ranked;
    var g := h + [ReplaceOp(source, entries)];
    assert g[..|g| - 1] == h && g[|g| - 1] == ReplaceOp(source, entries);
    var start := b.(retired := if b.pending != 0 then b.retired + b.active else b.retired, active := map[]);
    RankedSame(b, start, Keys(h));
    EntriesRanked(start, Keys(h), source, entries);
    EntriesReplaced(start, Keys(h), source, entries, n);
    if ActiveKey(h, n).Some? { ActiveResolves(h, n); }
  }

  lemma ReplaceRefines(b: Ids, h: seq<Op>, source: string, entries: seq<Entry>)
    requires Refines(b, h)
    ensures Refines(Replace(b, source, entries), h + [ReplaceOp(source, entries)])
  {
    hide Ranked, ActiveAt, RetiredAt;
    var g := h + [ReplaceOp(source, entries)];
    assert g[..|g| - 1] == h && g[|g| - 1] == ReplaceOp(source, entries);
    var start := b.(retired := if b.pending != 0 then b.retired + b.active else b.retired, active := map[]);
    RankedSame(b, start, Keys(h));
    EntriesRanked(start, Keys(h), source, entries);
    var c := Replace(b, source, entries);
    forall n ensures ActiveAt(c, g, n) && RetiredAt(c, g, n) {
      assert ActiveAt(b, h, n) && RetiredAt(b, h, n);
      ReplaceRefinesAt(b, h, source, entries, n);
    }
    forall n | n in c.retired ensures b.pending != 0 {
      assert ActiveAt(b, h, n) && RetiredAt(b, h, n);
      ReplaceRefinesAt(b, h, source, entries, n);
    }
    assert Keys(g) == AddKeys(Keys(h), source, entries) && Pending(g) == Pending(h);
  }

  lemma OtherRefinesAt(b: Ids, h: seq<Op>, op: Op, n: Native)
    requires !op.ReplaceOp? && b.pending == Pending(h) && ActiveAt(b, h, n) && RetiredAt(b, h, n)
    ensures ActiveAt(Apply(b, op), h + [op], n) && RetiredAt(Apply(b, op), h + [op], n)
  {
    var g := h + [op];
    assert g[..|g| - 1] == h && g[|g| - 1] == op;
  }

  lemma OtherRefines(b: Ids, h: seq<Op>, op: Op)
    requires Refines(b, h) && !op.ReplaceOp?
    ensures Refines(Apply(b, op), h + [op])
  {
    hide Ranked, ActiveAt, RetiredAt;
    var g := h + [op];
    assert g[..|g| - 1] == h && g[|g| - 1] == op;
    var c := Apply(b, op);
    RankedSame(b, c, Keys(h));
    forall n ensures ActiveAt(c, g, n) && RetiredAt(c, g, n) {
      assert ActiveAt(b, h, n) && RetiredAt(b, h, n);
      OtherRefinesAt(b, h, op, n);
    }
  }

  /** After any history at all the maps refine it. */
  lemma {:induction false} HistoryRefined(h: seq<Op>)
    ensures Refines(After(h), h)
  {
    if h != [] {
      hide Refines;
      var before, op := h[..|h| - 1], h[|h| - 1];
      HistoryRefined(before);
      assert before + [op] == h;
      if op.ReplaceOp? {
        ReplaceRefines(After(before), before, op.source, op.entries);
      } else {
        OtherRefines(After(before), before, op);
      }
    }
  }

  /** A lookup answers the number of the latest assignment of the native
      breakpoint, if it was active since no command was pending, and otherwise 0. */
  lemma LookupRefinesHistory(h: seq<Op>, native: Native)
    ensures IdOf(After(h), native) ==
            if ResolvedKey(h, native).Some? then Number(Keys(h), ResolvedKey(h, native).value) else 0
    ensures ResolvedKey(h, native).Some? ==> IdOf(After(h), native) > 0
  {
    HistoryRefined(h);
    var b := After(h);
    assert ActiveAt(b, h, native) && RetiredAt(b, h, native);
    if ActiveKey(h, native).Some? { ActiveResolves(h, native); }
    if ResolvedKey(h, native).Some? { RankedNumber(b, Keys(h), ResolvedKey(h, native).value); }
  }

  lemma RankedDistinct(b: Ids, keys: seq<Key>)
    requires Ranked(b, keys)
    ensures forall k, l :: k in b.stable && l in b.stable && b.stable[k] == b.stable[l] ==> k == l
    ensures forall k <- b.stable :: b.stable[k] > 0
  {
    forall k | k in b.stable ensures 0 < b.stable[k] <= |keys| && k == keys[b.stable[k] - 1] {
      var i :| 0 <= i < |keys| && keys[i] == k;
      assert b.stable[keys[i]] == i + 1;
    }
  }

  /** Distinct positions have distinct non-zero numbers, active and retired are
      disjoint, and nothing is retired while no command is pending. */
  lemma NumbersDistinct(h: seq<Op>)
    ensures forall k, l :: k in After(h).stable && l in After(h).stable ==>
              After(h).stable[k] == After(h).stable[l] ==> k == l
    ensures forall k <- After(h).stable :: After(h).stable[k] > 0
    ensures After(h).active.Keys !! After(h).retired.Keys
    ensures After(h).pending == 0 ==> After(h).retired == map[]
  {
    HistoryRefined(h);
    var b := After(h);
    hide After, Keys, Ranked, ActiveKey, ResolvedKey;
    RankedDistinct(b, Keys(h));
    forall n | n in b.active ensures n !in b.retired { assert ActiveAt(b, h, n) && RetiredAt(b, h, n); }
  }

  /** Numbers are permanent: no operation changes one that was given out. */
  lemma {:induction false} NumbersPermanent(h: seq<Op>, more: seq<Op>, key: Key)
    requires key in After(h).stable
    ensures key in After(h + more).stable && After(h + more).stable[key] == After(h).stable[key]
    decreases |more|
  {
    if more == [] {
      assert h + more == h;
    } else {
      var before := h + more[..|more| - 1];
      var g := h + more;
      assert g[..|g| - 1] == before && g[|g| - 1] == more[|more| - 1];
      NumbersPermanent(h, more[..|more| - 1], key);
      HistoryRefined(before);
      var op := g[|g| - 1];
      if op.ReplaceOp? {
        var b := After(before);
        var start := b.(retired := if b.pending != 0 then b.retired + b.active else b.retired, active := map[]);
        RankedSame(b, start, Keys(before));
        EntriesRanked(start, Keys(before), op.source, op.entries);
      }
    }
  }

  /** Read off the history: a native breakpoint that was active at time `k`, and
      not since, still resolves to what it was then, provided a command was
      pending at every time since. */
  lemma {:induction false} ResolvesWhilePending(h: seq<Op>, k: nat, native: Native)
    requires k <= |h| && ActiveKey(h[..k], native).Some?
    requires forall j :: k < j <= |h| ==> Pending(h[..j]) > 0 && ActiveKey(h[..j], native).None?
    ensures ResolvedKey(h, native) == ActiveKey(h[..k], native)
    decreases |h|
  {
    if k == |h| {
      assert h[..k] == h;
      ActiveResolves(h, native);
    } else {
      assert h[..|h|] == h;
      var before := h[..|h| - 1];
      assert forall j :: 0 <= j <= |before| ==> before[..j] == h[..j];
      ResolvesWhilePending(before, k, native);
    }
  }

  // -------------------------------------------------------------- the object

  class BreakpointIdTable {
    var next: nat
    var pending: nat
    var stable: map<Key, nat>
    var active: map<Native, nat>
    var retired: map<Native, nat>

    ghost function View(): Ids
      reads this
    {
      Ids(next, pending, stable, active, retired)
    }

    constructor ()
      ensures View() == NO_IDS
    {
      next, pending, stable, active, retired := 1, 0, map[], map[], map[];
    }

    method ReplaceAll(source: string, entries: seq<Entry>)
      modifies this
      ensures View() == Replace(old(View()), source, entries)
    {
      if pending != 0 { retired := retired + active; }
      active := map[];
      ghost var start := View();
      for i := 0 to |entries|
        invariant ReplaceEntries(View(), source, entries[i..]) == ReplaceEntries(start, source, entries)
      {
        var e := entries[i];
        assert entries[i..][0] == e && entries[i..][1..] == entries[i + 1..];
        ghost var before := View();
        var key := Key(source, e.position);
        var number := if key in stable then stable[key] else 0;
        if number == 0 {
          number := next;
          next := next + 1;
          stable := stable[key := number];
        }
        active := active[e.native := number];
        retired := retired - {e.native};
        assert View() == ReplaceEntry(before, source, e);
      }
    }

    method Id(native: Native) returns (r: nat)
      ensures r == IdOf(View(), native)
    {
      var number := if native in active then active[native] else 0;
      if number != 0 { return number; }
      return if native in retired then retired[native] else 0;
    }

    method CommandStarted()
      modifies this
      ensures View() == Apply(old(View()), StartedOp)
    {
      pending := pending + 1;
    }

    method CommandStopped()
      modifies this
      ensures View() == Apply(old(View()), StoppedOp)
    {
      if pending > 0 { pending := pending - 1; }
      if pending == 0 { retired := map[]; }
    }

    method Finish()
      modifies this
      ensures View() == Apply(old(View()), FinishOp)
    {
      pending, active, retired := 0, map[], map[];
    }
  }
}
