/** internal/dap/initial_stop.go with the steps of events.go and requests.go that
    touch it: the breakpoints bound before the program starts are frozen, and the
    first stop reports those at its location by their permanent numbers. */
module InitialStop {
  import opened Base
  import opened BreakpointIds

  datatype Location = Location(file: string, position: Position)

  /** A native breakpoint as a replacement returns it. */
  datatype Breakpoint = Breakpoint(native: Native, bound: bool, location: Location)

  datatype Binding = Binding(native: Native, location: Location)

  datatype Reason = EntryReason | BreakpointReason | OtherReason

  datatype Stop = Stop(reason: Reason, location: Location, hits: seq<Native>)

  function Bind(bs: seq<Breakpoint>): seq<Binding> {
    if bs == [] then []
    else (if bs[0].bound then [Binding(bs[0].native, bs[0].location)] else []) + Bind(bs[1..])
  }

  // ----------------------------------------------------------------- resolve

  /** The first binding at the location for each number not seen before. */
  function HitsFrom(bindings: seq<Binding>, location: Location, ids: Ids, seen: set<nat>): seq<Native> {
    if bindings == [] then []
    else
      var b := bindings[0];
      if b.location == location && IdOf(ids, b.native) !in seen then
        [b.native] + HitsFrom(bindings[1..], location, ids, seen + {IdOf(ids, b.native)})
      else HitsFrom(bindings[1..], location, ids, seen)
  }

  function NumbersAt(bindings: seq<Binding>, location: Location, ids: Ids): set<nat> {
    set b | b in bindings && b.location == location :: IdOf(ids, b.native)
  }

  function NumbersOf(hits: seq<Native>, ids: Ids): set<nat> { set n | n in hits :: IdOf(ids, n) }

  predicate OneEach(hits: seq<Native>, ids: Ids) {
    forall i, j :: 0 <= i < j < |hits| ==> IdOf(ids, hits[i]) != IdOf(ids, hits[j])
  }

  /** The hits report every number bound at the location, each once. */
  lemma {:induction false} HitsExact(bindings: seq<Binding>, location: Location, ids: Ids, seen: set<nat>)
    ensures var hits := HitsFrom(bindings, location, ids, seen);
            NumbersOf(hits, ids) == NumbersAt(bindings, location, ids) - seen && OneEach(hits, ids)
    decreases |bindings|
  {
    if bindings != [] {
      var b, rest := bindings[0], bindings[1..];
      var number := IdOf(ids, b.native);
      assert bindings == [b] + rest;
      assert NumbersAt(bindings, location, ids)
        == NumbersAt(rest, location, ids) + (if b.location == location then {number} else {});
      if b.location == location && number !in seen {
        HitsExact(rest, location, ids, seen + {number});
        HitsCons(b.native, HitsFrom(rest, location, ids, seen + {number}), ids);
      } else {
        HitsExact(rest, location, ids, seen);
      }
    }
  }

  lemma HitsCons(n: Native, tail: seq<Native>, ids: Ids)
    requires OneEach(tail, ids) && IdOf(ids, n) !in NumbersOf(tail, ids)
    ensures OneEach([n] + tail, ids) && NumbersOf([n] + tail, ids) == {IdOf(ids, n)} + NumbersOf(tail, ids)
  {
    var hits := [n] + tail;
    forall j | 0 <= j < |tail| ensures IdOf(ids, tail[j]) != IdOf(ids, n) { assert tail[j] in tail; }
    assert forall x :: x in hits <==> x == n || x in tail;
  }

  ghost predicate Ascending(ns: seq<Native>) { forall i, j :: 0 <= i < j < |ns| ==> ns[i] <= ns[j] }

  function Insert(sorted: seq<Native>, x: Native): seq<Native> {
    if sorted == [] || x <= sorted[0] then [x] + sorted else [sorted[0]] + Insert(sorted[1..], x)
  }

  lemma {:induction false} InsertPermutes(sorted: seq<Native>, x: Native)
    ensures multiset(Insert(sorted, x)) == multiset(sorted) + multiset{x}
  {
    if sorted != [] && x > sorted[0] {
      assert sorted == [sorted[0]] + sorted[1..];
      InsertPermutes(sorted[1..], x);
    }
  }

  lemma {:induction false} InsertAscending(sorted: seq<Native>, x: Native)
    requires Ascending(sorted)
    ensures Ascending(Insert(sorted, x))
    ensures forall y <- Insert(sorted, x) :: y == x || y in sorted
  {
    if sorted != [] && x > sorted[0] {
      InsertAscending(sorted[1..], x);
      var rest := Insert(sorted[1..], x);
      forall j | 0 <= j < |rest| ensures sorted[0] <= rest[j] { assert rest[j] in rest; }
    }
  }

  function SortOf(ns: seq<Native>): seq<Native> {
    if ns == [] then [] else Insert(SortOf(ns[..|ns| - 1]), ns[|ns| - 1])
  }

  lemma {:induction false} SortOk(ns: seq<Native>)
    ensures Ascending(SortOf(ns)) && multiset(SortOf(ns)) == multiset(ns)
  {
    if ns != [] {
      var before, last := ns[..|ns| - 1], ns[|ns| - 1];
      SortOk(before);
      InsertAscending(SortOf(before), last);
      InsertPermutes(SortOf(before), last);
      assert ns == before + [last];
    }
  }

  /** slices.Sort. */
  method SortNatives(ns: seq<Native>) returns (sorted: seq<Native>)
    ensures sorted == SortOf(ns) && Ascending(sorted) && multiset(sorted) == multiset(ns)
  {
    hide Ascending;
    sorted := [];
    for i := 0 to |ns|
      invariant sorted == SortOf(ns[..i])
    {
      assert ns[..i + 1][..i] == ns[..i];
      sorted := Insert(sorted, ns[i]);
    }
    assert ns[..|ns|] == ns;
    SortOk(ns);
  }

  lemma SortedOneEach(a: seq<Native>, b: seq<Native>, ids: Ids)
    requires multiset(a) == multiset(b) && OneEach(a, ids)
    ensures OneEach(b, ids) && NumbersOf(b, ids) == NumbersOf(a, ids)
  {
    forall x ensures x in a <==> x in b { assert x in multiset(a) <==> x in multiset(b); }
    forall i, j | 0 <= i < j < |b| ensures IdOf(ids, b[i]) != IdOf(ids, b[j]) {
      if b[i] == b[j] {
        TwiceInBoth(a, b, i, j);
      } else {
        assert b[i] in a && b[j] in a;
      }
    }
  }

  /** A value that occurs twice occurs twice in any permutation. */
  lemma TwiceInBoth(a: seq<Native>, b: seq<Native>, i: nat, j: nat)
    requires multiset(a) == multiset(b) && i < j < |b| && b[i] == b[j]
    ensures exists k, l :: 0 <= k < l < |a| && a[k] == a[l] == b[i]
  {
    var x := b[i];
    assert b == b[..i] + [x] + b[i + 1..j] + [x] + b[j + 1..];
    assert multiset(b)[x] >= 2;
    Twice(a, x);
  }

  lemma {:induction false} Twice(a: seq<Native>, x: Native)
    requires multiset(a)[x] >= 2
    ensures exists k, l :: 0 <= k < l < |a| && a[k] == a[l] == x
  {
    assert a == [a[0]] + a[1..];
    if a[0] == x {
      assert x in multiset(a[1..]);
      var l :| 0 <= l < |a[1..]| && a[1..][l] == x;
      assert a[l + 1] == x;
    } else {
      Twice(a[1..], x);
      var k, l :| 0 <= k < l < |a[1..]| && a[1..][k] == a[1..][l] == x;
      assert a[k + 1] == a[l + 1] == x;
    }
  }

  /** The stop as the client gets it. */
  function Reported(bindings: seq<Binding>, stop: Stop, ids: Ids): Stop {
    if !stop.reason.EntryReason? then stop else
    var hits := if stop.hits == [] then SortOf(HitsFrom(bindings, stop.location, ids, {})) else stop.hits;
    stop.(hits := hits, reason := if hits == [] then stop.reason else BreakpointReason)
  }

  predicate Suppressed(bindings: seq<Binding>, stop: Stop, stopOnEntry: bool, ids: Ids) {
    stop.reason.EntryReason? && Reported(bindings, stop, ids).hits == [] && !stopOnEntry
  }

  /** An entry stop without hits reports every number bound at its location,
      once each and in ascending order of the native breakpoints. */
  lemma ReportedExact(bindings: seq<Binding>, stop: Stop, ids: Ids)
    requires stop.reason.EntryReason? && stop.hits == []
    ensures var r := Reported(bindings, stop, ids);
            && NumbersOf(r.hits, ids) == NumbersAt(bindings, stop.location, ids)
            && OneEach(r.hits, ids) && Ascending(r.hits)
  {
    hide IdOf;
    var hits := HitsFrom(bindings, stop.location, ids, {});
    HitsExact(bindings, stop.location, ids, {});
    SortOk(hits);
    SortedOneEach(hits, SortOf(hits), ids);
  }

  /** resolve, and whether the entry stop is to be suppressed: the hits are the
      numbers bound at the location, once each, and the stop is suppressed
      exactly if it is a plain entry nobody asked for. */
  method Resolve(bindings: seq<Binding>, stop: Stop, stopOnEntry: bool, ids: Ids) returns (r: Stop, suppress: bool)
    ensures r == Reported(bindings, stop, ids) && suppress == Suppressed(bindings, stop, stopOnEntry, ids)
    ensures r.location == stop.location
    ensures !stop.reason.EntryReason? || stop.hits != [] ==> r.hits == stop.hits
    ensures stop.reason.EntryReason? && stop.hits == [] ==>
              && NumbersOf(r.hits, ids) == NumbersAt(bindings, stop.location, ids)
              && OneEach(r.hits, ids) && Ascending(r.hits)
    ensures r.reason == if stop.reason.EntryReason? && r.hits != [] then BreakpointReason else stop.reason
    ensures suppress <==> stop.reason.EntryReason? && r.hits == [] && !stopOnEntry
  {
    r := stop;
    if stop.reason != EntryReason { return r, false; }
    if |stop.hits| == 0 {
      var seen: set<nat> := {};
      var hits: seq<Native> := [];
      assert bindings[0..] == bindings;
      for i := 0 to |bindings|
        invariant hits + HitsFrom(bindings[i..], stop.location, ids, seen) == HitsFrom(bindings, stop.location, ids, {})
      {
        hide IdOf;
        var b := bindings[i];
        assert bindings[i..][0] == b && bindings[i..][1..] == bindings[i + 1..];
        if b.location == stop.location && IdOf(ids, b.native) !in seen {
          hits := hits + [b.native];
          seen := seen + {IdOf(ids, b.native)};
        }
      }
      assert hits == HitsFrom(bindings, stop.location, ids, {});
      var sorted := SortNatives(hits);
      ReportedExact(bindings, stop, ids);
      r := r.(hits := sorted);
    }
    if |r.hits| != 0 { return r.(reason := BreakpointReason), false; }
    return r, !stopOnEntry;
  }

  // ------------------------------------------------------------ frozen at start

  /** Everything that can reach the tables between the accepted start and the
      first stop: replacements and further accepted commands. */
  predicate Accepts(op: Op) { op.ReplaceOp? || op.StartedOp? }

  predicate Mentions(op: Op, native: Native, key: Key) {
    op.ReplaceOp? && op.source == key.source && Entry(key.position, native) in op.entries
  }

  /** A native breakpoint number names one position for good. */
  ghost predicate NotReused(h: seq<Op>) {
    forall i, j, n, k, l :: 0 <= i < |h| && 0 <= j < |h| && Mentions(h[i], n, k) && Mentions(h[j], n, l) ==> k == l
  }

  lemma {:induction false} LastEntryMentioned(entries: seq<Entry>, n: Native)
    requires LastEntry(entries, n).Some?
    ensures Entry(LastEntry(entries, n).value, n) in entries
  {
    if LastEntry(entries[1..], n).Some? { LastEntryMentioned(entries[1..], n); }
  }

  lemma {:induction false} ResolvedIsMentioned(h: seq<Op>, n: Native) returns (i: nat)
    requires ResolvedKey(h, n).Some? || ActiveKey(h, n).Some?
    ensures i < |h| && (ResolvedKey(h, n).Some? ==> Mentions(h[i], n, ResolvedKey(h, n).value))
    ensures ResolvedKey(h, n).None? ==> Mentions(h[i], n, ActiveKey(h, n).value)
  {
    if ActiveKey(h, n).Some? { ActiveResolves(h, n); }
    var op, before := h[|h| - 1], h[..|h| - 1];
    if op.ReplaceOp? && LastEntry(op.entries, n).Some? {
      LastEntryMentioned(op.entries, n);
      i := |h| - 1;
    } else {
      if ActiveKey(before, n).Some? { ActiveResolves(before, n); }
      i := ResolvedIsMentioned(before, n);
    }
  }

  /** What resolves when the start is accepted still resolves at the first stop,
      whatever replacements were made in between. */
  lemma {:induction false} StaysResolved(h: seq<Op>, more: seq<Op>, n: Native)
    requires ResolvedKey(h, n).Some? && Pending(h) > 0 && forall op <- more :: Accepts(op)
    ensures ResolvedKey(h + more, n).Some? && Pending(h + more) > 0
    decreases |more|
  {
    if more == [] {
      assert h + more == h;
    } else {
      var g := h + more;
      assert g[..|g| - 1] == h + more[..|more| - 1] && g[|g| - 1] == more[|more| - 1];
      assert more[|more| - 1] in more;
      StaysResolved(h, more[..|more| - 1], n);
    }
  }

  /** What the latest of these operations to list a native breakpoint makes of
      it. */
  function LaterKey(more: seq<Op>, n: Native): Option<Key> {
    if more == [] then None
    else
      var op := more[|more| - 1];
      if op.ReplaceOp? && LastEntry(op.entries, n).Some? then Some(Key(op.source, LastEntry(op.entries, n).value))
      else LaterKey(more[..|more| - 1], n)
  }

  /** No later replacement lists the breakpoint, or the latest that does lists it
      for the position it had. */
  predicate Undisturbed(h: seq<Op>, more: seq<Op>, n: Native) {
    LaterKey(more, n).None? || LaterKey(more, n) == ActiveKey(h, n)
  }

  lemma {:induction false} ResolvedLater(h: seq<Op>, more: seq<Op>, n: Native)
    requires ResolvedKey(h, n).Some? && Pending(h) > 0 && forall op <- more :: Accepts(op)
    ensures ResolvedKey(h + more, n) == if LaterKey(more, n).Some? then LaterKey(more, n) else ResolvedKey(h, n)
    decreases |more|
  {
    if more == [] {
      assert h + more == h;
    } else {
      var g := h + more;
      assert g[..|g| - 1] == h + more[..|more| - 1] && g[|g| - 1] == more[|more| - 1];
      assert more[|more| - 1] in more;
      ResolvedLater(h, more[..|more| - 1], n);
      StaysResolved(h, more[..|more| - 1], n);
    }
  }

  lemma {:induction false} LaterIsMentioned(more: seq<Op>, n: Native) returns (i: nat)
    requires LaterKey(more, n).Some?
    ensures i < |more| && Mentions(more[i], n, LaterKey(more, n).value)
  {
    var op := more[|more| - 1];
    if op.ReplaceOp? && LastEntry(op.entries, n).Some? {
      LastEntryMentioned(op.entries, n);
      i := |more| - 1;
    } else {
      i := LaterIsMentioned(more[..|more| - 1], n);
    }
  }

  /** Native numbers that are not reused are undisturbed. */
  lemma NotReusedUndisturbed(h: seq<Op>, more: seq<Op>, n: Native)
    requires ActiveKey(h, n).Some? && NotReused(h + [StartedOp] + more)
    ensures Undisturbed(h, more, n)
  {
    if LaterKey(more, n).Some? {
      var g := h + [StartedOp] + more;
      ActiveResolves(h, n);
      var i := ResolvedIsMentioned(h, n);
      var j := LaterIsMentioned(more, n);
      assert g[i] == h[i] && g[|h| + 1 + j] == more[j];
      assert Mentions(g[i], n, ActiveKey(h, n).value) && Mentions(g[|h| + 1 + j], n, LaterKey(more, n).value);
    }
  }

  /** Different requested positions have different numbers. */
  lemma NumberInjective(b: Ids, keys: seq<Key>, key: Key, other: Key)
    requires Ranked(b, keys) && key in b.stable && other in b.stable
    ensures Number(keys, key) == Number(keys, other) <==> key == other
  {
    RankedNumber(b, keys, key);
    RankedNumber(b, keys, other);
    var i :| 0 <= i < |keys| && keys[i] == key;
    var j :| 0 <= j < |keys| && keys[j] == other;
  }

  lemma ResolvedIsStable(h: seq<Op>, n: Native)
    requires ResolvedKey(h, n).Some?
    ensures Ranked(After(h), Keys(h)) && ResolvedKey(h, n).value in After(h).stable
  {
    HistoryRefined(h);
    hide Ranked, Keys;
    assert ActiveAt(After(h), h, n) && RetiredAt(After(h), h, n);
    if ActiveKey(h, n).Some? { ActiveResolves(h, n); }
  }

  lemma StartResolves(h: seq<Op>, n: Native)
    requires ActiveKey(h, n).Some?
    ensures ResolvedKey(h, n) == ActiveKey(h, n) == ResolvedKey(h + [StartedOp], n) && Pending(h + [StartedOp]) > 0
  {
    var started := h + [StartedOp];
    assert started[..|started| - 1] == h && started[|started| - 1] == StartedOp;
    ActiveResolves(h, n);
  }

  /** A binding frozen at the accepted start resolves, at the first stop, to the
      number it had when it was configured if and only if the latest replacement
      since then to list its native breakpoint, if any, lists it for the same
      position. */
  lemma FrozenNumberExact(h: seq<Op>, more: seq<Op>, n: Native)
    requires ActiveKey(h, n).Some? && forall op <- more :: Accepts(op)
    ensures IdOf(After(h), n) > 0 && IdOf(After(h + [StartedOp] + more), n) > 0
    ensures IdOf(After(h + [StartedOp] + more), n) == IdOf(After(h), n) <==> Undisturbed(h, more, n)
  {
    hide ActiveKey, ResolvedKey, Pending, After, Keys, Number, IdOf, Accepts, Ranked;
    var started := h + [StartedOp];
    var key := ActiveKey(h, n).value;
    StartResolves(h, n);
    ResolvedLater(started, more, n);
    LookupRefinesHistory(h, n);
    LookupRefinesHistory(started + more, n);
    assert h + ([StartedOp] + more) == started + more;
    SameNumber(h, [StartedOp] + more, key, n);
    ResolvedIsStable(started + more, n);
    NumberInjective(After(started + more), Keys(started + more), key, ResolvedKey(started + more, n).value);
  }

  /** In particular it does if native numbers are not reused for positions. */
  lemma FrozenBindingsKeepNumbers(h: seq<Op>, more: seq<Op>, n: Native)
    requires ActiveKey(h, n).Some? && (forall op <- more :: Accepts(op)) && NotReused(h + [StartedOp] + more)
    ensures IdOf(After(h + [StartedOp] + more), n) == IdOf(After(h), n) > 0
  {
    NotReusedUndisturbed(h, more, n);
    FrozenNumberExact(h, more, n);
  }

  /** The condition matters: a native breakpoint that a live replacement lists
      for another position is reported by the number of that position. */
  lemma ReusedNativeMoves(source: string)
    ensures var h := [ReplaceOp(source, [Entry(Position(1, 1), 7)])];
            var more := [ReplaceOp(source, [Entry(Position(2, 1), 7)])];
            ActiveKey(h, 7).Some? && IdOf(After(h + [StartedOp] + more), 7) != IdOf(After(h), 7)
  {
    var h := [ReplaceOp(source, [Entry(Position(1, 1), 7)])];
    var more := [ReplaceOp(source, [Entry(Position(2, 1), 7)])];
    assert LastEntry([], 7) == None;
    assert ActiveKey(h, 7) == Some(Key(source, Position(1, 1)));
    assert LaterKey(more, 7) == Some(Key(source, Position(2, 1)));
    hide After, IdOf, ActiveKey, LaterKey;
    FrozenNumberExact(h, more, 7);
  }

  lemma SameNumber(h: seq<Op>, more: seq<Op>, key: Key, n: Native)
    requires ResolvedKey(h, n) == Some(key) && ActiveKey(h, n) == Some(key)
    ensures key in After(h + more).stable && Number(Keys(h + more), key) == Number(Keys(h), key)
  {
    HistoryRefined(h);
    HistoryRefined(h + more);
    assert ActiveAt(After(h), h, n);
    RankedNumber(After(h), Keys(h), key);
    NumbersPermanent(h, more, key);
    RankedNumber(After(h + more), Keys(h + more), key);
  }

  /** A replacement returns one breakpoint per request. */
  predicate Answers(entries: seq<Entry>, bs: seq<Breakpoint>) {
    |entries| == |bs| && forall i :: 0 <= i < |bs| ==> entries[i].native == bs[i].native
  }

  lemma {:induction false} BoundIsEntered(entries: seq<Entry>, bs: seq<Breakpoint>, b: Binding)
    requires Answers(entries, bs) && b in Bind(bs)
    ensures LastEntry(entries, b.native).Some?
    decreases |bs|
  {
    if !(bs[0].bound && b == Binding(bs[0].native, bs[0].location)) {
      assert b in Bind(bs[1..]);
      BoundIsEntered(entries[1..], bs[1..], b);
    }
  }

  // -------------------------------------------------------------------- runs

  /** Server.initialStop while it is set. */
  datatype First = First(bindings: seq<Binding>, frozen: bool)

  /** The part of the server eventMu protects. `ops`, `replaced` and `start` are
      history: what reached the identities, the latest replacement, and how much
      of `ops` there was when the start was accepted. */
  datatype Server = Server(ids: Ids, first: Option<First>, ops: seq<Op>, replaced: seq<Breakpoint>, start: nat)

  const LAUNCHED := Server(NO_IDS, Some(First([], false)), [], [], 0)

  datatype Step =
    | ReplaceStep(source: string, entries: seq<Entry>, bs: seq<Breakpoint>)
    | StartStep
    | StartFails
    | ResumeStep
    | StopStep(stop: Stop, stopOnEntry: bool, continues: bool)
    | EndStep

  predicate Configuring(st: Server) { st.first.Some? && !st.first.value.frozen }

  predicate Enabled(st: Server, step: Step) {
    match step
    case ReplaceStep(_, entries, bs) => Answers(entries, bs)
    case StartStep => Configuring(st)
    case StartFails => Configuring(st)
    case ResumeStep => !Configuring(st)
    case StopStep(_, _, _) => !Configuring(st)
    case EndStep => true
  }

  function Record(st: Server, op: Op): Server { st.(ids := Apply(st.ids, op), ops := st.ops + [op]) }

  function Replaced(f: First, bs: seq<Breakpoint>): First { if f.frozen then f else f.(bindings := Bind(bs)) }

  function DoStop(st: Server, stop: Stop, stopOnEntry: bool, continues: bool): Server {
    var n := Record(st.(first := None), StoppedOp);
    if st.first.Some? && Suppressed(st.first.value.bindings, stop, stopOnEntry, st.ids) && continues
    then Record(n, StartedOp) else n
  }

  function Next(st: Server, step: Step): Server
    requires Enabled(st, step)
  {
    match step
    case ReplaceStep(source, entries, bs) =>
      Record(st, ReplaceOp(source, entries)).(
        first := if st.first.Some? then Some(Replaced(st.first.value, bs)) else None, replaced := bs)
    case StartStep => Record(st, StartedOp).(first := Some(st.first.value.(frozen := true)), start := |st.ops|)
    case StartFails => st.(first := None)
    case ResumeStep => Record(st, StartedOp)
    case StopStep(stop, stopOnEntry, continues) => DoStop(st, stop, stopOnEntry, continues)
    case EndStep => Record(st.(first := None), FinishOp)
  }

  /** Every binding is active after these operations. */
  ghost predicate AllActive(bindings: seq<Binding>, ops: seq<Op>) {
    forall b <- bindings :: ActiveKey(ops, b.native).Some?
  }

  ghost predicate SinceStart(st: Server) {
    && st.start < |st.ops| && st.ops[st.start] == StartedOp
    && forall k :: st.start < k < |st.ops| ==> Accepts(st.ops[k])
  }

  /** While configuring, the bindings are those of the latest replacement; from
      the accepted start to the first stop they were active at the start, and
      only replacements and accepted commands have come since. */
  ghost predicate Inv(st: Server) {
    && st.ids == After(st.ops)
    && (Configuring(st) ==> st.first.value.bindings == Bind(st.replaced) && AllActive(st.first.value.bindings, st.ops))
    && (st.first.Some? && st.first.value.frozen ==>
          SinceStart(st) && AllActive(st.first.value.bindings, st.ops[..st.start]))
  }

  lemma Recorded(ops: seq<Op>, op: Op)
    ensures After(ops + [op]) == Apply(After(ops), op)
  {
    var more := ops + [op];
    assert more[..|more| - 1] == ops;
  }

  lemma StartedActive(bindings: seq<Binding>, ops: seq<Op>)
    requires AllActive(bindings, ops)
    ensures AllActive(bindings, (ops + [StartedOp])[..|ops|])
  {
    assert (ops + [StartedOp])[..|ops|] == ops;
  }

  lemma ReplacedActive(ops: seq<Op>, source: string, entries: seq<Entry>, bs: seq<Breakpoint>)
    requires Answers(entries, bs)
    ensures AllActive(Bind(bs), ops + [ReplaceOp(source, entries)])
  {
    forall b | b in Bind(bs) ensures ActiveKey(ops + [ReplaceOp(source, entries)], b.native).Some? {
      BoundIsEntered(entries, bs, b);
    }
  }

  lemma AcceptedSince(a: Server, b: Server, op: Op)
    requires SinceStart(a) && Accepts(op) && b.ops == a.ops + [op] && b.start == a.start
    ensures SinceStart(b) && b.ops[..b.start] == a.ops[..a.start]
  {
  }

  lemma StepKeeps(a: Server, step: Step)
    requires Inv(a) && Enabled(a, step)
    ensures Inv(Next(a, step))
  {
    hide After, Apply, Bind, ActiveKey, AllActive, SinceStart;
    var b := Next(a, step);
    match step
    case ReplaceStep(source, entries, bs) =>
      Recorded(a.ops, ReplaceOp(source, entries));
      ReplacedActive(a.ops, source, entries, bs);
      if a.first.Some? && a.first.value.frozen { AcceptedSince(a, b, ReplaceOp(source, entries)); }
    case StartStep =>
      Recorded(a.ops, StartedOp);
      StartedActive(a.first.value.bindings, a.ops);
      assert SinceStart(b) by { StartedSince(b); }
    case StartFails =>
    case ResumeStep =>
      Recorded(a.ops, StartedOp);
      if a.first.Some? && a.first.value.frozen { AcceptedSince(a, b, StartedOp); }
    case StopStep(_, _, _) =>
      Recorded(a.ops, StoppedOp);
      Recorded(a.ops + [StoppedOp], StartedOp);
    case EndStep => Recorded(a.ops, FinishOp);
  }

  lemma StartedSince(b: Server)
    requires |b.ops| == b.start + 1 && b.ops[b.start] == StartedOp
    ensures SinceStart(b)
  {
  }

  ghost predicate CanStep(a: Server, b: Server) { exists step :: Enabled(a, step) && b == Next(a, step) }

  ghost predicate IsRun(run: seq<Server>) {
    && run != [] && run[0] == LAUNCHED
    && forall i :: 0 <= i < |run| - 1 ==> CanStep(run[i], run[i + 1])
  }

  lemma {:induction false} RunInv(run: seq<Server>, i: nat)
    requires IsRun(run) && i < |run|
    ensures Inv(run[i])
  {
    if i > 0 {
      hide Inv, Enabled, Next;
      RunInv(run, i - 1);
      assert CanStep(run[i - 1], run[i - 1 + 1]);
      var step :| Enabled(run[i - 1], step) && run[i] == Next(run[i - 1], step);
      StepKeeps(run[i - 1], step);
    }
  }

  /** Operations are only added, and what is frozen stays or is consumed. */
  ghost predicate Freezes(a: Server, b: Server) {
    && a.ops <= b.ops && (b.first.Some? ==> a.first.Some?)
    && (b.first.Some? && a.first.value.frozen ==> b.first == a.first && b.start == a.start)
  }

  lemma StepFreezes(a: Server, b: Server)
    requires CanStep(a, b)
    ensures Freezes(a, b)
  {
    hide Apply, Bind, Suppressed, Answers;
  }

  lemma {:induction false} RunFreezes(run: seq<Server>, i: nat, j: nat)
    requires IsRun(run) && i <= j < |run|
    ensures Freezes(run[i], run[j])
    decreases j
  {
    hide CanStep;
    if i < j {
      RunFreezes(run, i, j - 1);
      StepFreezes(run[j - 1], run[j - 1 + 1]);
    }
  }

  /** The bindings at the location whose native breakpoints were undisturbed
      between the start and the first stop. */
  ghost predicate AllUndisturbed(bindings: seq<Binding>, h: seq<Op>, more: seq<Op>, location: Location) {
    forall b <- bindings :: b.location == location ==> Undisturbed(h, more, b.native)
  }

  ghost predicate AllKept(bindings: seq<Binding>, location: Location, earlier: Ids, now: Ids) {
    forall b <- bindings :: b.location == location ==> IdOf(now, b.native) == IdOf(earlier, b.native)
  }

  lemma FrozenNumbers(bindings: seq<Binding>, h: seq<Op>, more: seq<Op>, location: Location)
    requires AllActive(bindings, h) && forall op <- more :: Accepts(op)
    ensures var now, earlier := After(h + [StartedOp] + more), After(h);
            && (AllKept(bindings, location, earlier, now) <==> AllUndisturbed(bindings, h, more, location))
            && (AllKept(bindings, location, earlier, now) ==>
                  NumbersAt(bindings, location, now) == NumbersAt(bindings, location, earlier))
  {
    hide After, IdOf, Undisturbed, Accepts;
    var now, earlier := After(h + [StartedOp] + more), After(h);
    forall b | b in bindings
      ensures IdOf(now, b.native) == IdOf(earlier, b.native) <==> Undisturbed(h, more, b.native)
    {
      FrozenNumberExact(h, more, b.native);
    }
  }

  /** In every run, a first stop at entry reports every breakpoint that the last
      replacement before the start bound at its location, by number and each
      number once, whatever replacements and commands came since; it is a
      breakpoint stop exactly if there is one. Each is reported by the number it
      had when the start was accepted if and only if the latest replacement since
      then to list its native breakpoint, if any, lists it for the same position;
      and then the numbers reported are exactly the configured ones. */
  lemma FirstStopReportsConfigured(run: seq<Server>, i: nat, j: nat, stop: Stop)
    requires IsRun(run) && i < j < |run| && Configuring(run[i]) && run[i + 1] == Next(run[i], StartStep)
    requires run[j].first.Some? && stop.reason.EntryReason? && stop.hits == []
    ensures |run[i].ops| < |run[j].ops|
    ensures var r := Reported(run[j].first.value.bindings, stop, run[j].ids);
            var configured := Bind(run[i].replaced);
            var since := run[j].ops[|run[i].ops| + 1..];
            && NumbersOf(r.hits, run[j].ids) == NumbersAt(configured, stop.location, run[j].ids)
            && OneEach(r.hits, run[j].ids)
            && (r.reason.BreakpointReason? <==> exists b <- configured :: b.location == stop.location)
            && (AllKept(configured, stop.location, run[i].ids, run[j].ids)
                <==> AllUndisturbed(configured, run[i].ops, since, stop.location))
            && (AllUndisturbed(configured, run[i].ops, since, stop.location) ==>
                  NumbersOf(r.hits, run[j].ids) == NumbersAt(configured, stop.location, run[i].ids))
  {
    RunInv(run, i);
    RunInv(run, j);
    RunFreezes(run, i + 1, j);
    hide IsRun, After, Apply, Bind, ActiveKey, Accepts, AllActive, AllKept, AllUndisturbed;
    var bindings, now := run[j].first.value.bindings, run[j].ids;
    ReportedExact(bindings, stop, now);
    var h, more := run[i].ops, run[j].ops[run[j].start + 1..];
    assert run[i + 1].ops == h + [StartedOp] && run[j].start == |h|;
    assert run[j].ops == h + [StartedOp] + more;
    assert forall op <- more :: Accepts(op);
    FrozenNumbers(bindings, h, more, stop.location);
    hide IdOf;
    SomethingBound(bindings, stop.location, now);
    var r := Reported(bindings, stop, now);
    assert r.hits != [] ==> IdOf(now, r.hits[0]) in NumbersOf(r.hits, now);
  }

  lemma SomethingBound(bindings: seq<Binding>, location: Location, ids: Ids)
    ensures NumbersAt(bindings, location, ids) != {} <==> exists b <- bindings :: b.location == location
  {
    forall b | b in bindings && b.location == location
      ensures IdOf(ids, b.native) in NumbersAt(bindings, location, ids) {}
  }

  // -------------------------------------------------------------- the object

  class FirstStop {
    var bindings: seq<Binding>
    var frozen: bool

    constructor ()
      ensures bindings == [] && !frozen
    {
      bindings, frozen := [], false;
    }

    method ReplaceBindings(bs: seq<Breakpoint>)
      modifies this
      ensures frozen == old(frozen) && bindings == if old(frozen) then old(bindings) else Bind(bs)
    {
      if frozen { return; }
      bindings := [];
      assert bs[0..] == bs;
      for i := 0 to |bs|
        invariant frozen == old(frozen) && bindings + Bind(bs[i..]) == Bind(bs)
      {
        assert bs[i..][0] == bs[i] && bs[i..][1..] == bs[i + 1..];
        if bs[i].bound { bindings := bindings + [Binding(bs[i].native, bs[i].location)]; }
      }
    }
  }
}
