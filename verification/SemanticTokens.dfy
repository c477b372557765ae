/** internal/language/semantic_tokens.go and semantic_token_build.go: sort, drop
    overlaps, split at line terminators and map to UTF-16. */
module SemanticTokens {
  import opened Utf8
  import opened SourceMapper

  datatype Kind =
    | Unknown | Namespace | Callable | Variable | Parameter | Keyword | Literal | Number | Comment | Operator

  datatype Modifiers = Modifiers(declaration: bool, readonly: bool)

  /** A classified byte span; a larger priority wins among equal starts. */
  datatype Item = Item(span: Span, kind: Kind, modifiers: Modifiers, priority: nat)

  datatype Token = Token(range: Range, kind: Kind, modifiers: Modifiers)

  // -------------------------------------------------------------------- sort

  predicate Less(a: Item, b: Item) {
    if a.span.start != b.span.start then a.span.start < b.span.start
    else if a.priority != b.priority then a.priority > b.priority
    else a.span.end < b.span.end
  }

  predicate Sorted(items: seq<Item>) {
    forall i, j :: 0 <= i < j < |items| ==> !Less(items[j], items[i])
  }

  /** The elements that tie with `key`, in order. */
  function Ties(items: seq<Item>, key: Item): seq<Item> {
    if items == [] then []
    else (if !Less(items[0], key) && !Less(key, items[0]) then [items[0]] else []) + Ties(items[1..], key)
  }

  /** A stable sort: sorted, and every class of ties keeps its order. */
  ghost predicate StablySorted(items: seq<Item>, sorted: seq<Item>) {
    && Sorted(sorted) && multiset(sorted) == multiset(items)
    && forall key :: Ties(sorted, key) == Ties(items, key)
  }

  function Insert(sorted: seq<Item>, x: Item): seq<Item> {
    if sorted == [] || Less(x, sorted[0]) then [x] + sorted else [sorted[0]] + Insert(sorted[1..], x)
  }

  lemma {:induction false} InsertPermutes(sorted: seq<Item>, x: Item)
    ensures multiset(Insert(sorted, x)) == multiset(sorted) + multiset{x}
  {
    if sorted == [] || Less(x, sorted[0]) {
      assert multiset([x] + sorted) == multiset{x} + multiset(sorted);
    } else {
      assert sorted == [sorted[0]] + sorted[1..];
      InsertPermutes(sorted[1..], x);
    }
  }

  lemma {:induction false} InsertSorted(sorted: seq<Item>, x: Item)
    requires Sorted(sorted)
    ensures Sorted(Insert(sorted, x))
  {
    if sorted != [] && !Less(x, sorted[0]) {
      var head, rest := sorted[0], sorted[1..];
      InsertSorted(rest, x);
      InsertPermutes(rest, x);
      var r := Insert(rest, x);
      forall i | 0 <= i < |r| ensures !Less(r[i], head) {
        assert r[i] in multiset(r);
        if r[i] != x { assert r[i] in rest; }
      }
    }
  }

  lemma {:induction false} InsertTies(sorted: seq<Item>, x: Item, key: Item)
    requires Sorted(sorted)
    ensures Ties(Insert(sorted, x), key) == Ties(sorted + [x], key)
  {
    if sorted == [] {
      assert [] + [x] == [x] + [];
    } else if Less(x, sorted[0]) {
      TiesAppend(sorted, x, key);
      if !Less(x, key) && !Less(key, x) { NoTies(sorted, key); }
      assert ([x] + sorted)[1..] == sorted;
    } else {
      InsertTies(sorted[1..], x, key);
      assert (sorted + [x])[1..] == sorted[1..] + [x];
      assert ([sorted[0]] + Insert(sorted[1..], x))[1..] == Insert(sorted[1..], x);
    }
  }

  lemma {:induction false} TiesAppend(items: seq<Item>, x: Item, key: Item)
    ensures Ties(items + [x], key) == Ties(items, key) + Ties([x], key)
  {
    if items == [] {
      assert [] + [x] == [x];
    } else {
      TiesAppend(items[1..], x, key);
      assert (items + [x])[1..] == items[1..] + [x];
    }
  }

  lemma {:induction false} NoTies(items: seq<Item>, key: Item)
    requires forall i :: 0 <= i < |items| ==> Less(key, items[i])
    ensures Ties(items, key) == []
  {
    if items != [] { NoTies(items[1..], key); }
  }

  method SortItems(items: seq<Item>) returns (sorted: seq<Item>)
    ensures StablySorted(items, sorted)
  {
    sorted := [];
    for i := 0 to |items|
      invariant StablySorted(items[..i], sorted)
    {
      InsertSorted(sorted, items[i]);
      InsertPermutes(sorted, items[i]);
      ghost var next := Insert(sorted, items[i]);
      forall key ensures Ties(next, key) == Ties(items[..i + 1], key) {
        InsertTies(sorted, items[i], key);
        TiesAppend(sorted, items[i], key);
        TiesAppend(items[..i], items[i], key);
        assert items[..i + 1] == items[..i] + [items[i]];
      }
      assert items[..i + 1] == items[..i] + [items[i]];
      sorted := Insert(sorted, items[i]);
    }
    assert items[..|items|] == items;
  }

  // ------------------------------------------------------------------ breaks

  predicate BreakAt(t: Text, x: nat, end: nat)
    requires x < end <= |t|
  {
    IsBreak(Decode(t, x, end).value)
  }

  lemma BreakStarts(t: Text, x: nat, end: nat)
    requires x < end <= |t| && BreakAt(t, x, end)
    ensures RuneStart(t[x]) && Decode(t, x, |t|) == Decode(t, x, end)
  {
  }

  predicate NoBreak(t: Text, a: nat, b: nat, end: nat)
    requires b <= end <= |t|
  {
    forall x: nat :: a <= x < b ==> !BreakAt(t, x, end)
  }

  /** The line terminator search finds the first one. */
  lemma {:induction false} FirstBreakIsFirst(t: Text, o: nat)
    requires o <= |t|
    ensures NoBreak(t, o, FirstBreak(t, o), |t|)
    decreases |t| - o
  {
    if o < |t| && !BreakAt(t, o, |t|) {
      var next := o + Decode(t, o, |t|).size;
      FirstBreakIsFirst(t, next);
      forall x: nat | o <= x < FirstBreak(t, o) ensures !BreakAt(t, x, |t|) {
        if o < x < next && BreakAt(t, x, |t|) { BreakStarts(t, x, |t|); }
      }
    }
  }

  /** Without a terminator between them two offsets are on one line. */
  lemma SameLine(m: Mapper, c: nat, d: nat)
    requires IsTable(m) && c <= d <= |m.text| && Fixed(m.text, c) && NoBreak(m.text, c, d, |m.text|)
    ensures LineAt(m.starts, c) == LineAt(m.starts, d)
  {
    hide IsTable, Decode, LineAt;
    StartsAtZero(m);
    var i := LineAt(m.starts, c);
    LineAtUnique(m, c, i);
    if i + 1 < |m.starts| { TerminatorEnds(m, i); }
    LineAtUnique(m, d, i);
  }

  /** A line that is not the last ends in a terminator, and a carriage return
      and line feed are the only terminator with a rune start inside. */
  lemma TerminatorEnds(m: Mapper, i: nat)
    requires IsTable(m) && i + 1 < |m.starts|
    ensures m.ends[i] < m.starts[i + 1] <= |m.text| && BreakAt(m.text, m.ends[i], |m.text|)
    ensures forall c: nat :: m.ends[i] < c < m.starts[i + 1] && Fixed(m.text, c) ==> BreakAt(m.text, c, |m.text|)
  {
    assert LineOk(m.text, m.starts, m.ends, i);
  }

  /** The next rune start after a terminator that no line feed follows is on a
      later line. */
  lemma LineAfterBreak(m: Mapper, c: nat, d: nat)
    requires IsTable(m) && c + 1 < d <= |m.text| && BreakAt(m.text, c, |m.text|)
    requires Continuation(m.text[c + 1]) && Solid(m.text, d)
    ensures LineAt(m.starts, c) < LineAt(m.starts, d)
  {
    hide IsTable, LineAt;
    StartsAtZero(m);
    var i := LineAt(m.starts, c);
    LineAtUnique(m, c, i);
    LineEndsBy(m, i, c);
    var next := m.starts[i + 1];
    assert next <= d by { AfterBreakBy(m, i, c, d); }
    LineMonotone(m, next, d);
    LineMonotone(m, c, next);
    LineAtUnique(m, next, i);
  }

  lemma LineEndsBy(m: Mapper, i: nat, c: nat)
    requires IsTable(m) && i < |m.starts| && m.starts[i] <= c < |m.text| && BreakAt(m.text, c, |m.text|)
    ensures m.ends[i] <= c && i + 1 < |m.starts|
  {
    assert LineOk(m.text, m.starts, m.ends, i);
    FirstBreakIsFirst(m.text, m.starts[i]);
  }

  lemma AfterBreakBy(m: Mapper, i: nat, c: nat, d: nat)
    requires IsTable(m) && i + 1 < |m.starts| && m.ends[i] <= c < m.starts[i + 1] && c + 1 < d <= |m.text|
    requires BreakAt(m.text, c, |m.text|) && Continuation(m.text[c + 1]) && Solid(m.text, d)
    ensures m.starts[i + 1] <= d
  {
    assert LineOk(m.text, m.starts, m.ends, i);
  }

  // ------------------------------------------------------------------- split

  function AfterBreakIn(t: Text, o: nat, end: nat): (s: nat)
    requires o < end <= |t|
    ensures o < s <= end
  {
    var r := Decode(t, o, end);
    if r.value == 13 && o + r.size < end && t[o + r.size] == 10 then o + r.size + 1 else o + r.size
  }

  /** The stretches of `t[segment..end]` between line terminators, the first of
      them already scanned up to `o`. */
  function Pieces(t: Text, segment: nat, o: nat, end: nat): seq<Span>
    requires segment <= o <= end <= |t|
    decreases end - o
  {
    if o == end then (if segment < end then [Span(segment, end)] else [])
    else if !BreakAt(t, o, end) then Pieces(t, segment, o + Decode(t, o, end).size, end)
    else
      (if segment < o then [Span(segment, o)] else [])
      + Pieces(t, AfterBreakIn(t, o, end), AfterBreakIn(t, o, end), end)
  }

  function SplitSpan(t: Text, span: Span): seq<Span> {
    var start := if span.start < 0 then 0 else span.start;
    var end := if span.end > |t| then |t| else span.end;
    if end <= start then [] else Pieces(t, start, start, end)
  }

  ghost predicate PieceOk(t: Text, p: Span, from: int, end: nat)
    requires end <= |t|
  {
    && 0 <= p.start && from <= p.start < p.end <= end && NoBreak(t, p.start, p.end, end)
    && (p.end < end ==> BreakAt(t, p.end, end))
  }

  ghost predicate InOrder(ps: seq<Span>) {
    forall i, j :: 0 <= i < j < |ps| ==> ps[i].end <= ps[j].start
  }

  /** Pieces are non-empty, in order, and contain no terminator. */
  lemma {:induction false} PiecesOk(t: Text, segment: nat, o: nat, end: nat)
    requires segment <= o <= end <= |t| && NoBreak(t, segment, o, end)
    ensures forall p <- Pieces(t, segment, o, end) :: PieceOk(t, p, segment, end)
    ensures InOrder(Pieces(t, segment, o, end))
    decreases end - o
  {
    if o < end {
      if !BreakAt(t, o, end) {
        var next := o + Decode(t, o, end).size;
        forall x: nat | segment <= x < next ensures !BreakAt(t, x, end) {
          if o < x && BreakAt(t, x, end) { BreakStarts(t, x, end); }
        }
        PiecesOk(t, segment, next, end);
      } else {
        var next := AfterBreakIn(t, o, end);
        PiecesOk(t, next, next, end);
        PiecesJoin(t, segment, o, next, end, Pieces(t, next, next, end));
      }
    }
  }

  lemma PiecesJoin(t: Text, segment: nat, o: nat, next: nat, end: nat, tail: seq<Span>)
    requires segment <= o < next <= end <= |t| && NoBreak(t, segment, o, end) && BreakAt(t, o, end)
    requires InOrder(tail) && forall p <- tail :: PieceOk(t, p, next, end)
    ensures var ps := (if segment < o then [Span(segment, o)] else []) + tail;
            InOrder(ps) && forall p <- ps :: PieceOk(t, p, segment, end)
  {
    var ps := (if segment < o then [Span(segment, o)] else []) + tail;
    forall p | p in ps ensures PieceOk(t, p, segment, end) {
      if p in tail { assert PieceOk(t, p, next, end); }
    }
    forall i | 0 <= i < |tail| ensures o < tail[i].start { assert PieceOk(t, tail[i], next, end); }
  }

  /** `x` belongs to a line terminator of `t[..end]`. */
  ghost predicate Terminates(t: Text, x: nat, end: nat)
    requires end <= |t|
  {
    exists y: nat :: y <= x && y < end && BreakAt(t, y, end) && x < y + Decode(t, y, end).size
  }

  ghost predicate Covered(ps: seq<Span>, x: nat) { exists p <- ps :: p.start <= x < p.end }

  /** Nothing but terminators is left out. */
  lemma {:induction false} PiecesCover(t: Text, segment: nat, o: nat, end: nat, x: nat)
    requires segment <= o <= end <= |t| && segment <= x < end
    ensures Covered(Pieces(t, segment, o, end), x) || Terminates(t, x, end)
    decreases end - o
  {
    var ps := Pieces(t, segment, o, end);
    if o == end {
      assert Span(segment, end) in ps;
    } else if !BreakAt(t, o, end) {
      PiecesCover(t, segment, o + Decode(t, o, end).size, end, x);
    } else {
      var next := AfterBreakIn(t, o, end);
      if x < o {
        assert Span(segment, o) in ps;
      } else if x >= next {
        PiecesCover(t, next, next, end, x);
      } else if x >= o + Decode(t, o, end).size {
        assert BreakAt(t, x, end) && x < x + Decode(t, x, end).size;
      }
    }
  }

  lemma PiecesSkip(t: Text, segment: nat, o: nat, end: nat)
    requires segment <= o < end <= |t| && !BreakAt(t, o, end)
    ensures Pieces(t, segment, o, end) == Pieces(t, segment, o + Decode(t, o, end).size, end)
  {
  }

  lemma PiecesCut(t: Text, done: seq<Span>, segment: nat, o: nat, end: nat)
    requires segment <= o < end <= |t| && BreakAt(t, o, end)
    ensures var next := AfterBreakIn(t, o, end);
            done + Pieces(t, segment, o, end)
            == (if segment < o then done + [Span(segment, o)] else done) + Pieces(t, next, next, end)
  {
  }

  lemma PiecesEnd(t: Text, done: seq<Span>, segment: nat, end: nat)
    requires segment <= end <= |t|
    ensures done + Pieces(t, segment, end, end) == if segment < end then done + [Span(segment, end)] else done
  {
  }

  method SplitSemanticSpan(m: Mapper, span: Span) returns (ranges: seq<Range>)
    requires IsTable(m)
    ensures ranges == Ranges(m, SplitSpan(m.text, span))
  {
    hide IsTable, Decode, ToRange, Ranges, Pieces;
    var t := m.text;
    var start, end := span.start, span.end;
    if start < 0 { start := 0; }
    if end > |t| { end := |t|; }
    RangesEmpty(m);
    if end <= start { return []; }
    ranges := [];
    ghost var done: seq<Span> := [];
    var segment, o := start, start;
    while o < end
      invariant start <= segment <= o <= end
      invariant ranges == Ranges(m, done)
      invariant done + Pieces(t, segment, o, end) == Pieces(t, start, start, end)
      decreases end - o
    {
      var r := Decode(t, o, end);
      if r.value != 13 && r.value != 10 && r.value != 0x2028 && r.value != 0x2029 {
        PiecesSkip(t, segment, o, end);
        o := o + r.size;
      } else {
        PiecesCut(t, done, segment, o, end);
        if o > segment {
          RangesAppend(m, done, Span(segment, o));
          ranges := ranges + [ToRange(m, Span(segment, o))];
          done := done + [Span(segment, o)];
        }
        o := o + r.size;
        if r.value == 13 && o < end && t[o] == 10 { o := o + 1; }
        segment := o;
      }
    }
    PiecesEnd(t, done, segment, end);
    if segment < end {
      RangesAppend(m, done, Span(segment, end));
      ranges := ranges + [ToRange(m, Span(segment, end))];
    }
  }

  lemma RangesEmpty(m: Mapper)
    requires IsTable(m)
    ensures Ranges(m, []) == []
  {
  }

  function Ranges(m: Mapper, ps: seq<Span>): seq<Range>
    requires IsTable(m)
  {
    seq(|ps|, i requires 0 <= i < |ps| => ToRange(m, ps[i]))
  }

  lemma RangesAppend(m: Mapper, ps: seq<Span>, p: Span)
    requires IsTable(m)
    ensures Ranges(m, ps + [p]) == Ranges(m, ps) + [ToRange(m, p)]
  {
  }

  // ------------------------------------------------------------- single lines

  predicate SingleLine(r: Range) { r.start.line == r.end.line && r.start.character <= r.end.character }

  /** A piece starts strictly inside, or right behind, a line terminator that
      clamping takes it back to, and reaches past it. */
  predicate Straddles(t: Text, p: Span)
    requires 0 <= p.start <= p.end <= |t|
  {
    var c := Clamp(t, p.start);
    c < p.start && BreakAt(t, c, |t|) && c < Clamp(t, p.end)
  }

  /** A piece, of any bytes whatever, becomes a range within one line exactly if
      it does not straddle a terminator. */
  lemma SingleLineExact(m: Mapper, p: Span, end: nat)
    requires IsTable(m) && |m.text| < UINT32_LIMIT && end <= |m.text| && PieceOk(m.text, p, 0, end)
    ensures SingleLine(ToRange(m, p)) <==> !Straddles(m.text, p)
  {
    hide IsTable, Clamp, LineAt, Decode, WidthOf, PieceOk;
    var t := m.text;
    assert 0 <= p.start < p.end <= end by { PieceBounds(t, p, end); }
    var c, d := Clamp(t, p.start), Clamp(t, p.end);
    ClampMonotone(t, p.start, p.end);
    RangeLines(m, p);
    if c < d {
      PieceClamped(t, p, end);
      if c < p.start && BreakAt(t, c, |t|) {
        LineAfterBreak(m, c, d);
      } else {
        SameLine(m, c, d);
      }
    }
  }

  lemma PieceBounds(t: Text, p: Span, end: nat)
    requires end <= |t| && PieceOk(t, p, 0, end)
    ensures 0 <= p.start < p.end <= end
  {
  }

  /** The lines of a range are those of its clamped ends. */
  lemma RangeLines(m: Mapper, p: Span)
    requires IsTable(m) && |m.text| < UINT32_LIMIT && Clamp(m.text, p.start) <= Clamp(m.text, p.end)
    ensures SingleLine(ToRange(m, p)) <==>
            LineAt(m.starts, Clamp(m.text, p.start)) == LineAt(m.starts, Clamp(m.text, p.end))
  {
    hide IsTable, Clamp, LineAt, WidthOf, Cut;
    var c, d := Clamp(m.text, p.start), Clamp(m.text, p.end);
    ClampTwice(m.text, p.start);
    ClampTwice(m.text, p.end);
    PositionMonotone(m, c, d);
    LinesFit(m);
  }

  /** Between the clamped ends of a piece the only possible terminator is the
      rune its start was clamped to. */
  lemma PieceClamped(t: Text, p: Span, end: nat)
    requires end <= |t| && PieceOk(t, p, 0, end) && Clamp(t, p.start) < Clamp(t, p.end)
    ensures var c, d := Clamp(t, p.start), Clamp(t, p.end);
            && c <= p.start < d && Fixed(t, c) && Solid(t, d)
            && (c < p.start ==> c + 1 <= p.start && Continuation(t[c + 1]))
            && (c == p.start || !BreakAt(t, c, |t|) ==> NoBreak(t, c, d, |t|))
  {
    hide Decode, Clamp;
    var c, d := Clamp(t, p.start), Clamp(t, p.end);
    ClampIsLastFixed(t, p.start, c);
    ClampIsLastFixed(t, p.end, d);
    assert p.start < d;
    if c < p.start { assert !Fixed(t, c + 1); }
    if c == p.start || !BreakAt(t, c, |t|) {
      forall x: nat | c <= x < d ensures !BreakAt(t, x, |t|) {
        if p.start <= x {
          DecodeCut(t, x, d, |t|);
          DecodeCut(t, x, d, end);
          assert !BreakAt(t, x, end);
        } else if c < x {
          assert !Fixed(t, x);
          if BreakAt(t, x, |t|) { BreakStarts(t, x, |t|); }
        }
      }
    }
  }

  // ------------------------------------------- single lines, said of the spans

  /** The span starts behind the first byte of a terminator it is clamped back
      to, and reaches past that terminator. */
  predicate StartsInside(t: Text, start: nat, end: nat)
    requires start <= end <= |t|
  {
    var c := Clamp(t, start);
    c < start && BreakAt(t, c, |t|) && c < Clamp(t, end)
  }

  /** The terminator at `y` is followed, within the span, by a stray
      continuation byte, and the span reaches past them. */
  predicate StrayBehind(t: Text, y: nat, end: nat)
    requires y < end <= |t|
  {
    var next := y + Decode(t, y, end).size;
    BreakAt(t, y, end) && next < end && Continuation(t[next]) && y < Clamp(t, end)
  }

  ghost predicate Strays(t: Text, from: nat, end: nat)
    requires end <= |t|
  {
    exists y: nat :: from <= y < end && StrayBehind(t, y, end)
  }

  /** Some token of this span leaves its line: malformed bytes behind a
      terminator, or a start inside one. */
  ghost predicate LeavesLine(t: Text, span: Span) {
    var start := if span.start < 0 then 0 else span.start;
    var end := if span.end > |t| then |t| else span.end;
    start < end && (StartsInside(t, start, end) || Strays(t, start, end))
  }

  ghost predicate AnyStraddles(t: Text, ps: seq<Span>) {
    exists p <- ps :: 0 <= p.start <= p.end <= |t| && Straddles(t, p)
  }

  /** Behind a terminator clamping goes back to it exactly over a stray byte. */
  lemma ClampBehind(t: Text, y: nat, end: nat)
    requires y < end <= |t| && BreakAt(t, y, end)
    ensures var q := y + Decode(t, y, end).size;
            && (q < |t| && Continuation(t[q]) ==> Clamp(t, q) == y && BreakAt(t, y, |t|))
            && (q < |t| && !Continuation(t[q]) ==> Clamp(t, q) == q)
            && Clamp(t, y) == y
  {
    var q := y + Decode(t, y, end).size;
    BreakStarts(t, y, end);
    hide Decode, Clamp;
    ClampIsLastFixed(t, y, y);
    ClampIsLastFixed(t, q, q);
    if q < |t| && Continuation(t[q]) { ClampIsLastFixed(t, q, y); }
  }

  lemma StraysFrom(t: Text, o: nat, next: nat, end: nat)
    requires o < next <= end <= |t| && forall y: nat :: o <= y < next ==> !StrayBehind(t, y, end)
    ensures Strays(t, o, end) <==> Strays(t, next, end)
  {
    hide StrayBehind;
  }

  /** The piece behind a terminator straddles it exactly over a stray byte. */
  lemma BehindBreak(t: Text, o: nat, end: nat)
    requires o < end <= |t| && BreakAt(t, o, end)
    ensures var q := AfterBreakIn(t, o, end);
            (q < end && StartsInside(t, q, end)) || Strays(t, q, end) <==> Strays(t, o, end)
  {
    var q := AfterBreakIn(t, o, end);
    var last := if q == o + Decode(t, o, end).size then o else q - 1;
    assert BreakAt(t, last, end) && last + Decode(t, last, end).size == q;
    ClampBehind(t, last, end);
    forall y: nat | o <= y < q && y != last ensures !StrayBehind(t, y, end) {
      if BreakAt(t, y, end) { BreakStarts(t, y, end); }
    }
    assert StrayBehind(t, last, end) <==> q < end && StartsInside(t, q, end);
    hide Decode, StrayBehind, StartsInside, AfterBreakIn;
    if !StrayBehind(t, last, end) { StraysFrom(t, o, q, end); }
  }

  /** A piece that a terminator ends reaches past the one it starts inside. */
  lemma BeforeBreak(t: Text, segment: nat, o: nat, end: nat)
    requires segment <= o < end <= |t| && BreakAt(t, o, end)
    ensures StartsInside(t, segment, end) <==> segment < o && Straddles(t, Span(segment, o))
  {
    ClampBehind(t, o, end);
    hide Decode, Clamp;
    ClampMonotone(t, o, end);
    ClampIsLastFixed(t, segment, Clamp(t, segment));
  }

  lemma AnyStraddlesJoin(t: Text, segment: nat, o: nat, tail: seq<Span>)
    requires segment <= o <= |t|
    ensures AnyStraddles(t, (if segment < o then [Span(segment, o)] else []) + tail)
            <==> (segment < o && Straddles(t, Span(segment, o))) || AnyStraddles(t, tail)
  {
    hide Straddles;
    var ps := (if segment < o then [Span(segment, o)] else []) + tail;
    assert segment < o ==> ps[0] == Span(segment, o);
    forall p | p in tail ensures p in ps {}
  }

  /** Which pieces straddle, said of the bytes alone. */
  lemma {:induction false} PiecesStraddle(t: Text, segment: nat, o: nat, end: nat)
    requires segment <= o <= end <= |t|
    ensures AnyStraddles(t, Pieces(t, segment, o, end))
            <==> (segment < end && StartsInside(t, segment, end)) || Strays(t, o, end)
    decreases end - o
  {
    hide Straddles, StartsInside, StrayBehind, Decode;
    if o == end {
      AnyStraddlesJoin(t, segment, end, []);
      WholePiece(t, segment, end);
      assert Pieces(t, segment, o, end) == (if segment < end then [Span(segment, end)] else []) + [];
    } else if !BreakAt(t, o, end) {
      var next := o + Decode(t, o, end).size;
      PiecesStraddle(t, segment, next, end);
      NoStraySkipped(t, o, end);
      StraysFrom(t, o, next, end);
    } else {
      var next := AfterBreakIn(t, o, end);
      PiecesStraddle(t, next, next, end);
      AnyStraddlesJoin(t, segment, o, Pieces(t, next, next, end));
      BeforeBreak(t, segment, o, end);
      BehindBreak(t, o, end);
    }
  }

  lemma WholePiece(t: Text, segment: nat, end: nat)
    requires segment <= end <= |t|
    ensures Straddles(t, Span(segment, end)) <==> StartsInside(t, segment, end)
  {
  }

  lemma NoStraySkipped(t: Text, o: nat, end: nat)
    requires o < end <= |t| && !BreakAt(t, o, end)
    ensures forall y: nat :: o <= y < o + Decode(t, o, end).size ==> !StrayBehind(t, y, end)
  {
    forall y: nat | o <= y < o + Decode(t, o, end).size ensures !StrayBehind(t, y, end) {
      if BreakAt(t, y, end) { BreakStarts(t, y, end); }
    }
  }

  /** Every token of a span stays on one line if and only if the span neither
      starts inside a terminator it reaches past, nor has a stray continuation
      byte behind a terminator with more of the span behind it. */
  lemma SpanSingleLineExact(m: Mapper, span: Span)
    requires IsTable(m) && |m.text| < UINT32_LIMIT
    ensures (forall p <- SplitSpan(m.text, span) :: SingleLine(ToRange(m, p))) <==> !LeavesLine(m.text, span)
  {
    hide IsTable, Pieces, ToRange, Straddles, PieceOk, StartsInside, Strays;
    var t := m.text;
    var end := if span.end > |t| then |t| else span.end;
    SplitOk(t, span);
    if SplitSpan(t, span) != [] || LeavesLine(t, span) {
      PiecesStraddle(t, if span.start < 0 then 0 else span.start, if span.start < 0 then 0 else span.start, end);
    }
    forall p | p in SplitSpan(t, span) ensures SingleLine(ToRange(m, p)) <==> !Straddles(t, p) {
      SingleLineExact(m, p, end);
    }
  }

  // ---------------------------------------------------------------- emission

  /** One emitted piece and the item it was cut from. */
  datatype Emission = Emission(piece: Span, item: Item)

  function Mark(ps: seq<Span>, item: Item): seq<Emission> {
    seq(|ps|, i requires 0 <= i < |ps| => Emission(ps[i], item))
  }

  /** The overlap filter: an item that starts before the end of the last kept
      one is dropped. */
  function Emit(t: Text, items: seq<Item>, lastEnd: int): seq<Emission> {
    if items == [] then []
    else if items[0].span.start < lastEnd then Emit(t, items[1..], lastEnd)
    else Mark(SplitSpan(t, items[0].span), items[0]) + Emit(t, items[1..], items[0].span.end)
  }

  function TokenOf(m: Mapper, e: Emission): Token
    requires IsTable(m)
  {
    Token(ToRange(m, e.piece), e.item.kind, e.item.modifiers)
  }

  function Tokens(m: Mapper, es: seq<Emission>): seq<Token>
    requires IsTable(m)
  {
    seq(|es|, i requires 0 <= i < |es| => TokenOf(m, es[i]))
  }

  lemma TokensAppend(m: Mapper, es: seq<Emission>, more: seq<Emission>)
    requires IsTable(m)
    ensures Tokens(m, es + more) == Tokens(m, es) + Tokens(m, more)
  {
  }

  /** Splitting, then stamping kind and modifiers on every range. */
  method Stamp(m: Mapper, item: Item) returns (tokens: seq<Token>)
    requires IsTable(m)
    ensures tokens == Tokens(m, Mark(SplitSpan(m.text, item.span), item))
  {
    hide IsTable, ToRange, SplitSpan;
    var ranges := SplitSemanticSpan(m, item.span);
    tokens := [];
    for i := 0 to |ranges|
      invariant |tokens| == i
      invariant forall k :: 0 <= k < i ==> tokens[k] == Token(ranges[k], item.kind, item.modifiers)
    {
      tokens := tokens + [Token(ranges[i], item.kind, item.modifiers)];
    }
  }

  method EmitTokens(m: Mapper, items: seq<Item>) returns (tokens: seq<Token>)
    requires IsTable(m)
    ensures tokens == Tokens(m, Emit(m.text, items, -1))
  {
    hide IsTable, TokenOf, Mark, SplitSpan, Tokens;
    tokens := [];
    var lastEnd := -1;
    ghost var done: seq<Emission> := [];
    TokensEmpty(m);
    for i := 0 to |items|
      invariant tokens == Tokens(m, done)
      invariant done + Emit(m.text, items[i..], lastEnd) == Emit(m.text, items, -1)
    {
      assert items[i..][1..] == items[i + 1..];
      if items[i].span.start >= lastEnd {
        var stamped := Stamp(m, items[i]);
        ghost var marked := Mark(SplitSpan(m.text, items[i].span), items[i]);
        TokensAppend(m, done, marked);
        tokens := tokens + stamped;
        EmitKept(m.text, done, items[i..], lastEnd);
        done := done + marked;
        lastEnd := items[i].span.end;
      }
    }
    assert Emit(m.text, items[|items|..], lastEnd) == [];
    assert done + [] == done;
  }

  lemma TokensEmpty(m: Mapper)
    requires IsTable(m)
    ensures Tokens(m, []) == []
  {
  }

  lemma EmitKept(t: Text, done: seq<Emission>, items: seq<Item>, lastEnd: int)
    requires items != [] && items[0].span.start >= lastEnd
    ensures done + Emit(t, items, lastEnd)
            == (done + Mark(SplitSpan(t, items[0].span), items[0])) + Emit(t, items[1..], items[0].span.end)
  {
  }

  /** SemanticTokens: a stable sort, then the filter. */
  method Highlight(m: Mapper, items: seq<Item>) returns (tokens: seq<Token>, ghost sorted: seq<Item>)
    requires IsTable(m)
    ensures StablySorted(items, sorted)
    ensures tokens == Tokens(m, Emit(m.text, sorted, -1))
  {
    var ordered := SortItems(items);
    sorted := ordered;
    tokens := EmitTokens(m, ordered);
  }

  // ------------------------------------------------------------------- order

  ghost predicate StartsSorted(items: seq<Item>) {
    forall i, j :: 0 <= i < j < |items| ==> items[i].span.start <= items[j].span.start
  }

  lemma SortedStarts(items: seq<Item>)
    requires Sorted(items)
    ensures StartsSorted(items)
  {
    forall i, j | 0 <= i < j < |items| ensures items[i].span.start <= items[j].span.start {
      assert !Less(items[j], items[i]);
    }
  }

  lemma SplitOk(t: Text, span: Span)
    ensures InOrder(SplitSpan(t, span))
    ensures forall p <- SplitSpan(t, span) ::
              && 0 <= p.start && span.start <= p.start < p.end <= span.end && p.end <= |t|
              && PieceOk(t, p, 0, if span.end > |t| then |t| else span.end)
  {
    var start := if span.start < 0 then 0 else span.start;
    var end := if span.end > |t| then |t| else span.end;
    if start < end {
      PiecesOk(t, start, start, end);
      hide Pieces;
      forall p | p in SplitSpan(t, span) ensures PieceOk(t, p, 0, end) { assert PieceOk(t, p, start, end); }
    }
  }

  /** Everything emitted comes from its own item's split. */
  lemma {:induction false} EmitFrom(t: Text, items: seq<Item>, lastEnd: int, bound: int)
    requires StartsSorted(items)
    requires forall i :: 0 <= i < |items| && items[i].span.start >= lastEnd ==> items[i].span.start >= bound
    ensures forall e <- Emit(t, items, lastEnd) ::
              e.item in items && e.piece in SplitSpan(t, e.item.span) && e.item.span.start >= bound
    decreases |items|
  {
    if items != [] {
      hide SplitSpan;
      var rest := items[1..];
      var last := if items[0].span.start < lastEnd then lastEnd else items[0].span.end;
      forall i | 0 <= i < |rest| && rest[i].span.start >= last ensures rest[i].span.start >= bound {
        assert rest[i] == items[i + 1];
      }
      EmitFrom(t, rest, last, bound);
    }
  }

  ghost predicate EmittedInOrder(es: seq<Emission>) {
    forall i, j :: 0 <= i < j < |es| ==> es[i].piece.end <= es[j].piece.start
  }

  /** The emitted pieces never overlap, whatever the spans: inverted, empty,
      out of range or overlapping each other. */
  lemma {:induction false} EmitOrdered(t: Text, items: seq<Item>, lastEnd: int)
    requires StartsSorted(items)
    ensures EmittedInOrder(Emit(t, items, lastEnd))
    decreases |items|
  {
    if items != [] {
      var rest := items[1..];
      assert forall i :: 0 <= i < |rest| ==> rest[i] == items[i + 1];
      if items[0].span.start < lastEnd {
        EmitOrdered(t, rest, lastEnd);
      } else {
        var end := items[0].span.end;
        EmitOrdered(t, rest, end);
        EmitFrom(t, rest, end, end);
        SplitOk(t, items[0].span);
        EmitJoin(t, items[0], Emit(t, rest, end));
      }
    }
  }

  lemma EmitJoin(t: Text, item: Item, tail: seq<Emission>)
    requires EmittedInOrder(tail)
    requires forall e <- tail :: e.piece in SplitSpan(t, e.item.span) && e.item.span.start >= item.span.end
    ensures EmittedInOrder(Mark(SplitSpan(t, item.span), item) + tail)
  {
    hide SplitSpan;
    SplitOk(t, item.span);
    forall e | e in tail ensures e.piece.start >= item.span.end { SplitOk(t, e.item.span); }
  }

  /** Tokens come out in order and never overlap, on any bytes and spans. */
  lemma TokensOrdered(m: Mapper, items: seq<Item>, i: nat, j: nat)
    requires IsTable(m) && |m.text| < UINT32_LIMIT && Sorted(items)
    requires i < j < |Tokens(m, Emit(m.text, items, -1))|
    ensures var tokens := Tokens(m, Emit(m.text, items, -1));
            && Before(tokens[i].range.start, tokens[i].range.end)
            && Before(tokens[i].range.end, tokens[j].range.start)
  {
    hide IsTable, Emit, ToPosition, Clamp, SplitSpan;
    var es := Emit(m.text, items, -1);
    SortedStarts(items);
    EmitOrdered(m.text, items, -1);
    EmitFrom(m.text, items, -1, -1);
    assert es[i] in es && es[j] in es;
    SplitOk(m.text, es[i].item.span);
    SplitOk(m.text, es[j].item.span);
    RangesApart(m, es[i].piece, es[j].piece);
  }

  lemma RangesApart(m: Mapper, p: Span, q: Span)
    requires IsTable(m) && |m.text| < UINT32_LIMIT && p.start <= p.end <= q.start <= q.end
    ensures Before(ToRange(m, p).start, ToRange(m, p).end)
    ensures Before(ToRange(m, p).end, ToRange(m, q).start)
  {
    hide IsTable, ToPosition, Clamp;
    ClampMonotone(m.text, p.start, p.end);
    ClampMonotone(m.text, p.end, q.start);
    PositionMonotone(m, Clamp(m.text, p.start), Clamp(m.text, p.end));
    PositionMonotone(m, Clamp(m.text, p.end), Clamp(m.text, q.start));
  }

  /** The items the overlap filter keeps. */
  function Kept(items: seq<Item>, lastEnd: int): seq<Item> {
    if items == [] then []
    else if items[0].span.start < lastEnd then Kept(items[1..], lastEnd)
    else [items[0]] + Kept(items[1..], items[0].span.end)
  }

  /** The kinds asked about: all of them, or only those with a legend entry. */
  predicate Asked(kind: Kind, all: bool) { all || !kind.Unknown? }

  ghost predicate AllSingle(m: Mapper, es: seq<Emission>, all: bool)
    requires IsTable(m)
  {
    forall e <- es :: Asked(e.item.kind, all) ==> SingleLine(ToRange(m, e.piece))
  }

  lemma AllSingleJoin(m: Mapper, item: Item, tail: seq<Emission>, all: bool)
    requires IsTable(m)
    ensures AllSingle(m, Mark(SplitSpan(m.text, item.span), item) + tail, all)
            <==> (Asked(item.kind, all) ==> forall p <- SplitSpan(m.text, item.span) :: SingleLine(ToRange(m, p)))
                 && AllSingle(m, tail, all)
  {
    hide IsTable, SplitSpan, ToRange, SingleLine, Asked;
    var ps := SplitSpan(m.text, item.span);
    var es := Mark(ps, item) + tail;
    forall i | 0 <= i < |ps| ensures es[i] in es && es[i].piece == ps[i] && es[i].item == item {}
    forall e | e in tail ensures e in es {}
    forall e | e in es && e !in tail ensures e.piece in ps && e.item == item { assert e in Mark(ps, item); }
  }

  /** No kept item of an asked kind leaves its line. */
  ghost predicate KeptOnLines(t: Text, items: seq<Item>, lastEnd: int, all: bool) {
    forall item <- Kept(items, lastEnd) :: Asked(item.kind, all) ==> !LeavesLine(t, item.span)
  }

  lemma {:induction false} EmitSingleExact(m: Mapper, items: seq<Item>, lastEnd: int, all: bool)
    requires IsTable(m) && |m.text| < UINT32_LIMIT
    ensures AllSingle(m, Emit(m.text, items, lastEnd), all) <==> KeptOnLines(m.text, items, lastEnd, all)
    decreases |items|
  {
    hide IsTable, SplitSpan, ToRange, LeavesLine, AllSingle, Mark, Asked;
    if items == [] {
      NoneSingle(m, all);
    } else if items[0].span.start < lastEnd {
      EmitSingleExact(m, items[1..], lastEnd, all);
    } else {
      var end := items[0].span.end;
      EmitSingleExact(m, items[1..], end, all);
      SpanSingleLineExact(m, items[0].span);
      AllSingleJoin(m, items[0], Emit(m.text, items[1..], end), all);
      assert Kept(items, lastEnd) == [items[0]] + Kept(items[1..], end);
    }
  }

  lemma NoneSingle(m: Mapper, all: bool)
    requires IsTable(m)
    ensures AllSingle(m, [], all)
  {
  }

  ghost predicate AskedOnLines(tokens: seq<Token>, all: bool) {
    forall token <- tokens :: Asked(token.kind, all) ==> SingleLine(token.range)
  }

  /** Exactly when all tokens, or all those of a known kind, are single-line, on
      any bytes and spans: if and only if no kept item of these kinds starts
      inside a terminator or has stray bytes behind one. */
  lemma TokensSingleLineExact(m: Mapper, items: seq<Item>, all: bool)
    requires IsTable(m) && |m.text| < UINT32_LIMIT
    ensures AskedOnLines(Tokens(m, Emit(m.text, items, -1)), all) <==> KeptOnLines(m.text, items, -1, all)
  {
    hide IsTable, Emit, ToRange, KeptOnLines, Tokens, AllSingle, AskedOnLines;
    EmitSingleExact(m, items, -1, all);
    AllSingleTokens(m, Emit(m.text, items, -1), all);
  }

  lemma AllSingleTokens(m: Mapper, es: seq<Emission>, all: bool)
    requires IsTable(m)
    ensures AllSingle(m, es, all) <==> AskedOnLines(Tokens(m, es), all)
  {
    hide IsTable, ToRange, SingleLine, Asked;
    var tokens := Tokens(m, es);
    if AskedOnLines(tokens, all) {
      forall e | e in es && Asked(e.item.kind, all) ensures SingleLine(ToRange(m, e.piece)) {
        var i :| 0 <= i < |es| && es[i] == e;
        assert tokens[i] in tokens;
      }
    }
  }

  /** Which token is single-line, in terms of its piece. */
  lemma TokenSingleLineExact(m: Mapper, items: seq<Item>, i: nat)
    requires IsTable(m) && |m.text| < UINT32_LIMIT && Sorted(items)
    requires i < |Emit(m.text, items, -1)|
    ensures var e := Emit(m.text, items, -1)[i];
            && 0 <= e.piece.start <= e.piece.end <= |m.text|
            && (SingleLine(TokenOf(m, e).range) <==> !Straddles(m.text, e.piece))
  {
    hide IsTable, Emit, SplitSpan, ToRange, Straddles, PieceOk;
    var e := Emit(m.text, items, -1)[i];
    SortedStarts(items);
    EmitFrom(m.text, items, -1, -1);
    assert e in Emit(m.text, items, -1);
    SplitOk(m.text, e.item.span);
    SingleLineExact(m, e.piece, if e.item.span.end > |m.text| then |m.text| else e.item.span.end);
  }

  // --------------------------------------------------------- well-formed text

  lemma {:induction false} WellFormedAt(t: Text, a: nat, o: nat)
    requires a <= o <= |t| && WellFormedFrom(t, a) && (o == a || Solid(t, o))
    ensures WellFormedFrom(t, o)
    decreases o - a
  {
    if a < o {
      DecodeCut(t, a, o, |t|);
      WellFormedAt(t, a + Decode(t, a, |t|).size, o);
    }
  }

  /** In well-formed text a terminator is followed by a rune start. */
  lemma AfterBreakSolid(t: Text, o: nat, end: nat)
    requires WellFormed(t) && o < end <= |t| && BreakAt(t, o, end)
    ensures Solid(t, AfterBreakIn(t, o, end))
  {
    BreakStarts(t, o, end);
    WellFormedAt(t, 0, o);
    var next := o + Decode(t, o, |t|).size;
    assert WellFormedFrom(t, next);
    if next < |t| && t[next] == 10 {
      assert Decode(t, next, |t|) == Rune(10, 1, true);
      assert WellFormedFrom(t, next + 1);
    }
  }

  lemma {:induction false} PiecesFixed(t: Text, segment: nat, o: nat, end: nat)
    requires segment <= o <= end <= |t| && WellFormed(t) && Fixed(t, segment)
    ensures forall p <- Pieces(t, segment, o, end) :: 0 <= p.start && Fixed(t, p.start)
    decreases end - o
  {
    hide WellFormed, Decode;
    if o < end {
      if !BreakAt(t, o, end) {
        PiecesFixed(t, segment, o + Decode(t, o, end).size, end);
      } else {
        AfterBreakSolid(t, o, end);
        PiecesFixed(t, AfterBreakIn(t, o, end), AfterBreakIn(t, o, end), end);
      }
    }
  }

  /** The span starts on a character boundary, or before or past the text. */
  predicate OnCharacter(t: Text, span: Span) { span.start <= 0 || span.start >= |t| || RuneStart(t[span.start]) }

  /** In well-formed text, items that start on character boundaries give only
      single-line tokens. */
  lemma TokensSingleLine(m: Mapper, items: seq<Item>, i: nat)
    requires IsTable(m) && |m.text| < UINT32_LIMIT && Sorted(items) && WellFormed(m.text)
    requires forall item <- items :: OnCharacter(m.text, item.span)
    requires i < |Emit(m.text, items, -1)|
    ensures SingleLine(TokenOf(m, Emit(m.text, items, -1)[i]).range)
  {
    hide IsTable, Emit, SplitSpan, ToRange, Pieces, WellFormed, Clamp;
    var e := Emit(m.text, items, -1)[i];
    TokenSingleLineExact(m, items, i);
    SortedStarts(items);
    EmitFrom(m.text, items, -1, -1);
    assert e in Emit(m.text, items, -1);
    SplitFixed(m.text, e.item.span);
    FixedClamps(m.text, e.piece.start);
  }

  lemma SplitFixed(t: Text, span: Span)
    requires WellFormed(t) && OnCharacter(t, span)
    ensures forall p <- SplitSpan(t, span) :: 0 <= p.start && Fixed(t, p.start)
  {
    hide WellFormed, Pieces;
    var start := if span.start < 0 then 0 else span.start;
    var end := if span.end > |t| then |t| else span.end;
    if start < end { PiecesFixed(t, start, start, end); }
  }

  /** The text "ab<U+2028>c" and its two lines. */
  const SEPARATED: Text := [97, 98, 0xE2, 0x80, 0xA8, 99]
  const SEPARATED_LINES := Mapper(SEPARATED, [0, 5], [2, 6])

  lemma SeparatedRunes()
    ensures Decode(SEPARATED, 0, 6) == Rune(97, 1, true) && Decode(SEPARATED, 1, 6) == Rune(98, 1, true)
    ensures Decode(SEPARATED, 2, 6) == Rune(0x2028, 3, true) && Decode(SEPARATED, 5, 6) == Rune(99, 1, true)
    ensures Decode(SEPARATED, 3, 6) == BROKEN && Decode(SEPARATED, 4, 6) == BROKEN
  {
  }

  lemma SeparatedTable()
    ensures IsTable(SEPARATED_LINES) && WellFormed(SEPARATED)
  {
    var t, m := SEPARATED, SEPARATED_LINES;
    SeparatedRunes();
    hide Decode;
    assert WellFormedFrom(t, 6) && WellFormedFrom(t, 5) && WellFormedFrom(t, 2) && WellFormedFrom(t, 1);
    assert FirstBreak(t, 2) == 2 && FirstBreak(t, 1) == 2 && FirstBreak(t, 6) == 6;
    assert LineOk(t, m.starts, m.ends, 0) && LineOk(t, m.starts, m.ends, 1);
  }

  lemma SeparatedPieces()
    ensures SplitSpan(SEPARATED, Span(3, 6)) == [Span(3, 6)]
  {
    var t := SEPARATED;
    SeparatedRunes();
    hide Decode;
    assert Pieces(t, 3, 6, 6) == [Span(3, 6)];
    assert Pieces(t, 3, 5, 6) == [Span(3, 6)];
    assert Pieces(t, 3, 4, 6) == [Span(3, 6)];
  }

  lemma SeparatedRange()
    requires IsTable(SEPARATED_LINES)
    ensures ToRange(SEPARATED_LINES, Span(3, 6)) == Range(Position(0, 2), Position(1, 1))
  {
    var t, m := SEPARATED, SEPARATED_LINES;
    assert Back(t, 2) == 2 && Clamp(t, 3) == 2 && Clamp(t, 2) == 2 && Clamp(t, 6) == 6;
    hide IsTable;
    LineAtUnique(m, 2, 0);
    LineAtUnique(m, 6, 1);
    assert Runes(t, 2, 2) == [] && Runes(t, 1, 2) == [Rune(98, 1, true)];
    assert Runes(t, 0, 2) == [Rune(97, 1, true), Rune(98, 1, true)];
    assert Runes(t, 5, 6) == [Rune(99, 1, true)];
    assert Width([Rune(97, 1, true), Rune(98, 1, true)]) == 2 && Width([Rune(99, 1, true)]) == 1;
  }

  /** A line feed, a stray continuation byte and "a", and their two lines. */
  const STRAY: Text := [10, 0x80, 97]
  const STRAY_LINES := Mapper(STRAY, [0, 1], [0, 3])

  lemma StrayRunes()
    ensures Decode(STRAY, 0, 3) == Rune(10, 1, true) && Decode(STRAY, 1, 3) == BROKEN
    ensures Decode(STRAY, 2, 3) == Rune(97, 1, true)
  {
  }

  lemma StrayTable()
    ensures IsTable(STRAY_LINES)
  {
    var t, m := STRAY, STRAY_LINES;
    StrayRunes();
    hide Decode;
    assert FirstBreak(t, 0) == 0 && FirstBreak(t, 2) == 3 && FirstBreak(t, 3) == 3;
    assert LineOk(t, m.starts, m.ends, 0) && LineOk(t, m.starts, m.ends, 1);
  }

  lemma StrayPieces()
    ensures SplitSpan(STRAY, Span(0, 3)) == [Span(1, 3)]
  {
    var t := STRAY;
    StrayRunes();
    hide Decode;
    assert Pieces(t, 1, 3, 3) == [Span(1, 3)];
    assert Pieces(t, 1, 2, 3) == [Span(1, 3)];
    assert Pieces(t, 1, 1, 3) == [Span(1, 3)];
  }

  /** The other family: the span starts on a character boundary, but malformed
      bytes follow its line feed, and the token starts before that line feed. */
  lemma StrayBehindFeedSpansLines()
    ensures IsTable(STRAY_LINES) && OnCharacter(STRAY, Span(0, 3)) && SplitSpan(STRAY, Span(0, 3)) == [Span(1, 3)]
    ensures !SingleLine(ToRange(STRAY_LINES, Span(1, 3)))
  {
    StrayTable();
    StrayPieces();
    StrayRunes();
    hide IsTable, Decode, Pieces, ToRange;
    assert StrayBehind(STRAY, 0, 3);
    assert Strays(STRAY, 0, 3);
    SpanSingleLineExact(STRAY_LINES, Span(0, 3));
  }

  /** Without the boundary the documented single line is lost: a span that
      starts inside the line separator of "ab<U+2028>c" maps to a range that
      starts on the line before and ends on the line after it. */
  lemma InsideSeparatorSpansLines()
    ensures IsTable(SEPARATED_LINES) && WellFormed(SEPARATED) && SplitSpan(SEPARATED, Span(3, 6)) == [Span(3, 6)]
    ensures ToRange(SEPARATED_LINES, Span(3, 6)) == Range(Position(0, 2), Position(1, 1))
  {
    SeparatedTable();
    SeparatedPieces();
    SeparatedRange();
  }
}
