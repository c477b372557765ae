/** internal/dap/source_coordinates.go: native one-based byte positions and the
    debug client's UTF-16 positions, in any of the four line and column bases.
    Only a line feed ends a line; a carriage return right before it is cut. */
module SourceCoordinates {
  import opened Base
  import opened Utf8
  import opened SourceMapper

  datatype Boundary = Boundary(bytes: nat, units: nat)

  datatype Line = Line(start: nat, end: nat, boundaries: seq<Boundary>)

  datatype Coordinates = Coordinates(text: Text, lines: seq<Line>, lineBase: nat, columnBase: nat)

  /** A native position; column 0 asks for the whole line. */
  datatype Native = Native(line: int, column: int)

  datatype Client = Client(line: int, column: Option<int>)

  // -------------------------------------------------------------- boundaries

  /** The decoder boundaries of `t[start..end]` from `o` on. */
  function BoundariesFrom(t: Text, start: nat, o: nat, end: nat, units: nat): seq<Boundary>
    requires start <= o <= end <= |t|
    decreases end - o
  {
    [Boundary(o - start, units)] +
    if o == end then [] else
    var r := Decode(t, o, end);
    BoundariesFrom(t, start, o + r.size, end, units + Units(r))
  }

  function Boundaries(t: Text, start: nat, end: nat): seq<Boundary>
    requires start <= end <= |t|
  {
    BoundariesFrom(t, start, start, end, 0)
  }

  lemma BoundariesUnfold(t: Text, start: nat, o: nat, end: nat, units: nat)
    requires start <= o < end <= |t|
    ensures var r := Decode(t, o, end);
            BoundariesFrom(t, start, o, end, units)
            == [Boundary(o - start, units)] + BoundariesFrom(t, start, o + r.size, end, units + Units(r))
    ensures Runes(t, o, end) == [Decode(t, o, end)] + Runes(t, o + Decode(t, o, end).size, end)
  {
    hide Decode;
  }

  lemma BoundariesAtEnd(t: Text, start: nat, end: nat, units: nat)
    requires start <= end <= |t|
    ensures BoundariesFrom(t, start, end, end, units) == [Boundary(end - start, units)] && Runes(t, end, end) == []
    ensures Size([]) == 0 && Width([]) == 0
  {
  }

  /** Boundary `k` lies behind the first `k` runes of the line. */
  lemma {:induction false} BoundaryAt(t: Text, start: nat, o: nat, end: nat, units: nat, k: nat)
    requires start <= o <= end <= |t| && k <= |Runes(t, o, end)|
    ensures |BoundariesFrom(t, start, o, end, units)| == |Runes(t, o, end)| + 1
    ensures BoundariesFrom(t, start, o, end, units)[k]
            == Boundary(o - start + Size(Runes(t, o, end)[..k]), units + Width(Runes(t, o, end)[..k]))
    decreases end - o
  {
    hide Decode, Units, BoundariesFrom, Runes, Size, Width;
    var runes := Runes(t, o, end);
    BoundariesAtEnd(t, start, end, units);
    assert runes[..0] == [];
    if o < end {
      var r := Decode(t, o, end);
      var rest := Runes(t, o + r.size, end);
      BoundariesUnfold(t, start, o, end, units);
      BoundaryAt(t, start, o + r.size, end, units + Units(r), if k > 0 then k - 1 else 0);
      if k > 0 {
        assert runes[..k] == [r] + rest[..k - 1];
        PrefixSums(r, rest[..k - 1]);
      }
    }
  }

  lemma PrefixSums(r: Rune, rest: seq<Rune>)
    ensures Size([r] + rest) == r.size + Size(rest) && Width([r] + rest) == Units(r) + Width(rest)
  {
    assert ([r] + rest)[1..] == rest;
  }

  /** Both coordinates grow strictly, so either determines the other. */
  lemma {:induction false} BoundariesGrow(t: Text, start: nat, o: nat, end: nat, units: nat)
    requires start <= o <= end <= |t|
    ensures BoundariesFrom(t, start, o, end, units) != [] && Growing(BoundariesFrom(t, start, o, end, units))
    ensures BoundariesFrom(t, start, o, end, units)[0] == Boundary(o - start, units)
    decreases end - o
  {
    hide Decode, BoundariesFrom, Runes;
    BoundariesAtEnd(t, start, end, units);
    if o < end {
      var r := Decode(t, o, end);
      BoundariesUnfold(t, start, o, end, units);
      BoundariesGrow(t, start, o + r.size, end, units + Units(r));
      GrowingCons(Boundary(o - start, units), BoundariesFrom(t, start, o + r.size, end, units + Units(r)));
    }
  }

  lemma GrowingCons(b: Boundary, bs: seq<Boundary>)
    requires bs != [] && Growing(bs) && b.bytes < bs[0].bytes && b.units < bs[0].units
    ensures Growing([b] + bs)
  {
  }

  ghost predicate Growing(bs: seq<Boundary>) {
    forall i, j :: 0 <= i < j < |bs| ==> bs[i].bytes < bs[j].bytes && bs[i].units < bs[j].units
  }

  /** The runes before some decoder boundary of the line have this length. */
  ghost predicate Reaches(t: Text, start: nat, end: nat, bytes: int, units: int)
    requires start <= end <= |t|
  {
    var runes := Runes(t, start, end);
    exists k :: 0 <= k <= |runes| && bytes == Size(runes[..k]) && units == Width(runes[..k])
  }

  lemma BoundaryIsReached(t: Text, start: nat, end: nat, b: Boundary)
    requires start <= end <= |t|
    ensures b in Boundaries(t, start, end) <==> Reaches(t, start, end, b.bytes, b.units)
  {
    var bs, runes := Boundaries(t, start, end), Runes(t, start, end);
    BoundaryAt(t, start, start, end, 0, 0);
    if b in bs {
      var k :| 0 <= k < |bs| && bs[k] == b;
      BoundaryAt(t, start, start, end, 0, k);
      assert Width(runes[..k]) == b.units;
    }
    if Reaches(t, start, end, b.bytes, b.units) {
      var k :| 0 <= k <= |runes| && b.bytes == Size(runes[..k]) && b.units == Width(runes[..k]);
      BoundaryAt(t, start, start, end, 0, k);
      assert bs[k] == b;
    }
  }

  // ------------------------------------------------------------------- lines

  /** The next line feed, or the end of the text: strings.IndexByte. */
  function Feed(t: Text, o: nat): (e: nat)
    requires o <= |t|
    ensures o <= e <= |t| && (e < |t| ==> t[e] == 10)
    ensures forall x: nat :: o <= x < e ==> t[x] != 10
    decreases |t| - o
  {
    if o == |t| || t[o] == 10 then o else Feed(t, o + 1)
  }

  /** Where the line text ends: before a carriage return and line feed. */
  function TextEnd(t: Text, start: nat, feed: nat): (e: nat)
    requires start <= feed <= |t|
    ensures start <= e <= feed
  {
    if feed < |t| && feed > start && t[feed - 1] == 13 then feed - 1 else feed
  }

  function LineFrom(t: Text, start: nat): Line
    requires start <= |t|
  {
    var end := TextEnd(t, start, Feed(t, start));
    Line(start, end, Boundaries(t, start, end))
  }

  function LinesFrom(t: Text, start: nat): (lines: seq<Line>)
    requires start <= |t|
    ensures lines != [] && lines[0] == LineFrom(t, start)
    decreases |t| - start
  {
    var feed := Feed(t, start);
    [LineFrom(t, start)] + if feed == |t| then [] else LinesFrom(t, feed + 1)
  }

  /** The coordinates of a text in the given bases. */
  ghost predicate Built(c: Coordinates) { c.lines == LinesFrom(c.text, 0) && c.lineBase <= 1 && c.columnBase <= 1 }

  lemma LinesUnfold(t: Text, start: nat)
    requires start <= |t|
    ensures LinesFrom(t, start) ==
            if Feed(t, start) == |t| then [LineFrom(t, start)]
            else [LineFrom(t, start)] + LinesFrom(t, Feed(t, start) + 1)
  {
    hide LineFrom, Feed;
  }

  lemma {:induction false} LineShape(t: Text, start: nat, i: nat)
    requires start <= |t| && i < |LinesFrom(t, start)|
    ensures var l := LinesFrom(t, start)[i];
            start <= l.start <= l.end <= |t| && l.boundaries == Boundaries(t, l.start, l.end)
    decreases |t| - start
  {
    hide LinesFrom, Boundaries, Feed, TextEnd;
    LinesUnfold(t, start);
    if i > 0 { LineShape(t, Feed(t, start) + 1, i - 1); }
  }

  /** The terminator that fills the gap between two lines. */
  function Terminator(gap: int): Text {
    if gap == 1 then [10] else if gap == 2 then [13, 10] else []
  }

  function Rebuild(t: Text, lines: seq<Line>): Text
    requires forall l <- lines :: l.start <= l.end <= |t|
  {
    if lines == [] then []
    else if |lines| == 1 then t[lines[0].start..lines[0].end]
    else t[lines[0].start..lines[0].end] + Terminator(lines[1].start - lines[0].end) + Rebuild(t, lines[1..])
  }

  lemma LinesInside(t: Text, start: nat)
    requires start <= |t|
    ensures forall l <- LinesFrom(t, start) :: l.start <= l.end <= |t|
  {
    forall l | l in LinesFrom(t, start) ensures l.start <= l.end <= |t| {
      var i :| 0 <= i < |LinesFrom(t, start)| && LinesFrom(t, start)[i] == l;
      LineShape(t, start, i);
    }
  }

  lemma RebuildUnfold(t: Text, head: Line, rest: seq<Line>)
    requires rest != [] && forall l <- [head] + rest :: l.start <= l.end <= |t|
    ensures head.start <= head.end <= |t| && (forall l <- rest :: l.start <= l.end <= |t|)
    ensures Rebuild(t, [head] + rest)
            == t[head.start..head.end] + Terminator(rest[0].start - head.end) + Rebuild(t, rest)
  {
    assert head in [head] + rest && ([head] + rest)[1..] == rest;
    assert forall l <- rest :: l in [head] + rest;
  }

  /** The lines with their terminators are the text: nothing is lost. */
  lemma {:induction false} LinesRebuild(t: Text, start: nat)
    requires start <= |t|
    ensures (LinesInside(t, start); Rebuild(t, LinesFrom(t, start)) == t[start..])
    decreases |t| - start
  {
    hide LinesFrom, LineFrom, Feed, Terminator, TextEnd;
    LinesInside(t, start);
    LinesUnfold(t, start);
    LineStarts(t, start);
    var feed := Feed(t, start);
    var head := LineFrom(t, start);
    if feed == |t| {
      LastLine(t, start);
    } else {
      LinesInside(t, feed + 1);
      LinesRebuild(t, feed + 1);
      LineStarts(t, feed + 1);
      hide Rebuild;
      RebuildUnfold(t, head, LinesFrom(t, feed + 1));
      HeadRebuild(t, start);
    }
  }

  lemma LineStarts(t: Text, start: nat)
    requires start <= |t|
    ensures LineFrom(t, start).start == start
  {
    hide Boundaries;
  }

  lemma LastLine(t: Text, start: nat)
    requires start <= |t| && Feed(t, start) == |t|
    ensures t[LineFrom(t, start).start..LineFrom(t, start).end] == t[start..]
  {
    hide Boundaries;
  }

  lemma HeadRebuild(t: Text, start: nat)
    requires start <= |t| && Feed(t, start) < |t|
    ensures var feed, head := Feed(t, start), LineFrom(t, start);
            t[head.start..head.end] + Terminator(feed + 1 - head.end) + t[feed + 1..] == t[start..]
  {
    hide Boundaries, Feed;
    var feed, head := Feed(t, start), LineFrom(t, start);
    assert t[head.end..feed + 1] == Terminator(feed + 1 - head.end);
    assert t[start..head.end] + t[head.end..feed + 1] + t[feed + 1..] == t[start..];
  }

  /** No line text contains a line feed. */
  lemma {:induction false} NoFeedInside(t: Text, start: nat, i: nat)
    requires start <= |t| && i < |LinesFrom(t, start)|
    ensures (LineShape(t, start, i); 10 !in t[LinesFrom(t, start)[i].start..LinesFrom(t, start)[i].end])
    decreases |t| - start
  {
    hide Boundaries;
    LineShape(t, start, i);
    if i > 0 { NoFeedInside(t, Feed(t, start) + 1, i - 1); }
  }

  /** `x` lies in the text of some line. */
  ghost predicate InText(lines: seq<Line>, x: nat) { exists l <- lines :: l.start <= x < l.end }

  /** A line feed, or a carriage return right before one. */
  predicate OfTerminator(t: Text, x: nat)
    requires x < |t|
  {
    t[x] == 10 || (t[x] == 13 && x + 1 < |t| && t[x + 1] == 10)
  }

  /** The line texts hold every byte that is not of a terminator, and no other:
      a lone carriage return is text, wherever it stands. */
  lemma {:induction false} LineBytesExact(t: Text, start: nat, x: nat)
    requires start <= x < |t|
    ensures InText(LinesFrom(t, start), x) <==> !OfTerminator(t, x)
    decreases |t| - start
  {
    hide Boundaries, LinesFrom;
    LinesUnfold(t, start);
    var feed, head := Feed(t, start), LineFrom(t, start);
    if feed == |t| {
      assert head in LinesFrom(t, start);
    } else {
      var rest := LinesFrom(t, feed + 1);
      InTextCons(head, rest, x);
      if x > feed {
        LineBytesExact(t, feed + 1, x);
      } else {
        RestAfter(t, feed + 1, x);
      }
    }
  }

  lemma InTextCons(head: Line, rest: seq<Line>, x: nat)
    ensures InText([head] + rest, x) <==> head.start <= x < head.end || InText(rest, x)
  {
    assert head in [head] + rest;
  }

  lemma RestAfter(t: Text, start: nat, x: nat)
    requires x < start <= |t|
    ensures !InText(LinesFrom(t, start), x)
  {
    forall l | l in LinesFrom(t, start) ensures x < l.start {
      var i :| 0 <= i < |LinesFrom(t, start)| && LinesFrom(t, start)[i] == l;
      LineShape(t, start, i);
    }
  }

  method IndexFeed(t: Text, o: nat) returns (next: int)
    requires o <= |t|
    ensures next == if Feed(t, o) == |t| then -1 else Feed(t, o) - o
  {
    var i := o;
    while i < |t|
      invariant o <= i <= |t| && Feed(t, i) == Feed(t, o)
    {
      if t[i] == 10 { return i - o; }
      i := i + 1;
    }
    return -1;
  }

  lemma BoundariesStep(t: Text, done: seq<Boundary>, start: nat, o: nat, end: nat, units: nat)
    requires start <= o < end <= |t|
    ensures var r := Decode(t, o, end);
            done + BoundariesFrom(t, start, o, end, units)
            == (done + [Boundary(o - start, units)]) + BoundariesFrom(t, start, o + r.size, end, units + Units(r))
  {
  }

  method ScanLine(t: Text, start: nat, end: nat) returns (bs: seq<Boundary>)
    requires start <= end <= |t|
    ensures bs == Boundaries(t, start, end)
  {
    hide Decode, BoundariesFrom;
    bs := [Boundary(0, 0)];
    var units: nat, offset := 0, start;
    ghost var done: seq<Boundary> := [];
    assert done + BoundariesFrom(t, start, start, end, 0) == BoundariesFrom(t, start, start, end, 0);
    while offset < end
      invariant start <= offset <= end
      invariant done + BoundariesFrom(t, start, offset, end, units) == Boundaries(t, start, end)
      invariant bs == done + [Boundary(offset - start, units)]
      decreases end - offset
    {
      var r := Decode(t, offset, end);
      BoundariesStep(t, done, start, offset, end, units);
      done := bs;
      offset := offset + r.size;
      units := units + Units(r);
      bs := bs + [Boundary(offset - start, units)];
    }
    LastBoundary(t, start, end, units);
  }

  lemma LastBoundary(t: Text, start: nat, end: nat, units: nat)
    requires start <= end <= |t|
    ensures BoundariesFrom(t, start, end, end, units) == [Boundary(end - start, units)]
  {
  }

  lemma LinesStep(t: Text, done: seq<Line>, start: nat)
    requires start <= |t|
    ensures var feed := Feed(t, start);
            done + LinesFrom(t, start)
            == if feed == |t| then done + [LineFrom(t, start)]
               else (done + [LineFrom(t, start)]) + LinesFrom(t, feed + 1)
  {
    hide LineFrom;
  }

  lemma LineIs(t: Text, start: nat, textEnd: nat)
    requires start <= textEnd <= |t| && textEnd == TextEnd(t, start, Feed(t, start))
    ensures LineFrom(t, start) == Line(start, textEnd, Boundaries(t, start, textEnd))
  {
  }

  method NewSourceCoordinates(t: Text, linesStartAt1: bool, columnsStartAt1: bool) returns (c: Coordinates)
    ensures Built(c) && c.text == t
    ensures c.lineBase == (if linesStartAt1 then 1 else 0) && c.columnBase == (if columnsStartAt1 then 1 else 0)
  {
    hide Boundaries, LinesFrom, LineFrom, Feed;
    var lines: seq<Line> := [];
    var start, more := 0, true;
    assert lines + LinesFrom(t, 0) == LinesFrom(t, 0);
    while more
      invariant start <= |t|
      invariant more ==> lines + LinesFrom(t, start) == LinesFrom(t, 0)
      invariant !more ==> lines == LinesFrom(t, 0)
      decreases |t| - start, more
    {
      var next := IndexFeed(t, start);
      var end := |t|;
      if next >= 0 { end := start + next; }
      var textEnd := end;
      if next >= 0 && end > start && t[end - 1] == 13 { textEnd := textEnd - 1; }
      var boundaries := ScanLine(t, start, textEnd);
      LineIs(t, start, textEnd);
      LinesStep(t, lines, start);
      lines := lines + [Line(start, textEnd, boundaries)];
      if next < 0 { more := false; } else { start := end + 1; }
    }
    c := Coordinates(t, lines, if linesStartAt1 then 1 else 0, if columnsStartAt1 then 1 else 0);
  }

  // ------------------------------------------------------------- conversions

  /** The boundary with the wanted units, if there is one. */
  ghost predicate AtUnits(bs: seq<Boundary>, i: nat, units: int) { i < |bs| && bs[i].units == units }

  ghost predicate AtBytes(bs: seq<Boundary>, i: nat, bytes: int) { i < |bs| && bs[i].bytes == bytes }

  ghost predicate HasUnits(bs: seq<Boundary>, units: int) { exists k :: AtUnits(bs, k, units) }

  ghost predicate HasBytes(bs: seq<Boundary>, bytes: int) { exists k :: AtBytes(bs, k, bytes) }

  ghost predicate HasBoth(bs: seq<Boundary>, bytes: int, units: int) {
    exists k :: AtUnits(bs, k, units) && AtBytes(bs, k, bytes)
  }

  method SearchUnits(bs: seq<Boundary>, units: int) returns (i: nat)
    requires Growing(bs)
    ensures i <= |bs|
    ensures HasUnits(bs, units) <==> AtUnits(bs, i, units)
  {
    i := 0;
    var j := |bs|;
    while i < j
      invariant i <= j <= |bs|
      invariant forall k :: 0 <= k < i ==> bs[k].units < units
      invariant forall k :: j <= k < |bs| ==> bs[k].units >= units
    {
      var h := i + (j - i) / 2;
      if !(bs[h].units >= units) { i := h + 1; } else { j := h; }
    }
    if k: nat :| AtUnits(bs, k, units) { assert i <= k; }
  }

  method SearchBytes(bs: seq<Boundary>, bytes: int) returns (i: nat)
    requires Growing(bs)
    ensures i <= |bs|
    ensures HasBytes(bs, bytes) <==> AtBytes(bs, i, bytes)
  {
    i := 0;
    var j := |bs|;
    while i < j
      invariant i <= j <= |bs|
      invariant forall k :: 0 <= k < i ==> bs[k].bytes < bytes
      invariant forall k :: j <= k < |bs| ==> bs[k].bytes >= bytes
    {
      var h := i + (j - i) / 2;
      if !(bs[h].bytes >= bytes) { i := h + 1; } else { j := h; }
    }
    if k: nat :| AtBytes(bs, k, bytes) { assert i <= k; }
  }

  /** A client position and a native position name the same place: the same
      existing line and both no column, or columns behind the same runes. */
  ghost predicate SamePlace(c: Coordinates, p: Client, n: Native)
    requires Built(c)
  {
    && 1 <= n.line <= |c.lines| && p.line == n.line - 1 + c.lineBase
    && match p.column
       case None => n.column == 0
       case Some(column) =>
         LineShape(c.text, 0, n.line - 1);
         var l := c.lines[n.line - 1];
         Reaches(c.text, l.start, l.end, n.column - 1, column - c.columnBase)
  }

  /** The same relation read off the boundary table. */
  ghost predicate Meets(c: Coordinates, p: Client, n: Native) {
    && 1 <= n.line <= |c.lines| && p.line == n.line - 1 + c.lineBase
    && match p.column
       case None => n.column == 0
       case Some(column) =>
         var bs := c.lines[n.line - 1].boundaries;
         HasBoth(bs, n.column - 1, column - c.columnBase)
  }

  lemma LineGrows(c: Coordinates, i: nat)
    requires Built(c) && i < |c.lines|
    ensures Growing(c.lines[i].boundaries)
  {
    LineShape(c.text, 0, i);
    BoundariesGrow(c.text, c.lines[i].start, c.lines[i].start, c.lines[i].end, 0);
  }

  lemma TableReaches(t: Text, start: nat, end: nat, bytes: int, units: int)
    requires start <= end <= |t|
    ensures Reaches(t, start, end, bytes, units) <==> HasBoth(Boundaries(t, start, end), bytes, units)
  {
    hide Boundaries;
    var bs := Boundaries(t, start, end);
    if bytes >= 0 && units >= 0 {
      var b := Boundary(bytes, units);
      BoundaryIsReached(t, start, end, b);
      if b in bs {
        var k :| 0 <= k < |bs| && bs[k] == b;
        assert AtUnits(bs, k, units) && AtBytes(bs, k, bytes);
      }
    }
  }

  lemma SameMeets(c: Coordinates, p: Client, n: Native)
    requires Built(c)
    ensures SamePlace(c, p, n) <==> Meets(c, p, n)
  {
    hide LinesFrom, Reaches, Boundaries;
    if 1 <= n.line <= |c.lines| && p.column.Some? {
      LineShape(c.text, 0, n.line - 1);
      var l := c.lines[n.line - 1];
      TableReaches(c.text, l.start, l.end, n.column - 1, p.column.value - c.columnBase);
    }
  }

  lemma FromFound(c: Coordinates, p: Client, i: nat)
    requires Built(c) && 0 <= p.line - c.lineBase < |c.lines| && p.column.Some?
    requires AtUnits(c.lines[p.line - c.lineBase].boundaries, i, p.column.value - c.columnBase)
    ensures var n := Native(p.line - c.lineBase + 1, c.lines[p.line - c.lineBase].boundaries[i].bytes + 1);
            SamePlace(c, p, n) && forall other :: SamePlace(c, p, other) ==> other == n
  {
    hide SamePlace, Built;
    var bs := c.lines[p.line - c.lineBase].boundaries;
    var n := Native(p.line - c.lineBase + 1, bs[i].bytes + 1);
    LineGrows(c, p.line - c.lineBase);
    assert AtBytes(bs, i, n.column - 1);
    SameMeets(c, p, n);
    forall other | SamePlace(c, p, other) ensures other == n { SameMeets(c, p, other); }
  }

  lemma FromNothing(c: Coordinates, p: Client)
    requires Built(c) && 0 <= p.line - c.lineBase < |c.lines| && p.column.Some?
    requires !HasUnits(c.lines[p.line - c.lineBase].boundaries, p.column.value - c.columnBase)
    ensures forall n :: !SamePlace(c, p, n)
  {
    hide SamePlace, Built;
    forall n ensures !SamePlace(c, p, n) { SameMeets(c, p, n); }
  }

  lemma ToFound(c: Coordinates, n: Native, i: nat)
    requires Built(c) && 1 <= n.line <= |c.lines| && n.column > 0
    requires AtBytes(c.lines[n.line - 1].boundaries, i, n.column - 1)
    ensures var p := Client(n.line - 1 + c.lineBase, Some(c.lines[n.line - 1].boundaries[i].units + c.columnBase));
            SamePlace(c, p, n) && forall other :: SamePlace(c, other, n) ==> other == p
  {
    hide SamePlace, Built;
    var bs := c.lines[n.line - 1].boundaries;
    var p := Client(n.line - 1 + c.lineBase, Some(bs[i].units + c.columnBase));
    LineGrows(c, n.line - 1);
    assert AtUnits(bs, i, p.column.value - c.columnBase);
    SameMeets(c, p, n);
    forall other | SamePlace(c, other, n) ensures other == p { SameMeets(c, other, n); }
  }

  lemma ToNothing(c: Coordinates, n: Native)
    requires Built(c) && 1 <= n.line <= |c.lines| && n.column != 0
    requires !HasBytes(c.lines[n.line - 1].boundaries, n.column - 1)
    ensures forall p :: !SamePlace(c, p, n)
  {
    hide SamePlace, Built;
    forall p ensures !SamePlace(c, p, n) { SameMeets(c, p, n); }
  }

  /** fromClient accepts a client position exactly if some native position is
      the same place, and answers with it. */
  method FromClient(c: Coordinates, line: int, column: Option<int>) returns (r: Option<Native>)
    requires Built(c)
    ensures forall n :: r == Some(n) <==> SamePlace(c, Client(line, column), n)
  {
    hide Built, Reaches;
    if line < c.lineBase || line - c.lineBase >= |c.lines| { return None; }
    var index := line - c.lineBase;
    if column.None? { return Some(Native(index + 1, 0)); }
    hide SamePlace;
    var units := column.value - c.columnBase;
    if column.value < c.columnBase {
      FromNothing(c, Client(line, column));
      return None;
    }
    var bs := c.lines[index].boundaries;
    LineGrows(c, index);
    var i := SearchUnits(bs, units);
    if i == |bs| || bs[i].units != units {
      FromNothing(c, Client(line, column));
      return None;
    }
    FromFound(c, Client(line, column), i);
    r := Some(Native(index + 1, bs[i].bytes + 1));
  }

  /** toClient is the other direction of the same relation, so the two are
      inverse on what they accept. */
  method ToClient(c: Coordinates, n: Native) returns (r: Option<Client>)
    requires Built(c)
    ensures forall p :: r == Some(p) <==> SamePlace(c, p, n)
  {
    hide Built;
    LineColumns(c, n);
    hide SamePlace;
    if n.line < 1 || n.line > |c.lines| { return None; }
    if n.column < 0 {
      ToNothing(c, n);
      return None;
    }
    var line := n.line - 1 + c.lineBase;
    if n.column == 0 { return Some(Client(line, None)); }
    var bs := c.lines[n.line - 1].boundaries;
    LineGrows(c, n.line - 1);
    var i := SearchBytes(bs, n.column - 1);
    if i == |bs| || bs[i].bytes != n.column - 1 {
      ToNothing(c, n);
      return None;
    }
    ToFound(c, n, i);
    r := Some(Client(line, Some(bs[i].units + c.columnBase)));
  }

  lemma LineColumns(c: Coordinates, n: Native)
    requires Built(c)
    ensures n.line < 1 || n.line > |c.lines| ==> forall p :: !SamePlace(c, p, n)
    ensures 1 <= n.line <= |c.lines| && n.column == 0 ==>
              forall p :: SamePlace(c, p, n) <==> p == Client(n.line - 1 + c.lineBase, None)
  {
    hide SamePlace, Built;
    forall p ensures SamePlace(c, p, n) <==> Meets(c, p, n) { SameMeets(c, p, n); }
  }

  /** A place has one name on either side, so a trip through either conversion
      and back returns where it began. */
  lemma PlacesCorrespond(c: Coordinates, p: Client, q: Client, n: Native, o: Native)
    requires Built(c) && SamePlace(c, p, n)
    ensures SamePlace(c, q, n) ==> q == p
    ensures SamePlace(c, p, o) ==> o == n
  {
    hide SamePlace, Built;
    SameMeets(c, p, n);
    SameMeets(c, q, n);
    SameMeets(c, p, o);
    LineGrows(c, n.line - 1);
  }
}
