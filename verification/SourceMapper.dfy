/** internal/source/position.go and utf16.go: byte offsets to zero-based UTF-16
    positions and back, for any bytes at all. */
module SourceMapper {
  import opened Utf8

  datatype Position = Position(line: Uint32, character: Uint32)

  datatype Range = Range(start: Position, end: Position)

  datatype Span = Span(start: int, end: int)

  datatype Mapper = Mapper(text: Text, starts: seq<nat>, ends: seq<nat>)

  /** The conversion `uint32(x)`. */
  function ToUint32(x: nat): Uint32 { x % UINT32_LIMIT }

  // ------------------------------------------------------- runes of a stretch

  /** The decoding of `t[a..end]`. */
  function Runes(t: Text, a: nat, end: nat): seq<Rune>
    requires a <= end <= |t|
    decreases end - a
  {
    if a == end then [] else
    var r := Decode(t, a, end);
    [r] + Runes(t, a + r.size, end)
  }

  function Size(runes: seq<Rune>): nat { if runes == [] then 0 else runes[0].size + Size(runes[1..]) }

  function Width(runes: seq<Rune>): nat { if runes == [] then 0 else Units(runes[0]) + Width(runes[1..]) }

  /** The UTF-16 length of `t[a..end]`. */
  function WidthOf(t: Text, a: nat, end: nat): nat
    requires a <= end <= |t|
  {
    Width(Runes(t, a, end))
  }

  lemma {:induction false} WidthBound(t: Text, a: nat, end: nat)
    requires a <= end <= |t|
    ensures WidthOf(t, a, end) <= end - a
    decreases end - a
  {
    if a < end { WidthBound(t, a + Decode(t, a, end).size, end); }
  }

  /** A stretch cut at a rune start has the width of its two parts. */
  lemma {:induction false} WidthSplit(t: Text, a: nat, cut: nat, end: nat)
    requires a <= cut <= end <= |t| && Solid(t, cut)
    ensures WidthOf(t, a, end) == WidthOf(t, a, cut) + WidthOf(t, cut, end)
    decreases cut - a
  {
    if a < cut {
      DecodeCut(t, a, cut, end);
      WidthSplit(t, a + Decode(t, a, end).size, cut, end);
    }
  }

  // --------------------------------------------------------------- line table

  predicate IsBreak(value: nat) { value == 13 || value == 10 || value == 0x2028 || value == 0x2029 }

  /** Where the line that contains `o` ends: the next line terminator. */
  function FirstBreak(t: Text, o: nat): (e: nat)
    requires o <= |t|
    ensures o <= e <= |t| && Solid(t, e)
    ensures e < |t| ==> IsBreak(Decode(t, e, |t|).value)
    decreases |t| - o
  {
    if o == |t| then o else
    var r := Decode(t, o, |t|);
    if IsBreak(r.value) then o else FirstBreak(t, o + r.size)
  }

  /** Past the terminator at `e`; a carriage return takes a line feed along. */
  function AfterBreak(t: Text, e: nat): (s: nat)
    requires e < |t|
    ensures e < s <= |t|
  {
    var r := Decode(t, e, |t|);
    if r.value == 13 && e + 1 < |t| && t[e + 1] == 10 then e + 2 else e + r.size
  }

  /** Line `i` starts where it should and ends at its terminator, after which
      the next line starts. */
  ghost predicate LineOk(t: Text, starts: seq<nat>, ends: seq<nat>, i: nat)
    requires i < |starts|
  {
    && starts[i] <= |t|
    && (i < |ends| ==> ends[i] == FirstBreak(t, starts[i]))
    && (i + 1 < |starts| ==> i < |ends| && ends[i] < |t| && starts[i + 1] == AfterBreak(t, ends[i]))
  }

  ghost predicate StartsChain(t: Text, starts: seq<nat>, ends: seq<nat>) {
    && 0 < |starts| && starts[0] == 0 && |ends| <= |starts|
    && forall i :: 0 <= i < |starts| ==> LineOk(t, starts, ends, i)
  }

  /** The lines of the text, each up to its terminator. */
  ghost predicate IsTable(m: Mapper) {
    && StartsChain(m.text, m.starts, m.ends)
    && |m.ends| == |m.starts| && m.ends[|m.ends| - 1] == |m.text|
  }

  lemma LineAtHand(m: Mapper, i: nat)
    requires IsTable(m) && i < |m.starts|
    ensures m.starts[i] <= m.ends[i] <= |m.text| && Solid(m.text, m.ends[i])
    ensures i + 1 < |m.starts| ==> m.ends[i] < m.starts[i + 1] <= |m.text|
  {
    assert LineOk(m.text, m.starts, m.ends, i);
  }

  lemma {:induction false} StartsIncrease(m: Mapper, i: nat, j: nat)
    requires IsTable(m) && i < j < |m.starts|
    ensures m.starts[i] <= m.ends[i] < m.starts[j]
  {
    hide IsTable;
    LineAtHand(m, i);
    if i < j - 1 {
      StartsIncrease(m, i, j - 1);
      LineAtHand(m, j - 1);
    }
  }

  lemma {:induction false} StartsGrow(m: Mapper, i: nat)
    requires IsTable(m) && i < |m.starts|
    ensures i <= m.starts[i]
  {
    hide IsTable;
    if i > 0 {
      StartsGrow(m, i - 1);
      LineAtHand(m, i - 1);
    }
  }

  lemma LinesFit(m: Mapper)
    requires IsTable(m)
    ensures |m.starts| <= |m.text| + 1
  {
    StartsGrow(m, |m.starts| - 1);
    LineAtHand(m, |m.starts| - 1);
  }

  /** The table grows by one line. */
  lemma ChainStep(t: Text, starts: seq<nat>, ends: seq<nat>, end: nat)
    requires StartsChain(t, starts, ends) && |ends| == |starts| - 1
    requires starts[|starts| - 1] <= |t| && end < |t| && end == FirstBreak(t, starts[|starts| - 1])
    ensures StartsChain(t, starts + [AfterBreak(t, end)], ends + [end])
  {
    var more, done := starts + [AfterBreak(t, end)], ends + [end];
    forall i | 0 <= i < |more| ensures LineOk(t, more, done, i) {
      if i < |starts| { assert LineOk(t, starts, ends, i); }
    }
  }

  lemma ChainEnd(t: Text, starts: seq<nat>, ends: seq<nat>)
    requires StartsChain(t, starts, ends) && |ends| == |starts| - 1
    requires starts[|starts| - 1] <= |t| && FirstBreak(t, starts[|starts| - 1]) == |t|
    ensures IsTable(Mapper(t, starts, ends + [|t|]))
  {
    forall i | 0 <= i < |starts| ensures LineOk(t, starts, ends + [|t|], i) {
      assert LineOk(t, starts, ends, i);
    }
  }

  method NewMapper(text: Text) returns (m: Mapper)
    ensures m.text == text && IsTable(m)
  {
    hide StartsChain, IsTable, LineOk, Decode;
    var starts: seq<nat>, ends: seq<nat> := [0], [];
    var offset := 0;
    FirstLine(text);
    while offset < |text|
      invariant offset <= |text|
      invariant StartsChain(text, starts, ends) && |ends| == |starts| - 1
      invariant starts[|starts| - 1] <= offset
      invariant FirstBreak(text, starts[|starts| - 1]) == FirstBreak(text, offset)
      decreases |text| - offset
    {
      var r := Decode(text, offset, |text|);
      if r.value == 13 {
        ChainStep(text, starts, ends, offset);
        ends := ends + [offset];
        offset := offset + r.size;
        if offset < |text| && text[offset] == 10 { offset := offset + 1; }
        starts := starts + [offset];
      } else if r.value == 10 || r.value == 0x2028 || r.value == 0x2029 {
        ChainStep(text, starts, ends, offset);
        ends := ends + [offset];
        offset := offset + r.size;
        starts := starts + [offset];
      } else {
        offset := offset + r.size;
      }
    }
    ChainEnd(text, starts, ends);
    ends := ends + [|text|];
    m := Mapper(text, starts, ends);
  }

  lemma FirstLine(t: Text)
    ensures StartsChain(t, [0], [])
  {
  }

  // ------------------------------------------------------------------- clamp

  function Back(t: Text, o: nat): (c: nat)
    requires o <= |t|
    ensures c <= o
  {
    if 0 < o < |t| && Continuation(t[o]) then Back(t, o - 1) else o
  }

  function Clamp(t: Text, o: int): (c: nat)
    ensures c <= |t|
  {
    Back(t, if o < 0 then 0 else if o > |t| then |t| else o)
  }

  /** An offset that clamping leaves alone. */
  predicate Fixed(t: Text, o: nat) { o == 0 || (o <= |t| && Solid(t, o)) }

  /** Clamping gives the last fixed offset that is not past the wanted one. */
  lemma ClampIsLastFixed(t: Text, o: int, c: nat)
    requires c <= |t|
    ensures c == Clamp(t, o) <==>
              Fixed(t, c) && (c == 0 || c <= o) && forall x: nat :: c < x <= o && x <= |t| ==> !Fixed(t, x)
  {
    var want: nat := if o < 0 then 0 else if o > |t| then |t| else o;
    BackIsLastFixed(t, want);
    var b := Back(t, want);
    if c != b && Fixed(t, c) && (c == 0 || c <= o) {
      if c < b { assert Fixed(t, b) && c < b <= o; }
    }
  }

  lemma {:induction false} BackIsLastFixed(t: Text, o: nat)
    requires o <= |t|
    ensures Fixed(t, Back(t, o))
    ensures forall x: nat :: Back(t, o) < x <= o ==> !Fixed(t, x)
    ensures Fixed(t, o) ==> Back(t, o) == o
  {
    if 0 < o < |t| && Continuation(t[o]) { BackIsLastFixed(t, o - 1); }
  }

  lemma ClampMonotone(t: Text, o: int, p: int)
    requires o <= p
    ensures Clamp(t, o) <= Clamp(t, p)
  {
    ClampIsLastFixed(t, o, Clamp(t, o));
    ClampIsLastFixed(t, p, Clamp(t, p));
  }

  method ClampOffset(t: Text, o: int) returns (c: nat)
    ensures c == Clamp(t, o)
  {
    var at: int := o;
    if at < 0 { at := 0; } else if at > |t| { at := |t|; }
    while at > 0 && at < |t| && !RuneStart(t[at])
      invariant 0 <= at <= |t| && Back(t, at) == Clamp(t, o)
    {
      at := at - 1;
    }
    c := at;
  }

  method Utf16Width(t: Text, a: nat, end: nat) returns (width: Uint32)
    requires a <= end <= |t|
    ensures width == ToUint32(WidthOf(t, a, end))
  {
    width := 0;
    var at := a;
    while at < end
      invariant a <= at <= end
      invariant ToUint32(width + WidthOf(t, at, end)) == ToUint32(WidthOf(t, a, end))
      decreases end - at
    {
      var r := Decode(t, at, end);
      ghost var rest := WidthOf(t, at + r.size, end);
      assert WidthOf(t, at, end) == Units(r) + rest;
      ghost var before := width;
      width := ToUint32(width + 1);
      if r.value > 0xFFFF { width := ToUint32(width + 1); }
      WrapSum(before, Units(r), rest);
      at := at + r.size;
    }
  }

  lemma WrapSum(x: nat, units: nat, rest: nat)
    requires units == 1 || units == 2
    ensures ToUint32(ToUint32(x + units) + rest) == ToUint32(x + units + rest)
    ensures units == 2 ==> ToUint32(ToUint32(x + 1) + 1) == ToUint32(x + 2)
  {
    WrapAdd(x + units, rest);
    WrapAdd(x + 1, 1);
  }

  lemma WrapAdd(x: nat, y: nat)
    ensures ToUint32(ToUint32(x) + y) == ToUint32(x + y)
  {
    var q := x / UINT32_LIMIT;
    assert x == q * UINT32_LIMIT + x % UINT32_LIMIT;
    Multiples(x % UINT32_LIMIT + y, q);
  }

  lemma {:induction false} Multiples(x: nat, q: nat)
    ensures (q * UINT32_LIMIT + x) % UINT32_LIMIT == x % UINT32_LIMIT
  {
    if q > 0 { Multiples(x, q - 1); }
  }

  // ------------------------------------------------------ offset to position

  /** The last line that starts at or before `o`. */
  function LineAt(starts: seq<nat>, o: nat): (line: nat)
    requires starts != []
    ensures line < |starts|
    ensures starts[line] <= o || line == 0
    ensures line + 1 < |starts| ==> starts[line + 1] > o
  {
    if |starts| == 1 || starts[|starts| - 1] <= o then |starts| - 1
    else
      assert forall i :: 0 <= i < |starts| - 1 ==> starts[..|starts| - 1][i] == starts[i];
      LineAt(starts[..|starts| - 1], o)
  }

  lemma StartsAtZero(m: Mapper)
    requires IsTable(m)
    ensures |m.starts| == |m.ends| > 0 && m.starts[0] == 0
    ensures forall i :: 0 <= i < |m.starts| ==> m.starts[i] <= m.ends[i] <= |m.text|
  {
    forall i | 0 <= i < |m.starts| ensures m.starts[i] <= m.ends[i] <= |m.text| { LineAtHand(m, i); }
  }

  /** A line is the one `o` lies on exactly when it starts no later and the
      next one starts later. */
  lemma LineAtUnique(m: Mapper, o: nat, line: nat)
    requires IsTable(m) && line < |m.starts|
    ensures line == LineAt(m.starts, o) <==> m.starts[line] <= o && (line + 1 < |m.starts| ==> o < m.starts[line + 1])
  {
    hide IsTable;
    var at := LineAt(m.starts, o);
    StartsAtZero(m);
    if line < at {
      if line + 1 < at { StartsIncrease(m, line + 1, at); }
    } else if at < line {
      if at + 1 < line { StartsIncrease(m, at + 1, line); }
    }
  }

  function Cut(m: Mapper, o: int): (c: nat)
    requires IsTable(m)
    ensures c <= |m.text|
  {
    var c := Clamp(m.text, o);
    StartsAtZero(m);
    var end := m.ends[LineAt(m.starts, c)];
    if c > end then end else c
  }

  lemma CutInLine(m: Mapper, o: int)
    requires IsTable(m)
    ensures var line := LineAt(m.starts, Clamp(m.text, o));
            && line < |m.ends| && m.starts[line] <= Cut(m, o) <= m.ends[line]
            && (Cut(m, o) == 0 || Solid(m.text, Cut(m, o)))
  {
    hide IsTable;
    var c := Clamp(m.text, o);
    StartsAtZero(m);
    LineAtHand(m, LineAt(m.starts, c));
    LineAtUnique(m, c, LineAt(m.starts, c));
    ClampIsLastFixed(m.text, o, c);
  }

  function ToPosition(m: Mapper, o: int): Position
    requires IsTable(m)
  {
    StartsAtZero(m);
    var line := LineAt(m.starts, Clamp(m.text, o));
    CutInLine(m, o);
    Position(ToUint32(line), ToUint32(WidthOf(m.text, m.starts[line], Cut(m, o))))
  }

  /** sort.Search over the line starts. */
  method SearchLine(starts: seq<nat>, o: nat) returns (i: nat)
    requires forall j, k :: 0 <= j < k < |starts| ==> starts[j] < starts[k]
    ensures i <= |starts|
    ensures forall k :: 0 <= k < i ==> starts[k] <= o
    ensures forall k :: i <= k < |starts| ==> starts[k] > o
  {
    i := 0;
    var j := |starts|;
    while i < j
      invariant i <= j <= |starts|
      invariant forall k :: 0 <= k < i ==> starts[k] <= o
      invariant forall k :: j <= k < |starts| ==> starts[k] > o
    {
      var h := i + (j - i) / 2;
      if !(starts[h] > o) { i := h + 1; } else { j := h; }
    }
  }

  method OffsetToPosition(m: Mapper, o: int) returns (p: Position)
    requires IsTable(m)
    ensures p == ToPosition(m, o)
  {
    hide IsTable;
    StartsAtZero(m);
    var offset := ClampOffset(m.text, o);
    forall j, k | 0 <= j < k < |m.starts| ensures m.starts[j] < m.starts[k] { StartsIncrease(m, j, k); }
    var found := SearchLine(m.starts, offset);
    var line: int := found - 1;
    if line < 0 { line := 0; }
    LineAtUnique(m, offset, line);
    CutInLine(m, o);
    var cut := offset;
    if cut > m.ends[line] { cut := m.ends[line]; }
    var width := Utf16Width(m.text, m.starts[line], cut);
    p := Position(ToUint32(line), width);
  }

  // ------------------------------------------------------ position to offset

  /** Walk `t[a..end]` over `want` code units; a position inside a surrogate
      pair falls back to the start of its rune. */
  function Seek(t: Text, a: nat, end: nat, want: nat): (o: nat)
    requires a <= end <= |t|
    ensures a <= o <= end
    decreases end - a
  {
    if a == end then end else
    var r := Decode(t, a, end);
    if want < Units(r) then a else Seek(t, a + r.size, end, want - Units(r))
  }

  function ToOffset(m: Mapper, p: Position): (o: nat)
    requires IsTable(m)
    ensures o <= |m.text|
  {
    StartsAtZero(m);
    if p.line >= |m.starts| then |m.text|
    else Seek(m.text, m.starts[p.line], m.ends[p.line], p.character)
  }

  method PositionToOffset(m: Mapper, p: Position) returns (o: nat)
    requires IsTable(m)
    ensures |m.text| < UINT32_LIMIT ==> o == ToOffset(m, p)
  {
    hide IsTable, Decode;
    StartsAtZero(m);
    if p.line >= |m.starts| { return |m.text|; }
    var end := m.ends[p.line];
    var character: Uint32 := 0;
    o := m.starts[p.line];
    while o < end
      invariant m.starts[p.line] <= o <= end
      invariant |m.text| < UINT32_LIMIT ==>
          && character <= o && character <= p.character
          && Seek(m.text, o, end, p.character - character) == ToOffset(m, p)
      decreases end - o
    {
      var r := Decode(m.text, o, end);
      var width := 1;
      if r.value > 0xFFFF { width := 2; }
      if p.character <= character || p.character < ToUint32(character + width) { return; }
      character := ToUint32(character + width);
      o := o + r.size;
    }
    o := end;
  }

  /** Seeking the width of a prefix that ends at a rune start finds its end. */
  lemma {:induction false} SeekWidth(t: Text, a: nat, cut: nat, end: nat)
    requires a <= cut <= end <= |t| && (cut == a || Solid(t, cut))
    ensures Seek(t, a, end, WidthOf(t, a, cut)) == cut
    decreases cut - a
  {
    if a < cut {
      DecodeCut(t, a, cut, end);
      SeekWidth(t, a + Decode(t, a, end).size, cut, end);
    }
  }

  /** Every offset of any byte string under 2^32 bytes: going to a position and
      back gives the clamped offset cut back to the end of its line. */
  lemma OffsetRoundTrip(m: Mapper, o: int)
    requires IsTable(m) && |m.text| < UINT32_LIMIT
    ensures ToOffset(m, ToPosition(m, o)) == Cut(m, o)
  {
    hide IsTable, WidthOf, Seek, Clamp, LineAt;
    StartsAtZero(m);
    var line := LineAt(m.starts, Clamp(m.text, o));
    CutInLine(m, o);
    LinesFit(m);
    WidthBound(m.text, m.starts[line], Cut(m, o));
    SeekWidth(m.text, m.starts[line], Cut(m, o), m.ends[line]);
  }

  // ---------------------------------------------------------------- monotone

  predicate Before(p: Position, q: Position) { p.line < q.line || (p.line == q.line && p.character <= q.character) }

  lemma LineMonotone(m: Mapper, o: nat, p: nat)
    requires IsTable(m) && o <= p
    ensures LineAt(m.starts, o) <= LineAt(m.starts, p)
  {
    hide IsTable;
    StartsAtZero(m);
    var i, j := LineAt(m.starts, o), LineAt(m.starts, p);
    LineAtUnique(m, o, i);
    LineAtUnique(m, p, j);
    if j < i { if j + 1 < i { StartsIncrease(m, j + 1, i); } }
  }

  /** Larger offsets never get smaller positions. */
  lemma PositionMonotone(m: Mapper, o: int, p: int)
    requires IsTable(m) && |m.text| < UINT32_LIMIT && o <= p
    ensures Before(ToPosition(m, o), ToPosition(m, p))
    ensures Cut(m, o) <= Cut(m, p)
  {
    hide IsTable, WidthOf, Clamp, LineAt;
    StartsAtZero(m);
    ClampMonotone(m.text, o, p);
    LineMonotone(m, Clamp(m.text, o), Clamp(m.text, p));
    CutInLine(m, o);
    CutInLine(m, p);
    LinesFit(m);
    var i, j := LineAt(m.starts, Clamp(m.text, o)), LineAt(m.starts, Clamp(m.text, p));
    WidthBound(m.text, m.starts[i], Cut(m, o));
    WidthBound(m.text, m.starts[j], Cut(m, p));
    if i < j {
      StartsIncrease(m, i, j);
    } else if Cut(m, o) == m.starts[i] {
    } else {
      WidthSplit(m.text, m.starts[i], Cut(m, o), Cut(m, p));
    }
  }

  // ------------------------------------------------- from a position and back

  /** `want` code units end between two runes of `t[a..end]`. */
  ghost predicate OnBoundary(t: Text, a: nat, end: nat, want: nat)
    requires a <= end <= |t|
  {
    var runes := Runes(t, a, end);
    exists k :: 0 <= k <= |runes| && Width(runes[..k]) == want
  }

  /** Seeking lands exactly on boundaries; otherwise it stops short. */
  lemma {:induction false} SeekBoundary(t: Text, a: nat, end: nat, want: nat)
    requires a <= end <= |t|
    ensures OnBoundary(t, a, end, want) <==> WalkWidth(t, a, Seek(t, a, end, want), end) == want
    ensures Walks(t, a, Seek(t, a, end, want), end) && WalkWidth(t, a, Seek(t, a, end, want), end) <= want
    decreases end - a
  {
    var runes := Runes(t, a, end);
    assert Width(runes[..0]) == 0;
    if a < end {
      var r := Decode(t, a, end);
      var rest := Runes(t, a + r.size, end);
      assert runes == [r] + rest;
      if want >= Units(r) {
        SeekBoundary(t, a + r.size, end, want - Units(r));
        BoundaryStep(t, a, end, want);
      } else if want > 0 {
        forall k | 0 <= k <= |runes| ensures Width(runes[..k]) != want {
          if k > 0 { assert runes[..k] == [r] + rest[..k - 1]; }
        }
      }
    }
  }

  lemma BoundaryStep(t: Text, a: nat, end: nat, want: nat)
    requires a < end <= |t| && want >= Units(Decode(t, a, end))
    ensures var r := Decode(t, a, end);
            OnBoundary(t, a, end, want) <==> OnBoundary(t, a + r.size, end, want - Units(r))
  {
    var r := Decode(t, a, end);
    var runes, rest := Runes(t, a, end), Runes(t, a + r.size, end);
    assert runes == [r] + rest;
    if k :| 0 <= k <= |runes| && Width(runes[..k]) == want {
      assert k > 0;
      assert runes[..k] == [r] + rest[..k - 1];
      assert Width(rest[..k - 1]) == want - Units(r);
    }
    if k :| 0 <= k <= |rest| && Width(rest[..k]) == want - Units(r) {
      assert runes[..k + 1] == [r] + rest[..k];
      assert Width(runes[..k + 1]) == want;
    }
  }

  /** `b` is an offset the decoder visits on its way through `t[a..end]`. */
  predicate Walks(t: Text, a: nat, b: nat, end: nat): (visited: bool)
    requires a <= end <= |t|
    ensures visited ==> a <= b <= end
    decreases end - a
  {
    a == b || (a < end && Walks(t, a + Decode(t, a, end).size, b, end))
  }

  /** The code units before `b` on that way. */
  function WalkWidth(t: Text, a: nat, b: nat, end: nat): nat
    requires a <= b <= end <= |t|
    decreases end - a
  {
    if a == b then 0 else
    var r := Decode(t, a, end);
    if a + r.size > b then Units(r) else Units(r) + WalkWidth(t, a + r.size, b, end)
  }

  lemma {:induction false} WalkWidthSolid(t: Text, a: nat, b: nat, end: nat)
    requires a <= b <= end <= |t| && (a == b || Solid(t, b))
    ensures WalkWidth(t, a, b, end) == WidthOf(t, a, b)
    decreases b - a
  {
    if a < b {
      DecodeCut(t, a, b, end);
      WalkWidthSolid(t, a + Decode(t, a, end).size, b, end);
    }
  }

  /** Earlier offsets on the way have strictly smaller widths. */
  lemma {:induction false} WalkWidthStrict(t: Text, a: nat, c: nat, b: nat, end: nat)
    requires a <= c < b <= end <= |t| && (c == a || Solid(t, c)) && Walks(t, a, b, end)
    ensures WidthOf(t, a, c) < WalkWidth(t, a, b, end)
    decreases c - a
  {
    var r := Decode(t, a, end);
    if a < c {
      DecodeCut(t, a, c, end);
      WalkWidthStrict(t, a + r.size, c, b, end);
    }
  }

  lemma FixedClamps(t: Text, o: nat)
    requires Fixed(t, o) && o <= |t|
    ensures Clamp(t, o) == o
  {
    BackIsLastFixed(t, o);
  }

  /** Seeking the width of the first `k` runes gives the byte behind them. */
  lemma {:induction false} SeekRunes(t: Text, a: nat, end: nat, k: nat)
    requires a <= end <= |t| && k <= |Runes(t, a, end)|
    ensures Seek(t, a, end, Width(Runes(t, a, end)[..k])) == a + Size(Runes(t, a, end)[..k])
    decreases k
  {
    if k > 0 {
      var r := Decode(t, a, end);
      var runes, rest := Runes(t, a, end), Runes(t, a + r.size, end);
      assert runes == [r] + rest && runes[..k] == [r] + rest[..k - 1];
      SeekRunes(t, a + r.size, end, k - 1);
    }
  }

  /** The position exists on its line's bytes: the line's first `k` decoding
      steps have its width, and end at a byte that clamping leaves alone. */
  ghost predicate Reaches(t: Text, a: nat, runes: seq<Rune>, k: nat, want: nat)
    requires k <= |runes|
  {
    Width(runes[..k]) == want && Fixed(t, a + Size(runes[..k]))
  }

  /** The positions that survive the way to an offset and back. */
  ghost predicate Faithful(m: Mapper, p: Position)
    requires IsTable(m)
  {
    StartsAtZero(m);
    && p.line < |m.starts|
    && var runes := Runes(m.text, m.starts[p.line], m.ends[p.line]);
       exists k: nat :: k <= |runes| && Reaches(m.text, m.starts[p.line], runes, k, p.character)
  }

  /** The same said of where seeking lands. */
  ghost predicate Lands(m: Mapper, p: Position)
    requires IsTable(m)
  {
    StartsAtZero(m);
    && p.line < |m.starts|
    && OnBoundary(m.text, m.starts[p.line], m.ends[p.line], p.character)
    && Fixed(m.text, ToOffset(m, p))
  }

  lemma FaithfulLands(m: Mapper, p: Position)
    requires IsTable(m)
    ensures Faithful(m, p) <==> Lands(m, p)
  {
    hide IsTable, Seek, Runes;
    StartsAtZero(m);
    if p.line < |m.starts| {
      var a, end := m.starts[p.line], m.ends[p.line];
      var runes := Runes(m.text, a, end);
      if k: nat :| k <= |runes| && Reaches(m.text, a, runes, k, p.character) { SeekRunes(m.text, a, end, k); }
      if Lands(m, p) {
        var k: nat :| k <= |runes| && Width(runes[..k]) == p.character;
        SeekRunes(m.text, a, end, k);
        assert Reaches(m.text, a, runes, k, p.character);
      }
    }
  }

  lemma LandingReturns(m: Mapper, p: Position)
    requires IsTable(m) && |m.text| < UINT32_LIMIT && Lands(m, p)
    ensures ToPosition(m, ToOffset(m, p)) == p
  {
    hide IsTable, WidthOf, Clamp, LineAt, Seek, OnBoundary;
    StartsAtZero(m);
    var start, end, off := m.starts[p.line], m.ends[p.line], ToOffset(m, p);
    FixedClamps(m.text, off);
    LineAtHand(m, p.line);
    LineAtUnique(m, off, p.line);
    LinesFit(m);
    WidthBound(m.text, start, off);
    SeekBoundary(m.text, start, end, p.character);
    WalkWidthSolid(m.text, start, off, end);
  }

  lemma ReturningLands(m: Mapper, p: Position)
    requires IsTable(m) && |m.text| < UINT32_LIMIT && ToPosition(m, ToOffset(m, p)) == p
    ensures Lands(m, p)
  {
    hide IsTable, WidthOf, Clamp, LineAt, Seek, OnBoundary;
    StartsAtZero(m);
    LinesFit(m);
    var off := ToOffset(m, p);
    var c := Clamp(m.text, off);
    ClampIsLastFixed(m.text, off, c);
    CutInLine(m, off);
    WidthBound(m.text, m.starts[LineAt(m.starts, c)], Cut(m, off));
    var start, end := m.starts[p.line], m.ends[p.line];
    SeekBoundary(m.text, start, end, p.character);
    if c < off { WalkWidthStrict(m.text, start, c, off, end); }
    WalkWidthSolid(m.text, start, off, end);
  }

  /** Exactly the faithful positions survive, on any bytes: an existing line,
      and behind some whole number of its decoding steps, at a byte that is no
      continuation byte. */
  lemma PositionRoundTripExact(m: Mapper, p: Position)
    requires IsTable(m) && |m.text| < UINT32_LIMIT
    ensures ToPosition(m, ToOffset(m, p)) == p <==> Faithful(m, p)
  {
    hide Faithful, Lands, ToPosition, ToOffset;
    FaithfulLands(m, p);
    if Lands(m, p) { LandingReturns(m, p); }
    if ToPosition(m, ToOffset(m, p)) == p { ReturningLands(m, p); }
  }

  /** On malformed text a boundary between two runes need not survive. */
  lemma MalformedDoesNotReturn()
    ensures var m := Mapper([0x80, 0x80], [0], [2]);
            IsTable(m) && OnBoundary(m.text, 0, 2, 1) && ToPosition(m, ToOffset(m, Position(0, 1))) == Position(0, 0)
  {
    var t: Text := [0x80, 0x80];
    var m := Mapper(t, [0], [2]);
    assert Decode(t, 0, 2) == BROKEN && Decode(t, 1, 2) == BROKEN;
    assert FirstBreak(t, 2) == 2 && FirstBreak(t, 1) == 2 && FirstBreak(t, 0) == 2;
    assert LineOk(t, m.starts, m.ends, 0);
    assert Runes(t, 2, 2) == [] && Runes(t, 1, 2) == [BROKEN] && Runes(t, 0, 2) == [BROKEN, BROKEN];
    assert Runes(t, 0, 2)[..1] == [BROKEN] && Width([BROKEN]) == 1;
    assert Seek(t, 1, 2, 0) == 1 && Seek(t, 0, 2, 1) == 1;
    assert Back(t, 0) == 0 && Clamp(t, 1) == 0;
  }

  // --------------------------------------------------------- well-formed text

  lemma {:induction false} BreakWellFormed(t: Text, o: nat)
    requires o <= |t| && WellFormedFrom(t, o)
    ensures WellFormedFrom(t, FirstBreak(t, o))
    decreases |t| - o
  {
    if o < |t| && !IsBreak(Decode(t, o, |t|).value) { BreakWellFormed(t, o + Decode(t, o, |t|).size); }
  }

  lemma AfterBreakWellFormed(t: Text, e: nat)
    requires e < |t| && WellFormedFrom(t, e)
    ensures WellFormedFrom(t, AfterBreak(t, e))
  {
    var next := e + Decode(t, e, |t|).size;
    assert WellFormedFrom(t, next);
    if next < |t| && t[next] == 10 { assert Decode(t, next, |t|) == Rune(10, 1, true); }
  }

  lemma {:induction false} LineWellFormed(m: Mapper, i: nat)
    requires IsTable(m) && WellFormed(m.text) && i < |m.starts|
    ensures m.starts[i] <= |m.text| && WellFormedFrom(m.text, m.starts[i])
  {
    LineAtHand(m, i);
    if i > 0 {
      LineWellFormed(m, i - 1);
      assert LineOk(m.text, m.starts, m.ends, i - 1);
      BreakWellFormed(m.text, m.starts[i - 1]);
      AfterBreakWellFormed(m.text, m.ends[i - 1]);
    }
  }

  lemma {:induction false} VisitedSolid(t: Text, a: nat, b: nat, end: nat)
    requires a <= b <= end <= |t| && Solid(t, end) && WellFormedFrom(t, a) && Walks(t, a, b, end)
    ensures Solid(t, b)
    decreases end - a
  {
    if a < end {
      DecodeCut(t, a, end, |t|);
      if a < b { VisitedSolid(t, a + Decode(t, a, end).size, b, end); }
    }
  }

  /** In well-formed text every position of an existing line that lies between
      two runes survives the way to an offset and back. */
  lemma PositionRoundTrip(m: Mapper, p: Position)
    requires IsTable(m) && |m.text| < UINT32_LIMIT && WellFormed(m.text) && p.line < |m.starts|
    requires (StartsAtZero(m); OnBoundary(m.text, m.starts[p.line], m.ends[p.line], p.character))
    ensures ToPosition(m, ToOffset(m, p)) == p
  {
    hide IsTable, OnBoundary, Seek, ToPosition;
    StartsAtZero(m);
    LineAtHand(m, p.line);
    LineWellFormed(m, p.line);
    SeekBoundary(m.text, m.starts[p.line], m.ends[p.line], p.character);
    VisitedSolid(m.text, m.starts[p.line], ToOffset(m, p), m.ends[p.line]);
    LandingReturns(m, p);
  }

  // -------------------------------------------------------- spans and ranges

  function ToRange(m: Mapper, span: Span): Range
    requires IsTable(m)
  {
    var start := Clamp(m.text, span.start);
    var end := Clamp(m.text, span.end);
    Range(ToPosition(m, start), ToPosition(m, if end < start then start else end))
  }

  function ToSpan(m: Mapper, r: Range): Span
    requires IsTable(m)
  {
    var start := ToOffset(m, r.start);
    var end := ToOffset(m, r.end);
    Span(start, if end < start then start else end)
  }

  lemma ClampTwice(t: Text, o: int)
    ensures Clamp(t, Clamp(t, o)) == Clamp(t, o)
  {
    ClampIsLastFixed(t, o, Clamp(t, o));
    FixedClamps(t, Clamp(t, o));
  }

  /** A span comes back from its range as the cut span, never inverted. */
  lemma SpanRoundTrip(m: Mapper, span: Span)
    requires IsTable(m) && |m.text| < UINT32_LIMIT
    ensures Before(ToRange(m, span).start, ToRange(m, span).end)
    ensures var back := ToSpan(m, ToRange(m, span));
            && back.start == Cut(m, span.start)
            && back.end == Cut(m, if span.end < span.start then span.start else span.end)
  {
    hide IsTable, Clamp, ToPosition, ToOffset, LineAt;
    var start, end := Clamp(m.text, span.start), Clamp(m.text, span.end);
    ClampTwice(m.text, span.start);
    ClampTwice(m.text, span.end);
    if span.start <= span.end { ClampMonotone(m.text, span.start, span.end); }
    else { ClampMonotone(m.text, span.end, span.start); }
    var last := if end < start then start else end;
    PositionMonotone(m, start, last);
    OffsetRoundTrip(m, start);
    OffsetRoundTrip(m, last);
  }
}
