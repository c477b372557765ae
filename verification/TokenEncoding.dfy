/** The integer encoding of semantic tokens (Language Server Protocol 3.16,
    "Integer Encoding for Tokens") as internal/lsp/language_conversion.go and
    semantic_tokens.go produce it, with uint32 arithmetic. */
module TokenEncoding {
  import opened Base
  import opened Utf8
  import opened SourceMapper
  import opened SemanticTokens

  /** The legend: the known kinds in the order they are announced. */
  const LEGEND := [Namespace, Callable, Variable, Parameter, Keyword, Literal, Number, Comment, Operator]

  /** semanticTokenType: the first legend entry of that kind. */
  method TokenType(kind: Kind) returns (index: Option<Uint32>)
    ensures index == TypeOf(kind)
  {
    for i := 0 to |LEGEND|
      invariant forall k :: 0 <= k < i ==> LEGEND[k] != kind
    {
      if LEGEND[i] == kind {
        LegendIndex(kind, i);
        return Some(i);
      }
    }
    LegendMissing(kind);
    return None;
  }

  function TypeOf(kind: Kind): Option<Uint32> {
    match kind
    case Unknown => None
    case Namespace => Some(0)
    case Callable => Some(1)
    case Variable => Some(2)
    case Parameter => Some(3)
    case Keyword => Some(4)
    case Literal => Some(5)
    case Number => Some(6)
    case Comment => Some(7)
    case Operator => Some(8)
  }

  lemma LegendIndex(kind: Kind, i: nat)
    requires i < |LEGEND| && LEGEND[i] == kind
    ensures TypeOf(kind) == Some(i)
  {
  }

  lemma LegendMissing(kind: Kind)
    requires forall k :: 0 <= k < |LEGEND| ==> LEGEND[k] != kind
    ensures TypeOf(kind) == None
  {
    assert LEGEND[0] != kind && LEGEND[1] != kind && LEGEND[2] != kind && LEGEND[3] != kind && LEGEND[4] != kind;
    assert LEGEND[5] != kind && LEGEND[6] != kind && LEGEND[7] != kind && LEGEND[8] != kind;
  }

  function Bits(m: Modifiers): Uint32 { (if m.declaration then 1 else 0) + (if m.readonly then 2 else 0) }

  /** uint32 subtraction. */
  function Minus(x: Uint32, y: Uint32): Uint32 { if x >= y then x - y else x - y + UINT32_LIMIT }

  function Entry(token: Token, line: Uint32, start: Uint32): seq<Uint32>
    requires TypeOf(token.kind).Some?
  {
    var deltaLine := Minus(token.range.start.line, line);
    [deltaLine,
     if deltaLine == 0 then Minus(token.range.start.character, start) else token.range.start.character,
     Minus(token.range.end.character, token.range.start.character),
     TypeOf(token.kind).value,
     Bits(token.modifiers)]
  }

  function EncodeFrom(tokens: seq<Token>, line: Uint32, start: Uint32): seq<Uint32> {
    if tokens == [] then []
    else if TypeOf(tokens[0].kind).None? then EncodeFrom(tokens[1..], line, start)
    else Entry(tokens[0], line, start)
         + EncodeFrom(tokens[1..], tokens[0].range.start.line, tokens[0].range.start.character)
  }

  method EncodeSemanticTokens(tokens: seq<Token>) returns (data: seq<Uint32>)
    ensures data == EncodeFrom(tokens, 0, 0)
  {
    hide Entry, TypeOf;
    data := [];
    var previousLine: Uint32, previousStart: Uint32 := 0, 0;
    for i := 0 to |tokens|
      invariant data + EncodeFrom(tokens[i..], previousLine, previousStart) == EncodeFrom(tokens, 0, 0)
    {
      assert tokens[i..][1..] == tokens[i + 1..];
      var kind := TokenType(tokens[i].kind);
      if kind.Some? {
        var range := tokens[i].range;
        var deltaLine := Minus(range.start.line, previousLine);
        var deltaStart := range.start.character;
        if deltaLine == 0 { deltaStart := Minus(deltaStart, previousStart); }
        var length := Minus(range.end.character, range.start.character);
        var entry := [deltaLine, deltaStart, length, kind.value, Bits(tokens[i].modifiers)];
        EntryIs(tokens[i], previousLine, previousStart, entry);
        assert data + (entry + EncodeFrom(tokens[i + 1..], range.start.line, range.start.character))
            == (data + entry) + EncodeFrom(tokens[i + 1..], range.start.line, range.start.character);
        data := data + entry;
        previousLine, previousStart := range.start.line, range.start.character;
      }
    }
    assert EncodeFrom(tokens[|tokens|..], previousLine, previousStart) == [];
    assert data + [] == data;
  }

  lemma EntryIs(token: Token, line: Uint32, start: Uint32, entry: seq<Uint32>)
    requires TypeOf(token.kind).Some?
    requires entry == [
      Minus(token.range.start.line, line),
      if Minus(token.range.start.line, line) == 0 then Minus(token.range.start.character, start)
      else token.range.start.character,
      Minus(token.range.end.character, token.range.start.character),
      TypeOf(token.kind).value,
      Bits(token.modifiers)]
    ensures Entry(token, line, start) == entry
  {
  }

  // ---------------------------------------------------------------- decoding

  /** What a client reads: plain integer addition, no wrap-around. */
  function DecodeFrom(data: seq<Uint32>, line: nat, start: nat): seq<Token>
  {
    if |data| < 5 then []
    else
      var l := line + data[0];
      var c := if data[0] == 0 then start + data[1] else data[1];
      if l >= UINT32_LIMIT || c + data[2] >= UINT32_LIMIT || data[3] >= |LEGEND| then []
      else
        [Token(Range(Position(l, c), Position(l, c + data[2])), LEGEND[data[3]],
               Modifiers(data[4] % 2 == 1, data[4] / 2 % 2 == 1))]
        + DecodeFrom(data[5..], l, c)
  }

  function Known(tokens: seq<Token>): seq<Token> {
    if tokens == [] then []
    else (if TypeOf(tokens[0].kind).Some? then [tokens[0]] else []) + Known(tokens[1..])
  }

  /** Every token starts no earlier than the one before, and those of a known
      kind fit one line. */
  ghost predicate Encodable(tokens: seq<Token>, from: Position) {
    && (forall i :: 0 <= i < |tokens| ==> Before(from, tokens[i].range.start))
    && (forall i :: 0 <= i < |tokens| ==> TypeOf(tokens[i].kind).Some? ==> SingleLine(tokens[i].range))
    && (forall i, j :: 0 <= i < j < |tokens| ==> Before(tokens[i].range.start, tokens[j].range.start))
  }

  /** No delta wraps, so a client that only adds gets the token back. */
  lemma EntryDecodes(token: Token, line: Uint32, start: Uint32, rest: seq<Uint32>)
    requires TypeOf(token.kind).Some? && SingleLine(token.range)
    requires Before(Position(line, start), token.range.start)
    ensures DecodeFrom(Entry(token, line, start) + rest, line, start)
            == [token] + DecodeFrom(rest, token.range.start.line, token.range.start.character)
    ensures Entry(token, line, start)[0] == token.range.start.line - line
    ensures Entry(token, line, start)[2] == token.range.end.character - token.range.start.character
  {
    var data := Entry(token, line, start) + rest;
    assert data[5..] == rest;
    LegendOf(token.kind);
  }

  lemma LegendOf(kind: Kind)
    requires TypeOf(kind).Some?
    ensures TypeOf(kind).value < |LEGEND| && LEGEND[TypeOf(kind).value] == kind
  {
  }

  /** Encoding drops exactly the tokens of unknown kind; decoding gives all
      others back: range, kind and modifiers. */
  lemma {:induction false} EncodeRoundTrip(tokens: seq<Token>, line: Uint32, start: Uint32)
    requires Encodable(tokens, Position(line, start))
    ensures DecodeFrom(EncodeFrom(tokens, line, start), line, start) == Known(tokens)
    decreases |tokens|
  {
    if tokens != [] {
      hide Entry, SingleLine, Before;
      var head, rest := tokens[0], tokens[1..];
      assert forall i :: 0 <= i < |rest| ==> rest[i] == tokens[i + 1];
      if TypeOf(head.kind).None? {
        EncodeRoundTrip(rest, line, start);
      } else {
        var l, c := head.range.start.line, head.range.start.character;
        assert head.range.start == Position(l, c);
        EncodeRoundTrip(rest, l, c);
        EntryDecodes(head, line, start, EncodeFrom(rest, l, c));
      }
    }
  }

  /** A client never reads a range over two lines. */
  lemma {:induction false} DecodedSingle(data: seq<Uint32>, line: nat, start: nat)
    ensures forall token <- DecodeFrom(data, line, start) :: SingleLine(token.range)
    decreases |data|
  {
    if |data| >= 5 {
      DecodedSingle(data[5..], line + data[0], if data[0] == 0 then start + data[1] else data[1]);
    }
  }

  lemma {:induction false} KnownExactly(tokens: seq<Token>, token: Token)
    ensures token in Known(tokens) <==> token in tokens && TypeOf(token.kind).Some?
  {
    if tokens != [] {
      KnownExactly(tokens[1..], token);
      assert tokens == [tokens[0]] + tokens[1..];
    }
  }

  lemma KindKnown(kind: Kind)
    ensures TypeOf(kind).Some? <==> Asked(kind, false)
  {
  }

  /** Tokens in order come back exactly if those of a known kind fit one line. */
  lemma RoundTripExact(tokens: seq<Token>)
    requires forall i, j :: 0 <= i < j < |tokens| ==> Before(tokens[i].range.start, tokens[j].range.start)
    ensures DecodeFrom(EncodeFrom(tokens, 0, 0), 0, 0) == Known(tokens) <==> AskedOnLines(tokens, false)
  {
    hide SingleLine, TypeOf, Asked;
    forall kind ensures TypeOf(kind).Some? <==> Asked(kind, false) { KindKnown(kind); }
    if AskedOnLines(tokens, false) {
      EncodeRoundTrip(tokens, 0, 0);
    } else {
      var token :| token in tokens && Asked(token.kind, false) && !SingleLine(token.range);
      KnownExactly(tokens, token);
      DecodedSingle(EncodeFrom(tokens, 0, 0), 0, 0);
    }
  }

  /** The whole pipeline on any bytes under 2^32 and any items: the client gets
      exactly the known-kind tokens back if and only if no kept item of a known
      kind starts inside a terminator it reaches past or has a stray
      continuation byte behind one. */
  lemma HighlightRoundTripExact(m: Mapper, items: seq<Item>)
    requires IsTable(m) && |m.text| < UINT32_LIMIT && Sorted(items)
    ensures var tokens := Tokens(m, Emit(m.text, items, -1));
            DecodeFrom(EncodeFrom(tokens, 0, 0), 0, 0) == Known(tokens) <==> KeptOnLines(m.text, items, -1, false)
  {
    hide IsTable, Emit, TokenOf, Sorted, AskedOnLines, KeptOnLines;
    var tokens := Tokens(m, Emit(m.text, items, -1));
    forall i, j | 0 <= i < j < |tokens| ensures Before(tokens[i].range.start, tokens[j].range.start) {
      TokensOrdered(m, items, i, j);
    }
    TokensSingleLineExact(m, items, false);
    RoundTripExact(tokens);
  }

  /** The whole pipeline: for well-formed text under 2^32 bytes and items that
      start on character boundaries, in any number and however they overlap,
      the client gets exactly the known-kind tokens back. */
  lemma HighlightRoundTrip(m: Mapper, items: seq<Item>)
    requires IsTable(m) && |m.text| < UINT32_LIMIT && Sorted(items) && WellFormed(m.text)
    requires forall item <- items :: OnCharacter(m.text, item.span)
    ensures var tokens := Tokens(m, Emit(m.text, items, -1));
            Encodable(tokens, Position(0, 0)) && DecodeFrom(EncodeFrom(tokens, 0, 0), 0, 0) == Known(tokens)
  {
    hide IsTable, Emit, WellFormed, OnCharacter, TokenOf, Sorted;
    var tokens := Tokens(m, Emit(m.text, items, -1));
    forall i | 0 <= i < |tokens| ensures SingleLine(tokens[i].range) {
      TokensSingleLine(m, items, i);
    }
    forall i, j | 0 <= i < j < |tokens| ensures Before(tokens[i].range.start, tokens[j].range.start) {
      TokensOrdered(m, items, i, j);
    }
    EncodeRoundTrip(tokens, 0, 0);
  }

  /** The client of "ab<U+2028>c" with one item that starts inside the
      separator is sent one token with the length 2^32 - 1. */
  lemma InsideSeparatorWraps(item: Item)
    requires TypeOf(item.kind).Some? && item.span == Span(3, 6)
    ensures IsTable(SEPARATED_LINES)
    ensures EncodeFrom(Tokens(SEPARATED_LINES, Emit(SEPARATED, [item], -1)), 0, 0)
            == [0, 2, UINT32_LIMIT - 1, TypeOf(item.kind).value, Bits(item.modifiers)]
  {
    InsideSeparatorSpansLines();
    hide IsTable, SplitSpan, ToRange, TypeOf, Bits;
    var es := Emit(SEPARATED, [item], -1);
    assert Emit(SEPARATED, [item][1..], 6) == [];
    assert es == [Emission(Span(3, 6), item)];
    var tokens := Tokens(SEPARATED_LINES, es);
    assert tokens == [Token(Range(Position(0, 2), Position(1, 1)), item.kind, item.modifiers)];
    assert EncodeFrom(tokens[1..], 0, 2) == [];
  }
}
