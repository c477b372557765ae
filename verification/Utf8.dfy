/** UTF-8 as Go's unicode/utf8 decodes it (sections 3 and 4 of RFC 3629): a
    malformed or truncated sequence decodes as one replacement rune of one
    byte. Widths are UTF-16 code units (section 2.1 of RFC 2781). */
module Utf8 {
  type Byte = b: int | 0 <= b < 256
  type Text = seq<Byte>

  const RUNE_ERROR := 0xFFFD
  const UINT32_LIMIT := 0x1_0000_0000

  type Uint32 = x: int | 0 <= x < UINT32_LIMIT

  /** One decoding step: the rune, its length in bytes, and whether the bytes
      were a well-formed sequence. */
  datatype Rune = Rune(value: nat, size: nat, valid: bool)

  const BROKEN := Rune(RUNE_ERROR, 1, false)

  predicate Continuation(b: Byte) { 0x80 <= b < 0xC0 }

  predicate RuneStart(b: Byte) { !Continuation(b) }

  /** The six bits a continuation byte carries. */
  function Trail(b: Byte): (n: nat)
    requires Continuation(b)
    ensures n < 64
  {
    b - 0x80
  }

  /** The sequence length announced by a first byte, 0 if it cannot start one. */
  function Announced(b: Byte): nat {
    if b < 0x80 then 1
    else if 0xC2 <= b < 0xE0 then 2
    else if 0xE0 <= b < 0xF0 then 3
    else if 0xF0 <= b < 0xF5 then 4
    else 0
  }

  /** The second bytes a first byte accepts; the narrowed ranges shut out
      overlong forms, surrogates and values past U+10FFFF. */
  predicate SecondByte(first: Byte, b: Byte) {
    if first == 0xE0 then 0xA0 <= b < 0xC0
    else if first == 0xED then 0x80 <= b < 0xA0
    else if first == 0xF0 then 0x90 <= b < 0xC0
    else if first == 0xF4 then 0x80 <= b < 0x90
    else Continuation(b)
  }

  /** DecodeRune of `t[o..end]`. */
  function Decode(t: Text, o: nat, end: nat): (r: Rune)
    requires o < end <= |t|
    ensures 1 <= r.size <= end - o
    ensures forall i :: o < i < o + r.size ==> Continuation(t[i])
    ensures !r.valid ==> r == BROKEN
    ensures r.valid ==> RuneStart(t[o])
    ensures r.value > 0xFFFF <==> r.size == 4
    ensures r.value < 0x80 ==> r.size == 1 && t[o] == r.value
  {
    var first: int := t[o];
    var n := Announced(first);
    if n == 1 then Rune(first, 1, true)
    else if n == 0 || end - o < n || !SecondByte(first, t[o + 1]) then BROKEN
    else if n == 2 then Rune((first - 0xC0) * 64 + Trail(t[o + 1]), 2, true)
    else if !Continuation(t[o + 2]) then BROKEN
    else if n == 3 then Rune((first - 0xE0) * 4096 + Trail(t[o + 1]) * 64 + Trail(t[o + 2]), 3, true)
    else if !Continuation(t[o + 3]) then BROKEN
    else Rune((first - 0xF0) * 262144 + Trail(t[o + 1]) * 4096 + Trail(t[o + 2]) * 64 + Trail(t[o + 3]), 4, true)
  }

  /** The UTF-16 code units of a rune. */
  function Units(r: Rune): nat { if r.value > 0xFFFF then 2 else 1 }

  // ---------------------------------------------------- the decoder is UTF-8

  /** Unicode scalar values: code points other than surrogates. */
  predicate Scalar(v: nat) { v < 0xD800 || 0xE000 <= v < 0x11_0000 }

  /** The table of section 3 of RFC 3629. */
  function Encode(v: nat): Text
    requires Scalar(v)
  {
    if v < 0x80 then [v]
    else if v < 0x800 then [0xC0 + v / 64, 0x80 + v % 64]
    else if v < 0x1_0000 then [0xE0 + v / 4096, 0x80 + v / 64 % 64, 0x80 + v % 64]
    else [0xF0 + v / 262144, 0x80 + v / 4096 % 64, 0x80 + v / 64 % 64, 0x80 + v % 64]
  }

  predicate StartsWith(t: Text, o: nat, end: nat, prefix: Text)
    requires o <= end <= |t|
  {
    o + |prefix| <= end && t[o..o + |prefix|] == prefix
  }

  /** Whatever starts with the encoding of a scalar value decodes to it. */
  lemma DecodeEncoded(t: Text, o: nat, end: nat, v: nat)
    requires o < end <= |t| && Scalar(v) && StartsWith(t, o, end, Encode(v))
    ensures Decode(t, o, end) == Rune(v, |Encode(v)|, true)
  {
    var e := Encode(v);
    forall i | 0 <= i < |e| ensures t[o + i] == e[i] {
      assert t[o..o + |e|][i] == t[o + i];
    }
    if |e| == 3 {
      DecodeThree(t, o, end, v);
    } else if |e| == 4 {
      DecodeFour(t, o, end, v);
    } else {
      assert t[o] == e[0] && (|e| == 2 ==> t[o + 1] == e[1]);
    }
  }

  lemma DecodeThree(t: Text, o: nat, end: nat, v: nat)
    requires Scalar(v) && 0x800 <= v < 0x1_0000 && o + 3 <= end <= |t|
    requires t[o] == 0xE0 + v / 4096 && t[o + 1] == 0x80 + v / 64 % 64 && t[o + 2] == 0x80 + v % 64
    ensures Decode(t, o, end) == Rune(v, 3, true)
  {
    ThreeDigits(v);
    assert v / 4096 < 16;
    assert v / 4096 == 0 ==> v / 64 % 64 >= 32;
    assert v / 4096 == 13 ==> v / 64 % 64 < 32;
  }

  lemma DecodeFour(t: Text, o: nat, end: nat, v: nat)
    requires 0x1_0000 <= v < 0x11_0000 && o + 4 <= end <= |t|
    requires t[o] == 0xF0 + v / 262144 && t[o + 1] == 0x80 + v / 4096 % 64
    requires t[o + 2] == 0x80 + v / 64 % 64 && t[o + 3] == 0x80 + v % 64
    ensures Decode(t, o, end) == Rune(v, 4, true)
  {
    FourDigits(v);
    assert v / 262144 <= 4;
    assert v / 262144 == 0 ==> v / 4096 % 64 >= 16;
    assert v / 262144 == 4 ==> v / 4096 % 64 < 16;
  }

  lemma ThreeDigits(v: nat)
    ensures v == v / 4096 * 4096 + v / 64 % 64 * 64 + v % 64
  {
    assert v / 64 / 64 == v / 4096;
  }

  lemma FourDigits(v: nat)
    ensures v == v / 262144 * 262144 + v / 4096 % 64 * 4096 + v / 64 % 64 * 64 + v % 64
  {
    ThreeDigits(v);
    assert v / 4096 / 64 == v / 262144;
  }

  /** A well-formed step consumed exactly the encoding of a scalar value. */
  lemma EncodeDecoded(t: Text, o: nat, end: nat)
    requires o < end <= |t| && Decode(t, o, end).valid
    ensures Scalar(Decode(t, o, end).value)
    ensures StartsWith(t, o, end, Encode(Decode(t, o, end).value))
  {
    var r := Decode(t, o, end);
    var first: int := t[o];
    if r.size == 2 {
      Digits(first - 0xC0, Trail(t[o + 1]));
    } else if r.size == 3 {
      DigitsOfThree(first - 0xE0, Trail(t[o + 1]), Trail(t[o + 2]));
    } else if r.size == 4 {
      DigitsOfFour(first - 0xF0, Trail(t[o + 1]), Trail(t[o + 2]), Trail(t[o + 3]));
    }
    assert t[o..o + r.size] == Encode(r.value);
  }

  lemma Digits(high: nat, low: nat)
    requires low < 64
    ensures (high * 64 + low) / 64 == high && (high * 64 + low) % 64 == low
  {
  }

  lemma DigitsOfThree(a: nat, b: nat, c: nat)
    requires b < 64 && c < 64
    ensures var v := a * 4096 + b * 64 + c; v / 4096 == a && v / 64 % 64 == b && v % 64 == c
  {
    Digits(a * 64 + b, c);
    Digits(a, b);
    assert (a * 4096 + b * 64 + c) / 64 == a * 64 + b;
  }

  lemma DigitsOfFour(a: nat, b: nat, c: nat, d: nat)
    requires b < 64 && c < 64 && d < 64
    ensures var v := a * 262144 + b * 4096 + c * 64 + d;
            v / 262144 == a && v / 4096 % 64 == b && v / 64 % 64 == c && v % 64 == d
  {
    DigitsOfThree(a * 64 + b, c, d);
    Digits(a, b);
    assert (a * 262144 + b * 4096 + c * 64 + d) / 4096 == a * 64 + b;
  }

  // -------------------------------------------------------------------- cuts

  /** Cutting the text at `c` splits no well-formed sequence. */
  predicate Solid(t: Text, c: nat) { c < |t| ==> RuneStart(t[c]) }

  /** Decoding does not notice a cut at a rune start. */
  lemma DecodeCut(t: Text, o: nat, cut: nat, end: nat)
    requires o < cut <= end <= |t| && Solid(t, cut)
    ensures Decode(t, o, cut) == Decode(t, o, end)
    ensures o + Decode(t, o, end).size <= cut
  {
  }

  // ------------------------------------------------------------- well-formed

  /** Every decoding step from `o` on is well-formed. */
  predicate WellFormedFrom(t: Text, o: nat)
    requires o <= |t|
    decreases |t| - o
  {
    o == |t| || (Decode(t, o, |t|).valid && WellFormedFrom(t, o + Decode(t, o, |t|).size))
  }

  predicate WellFormed(t: Text) { WellFormedFrom(t, 0) }

  predicate Scalars(vs: seq<nat>) { forall v <- vs :: Scalar(v) }

  function EncodeAll(vs: seq<nat>): Text
    requires Scalars(vs)
  {
    if vs == [] then [] else Encode(vs[0]) + EncodeAll(vs[1..])
  }

  function Values(t: Text, o: nat): (vs: seq<nat>)
    requires o <= |t| && WellFormedFrom(t, o)
    ensures Scalars(vs)
    decreases |t| - o
  {
    if o == |t| then [] else
    EncodeDecoded(t, o, |t|);
    [Decode(t, o, |t|).value] + Values(t, o + Decode(t, o, |t|).size)
  }

  lemma {:induction false} ValuesEncode(t: Text, o: nat)
    requires o <= |t| && WellFormedFrom(t, o)
    ensures EncodeAll(Values(t, o)) == t[o..]
    decreases |t| - o
  {
    hide Decode, Encode, EncodeAll, Scalar;
    EncodeNothing();
    if o < |t| {
      var r := Decode(t, o, |t|);
      EncodeDecoded(t, o, |t|);
      DecodeEncoded(t, o, |t|, r.value);
      ValuesEncode(t, o + r.size);
      EncodeCons(r.value, Values(t, o + r.size));
      assert t[o..o + r.size] + t[o + r.size..] == t[o..];
    }
  }

  lemma EncodeCons(v: nat, rest: seq<nat>)
    requires Scalar(v) && Scalars(rest)
    ensures EncodeAll([v] + rest) == Encode(v) + EncodeAll(rest)
  {
    assert ([v] + rest)[1..] == rest;
  }

  lemma {:induction false} EncodedWellFormed(t: Text, o: nat, vs: seq<nat>)
    requires o <= |t| && Scalars(vs) && EncodeAll(vs) == t[o..]
    ensures WellFormedFrom(t, o)
    decreases |vs|
  {
    hide Decode, Encode, EncodeAll, Scalar;
    if vs == [] {
      EncodeNothing();
    } else {
      var e := Encode(vs[0]);
      EncodeSize(vs[0]);
      EncodeCons(vs[0], vs[1..]);
      assert vs == [vs[0]] + vs[1..];
      SplitAt(t, o, e, EncodeAll(vs[1..]));
      DecodeEncoded(t, o, |t|, vs[0]);
      EncodedWellFormed(t, o + |e|, vs[1..]);
    }
  }

  lemma EncodeNothing()
    ensures EncodeAll([]) == []
  {
  }

  lemma SplitAt(t: Text, o: nat, head: Text, rest: Text)
    requires o <= |t| && t[o..] == head + rest
    ensures StartsWith(t, o, |t|, head) && t[o + |head|..] == rest
  {
    assert t[o..o + |head|] == t[o..][..|head|];
    assert t[o + |head|..] == t[o..][|head|..];
  }

  lemma EncodeSize(v: nat)
    requires Scalar(v)
    ensures 1 <= |Encode(v)| <= 4
  {
  }

  /** Well-formed texts are exactly the encodings of scalar value sequences. */
  lemma WellFormedIsEncoded(t: Text)
    ensures WellFormed(t) <==> exists vs :: Scalars(vs) && EncodeAll(vs) == t
  {
    assert t[0..] == t;
    if WellFormed(t) { ValuesEncode(t, 0); }
    if vs :| Scalars(vs) && EncodeAll(vs) == t { EncodedWellFormed(t, 0, vs); }
  }
}
