/**
 The ABI string decoder (`chain/read.ts:351-393`): hex words, a clamped payload, and UTF-8 as
 section 3 of RFC 3629 defines it, read the way percent-decoding does.
 */
module AbiString {
  import opened Wrappers
  import opened HexText

  type Byte = b: int | 0 <= b < 256

  /** A Unicode scalar value: a code point that is not a surrogate. */
  type Scalar = c: int | 0 <= c <= 0x10FFFF && !(0xD800 <= c <= 0xDFFF)

  // ---------- UTF-8 ----------

  function Utf8Of(c: Scalar): (r: seq<Byte>)
    ensures 1 <= |r| <= 4
  {
    if c < 0x80 then [c]
    else if c < 0x800 then [0xC0 + c / 64, 0x80 + c % 64]
    else if c < 0x10000 then [0xE0 + c / 4096, 0x80 + c / 64 % 64, 0x80 + c % 64]
    else [0xF0 + c / 262144, 0x80 + c / 4096 % 64, 0x80 + c / 64 % 64, 0x80 + c % 64]
  }

  function Utf8(s: seq<Scalar>): seq<Byte> {
    if s == [] then [] else Utf8Of(s[0]) + Utf8(s[1..])
  }

  predicate IsContinuation(b: Byte) { 0x80 <= b < 0xC0 }

  /** The length a lead byte announces; 0 for a byte that cannot lead. */
  function LeadLength(b: Byte): nat {
    if b < 0x80 then 1
    else if b < 0xC0 then 0
    else if b < 0xE0 then 2
    else if b < 0xF0 then 3
    else if b < 0xF8 then 4
    else 0
  }

  /** The value its bits carry, before any check of it; `n` bytes of it count. */
  function RawValue(n: nat, b0: int, b1: int, b2: int, b3: int): int {
    if n == 1 then b0
    else if n == 2 then (b0 - 0xC0) * 64 + (b1 - 0x80)
    else if n == 3 then (b0 - 0xE0) * 4096 + (b1 - 0x80) * 64 + (b2 - 0x80)
    else (b0 - 0xF0) * 262144 + (b1 - 0x80) * 4096 + (b2 - 0x80) * 64 + (b3 - 0x80)
  }

  function At(b: seq<Byte>, k: nat): int {
    if k < |b| then b[k] else 0
  }

  /** Overlong forms, surrogates and values past the last plane are refused. */
  predicate Canonical(v: int, n: nat) {
    && 0 <= v <= 0x10FFFF && !(0xD800 <= v <= 0xDFFF)
    && (n == 2 ==> v >= 0x80) && (n == 3 ==> v >= 0x800) && (n == 4 ==> v >= 0x10000)
  }

  /** Bytes 1 to `n - 1` are continuation bytes. */
  predicate Continued(b: seq<Byte>, n: nat)
    requires n <= |b|
  {
    && (n > 1 ==> IsContinuation(b[1])) && (n > 2 ==> IsContinuation(b[2])) && (n > 3 ==> IsContinuation(b[3]))
  }

  /** The scalar at the front of the bytes, and how many bytes it took; None where percent-decoding throws. */
  function FrontScalar(b: seq<Byte>): (r: Option<(Scalar, nat)>)
    requires b != []
    ensures r.Some? ==> 1 <= r.value.1 <= |b|
  {
    var n := LeadLength(b[0]);
    if n == 0 || n > |b| || !Continued(b, n) then None
    else
      var v := RawValue(n, b[0], At(b, 1), At(b, 2), At(b, 3));
      if Canonical(v, n) then Some((v, n)) else None
  }

  function DecodeUtf8(b: seq<Byte>): Option<seq<Scalar>> {
    if b == [] then Some([])
    else match FrontScalar(b)
      case None => None
      case Some((c, n)) =>
        var rest := DecodeUtf8(b[n..]);
        if rest.None? then None else Some([c] + rest.value)
  }

  /** Six bits at a time. */
  lemma Sextets(c: nat)
    ensures c == c / 64 * 64 + c % 64
    ensures c / 4096 == c / 64 / 64 && c == c / 4096 * 4096 + c / 64 % 64 * 64 + c % 64
    ensures c / 262144 == c / 4096 / 64
    ensures c == c / 262144 * 262144 + c / 4096 % 64 * 4096 + c / 64 % 64 * 64 + c % 64
  {
    var q, p := c / 64, c / 64 / 64;
    assert c == 4096 * p + 64 * (q % 64) + c % 64;
    assert c / 4096 == p;
    assert c == 262144 * (p / 64) + 4096 * (p % 64) + 64 * (q % 64) + c % 64;
  }

  lemma FrontOfEncoded(c: Scalar, rest: seq<Byte>)
    ensures FrontScalar(Utf8Of(c) + rest) == Some((c, |Utf8Of(c)|))
  {
    var b, e := Utf8Of(c) + rest, Utf8Of(c);
    Sextets(c);
    assert b[0] == e[0];
    if c >= 0x80 { assert b[1] == e[1]; }
    if c >= 0x800 { assert b[2] == e[2]; }
    if c >= 0x10000 { assert b[3] == e[3]; }
  }

  lemma TwoBytes(x: int, y: int)
    requires 0 <= x < 32 && 0 <= y < 64
    ensures var v := x * 64 + y; v / 64 == x && v % 64 == y
  {
  }

  lemma ThreeBytes(x: int, y: int, z: int)
    requires 0 <= x < 16 && 0 <= y < 64 && 0 <= z < 64
    ensures var v := x * 4096 + y * 64 + z; v / 4096 == x && v / 64 % 64 == y && v % 64 == z
  {
    var v := x * 4096 + y * 64 + z;
    assert v == (x * 64 + y) * 64 + z;
    assert v / 64 == x * 64 + y;
    Sextets(v);
  }

  lemma FourBytes(w: int, x: int, y: int, z: int)
    requires 0 <= w < 8 && 0 <= x < 64 && 0 <= y < 64 && 0 <= z < 64
    ensures var v := w * 262144 + x * 4096 + y * 64 + z;
            v / 262144 == w && v / 4096 % 64 == x && v / 64 % 64 == y && v % 64 == z
  {
    var v := w * 262144 + x * 4096 + y * 64 + z;
    assert v == ((w * 64 + x) * 64 + y) * 64 + z;
    assert v / 64 == (w * 64 + x) * 64 + y;
    assert v / 64 / 64 == w * 64 + x;
    Sextets(v);
  }

  lemma EncodedTwo(b: seq<Byte>, c: int)
    requires |b| >= 2 && 0xC0 <= b[0] < 0xE0 && IsContinuation(b[1])
    requires c == RawValue(2, b[0], b[1], 0, 0) && Canonical(c, 2)
    ensures b[..2] == Utf8Of(c)
  {
    TwoBytes(b[0] as int - 0xC0, b[1] as int - 0x80);
  }

  lemma EncodedThree(b: seq<Byte>, c: int)
    requires |b| >= 3 && 0xE0 <= b[0] < 0xF0 && IsContinuation(b[1]) && IsContinuation(b[2])
    requires c == RawValue(3, b[0], b[1], b[2], 0) && Canonical(c, 3)
    ensures b[..3] == Utf8Of(c)
  {
    ThreeBytes(b[0] as int - 0xE0, b[1] as int - 0x80, b[2] as int - 0x80);
  }

  lemma EncodedFour(b: seq<Byte>, c: int)
    requires |b| >= 4 && 0xF0 <= b[0] < 0xF8 && IsContinuation(b[1]) && IsContinuation(b[2]) && IsContinuation(b[3])
    requires c == RawValue(4, b[0], b[1], b[2], b[3]) && Canonical(c, 4)
    ensures b[..4] == Utf8Of(c)
  {
    FourBytes(b[0] as int - 0xF0, b[1] as int - 0x80, b[2] as int - 0x80, b[3] as int - 0x80);
  }

  lemma EncodedFront(b: seq<Byte>)
    requires b != [] && FrontScalar(b).Some?
    ensures var (c, n) := FrontScalar(b).value; b[..n] == Utf8Of(c)
  {
    var (c, n) := FrontScalar(b).value;
    match n {
      case 1 =>
      case 2 => EncodedTwo(b, c);
      case 3 => EncodedThree(b, c);
      case _ => EncodedFour(b, c);
    }
  }

  lemma {:induction false} EncodedDecodes(s: seq<Scalar>)
    ensures DecodeUtf8(Utf8(s)) == Some(s)
  {
    if s != [] {
      var b, n := Utf8(s), |Utf8Of(s[0])|;
      FrontOfEncoded(s[0], Utf8(s[1..]));
      assert b[n..] == Utf8(s[1..]);
      EncodedDecodes(s[1..]);
      assert s == [s[0]] + s[1..];
    }
  }

  /** One scalar at the front, then the rest. */
  lemma DecodeStep(b: seq<Byte>)
    requires b != [] && DecodeUtf8(b).Some?
    ensures FrontScalar(b).Some?
    ensures var (c, n) := FrontScalar(b).value;
            DecodeUtf8(b[n..]).Some? && DecodeUtf8(b).value == [c] + DecodeUtf8(b[n..]).value
  {
  }

  lemma EncodeStep(b: seq<Byte>, c: Scalar, n: nat, rest: seq<Scalar>)
    requires n <= |b| && b[..n] == Utf8Of(c) && b[n..] == Utf8(rest)
    ensures Utf8([c] + rest) == b
  {
    assert ([c] + rest)[1..] == rest;
    assert b == b[..n] + b[n..];
  }

  lemma {:induction false} DecodedEncodes(b: seq<Byte>, s: seq<Scalar>)
    requires DecodeUtf8(b) == Some(s)
    ensures Utf8(s) == b
    decreases |b|
  {
    if b != [] {
      DecodeStep(b);
      EncodedFront(b);
      var (c, n) := FrontScalar(b).value;
      var rest := DecodeUtf8(b[n..]).value;
      DecodedEncodes(b[n..], rest);
      EncodeStep(b, c, n, rest);
    }
  }

  /** The decoder answers with a string exactly when its encoding is these bytes. */
  lemma Utf8Decodes(b: seq<Byte>, s: seq<Scalar>)
    ensures DecodeUtf8(b) == Some(s) <==> Utf8(s) == b
  {
    EncodedDecodes(s);
    if DecodeUtf8(b) == Some(s) { DecodedEncodes(b, s); }
  }

  // ---------- hex ----------

  function Pairs(s: Hex): (b: seq<Byte>)
    requires |s| % 2 == 0
  {
    if s == [] then [] else [HexValue(s[0]) * 16 + HexValue(s[1])] + Pairs(s[2..])
  }

  // ---------- the decoder ----------

  const WORD: nat := 64
  const STRING_OFFSET: nat := 32

  /** JavaScript's `slice(from, to)` for `from <= |s|`: an end past the string is its length. */
  function Clamped(s: Hex, from: nat, to: nat): Hex
    requires from <= |s| && from <= to
  {
    if to <= |s| then s[from..to] else s[from..]
  }

  /** `decodeAbiString`, given what `parseInt` made of the two head words. */
  function DecodeWith(hex: Hex, offset: nat, length: nat): Option<seq<Scalar>>
    requires |hex| >= 2 * WORD
  {
    if offset != STRING_OFFSET then None
    else
      var payload := Clamped(hex, 2 * WORD, 2 * WORD + 2 * length);
      if |payload| % 2 != 0 then None else DecodeUtf8(Pairs(payload))
  }

  /** `decodeAbiString` on the digits after the `0x` that every validated result has. */
  function Decode(hex: Hex): Option<seq<Scalar>> {
    if |hex| < 2 * WORD then None
    else DecodeWith(hex, ParseHex(hex[..WORD]), ParseHex(hex[WORD..2 * WORD]))
  }

  /** The bytes the declared length covers, as far as the data goes. */
  function Payload(hex: Hex): Hex
    requires |hex| >= 2 * WORD
  {
    Clamped(hex, 2 * WORD, 2 * WORD + 2 * ParseHex(hex[WORD..2 * WORD]))
  }

  /**
   Total on validated hex, and exact: it answers `s` precisely when there are two words, the offset is
   32, the payload is whole bytes, and those bytes are the UTF-8 encoding of `s`.
   */
  lemma DecodesExactly(hex: Hex, s: seq<Scalar>)
    ensures Decode(hex) == Some(s) <==>
            && |hex| >= 2 * WORD
            && ParseHex(hex[..WORD]) == STRING_OFFSET
            && |Payload(hex)| % 2 == 0
            && Pairs(Payload(hex)) == Utf8(s)
  {
    if |hex| >= 2 * WORD && |Payload(hex)| % 2 == 0 {
      Utf8Decodes(Pairs(Payload(hex)), s);
    }
  }

  /** It answers undefined precisely when no string is encoded there. */
  lemma UndefinedExactly(hex: Hex)
    ensures Decode(hex).None? <==>
            || |hex| < 2 * WORD
            || ParseHex(hex[..WORD]) != STRING_OFFSET
            || |Payload(hex)| % 2 != 0
            || forall s: seq<Scalar> :: Utf8(s) != Pairs(Payload(hex))
  {
    if Decode(hex).Some? {
      DecodesExactly(hex, Decode(hex).value);
    } else if |hex| >= 2 * WORD && ParseHex(hex[..WORD]) == STRING_OFFSET && |Payload(hex)| % 2 == 0 {
      forall s: seq<Scalar> ensures Utf8(s) != Pairs(Payload(hex)) { DecodesExactly(hex, s); }
    }
  }

  /** Rounding the words to doubles changes nothing: no string is 2^53 characters long. */
  lemma RoundingIsHarmless(hex: Hex, offset: nat, length: nat)
    requires 2 * WORD <= |hex| < EXACT
    requires Reads(ParseHex(hex[..WORD]), offset) && Reads(ParseHex(hex[WORD..2 * WORD]), length)
    ensures DecodeWith(hex, offset, length) == Decode(hex)
  {
  }

  // ---------- what Solidity returns ----------

  function Digits(n: nat, k: nat): (r: Hex)
    ensures |r| == k
  {
    if k == 0 then "" else Digits(n / 16, k - 1) + [HexDigit(n % 16)]
  }

  lemma {:induction false} DigitsParse(n: nat, k: nat)
    requires n < Pow16(k)
    ensures ParseHex(Digits(n, k)) == n
  {
    if k > 0 {
      DigitsParse(n / 16, k - 1);
      var d := Digits(n, k);
      assert d[..k - 1] == Digits(n / 16, k - 1) && d[k - 1] == HexDigit(n % 16);
    }
  }

  function HexOf(b: seq<Byte>): (r: Hex)
    ensures |r| == 2 * |b|
  {
    if b == [] then "" else [HexDigit(b[0] / 16), HexDigit(b[0] % 16)] + HexOf(b[1..])
  }

  lemma {:induction false} PairsOfHex(b: seq<Byte>)
    ensures Pairs(HexOf(b)) == b
  {
    if b != [] {
      var h := HexOf(b);
      assert h[2..] == HexOf(b[1..]);
      PairsOfHex(b[1..]);
      assert b == [b[0]] + b[1..];
    }
  }

  function Zeros(k: nat): (r: Hex)
    ensures |r| == k
  {
    seq(k, _ => '0')
  }

  function Word(n: nat): (r: Hex)
    ensures |r| == WORD
  {
    Digits(n, WORD)
  }

  /** What a word can hold. */
  function Limit(): nat { Pow16(WORD) }

  lemma WordParses(n: nat)
    requires n < Limit()
    ensures ParseHex(Word(n)) == n
  {
    DigitsParse(n, WORD);
  }

  lemma OffsetFits()
    ensures STRING_OFFSET < Limit()
  {
    PowGrows(2, WORD);
    assert Pow16(2) == 16 * Pow16(1) && Pow16(1) == 16 * Pow16(0);
  }

  /** The ABI encoding of one returned string: offset, length, bytes, and padding to whole words. */
  function Encode(s: seq<Scalar>): Hex {
    Framed(Word(STRING_OFFSET), Word(|Utf8(s)|), HexOf(Utf8(s)))
  }

  function Framed(offset: Hex, length: Hex, payload: Hex): Hex {
    offset + length + payload + Zeros((WORD - |payload| % WORD) % WORD)
  }

  lemma FramedParts(offset: Hex, length: Hex, payload: Hex)
    requires |offset| == |length| == WORD && |payload| == 2 * ParseHex(length)
    ensures var hex := Framed(offset, length, payload);
            && 2 * WORD <= |hex| && hex[..WORD] == offset && hex[WORD..2 * WORD] == length
            && Payload(hex) == payload
  {
    var hex := Framed(offset, length, payload);
    assert hex[WORD..2 * WORD] == length;
    assert hex[2 * WORD..2 * WORD + |payload|] == payload;
  }

  lemma PayloadDecodes(hex: Hex, s: seq<Scalar>)
    requires |hex| >= 2 * WORD && ParseHex(hex[..WORD]) == STRING_OFFSET
    requires Payload(hex) == HexOf(Utf8(s))
    ensures Decode(hex) == Some(s)
  {
    PairsOfHex(Utf8(s));
    DecodesExactly(hex, s);
  }

  lemma FramedDecodes(offset: Hex, length: Hex, s: seq<Scalar>)
    requires |offset| == |length| == WORD
    requires ParseHex(offset) == STRING_OFFSET && ParseHex(length) == |Utf8(s)|
    ensures Decode(Framed(offset, length, HexOf(Utf8(s)))) == Some(s)
  {
    FramedParts(offset, length, HexOf(Utf8(s)));
    PayloadDecodes(Framed(offset, length, HexOf(Utf8(s))), s);
  }

  /** Every string comes back from its own encoding. */
  lemma RoundTrip(s: seq<Scalar>)
    requires |Utf8(s)| < Limit()
    ensures Decode(Encode(s)) == Some(s)
  {
    var offset, length := Word(STRING_OFFSET), Word(|Utf8(s)|);
    OffsetFits();
    WordParses(STRING_OFFSET);
    WordParses(|Utf8(s)|);
    FramedDecodes(offset, length, s);
  }
}
