/**
 The canonical address mint (`record/address.ts`): three encodings of one 20-byte identity, one
 form in the record.
 */
module Address {
  import opened Wrappers
  import opened HexText

  datatype Cause = WrongLength | WrongPrefixByte | Base58Checksum | PostConversionShape | UnrecognisedEncoding

  /**
   The two libraries the mint stands on. `upper(digits, i)` is the checksum's choice of case for digit
   `i`; the others are TronWeb's static address namespace.
   */
  datatype Library = Library(
    upper: (string, nat) -> bool,
    isAddress: string -> bool,
    toHex: string -> string,
    fromHex: string -> string)

  const TAIL: nat := 40
  const BASE58: nat := 34

  /** 40 lower-case digits: what an address is, whatever its spelling. */
  type Identity = t: Hex | |t| == 40 && Lower(t) == t witness seq(40, _ => '0')

  predicate IsBase58Char(c: char) {
    '1' <= c <= '9' || ('A' <= c <= 'Z' && c != 'I' && c != 'O') || ('a' <= c <= 'z' && c != 'l')
  }

  predicate PrefixedHex(s: string) { |s| >= 2 && s[0] == '0' && s[1] == 'x' && IsHex(s[2..]) }

  predicate BareHex(s: string) { |s| >= 1 && IsHex(s) }

  predicate Base58Shape(s: string) { |s| >= 2 && s[0] == 'T' && forall i | 1 <= i < |s| :: IsBase58Char(s[i]) }

  predicate TronHex(s: string) { |s| == TAIL + 2 && s[..2] == "41" && IsHex(s) }

  function EvmTailOf(lib: Library, s: string): (r: Result<Hex, Cause>)
    ensures r.Ok? ==> |r.value| == TAIL
  {
    if PrefixedHex(s) then
      if |s| - 2 == TAIL then Ok(s[2..]) else Err(WrongLength)
    else if BareHex(s) then
      if |s| != TAIL + 2 then Err(WrongLength)
      else if s[..2] != "41" then Err(WrongPrefixByte)
      else Ok(s[2..])
    else if Base58Shape(s) then
      if |s| != BASE58 then Err(WrongLength)
      else if !lib.isAddress(s) then Err(Base58Checksum)
      else if TronHex(lib.toHex(s)) then Ok(lib.toHex(s)[2..])
      else Err(PostConversionShape)
    else Err(UnrecognisedEncoding)
  }

  predicate AssertsChecksum(tail: Hex) {
    && (exists i | 0 <= i < |tail| :: 'a' <= tail[i] <= 'f')
    && (exists i | 0 <= i < |tail| :: 'A' <= tail[i] <= 'F')
  }

  /**
   What the mint needs of base58check: the text of an address, from either casing of its hex, decodes
   to its digits in one case.
   */
  ghost predicate Lawful(lib: Library) {
    forall tail: Hex | |tail| == TAIL :: Spells(lib, lib.fromHex("41" + tail), Lower(tail))
  }

  ghost predicate Spells(lib: Library, text: string, digits: Hex) {
    && |text| == BASE58 && Base58Shape(text) && lib.isAddress(text)
    && TronHex(lib.toHex(text))
    && var tail: Hex := lib.toHex(text)[2..]; Lower(tail) == digits && !AssertsChecksum(tail)
  }

  function UpperChar(c: char): (r: char)
    requires IsHexDigit(c)
    ensures IsHexDigit(r) && LowerChar(r) == LowerChar(c)
  {
    if 'a' <= c <= 'f' then (c as int - 'a' as int + 'A' as int) as char else c
  }

  /** EIP-55: the lower-case digits, with the letters the checksum picks raised. */
  function Cased(lib: Library, digits: Hex): (r: Hex)
    ensures |r| == |digits| && Lower(r) == Lower(digits)
  {
    var r := seq(|digits|, i requires 0 <= i < |digits| => if lib.upper(digits, i) then UpperChar(digits[i]) else digits[i]);
    assert forall i | 0 <= i < |r| :: r[i] == if lib.upper(digits, i) then UpperChar(digits[i]) else digits[i];
    r
  }

  function Checksummed(lib: Library, tail: Hex): string {
    "0x" + Cased(lib, Lower(tail))
  }

  /** `mintFrom`. */
  function Mint(lib: Library, s: string): Result<string, Cause> {
    match EvmTailOf(lib, s)
    case Err(why) => Err(why)
    case Ok(tail) =>
      if AssertsChecksum(tail) && "0x" + tail != Checksummed(lib, tail) then Err(PostConversionShape)
      else Ok(Checksummed(lib, tail))
  }

  /** `tryCanonicalizeAddress`. */
  function Try(lib: Library, s: string): Option<string> {
    match Mint(lib, s) case Ok(a) => Some(a) case Err(_) => None
  }

  /** `isCanonicalAddress`. */
  predicate IsCanonical(lib: Library, s: string) {
    PrefixedHex(s) && |s| == TAIL + 2 && Checksummed(lib, s[2..]) == s
  }

  // ---------- what the mint promises ----------

  /** The identity an accepted text names. */
  function IdentityOf(lib: Library, s: string): Identity
    requires Mint(lib, s).Ok?
  {
    LowerTwice(EvmTailOf(lib, s).value);
    Lower(EvmTailOf(lib, s).value)
  }

  function Canonical(lib: Library, t: Identity): string {
    Checksummed(lib, t)
  }

  lemma CanonicalShape(lib: Library, tail: Hex)
    requires |tail| == TAIL
    ensures var a := Checksummed(lib, tail);
            && PrefixedHex(a) && |a| == TAIL + 2 && a[2..] == Cased(lib, Lower(tail))
            && Lower(a[2..]) == Lower(tail) && Checksummed(lib, a[2..]) == a
  {
    LowerTwice(tail);
    var a := Checksummed(lib, tail);
    assert a[2..] == Cased(lib, Lower(tail));
  }

  /** The mint answers the canonical form of the identity, and mints it again to itself. */
  lemma MintIsCanonical(lib: Library, s: string)
    requires Mint(lib, s).Ok?
    ensures var a := Mint(lib, s).value;
            a == Canonical(lib, IdentityOf(lib, s)) && IsCanonical(lib, a) && Mint(lib, a) == Ok(a)
  {
    var tail := EvmTailOf(lib, s).value;
    CanonicalShape(lib, tail);
    LowerTwice(tail);
  }

  /** A text is canonical exactly when the mint leaves it as it is. */
  lemma CanonicalIffFixed(lib: Library, s: string)
    ensures IsCanonical(lib, s) <==> Mint(lib, s) == Ok(s)
  {
    if Mint(lib, s) == Ok(s) { MintIsCanonical(lib, s); }
    if IsCanonical(lib, s) { assert "0x" + s[2..] == s; }
  }

  /** Two accepted texts mint alike exactly when they name one identity. */
  lemma MintsAlike(lib: Library, s: string, u: string)
    requires Mint(lib, s).Ok? && Mint(lib, u).Ok?
    ensures Mint(lib, s) == Mint(lib, u) <==> IdentityOf(lib, s) == IdentityOf(lib, u)
  {
    CanonicalShape(lib, EvmTailOf(lib, s).value);
    CanonicalShape(lib, EvmTailOf(lib, u).value);
  }

  /** A spelling of an identity in either hex form is accepted exactly when its casing is no claim, or a true one. */
  lemma HexSpellings(lib: Library, tail: Hex)
    requires |tail| == TAIL
    ensures var claim := AssertsChecksum(tail) && tail != Cased(lib, Lower(tail));
            && Mint(lib, "0x" + tail) == (if claim then Err(PostConversionShape) else Ok(Checksummed(lib, tail)))
            && Mint(lib, "41" + tail) == Mint(lib, "0x" + tail)
  {
    var evm, tron := "0x" + tail, "41" + tail;
    assert evm[2..] == tail && tron[2..] == tail;
    assert tron[1] == '1' && evm[0] == '0' && evm[1] == 'x';
    assert forall i | 2 <= i < |tron| :: tron[i] == tail[i - 2];
    assert IsHex(tron) && !PrefixedHex(tron);
    assert evm == Checksummed(lib, tail) <==> tail == Cased(lib, Lower(tail)) by {
      assert Checksummed(lib, tail)[2..] == Cased(lib, Lower(tail));
    }
  }

  lemma Base58MintsToo(lib: Library, tail: Hex)
    requires Lawful(lib) && |tail| == TAIL
    ensures Mint(lib, lib.fromHex("41" + tail)) == Ok(Checksummed(lib, tail))
  {
    var text := lib.fromHex("41" + tail);
    assert Spells(lib, text, Lower(tail));
    assert text[0] == 'T' && !PrefixedHex(text) && !BareHex(text);
    LowerTwice(tail);
  }

  /** The three encodings of one identity mint to its one canonical form. */
  lemma ThreeEncodingsAgree(lib: Library, t: Identity)
    requires Lawful(lib)
    ensures Mint(lib, "0x" + t) == Ok(Canonical(lib, t))
    ensures Mint(lib, "41" + t) == Ok(Canonical(lib, t))
    ensures Mint(lib, lib.fromHex("41" + t)) == Ok(Canonical(lib, t))
  {
    NoUpperInIdentity(t);
    HexSpellings(lib, t);
    Base58MintsToo(lib, t);
  }

  lemma NoUpperInIdentity(t: Identity)
    ensures !AssertsChecksum(t)
  {
    forall i | 0 <= i < |t| ensures !('A' <= t[i] <= 'F') {
      assert Lower(t)[i] == t[i];
    }
  }

  function ToTronHex(a: string): string
    requires |a| >= 2
  {
    "41" + a[2..]
  }

  /** `toTronHex` and `toBase58` give texts that mint back to the address they came from. */
  lemma RenderedFormsMintBack(lib: Library, a: string)
    requires Lawful(lib) && IsCanonical(lib, a)
    ensures Mint(lib, ToTronHex(a)) == Ok(a)
    ensures Mint(lib, lib.fromHex(ToTronHex(a))) == Ok(a)
  {
    CanonicalIffFixed(lib, a);
    HexSpellings(lib, a[2..]);
    assert "0x" + a[2..] == a;
    Base58MintsToo(lib, a[2..]);
  }
}
