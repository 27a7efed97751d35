/**
 The chain-instance fingerprint (`chain/instance.ts`): how it is read, how it is compared with a
 recorded one, and the manifest file its chain id names.
 */
module Fingerprint {
  import opened Wrappers
  import opened HexText

  datatype Identity = Identity(chainId: string, genesisHash: string, firstBlockHash: Option<string>)

  datatype FirstBlock = Absent | Null | Hash(hash: string)

  datatype Recorded = Recorded(chainId: string, genesisHash: Option<string>, firstBlockHash: FirstBlock)

  datatype Signal = ChainId | GenesisHash | FirstBlockHash

  datatype Gap = NoRecordedIdentity | RecordedIdentityIncomplete

  datatype Comparison =
    | Same
    | Changed(signal: Signal, recorded: Option<string>, observed: Option<string>)
    | Indeterminate(because: Gap)

  /** `replace(/^0+(?=.)/, '')`: one character always stays. */
  function StripZeros(s: string): (r: string) {
    if |s| >= 2 && s[0] == '0' then StripZeros(s[1..]) else s
  }

  function CanonicalChainId(s: string): string {
    "0x" + StripZeros(LowerText(StripHexPrefix(s)))
  }

  function CanonicalHash(s: string): string {
    "0x" + LowerText(StripHexPrefix(s))
  }

  // ---------- reading ----------

  const HASH_DIGITS: nat := 64
  const CHAIN_ID_DIGITS: nat := 8

  /** The result shape of `eth_chainId`. */
  predicate ChainIdShape(s: string) {
    |s| >= 3 && s[0] == '0' && s[1] == 'x' && |s| <= 2 + 64 && IsHex(s[2..]) && ParseHex(s[2..]) > 0
  }

  predicate BlockHashShape(s: string) {
    |s| == 2 + HASH_DIGITS && s[0] == '0' && s[1] == 'x' && IsHex(s[2..])
  }

  datatype BlockAnswer = NoBlock | Block(hash: string) | NotABlock

  datatype Fault = WrongShape | Inconsistent

  function ReadBlockHash(answer: BlockAnswer): Result<Option<string>, Fault> {
    match answer
    case NoBlock => Ok(None)
    case NotABlock => Err(Inconsistent)
    case Block(hash) => if BlockHashShape(hash) then Ok(Some(CanonicalHash(hash))) else Err(Inconsistent)
  }

  function Tail(genesisHash: string): string
    requires |genesisHash| >= CHAIN_ID_DIGITS
  {
    genesisHash[|genesisHash| - CHAIN_ID_DIGITS..]
  }

  /** `readChainInstanceIdentity`, on what the node answers to its three requests. */
  function ReadIdentity(chainId: string, genesis: BlockAnswer, first: BlockAnswer): Result<Identity, Fault> {
    if !ChainIdShape(chainId) then Err(WrongShape)
    else match ReadBlockHash(genesis)
      case Err(e) => Err(e)
      case Ok(None) => Err(Inconsistent)
      case Ok(Some(hash)) =>
        if |hash| < CHAIN_ID_DIGITS || CanonicalChainId(Tail(hash)) != CanonicalChainId(chainId) then Err(Inconsistent)
        else match ReadBlockHash(first)
          case Err(e) => Err(e)
          case Ok(firstHash) => Ok(Identity(CanonicalChainId(chainId), hash, firstHash))
  }

  predicate CanonicalHashShape(s: string) {
    BlockHashShape(s) && LowerText(s[2..]) == s[2..]
  }

  /** What every identity that was read satisfies. */
  ghost predicate WasRead(o: Identity) {
    && CanonicalHashShape(o.genesisHash)
    && (o.firstBlockHash.Some? ==> CanonicalHashShape(o.firstBlockHash.value))
    && o.chainId == CanonicalChainId(Tail(o.genesisHash))
  }

  lemma BlockHashIsCanonical(hash: string)
    requires BlockHashShape(hash)
    ensures CanonicalHashShape(CanonicalHash(hash))
  {
    var h := CanonicalHash(hash);
    assert h[2..] == LowerText(hash[2..]);
  }

  /** Reading yields canonical fields, and forces the chain id to be the genesis hash's last four bytes. */
  lemma ReadsAreCanonical(chainId: string, genesis: BlockAnswer, first: BlockAnswer)
    requires ReadIdentity(chainId, genesis, first).Ok?
    ensures WasRead(ReadIdentity(chainId, genesis, first).value)
  {
    BlockHashIsCanonical(genesis.hash);
    if first.Block? { BlockHashIsCanonical(first.hash); }
  }

  // ---------- comparing ----------

  /** `compareChainInstance`. */
  function Compare(recorded: Option<Recorded>, o: Identity): Comparison {
    if recorded.None? || recorded.value.chainId == "" then Indeterminate(NoRecordedIdentity)
    else
      var r := recorded.value;
      var chainId := CanonicalChainId(r.chainId);
      if chainId != o.chainId then Changed(ChainId, Some(chainId), Some(o.chainId))
      else if r.genesisHash.None? then Indeterminate(RecordedIdentityIncomplete)
      else
        var genesis := CanonicalHash(r.genesisHash.value);
        if genesis != o.genesisHash then Changed(GenesisHash, Some(genesis), Some(o.genesisHash))
        else match r.firstBlockHash
          case Absent => Indeterminate(RecordedIdentityIncomplete)
          case Null => if o.firstBlockHash.None? then Same else Indeterminate(RecordedIdentityIncomplete)
          case Hash(hash) =>
            var first := CanonicalHash(hash);
            if o.firstBlockHash != Some(first) then Changed(FirstBlockHash, Some(first), o.firstBlockHash) else Same
  }

  /** The record of an identity, complete. */
  function RecordOf(o: Identity): Recorded {
    Recorded(o.chainId, Some(o.genesisHash), match o.firstBlockHash case None => Null case Some(h) => Hash(h))
  }

  lemma HashIsFixed(s: string)
    requires CanonicalHashShape(s)
    ensures CanonicalHash(s) == s
  {
  }

  lemma {:induction false} StripZerosTwice(s: string)
    ensures StripZeros(StripZeros(s)) == StripZeros(s)
    ensures LowerText(s) == s ==> LowerText(StripZeros(s)) == StripZeros(s)
    ensures IsHex(s) ==> IsHex(StripZeros(s))
    ensures s != [] ==> StripZeros(s) != []
  {
    if |s| >= 2 && s[0] == '0' {
      StripZerosTwice(s[1..]);
      assert LowerText(s)[1..] == LowerText(s[1..]);
    }
  }

  lemma ChainIdIsFixed(o: Identity)
    requires WasRead(o)
    ensures CanonicalChainId(o.chainId) == o.chainId && o.chainId != ""
    ensures StripHexPrefix(o.chainId) == StripZeros(Tail(o.genesisHash))
  {
    var t := Tail(o.genesisHash);
    assert forall i | 0 <= i < |t| :: t[i] == o.genesisHash[2..][HASH_DIGITS - CHAIN_ID_DIGITS + i];
    assert forall i | 0 <= i < |t| :: IsHexDigit(t[i]) && LowerChar(t[i]) == t[i];
    assert StripHexPrefix(t) == t && LowerText(t) == t;
    StripZerosTwice(t);
    assert o.chainId[2..] == StripZeros(t);
  }

  /** An identity compared with its own record is the same instance. */
  lemma SelfIsSame(o: Identity)
    requires WasRead(o)
    ensures Compare(Some(RecordOf(o)), o) == Same
  {
    ChainIdIsFixed(o);
    HashIsFixed(o.genesisHash);
    if o.firstBlockHash.Some? { HashIsFixed(o.firstBlockHash.value); }
  }

  /** Two reads compare as the same instance exactly when both whole hashes agree; the chain ids then do too. */
  lemma SameIffHashesAgree(a: Identity, b: Identity)
    requires WasRead(a) && WasRead(b)
    ensures Compare(Some(RecordOf(a)), b) == Same <==>
            a.genesisHash == b.genesisHash && a.firstBlockHash == b.firstBlockHash
    ensures a.genesisHash == b.genesisHash ==> a.chainId == b.chainId
  {
    ChainIdIsFixed(a);
    HashIsFixed(a.genesisHash);
    if a.firstBlockHash.Some? { HashIsFixed(a.firstBlockHash.value); }
  }

  // ---------- casing and leading zeros ----------

  predicate SameButForCase(s: string, t: string) { LowerText(s) == LowerText(t) }

  lemma PrefixIgnoresCase(s: string, t: string)
    requires SameButForCase(s, t)
    ensures LowerText(StripHexPrefix(s)) == LowerText(StripHexPrefix(t))
    ensures CanonicalChainId(s) == CanonicalChainId(t) && CanonicalHash(s) == CanonicalHash(t)
  {
    assert |s| == |t|;
    assert forall i | 0 <= i < |s| :: LowerChar(s[i]) == LowerChar(t[i]) by {
      assert forall i | 0 <= i < |s| :: LowerText(s)[i] == LowerText(t)[i];
    }
    var x, y := StripHexPrefix(s), StripHexPrefix(t);
    assert |x| == |y| && LowerText(x) == LowerText(y);
  }

  predicate RecordedAlike(r: Recorded, q: Recorded) {
    && SameButForCase(r.chainId, q.chainId)
    && r.genesisHash.Some? == q.genesisHash.Some?
    && (r.genesisHash.Some? ==> SameButForCase(r.genesisHash.value, q.genesisHash.value))
    && (match r.firstBlockHash case Hash(h) => q.firstBlockHash.Hash? && SameButForCase(h, q.firstBlockHash.hash) case other => q.firstBlockHash == other)
  }

  /** Re-casing any recorded value never changes the verdict. */
  lemma CasingIsIgnored(r: Recorded, q: Recorded, o: Identity)
    requires RecordedAlike(r, q)
    ensures Compare(Some(r), o) == Compare(Some(q), o)
  {
    assert |LowerText(r.chainId)| == |r.chainId| && |LowerText(q.chainId)| == |q.chainId|;
    PrefixIgnoresCase(r.chainId, q.chainId);
    if r.genesisHash.Some? { PrefixIgnoresCase(r.genesisHash.value, q.genesisHash.value); }
    if r.firstBlockHash.Hash? { PrefixIgnoresCase(r.firstBlockHash.hash, q.firstBlockHash.hash); }
  }

  lemma {:induction false} ZerosStrip(n: nat, digits: Hex)
    requires digits != []
    ensures StripZeros(LowerText(seq(n, _ => '0') + digits)) == StripZeros(LowerText(digits))
  {
    var s := seq(n, _ => '0') + digits;
    if n == 0 {
      assert s == digits;
    } else {
      var rest := seq(n - 1, _ => '0') + digits;
      assert s[1..] == rest;
      assert LowerText(s)[1..] == LowerText(rest);
      ZerosStrip(n - 1, digits);
    }
  }

  /**
   Leading zeros on the recorded chain id change the verdict exactly when it has no digits of its own:
   zeros then make a chain id of nothing.
   */
  lemma LeadingZerosAreIgnored(r: Recorded, q: Recorded, o: Identity, prefix: string, n: nat, digits: Hex)
    requires prefix in {"", "0x", "0X"}
    requires r.chainId == prefix + digits && q == r.(chainId := prefix + (seq(n, _ => '0') + digits))
    ensures digits != [] || n == 0 ==> Compare(Some(r), o) == Compare(Some(q), o)
    ensures WasRead(o) ==> (Compare(Some(r), o) == Compare(Some(q), o) <==> digits != [] || n == 0)
  {
    if digits != [] {
      SameNumeral(prefix, n, digits);
      CompareByNumeral(r, q, o);
    } else if n == 0 {
      assert seq(n, _ => '0') + digits == digits;
    } else {
      assert r.chainId == prefix && q.chainId == prefix + seq(n, _ => '0');
      NoDigits(prefix, n);
      if WasRead(o) {
        ReadIdsAreLonger(o);
        NothingIsNotZero(r, q, o);
      }
    }
  }

  lemma CompareByNumeral(r: Recorded, q: Recorded, o: Identity)
    requires q == r.(chainId := q.chainId) && r.chainId != "" && q.chainId != ""
    requires CanonicalChainId(r.chainId) == CanonicalChainId(q.chainId)
    ensures Compare(Some(r), o) == Compare(Some(q), o)
  {
  }

  lemma ReadIdsAreLonger(o: Identity)
    requires WasRead(o)
    ensures |o.chainId| > 2
  {
    ChainIdIsFixed(o);
    Stripped(Tail(o.genesisHash));
  }

  /** A chain id of no digits never matches, and is told apart from zero. */
  lemma NothingIsNotZero(r: Recorded, q: Recorded, o: Identity)
    requires |o.chainId| > 2 && q.chainId != ""
    requires CanonicalChainId(r.chainId) == "0x" && CanonicalChainId(q.chainId) == "0x0"
    ensures Compare(Some(r), o) != Compare(Some(q), o)
  {
    var bare := CanonicalChainId(r.chainId);
    assert |bare| == 2 && |CanonicalChainId(q.chainId)| == 3;
    assert bare != o.chainId;
  }

  lemma ZerosAlone(n: nat)
    requires n > 0
    ensures StripZeros(LowerText(seq(n, _ => '0'))) == "0"
  {
    ZerosStrip(n - 1, "0");
    assert seq(n - 1, _ => '0') + "0" == seq(n, _ => '0');
    assert LowerText("0") == "0";
  }

  lemma NoDigits(prefix: string, n: nat)
    requires n > 0 && prefix in {"", "0x", "0X"}
    ensures CanonicalChainId(prefix) == "0x" && CanonicalChainId(prefix + seq(n, _ => '0')) == "0x0"
    ensures prefix + seq(n, _ => '0') != ""
  {
    PrefixStrips(prefix, []);
    assert prefix + [] == prefix && LowerText([]) == [];
    PrefixStrips(prefix, seq(n, _ => '0'));
    ZerosAlone(n);
    assert |prefix + seq(n, _ => '0')| >= n;
  }

  lemma SameNumeral(prefix: string, n: nat, digits: Hex)
    requires digits != [] && prefix in {"", "0x", "0X"}
    ensures CanonicalChainId(prefix + digits) == CanonicalChainId(prefix + (seq(n, _ => '0') + digits))
  {
    var padded := seq(n, _ => '0') + digits;
    assert forall i | 0 <= i < |padded| :: IsHexDigit(padded[i]);
    PrefixStrips(prefix, digits);
    PrefixStrips(prefix, padded);
    ZerosStrip(n, digits);
  }

  lemma PrefixStrips(prefix: string, digits: Hex)
    requires prefix in {"", "0x", "0X"}
    ensures StripHexPrefix(prefix + digits) == digits
  {
    var s := prefix + digits;
    if prefix == "" { assert s == digits; } else { assert s[2..] == digits; }
  }

  // ---------- erasing ----------

  /** `q` is `r` with some fields missing. */
  predicate Erases(r: Recorded, q: Recorded) {
    && q.chainId in {r.chainId, ""}
    && (q.genesisHash.None? || q.genesisHash == r.genesisHash)
    && (q.firstBlockHash.Absent? || q.firstBlockHash == r.firstBlockHash)
  }

  /** Missing fields only ever weaken a verdict to indeterminate: they create neither "changed" nor "same". */
  lemma ErasureOnlyWeakens(r: Recorded, q: Recorded, o: Identity)
    requires Erases(r, q)
    ensures Compare(Some(q), o) == Compare(Some(r), o) || Compare(Some(q), o).Indeterminate?
    ensures Compare(None, o).Indeterminate?
  {
  }

  // ---------- the manifest file ----------

  function Decimal(n: nat): (r: string)
    ensures r != []
  {
    if n < 10 then [('0' as int + n) as char] else Decimal(n / 10) + [('0' as int + n % 10) as char]
  }

  /** The file of a chain id, whose value `parseInt` read as `value`. */
  function ManifestPath(dir: string, value: nat): string {
    dir + "/unknown-" + Decimal(value) + ".json"
  }

  lemma {:induction false} DecimalInjective(m: nat, n: nat)
    ensures Decimal(m) == Decimal(n) <==> m == n
  {
    if Decimal(m) == Decimal(n) {
      var a, b := Decimal(m), Decimal(n);
      assert a[|a| - 1] == b[|b| - 1];
      if m >= 10 && n >= 10 {
        assert a[..|a| - 1] == Decimal(m / 10) && b[..|b| - 1] == Decimal(n / 10);
        DecimalInjective(m / 10, n / 10);
      }
    }
  }

  lemma {:induction false} StripZerosParses(s: Hex)
    ensures IsHex(StripZeros(s)) && ParseHex(StripZeros(s)) == ParseHex(s)
  {
    if |s| >= 2 && s[0] == '0' {
      StripZerosParses(s[1..]);
      DropZero(s);
    }
  }

  lemma {:induction false} DropZero(s: Hex)
    requires |s| >= 1 && s[0] == '0'
    ensures ParseHex(s[1..]) == ParseHex(s)
  {
    var n := |s| - 1;
    if n > 0 {
      assert s[1..][..n - 1] == s[..n][1..] && s[1..][n - 1] == s[n];
      DropZero(s[..n]);
    }
  }

  lemma {:induction false} LeadingDigitCounts(t: Hex)
    requires t != [] && t[0] != '0'
    ensures ParseHex(t) >= Pow16(|t| - 1)
  {
    var n := |t| - 1;
    if n == 0 { assert ParseHex(t[..0]) == 0; } else { LeadingDigitCounts(t[..n]); }
  }

  lemma {:induction false} Stripped(s: string)
    requires s != []
    ensures StripZeros(s) != [] && (|StripZeros(s)| >= 2 ==> StripZeros(s)[0] != '0')
  {
    if |s| >= 2 && s[0] == '0' { Stripped(s[1..]); }
  }

  lemma ShorterIsSmaller(a: Hex, b: Hex)
    requires |b| < |a| && a[0] != '0'
    ensures ParseHex(b) < ParseHex(a)
  {
    LeadingDigitCounts(a);
    ParseBound(b);
    PowGrows(|b|, |a| - 1);
  }

  /** Without leading zeros, lower-case numerals are equal exactly when their values are. */
  lemma ValueDecides(s: Hex, t: Hex)
    requires s != [] && t != [] && Lower(s) == s && Lower(t) == t
    ensures StripZeros(s) == StripZeros(t) <==> ParseHex(s) == ParseHex(t)
  {
    StripZerosParses(s);
    StripZerosParses(t);
    StripZerosTwice(s);
    StripZerosTwice(t);
    Stripped(s);
    Stripped(t);
    var a: Hex, b: Hex := StripZeros(s), StripZeros(t);
    if ParseHex(s) == ParseHex(t) {
      if |b| < |a| { ShorterIsSmaller(a, b); }
      if |a| < |b| { ShorterIsSmaller(b, a); }
      ParseInjective(a, b);
    }
  }

  /** A block, named by a hash of the right shape. */
  predicate NamesBlock(answer: BlockAnswer) {
    answer.Block? && BlockHashShape(answer.hash)
  }

  /**
   An instance is read exactly when the three answers have their shapes, there is a genesis block, and
   the chain id is, as a number, the last four bytes of its hash; a missing first block is no fault.
   */
  lemma ReadSucceedsExactly(chainId: string, genesis: BlockAnswer, first: BlockAnswer)
    ensures ReadIdentity(chainId, genesis, first).Ok? <==>
            && ChainIdShape(chainId) && NamesBlock(genesis)
            && (first.NoBlock? || NamesBlock(first))
            && IsHex(chainId[2..]) && IsHex(Tail(genesis.hash))
            && ParseHex(chainId[2..]) == ParseHex(Tail(genesis.hash))
  {
    if ChainIdShape(chainId) && NamesBlock(genesis) {
      TailDecides(chainId, genesis.hash);
    }
  }

  /** The tail of a canonical hash is the tail of the hash, in lower case. */
  lemma TailIsLowered(hash: string)
    requires BlockHashShape(hash)
    ensures IsHex(Tail(hash)) && Tail(CanonicalHash(hash)) == Lower(Tail(hash))
  {
    var t, u := Tail(hash), Tail(CanonicalHash(hash));
    assert forall i | 0 <= i < |t| :: t[i] == hash[2..][HASH_DIGITS - CHAIN_ID_DIGITS + i];
    assert forall i | 0 <= i < |u| :: u[i] == LowerChar(t[i]);
  }

  lemma IdOfDigits(u: Hex)
    requires u != [] && Lower(u) == u
    ensures CanonicalChainId(u) == "0x" + StripZeros(u)
  {
    assert StripHexPrefix(u) == u by { if |u| >= 2 { assert IsHexDigit(u[1]); } }
  }

  lemma IdOfChainId(chainId: string)
    requires ChainIdShape(chainId)
    ensures CanonicalChainId(chainId) == "0x" + StripZeros(Lower(chainId[2..]))
  {
  }

  lemma TailDecides(chainId: string, hash: string)
    requires ChainIdShape(chainId) && BlockHashShape(hash)
    ensures IsHex(Tail(hash))
    ensures CanonicalChainId(Tail(CanonicalHash(hash))) == CanonicalChainId(chainId) <==>
            ParseHex(chainId[2..]) == ParseHex(Tail(hash))
  {
    TailIsLowered(hash);
    var c: Hex, t: Hex := chainId[2..], Tail(hash);
    var x, y := StripZeros(Lower(t)), StripZeros(Lower(c));
    LowerTwice(t);
    LowerTwice(c);
    IdOfDigits(Lower(t));
    IdOfChainId(chainId);
    assert ("0x" + x)[2..] == x && ("0x" + y)[2..] == y;
    LowerParses(c);
    LowerParses(t);
    ValueDecides(Lower(c), Lower(t));
  }

  /** The number a read chain id stands for: that of the genesis hash's last eight digits, below 2^32. */
  lemma AcceptedIdsAreSmall(o: Identity)
    requires WasRead(o)
    ensures IsHex(StripHexPrefix(o.chainId)) && IsHex(Tail(o.genesisHash))
    ensures ParseHex(StripHexPrefix(o.chainId)) == ParseHex(Tail(o.genesisHash)) < 0x1_0000_0000
  {
    var t := Tail(o.genesisHash);
    assert forall i | 0 <= i < |t| :: t[i] == o.genesisHash[2..][HASH_DIGITS - CHAIN_ID_DIGITS + i];
    ChainIdIsFixed(o);
    StripZerosParses(t);
    ParseBound(t);
    assert Pow16(8) == 0x1_0000_0000;
  }

  /** File names tell accepted chain ids apart, whatever double `parseInt` makes of them. */
  lemma ManifestNamesAreInjective(dir: string, a: Identity, b: Identity, x: nat, y: nat)
    requires WasRead(a) && WasRead(b)
    requires IsHex(StripHexPrefix(a.chainId)) && Reads(ParseHex(StripHexPrefix(a.chainId)), x)
    requires IsHex(StripHexPrefix(b.chainId)) && Reads(ParseHex(StripHexPrefix(b.chainId)), y)
    ensures ManifestPath(dir, x) == ManifestPath(dir, y) <==> a.chainId == b.chainId
  {
    AcceptedIdsAreSmall(a);
    AcceptedIdsAreSmall(b);
    DecimalInjective(x, y);
    var p, q, head := ManifestPath(dir, x), ManifestPath(dir, y), |dir| + 9;
    if p == q {
      assert p[head..|p| - 5] == Decimal(x) && q[head..|q| - 5] == Decimal(y);
      var s, t := Tail(a.genesisHash), Tail(b.genesisHash);
      assert forall i | 0 <= i < |s| :: s[i] == a.genesisHash[2..][HASH_DIGITS - CHAIN_ID_DIGITS + i];
      assert forall i | 0 <= i < |t| :: t[i] == b.genesisHash[2..][HASH_DIGITS - CHAIN_ID_DIGITS + i];
      assert Lower(s) == s && Lower(t) == t;
      ParseInjective(s, t);
    }
  }
}
