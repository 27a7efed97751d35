/** Hexadecimal text: digits of either case, their values, and casing. */
module HexText {
  predicate IsHexDigit(c: char) { '0' <= c <= '9' || 'a' <= c <= 'f' || 'A' <= c <= 'F' }

  function HexValue(c: char): (v: int)
    requires IsHexDigit(c)
    ensures 0 <= v < 16
  {
    if c <= '9' then c as int - '0' as int
    else if c <= 'F' then c as int - 'A' as int + 10
    else c as int - 'a' as int + 10
  }

  function HexDigit(v: int): (c: char)
    requires 0 <= v < 16
    ensures IsHexDigit(c) && HexValue(c) == v
  {
    if v < 10 then '0' + v as char else 'a' + (v - 10) as char
  }

  predicate IsHex(s: string) { forall i | 0 <= i < |s| :: IsHexDigit(s[i]) }

  type Hex = s: string | IsHex(s)

  /** `Number.parseInt(s, 16)`, before it is rounded to a double. */
  function ParseHex(s: Hex): nat {
    if s == [] then 0 else ParseHex(s[..|s| - 1]) * 16 + HexValue(s[|s| - 1])
  }

  function LowerChar(c: char): (r: char)
    ensures IsHexDigit(c) ==> IsHexDigit(r) && HexValue(r) == HexValue(c)
  {
    if 'A' <= c <= 'Z' then (c as int - 'A' as int + 'a' as int) as char else c
  }

  /** `toLowerCase` on ASCII text. */
  function LowerText(s: string): (r: string)
    ensures |r| == |s| && forall i | 0 <= i < |s| :: r[i] == LowerChar(s[i])
  {
    seq(|s|, i requires 0 <= i < |s| => LowerChar(s[i]))
  }

  function Lower(s: Hex): (r: Hex)
    ensures |r| == |s| && forall i | 0 <= i < |s| :: r[i] == LowerChar(s[i])
  {
    LowerText(s)
  }

  lemma LowerTwice(s: Hex)
    ensures Lower(Lower(s)) == Lower(s)
  {
  }

  /** Casing does not change the value. */
  lemma {:induction false} LowerParses(s: Hex)
    ensures ParseHex(Lower(s)) == ParseHex(s)
  {
    if s != [] {
      var n := |s| - 1;
      assert Lower(s)[..n] == Lower(s[..n]);
      LowerParses(s[..n]);
    }
  }

  function Pow16(k: nat): nat {
    if k == 0 then 1 else 16 * Pow16(k - 1)
  }

  lemma {:induction false} PowGrows(m: nat, n: nat)
    requires m <= n
    ensures Pow16(m) <= Pow16(n)
  {
    if m < n { PowGrows(m, n - 1); }
  }

  lemma {:induction false} ParseBound(s: Hex)
    ensures ParseHex(s) < Pow16(|s|)
  {
    if s != [] { ParseBound(s[..|s| - 1]); }
  }

  /** Texts of one length and one casing are told apart by their values. */
  lemma {:induction false} ParseInjective(s: Hex, t: Hex)
    requires |s| == |t| && Lower(s) == s && Lower(t) == t && ParseHex(s) == ParseHex(t)
    ensures s == t
  {
    if s != [] {
      var n := |s| - 1;
      assert Lower(s)[..n] == Lower(s[..n]) && Lower(t)[..n] == Lower(t[..n]);
      assert HexValue(s[n]) == HexValue(t[n]);
      ParseInjective(s[..n], t[..n]);
      DigitInjective(s[n], t[n]);
      assert s == s[..n] + [s[n]] && t == t[..n] + [t[n]];
    }
  }

  lemma DigitInjective(c: char, d: char)
    requires IsHexDigit(c) && IsHexDigit(d) && HexValue(c) == HexValue(d) && LowerChar(c) == c && LowerChar(d) == d
    ensures c == d
  {
  }

  const EXACT: nat := 0x20_0000_0000_0000

  /** `r` is a double nearest to `n`: exact below 2^53, and never below it from there on. */
  predicate Reads(n: nat, r: nat) {
    if n < EXACT then r == n else r >= EXACT
  }

  function StripHexPrefix(s: string): string {
    if |s| >= 2 && s[0] == '0' && (s[1] == 'x' || s[1] == 'X') then s[2..] else s
  }
}
