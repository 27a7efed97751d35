/** Storage words and the addresses in them (`chain/slots.ts`). */
module Slots {
  import opened Wrappers
  import opened HexText

  const WORD: nat := 64
  const PAD: nat := 24

  predicate AllZero(s: string) { forall i | 0 <= i < |s| :: s[i] == '0' }

  /** A word that is not hex is not empty: garbage must not read as an unset slot. */
  predicate IsEmptySlotWord(word: string) {
    AllZero(StripHexPrefix(word))
  }

  predicate LooksLikeSlotAddressWord(word: string) {
    var digits := StripHexPrefix(word);
    |digits| == WORD && IsHex(digits) && AllZero(digits[..PAD])
  }

  /** None is the malformed-word error. */
  function SlotToAddress(word: string): Option<string> {
    var digits := StripHexPrefix(word);
    if !IsHex(digits) || |digits| != WORD || !AllZero(digits[..PAD]) then None
    else Some("0x" + LowerText(digits[PAD..]))
  }

  /** The predicate and the conversion agree. */
  lemma LooksLikeIffConverts(word: string)
    ensures LooksLikeSlotAddressWord(word) <==> SlotToAddress(word).Some?
  {
  }

  function ZeroAddress(): string { "0x" + seq(40, _ => '0') }

  /** A word that is not empty never carries the zero address, so emptiness is told apart from every address. */
  lemma NonEmptyIsNotZero(word: string)
    requires !IsEmptySlotWord(word) && SlotToAddress(word).Some?
    ensures SlotToAddress(word) != Some(ZeroAddress())
  {
    var digits := StripHexPrefix(word);
    var i :| 0 <= i < |digits| && digits[i] != '0';
    assert forall k | 0 <= k < PAD :: digits[k] == digits[..PAD][k];
    var low := LowerText(digits[PAD..]);
    assert low[i - PAD] == LowerChar(digits[i]);
    assert ("0x" + low)[i - PAD + 2] == low[i - PAD];
    assert ZeroAddress()[i - PAD + 2] == '0';
  }
}
