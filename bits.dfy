/** Bit-level building blocks shared by the three register layouts. */
module Bits {
  /** Eight one-bit flags as the low byte of a 16-bit word, the first flag on bit 0
      (mask 0x01) and the last on bit 7 (mask 0x80); the high byte is clear. */
  function PackByte(b0: bool, b1: bool, b2: bool, b3: bool, b4: bool, b5: bool, b6: bool, b7: bool): (v: bv16)
    ensures v & 0xFF00 == 0
    ensures (v & 0x01 != 0) == b0 && (v & 0x02 != 0) == b1 && (v & 0x04 != 0) == b2 && (v & 0x08 != 0) == b3
    ensures (v & 0x10 != 0) == b4 && (v & 0x20 != 0) == b5 && (v & 0x40 != 0) == b6 && (v & 0x80 != 0) == b7
  {
    (if b0 then 0x01 else 0) | (if b1 then 0x02 else 0) | (if b2 then 0x04 else 0) | (if b3 then 0x08 else 0) |
    (if b4 then 0x10 else 0) | (if b5 then 0x20 else 0) | (if b6 then 0x40 else 0) | (if b7 then 0x80 else 0)
  }

  /** Bit k of the word w; a `bv4` position names each of the sixteen bits. */
  predicate Bit(w: bv16, k: bv4)
  {
    (w >> k) & 1 == 1
  }

  /** Two words that agree on each of the sixteen positions, listed one by one, are equal. */
  lemma SameBitsSameWord(x: bv16, w: bv16)
    requires Bit(x, 0) == Bit(w, 0) && Bit(x, 1) == Bit(w, 1) && Bit(x, 2) == Bit(w, 2) && Bit(x, 3) == Bit(w, 3)
    requires Bit(x, 4) == Bit(w, 4) && Bit(x, 5) == Bit(w, 5) && Bit(x, 6) == Bit(w, 6) && Bit(x, 7) == Bit(w, 7)
    requires Bit(x, 8) == Bit(w, 8) && Bit(x, 9) == Bit(w, 9) && Bit(x, 10) == Bit(w, 10) && Bit(x, 11) == Bit(w, 11)
    requires Bit(x, 12) == Bit(w, 12) && Bit(x, 13) == Bit(w, 13) && Bit(x, 14) == Bit(w, 14) && Bit(x, 15) == Bit(w, 15)
    ensures x == w
  {
  }

  /** A word is determined by its bits. */
  lemma BitsDetermineWord(x: bv16, w: bv16)
    requires forall k: bv4 :: Bit(x, k) == Bit(w, k)
    ensures x == w
  {
    SameBitsSameWord(x, w);
  }
}
