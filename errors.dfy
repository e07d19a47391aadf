/** DEVICE_ERRORS_t: the sticky fault flags. Eight one-bit faults occupy the low byte of
    the word; the high byte is unused. */
module ErrorRegister {
  import opened Bits

  /** The named bit-field view of the error word, in bit order (bit 0 first). */
  datatype ErrorFlags = ErrorFlags(
    xfmrOt: bool,             // 0x0001 transformer over-temperature
    hsTemp: bool,             // 0x0002 heatsink over-temperature
    nvmIsBad: bool,           // 0x0004 non-volatile memory chip is bad
    battOt: bool,             // 0x0008 battery over-temperature
    battTempSnsrOpen: bool,   // 0x0010 battery temperature sensor open
    battTempSnsrShort: bool,  // 0x0020 battery temperature sensor shorted
    vreg15Invalid: bool,      // 0x0040 housekeeping supply is low
    batteryLow: bool)         // 0x0080 too low for the charger/transfer relay

  /** The named view of an error word; the unused high byte is not read. */
  function DecodeErrors(w: bv16): ErrorFlags
  {
    ErrorFlags(
      w & 0x0001 != 0, w & 0x0002 != 0, w & 0x0004 != 0, w & 0x0008 != 0,
      w & 0x0010 != 0, w & 0x0020 != 0, w & 0x0040 != 0, w & 0x0080 != 0)
  }

  /** The word written through the named view on a fresh register: the unused byte is zero. */
  function EncodeErrors(e: ErrorFlags): (w: bv16)
    ensures DecodeErrors(w) == e
    ensures w & 0xFF00 == 0
  {
    PackByte(e.xfmrOt, e.hsTemp, e.nvmIsBad, e.battOt,
             e.battTempSnsrOpen, e.battTempSnsrShort, e.vreg15Invalid, e.batteryLow)
  }

  /** The flat view `all_flags`: the eight fault bits as one number. It overlays the named
      view bit for bit, so it is the encoding of the word's faults. */
  function ErrorAllFlags(w: bv16): (v: bv16)
    ensures v <= 0xFF
    ensures DecodeErrors(v) == DecodeErrors(w)
    ensures v == EncodeErrors(DecodeErrors(w))
    ensures v == 0 <==> DecodeErrors(w) == ErrorFlags(false, false, false, false, false, false, false, false)
  {
    w & 0x00FF
  }

  /** Decoding keeps exactly the defined bits: re-encoding clears the unused byte. */
  lemma ErrorWordRoundTrip(w: bv16)
    ensures EncodeErrors(DecodeErrors(w)) == w & 0x00FF
  {
  }

  /** The unused byte never shows in the named view. */
  lemma DecodeErrorsIgnoresUnused(w1: bv16, w2: bv16)
    requires w1 & 0x00FF == w2 & 0x00FF
    ensures DecodeErrors(w1) == DecodeErrors(w2)
  {
  }

  /** The bit-position table of the error word: the fault that bit k carries; bits 8-15
      carry none. */
  function ErrorFlagAt(e: ErrorFlags, k: bv4): bool
  {
    if k == 0 then e.xfmrOt
    else if k == 1 then e.hsTemp
    else if k == 2 then e.nvmIsBad
    else if k == 3 then e.battOt
    else if k == 4 then e.battTempSnsrOpen
    else if k == 5 then e.battTempSnsrShort
    else if k == 6 then e.vreg15Invalid
    else if k == 7 then e.batteryLow
    else false
  }

  /** The encoding follows the table: bit k of the word is fault k, and bits 8-15 are clear. */
  lemma EncodeErrorsFollowsTable(e: ErrorFlags)
    ensures forall k: bv4 :: Bit(EncodeErrors(e), k) == ErrorFlagAt(e, k)
  {
    var w := EncodeErrors(e);
    forall k: bv4
      ensures Bit(w, k) == ErrorFlagAt(e, k)
    {
      if k < 4 {
        if k == 0 {} else if k == 1 {} else if k == 2 {} else {}
      } else if k < 8 {
        if k == 4 {} else if k == 5 {} else if k == 6 {} else {}
      }
    }
  }

  /** Conversely, a word that agrees with the table on every bit is the encoding of `e`,
      and its named view is `e`. */
  lemma TableDeterminesErrorWord(w: bv16, e: ErrorFlags)
    requires forall k: bv4 :: Bit(w, k) == ErrorFlagAt(e, k)
    ensures w == EncodeErrors(e) && DecodeErrors(w) == e
  {
    EncodeErrorsFollowsTable(e);
    BitsDetermineWord(w, EncodeErrors(e));
  }
}
