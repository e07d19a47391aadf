/** DEVICE_STATUS_t: the volatile operating state. Sixteen one-bit flags share the word
    `all_flags`; the scalar fields beside it are plain storage. */
module StatusRegister {
  import opened CTypes
  import opened Bits

  /** The named bit-field view of the status word, in bit order (bit 0 first). The order
      is an external interface read by diagnostic tooling and must not change. */
  datatype StatusFlags = StatusFlags(
    invRequest: bool,          // 0x0001
    chgrRequest: bool,         // 0x0002
    relayRequest: bool,        // 0x0004
    invEnabled: bool,          // 0x0008 inverter enabled by network command
    chgrEnableCan: bool,       // 0x0010 charger enabled by network command
    chgrEnableBcr: bool,       // 0x0020 branch circuit rating is non-zero
    chgrEnableJmpr: bool,      // 0x0040 enable jumper in place
    chgrEnableTime: bool,      // 0x0080 charge-time flag
    passThruEnabled: bool,     // 0x0100 transfer enabled by network command
    acLineQualified: bool,     // 0x0200 AC line valid for long enough
    chgrRelayActive: bool,     // 0x0400
    xferRelayActive: bool,     // 0x0800
    tmrShutdownEnabled: bool,  // 0x1000
    tmrShutdown: bool,         // 0x2000 timer shutdown occurred
    acLineValid: bool,         // 0x4000 hardware line-OK input
    remoteOn: bool)            // 0x8000 hardware remote input

  /** The whole status structure: the flag word and the scalar fields after it. */
  datatype DeviceStatus = DeviceStatus(
    allFlags: bv16,
    battTemp: Int16,                 // degrees C
    hsTemp: Int16,                   // degrees C
    tmrShutdownTimerSec: Int16,      // countdown, shutdown at zero when enabled
    acLineQualTimerMsec: Uint16,     // countdown, zero once the line is qualified
    invDisabledSource: Uint8,        // 0 = network, 1 = panel
    auxInput: Int8)                  // 0 = inactive, 1 = active

  /** The named view of a status word: each flag reads the mask the layout gives it. */
  function DecodeStatus(w: bv16): StatusFlags
  {
    StatusFlags(
      w & 0x0001 != 0, w & 0x0002 != 0, w & 0x0004 != 0, w & 0x0008 != 0,
      w & 0x0010 != 0, w & 0x0020 != 0, w & 0x0040 != 0, w & 0x0080 != 0,
      w & 0x0100 != 0, w & 0x0200 != 0, w & 0x0400 != 0, w & 0x0800 != 0,
      w & 0x1000 != 0, w & 0x2000 != 0, w & 0x4000 != 0, w & 0x8000 != 0)
  }

  /** The word written through the named view, flags 0-7 in the low byte and flags
      8-15 in the high byte. Reading it back gives the same flags. */
  function EncodeStatus(f: StatusFlags): (w: bv16)
    ensures DecodeStatus(w) == f
  {
    PackByte(f.invRequest, f.chgrRequest, f.relayRequest, f.invEnabled,
             f.chgrEnableCan, f.chgrEnableBcr, f.chgrEnableJmpr, f.chgrEnableTime) |
    (PackByte(f.passThruEnabled, f.acLineQualified, f.chgrRelayActive, f.xferRelayActive,
              f.tmrShutdownEnabled, f.tmrShutdown, f.acLineValid, f.remoteOn) << 8)
  }

  /** All sixteen bits are named, so the named view loses nothing: every status word is
      the encoding of its own flags. */
  lemma StatusWordRoundTrip(w: bv16)
    ensures EncodeStatus(DecodeStatus(w)) == w
  {
  }

  /** Two status words with the same named flags are the same word. */
  lemma DecodeStatusInjective(w1: bv16, w2: bv16)
    ensures DecodeStatus(w1) == DecodeStatus(w2) ==> w1 == w2
  {
  }

  /** The bit-position table of the status word: the flag that bit k carries. */
  function StatusFlagAt(f: StatusFlags, k: bv4): bool
  {
    if k == 0 then f.invRequest
    else if k == 1 then f.chgrRequest
    else if k == 2 then f.relayRequest
    else if k == 3 then f.invEnabled
    else if k == 4 then f.chgrEnableCan
    else if k == 5 then f.chgrEnableBcr
    else if k == 6 then f.chgrEnableJmpr
    else if k == 7 then f.chgrEnableTime
    else if k == 8 then f.passThruEnabled
    else if k == 9 then f.acLineQualified
    else if k == 10 then f.chgrRelayActive
    else if k == 11 then f.xferRelayActive
    else if k == 12 then f.tmrShutdownEnabled
    else if k == 13 then f.tmrShutdown
    else if k == 14 then f.acLineValid
    else f.remoteOn
  }

  /** Bits 0-7 of any word carry the first eight flags of its named view. */
  lemma StatusLowByteBits(w: bv16)
    ensures Bit(w, 0) == StatusFlagAt(DecodeStatus(w), 0) && Bit(w, 1) == StatusFlagAt(DecodeStatus(w), 1)
    ensures Bit(w, 2) == StatusFlagAt(DecodeStatus(w), 2) && Bit(w, 3) == StatusFlagAt(DecodeStatus(w), 3)
    ensures Bit(w, 4) == StatusFlagAt(DecodeStatus(w), 4) && Bit(w, 5) == StatusFlagAt(DecodeStatus(w), 5)
    ensures Bit(w, 6) == StatusFlagAt(DecodeStatus(w), 6) && Bit(w, 7) == StatusFlagAt(DecodeStatus(w), 7)
  {
  }

  /** Bits 8-15 of any word carry the last eight flags of its named view. */
  lemma StatusHighByteBits(w: bv16)
    ensures Bit(w, 8) == StatusFlagAt(DecodeStatus(w), 8) && Bit(w, 9) == StatusFlagAt(DecodeStatus(w), 9)
    ensures Bit(w, 10) == StatusFlagAt(DecodeStatus(w), 10) && Bit(w, 11) == StatusFlagAt(DecodeStatus(w), 11)
    ensures Bit(w, 12) == StatusFlagAt(DecodeStatus(w), 12) && Bit(w, 13) == StatusFlagAt(DecodeStatus(w), 13)
    ensures Bit(w, 14) == StatusFlagAt(DecodeStatus(w), 14) && Bit(w, 15) == StatusFlagAt(DecodeStatus(w), 15)
  {
  }

  /** Every status word follows the table of its own named view. */
  lemma StatusWordFollowsTable(w: bv16)
    ensures forall k: bv4 :: Bit(w, k) == StatusFlagAt(DecodeStatus(w), k)
  {
    StatusLowByteBits(w);
    StatusHighByteBits(w);
    var f := DecodeStatus(w);
    forall k: bv4
      ensures Bit(w, k) == StatusFlagAt(f, k)
    {
      if k < 8 {
        if k < 4 {
          if k == 0 {} else if k == 1 {} else if k == 2 {} else {}
        } else {
          if k == 4 {} else if k == 5 {} else if k == 6 {} else {}
        }
      } else {
        if k < 12 {
          if k == 8 {} else if k == 9 {} else if k == 10 {} else {}
        } else {
          if k == 12 {} else if k == 13 {} else if k == 14 {} else {}
        }
      }
    }
  }

  /** The encoding follows the table: bit k of the word is flag k. */
  lemma EncodeStatusFollowsTable(f: StatusFlags)
    ensures forall k: bv4 :: Bit(EncodeStatus(f), k) == StatusFlagAt(f, k)
  {
    var w := EncodeStatus(f);
    assert DecodeStatus(w) == f;
    StatusWordFollowsTable(w);
  }

  /** Conversely, a word that agrees with the table on every bit is the encoding of `f`,
      and its named view is `f`. */
  lemma TableDeterminesStatusWord(w: bv16, f: StatusFlags)
    requires forall k: bv4 :: Bit(w, k) == StatusFlagAt(f, k)
    ensures w == EncodeStatus(f) && DecodeStatus(w) == f
  {
    EncodeStatusFollowsTable(f);
    BitsDetermineWord(w, EncodeStatus(f));
  }
}
