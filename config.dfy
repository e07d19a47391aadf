/** DEVICE_CONFIG_t: the persisted configuration. Eight fields fill the low ten bits of
    the flag word (six bits unused), followed by two signed 16-bit delays; and
    DEVICE_CFG_ALL_FLAGS, the packer that builds the flag word from eight integers. */
module ConfigRegister {
  import opened CTypes
  import opened Modes
  import opened Bits

  /** The named bit-field view of the configuration word, in bit order. */
  datatype ConfigFlags = ConfigFlags(
    invEnabled: bool,             // bit 0: inverter enabled on startup
    chgrEnabled: bool,            // bit 1: charger enabled on startup
    passThruEnabled: bool,        // bit 2: pass-through enabled on startup
    tmrShutdownEnabled: bool,     // bit 3: timer shutdown enabled on startup
    remoteMode: RemoteMode,       // bits 4-5
    auxMode: AuxMode,             // bits 6-7
    pushbuttonEnabled: bool,      // bit 8
    battTempSensePresent: bool)   // bit 9

  /** The whole configuration structure (four bytes). */
  datatype DeviceConfig = DeviceConfig(
    flags: bv16,
    tmrShutdownDelay: Int16,      // seconds before timer shutdown
    acLineQualDelay: Int16)       // milliseconds before the AC line counts as valid

  /** The named view of a configuration word; bits 10-15 are not read. Both 2-bit fields
      take one of exactly four values, so every word has a named view. */
  function DecodeConfig(w: bv16): ConfigFlags
  {
    ConfigFlags(
      w & 0x0001 != 0, w & 0x0002 != 0, w & 0x0004 != 0, w & 0x0008 != 0,
      RemoteModeOf((w >> 4) & 0x3), AuxModeOf((w >> 6) & 0x3),
      w & 0x0100 != 0, w & 0x0200 != 0)
  }

  /** The flat view `all_flags`: the ten defined bits as one number. */
  function ConfigAllFlags(w: bv16): (v: bv16)
    ensures v <= 0x3FF
    ensures DecodeConfig(v) == DecodeConfig(w)
  {
    w & 0x03FF
  }

  /** BITF1: the argument, converted to a 16-bit unsigned value, cut to one bit and
      moved to bit `bitno`. */
  function BitF1(name: int, bitno: nat): (v: bv16)
    requires bitno < 16
    ensures v == 0 || v == 1 << bitno
    ensures v != 0 <==> U16(name) & 1 == 1
  {
    (U16(name) & 0x1) << bitno
  }

  /** BITF2: the same for a two-bit field starting at bit `bitno`. */
  function BitF2(name: int, bitno: nat): (v: bv16)
    requires bitno < 15
    ensures v >> bitno == U16(name) & 3
    ensures (v >> bitno) << bitno == v
  {
    (U16(name) & 0x3) << bitno
  }

  /** DEVICE_CFG_ALL_FLAGS: each argument is cut to its field width, never rejected, and
      placed at its bit position; bits 10-15 of the result are clear. */
  function CfgAllFlags(invEnable: int, chgEnable: int, passEnable: int, tmrEnable: int,
                       rmtMode: int, auxMode: int, pushBtn: int, tempSns: int): (r: bv16)
    ensures r & 0xFC00 == 0
    ensures DecodeConfig(r) == ConfigFlags(
      U16(invEnable) & 1 == 1, U16(chgEnable) & 1 == 1, U16(passEnable) & 1 == 1, U16(tmrEnable) & 1 == 1,
      RemoteModeOf(U16(rmtMode) & 3), AuxModeOf(U16(auxMode) & 3),
      U16(pushBtn) & 1 == 1, U16(tempSns) & 1 == 1)
  {
    BitF1(invEnable, 0) |
    BitF1(chgEnable, 1) |
    BitF1(passEnable, 2) |
    BitF1(tmrEnable, 3) |
    BitF2(rmtMode, 4) |
    BitF2(auxMode, 6) |
    BitF1(pushBtn, 8) |
    BitF1(tempSns, 9)
  }

  /** A C truth value as the integer argument the packer takes. */
  function BoolArg(b: bool): int
  {
    if b then 1 else 0
  }

  /** The configuration word for a named view, built with the packer from the fields'
      integer values; bits 10-15 are clear, as on a fresh register. */
  function EncodeConfig(f: ConfigFlags): (w: bv16)
    ensures w & 0xFC00 == 0
  {
    CfgAllFlags(BoolArg(f.invEnabled), BoolArg(f.chgrEnabled), BoolArg(f.passThruEnabled),
                BoolArg(f.tmrShutdownEnabled), f.remoteMode.Code(), f.auxMode.Code(),
                BoolArg(f.pushbuttonEnabled), BoolArg(f.battTempSensePresent))
  }

  /** The packer's 1-bit cut keeps a C truth value. */
  lemma BoolArgSurvivesCut(b: bool)
    ensures (U16(BoolArg(b)) & 1 == 1) == b
  {
  }

  /** Reading back a word packed from a named view gives that view. */
  lemma DecodeEncodeConfig(f: ConfigFlags)
    ensures DecodeConfig(EncodeConfig(f)) == f
  {
    RemoteCodeRoundTrip(f.remoteMode);
    AuxCodeRoundTrip(f.auxMode);
    BoolArgSurvivesCut(f.invEnabled);
    BoolArgSurvivesCut(f.chgrEnabled);
    BoolArgSurvivesCut(f.passThruEnabled);
    BoolArgSurvivesCut(f.tmrShutdownEnabled);
    BoolArgSurvivesCut(f.pushbuttonEnabled);
    BoolArgSurvivesCut(f.battTempSensePresent);
  }

  /** Packing the named view of any word gives back its ten defined bits; the unused bits
      are dropped. */
  lemma ConfigWordRoundTrip(w: bv16)
    ensures EncodeConfig(DecodeConfig(w)) == ConfigAllFlags(w)
  {
    DecodeEncodeConfig(DecodeConfig(w));
    DecodeConfigInjective(EncodeConfig(DecodeConfig(w)), ConfigAllFlags(w));
  }

  /** On words whose unused bits are clear, the named view determines the word. */
  lemma DecodeConfigInjective(a: bv16, b: bv16)
    requires a & 0xFC00 == 0 && b & 0xFC00 == 0
    requires DecodeConfig(a) == DecodeConfig(b)
    ensures a == b
  {
  }

  /** Out-of-range modes are cut to two bits, not rejected: remote mode 5 packs as 1
      (snap), 4 as 0 (disabled) and 6 as 2 (momentary). */
  lemma PackerCutsRemoteMode()
    ensures CfgAllFlags(0, 0, 0, 0, 5, 0, 0, 0) == 0x0010
    ensures DecodeConfig(CfgAllFlags(0, 0, 0, 0, 5, 0, 0, 0)).remoteMode == RemoteSnap
    ensures DecodeConfig(CfgAllFlags(0, 0, 0, 0, 4, 0, 0, 0)).remoteMode == RemoteDisabled
    ensures DecodeConfig(CfgAllFlags(0, 0, 0, 0, 6, 0, 0, 0)).remoteMode == RemoteMomentary
  {
    U16OfSmall(0);
    U16OfSmall(4);
    U16OfSmall(5);
    U16OfSmall(6);
  }

  /** The same cut for truth values and the auxiliary mode: an enable of 2 packs as 0,
      and auxiliary mode 7 as 3 (wired control). */
  lemma PackerCutsOtherFields()
    ensures CfgAllFlags(2, 0, 0, 0, 0, 7, 0, 0) == 0x00C0
  {
    U16OfSmall(0);
    U16OfSmall(2);
    U16OfSmall(7);
  }

  /** The bit-position table of the configuration word: the bit that position k carries.
      Bits 4-5 hold the remote-mode constant and bits 6-7 the auxiliary-mode constant,
      low bit first; bits 10-15 carry nothing. */
  function ConfigBitAt(f: ConfigFlags, k: bv4): bool
  {
    if k == 0 then f.invEnabled
    else if k == 1 then f.chgrEnabled
    else if k == 2 then f.passThruEnabled
    else if k == 3 then f.tmrShutdownEnabled
    else if k == 4 then f.remoteMode == RemoteSnap || f.remoteMode == RemoteCustom
    else if k == 5 then f.remoteMode == RemoteMomentary || f.remoteMode == RemoteCustom
    else if k == 6 then f.auxMode == AuxRv || f.auxMode == AuxControl
    else if k == 7 then f.auxMode == AuxUtility || f.auxMode == AuxControl
    else if k == 8 then f.pushbuttonEnabled
    else if k == 9 then f.battTempSensePresent
    else false
  }

  /** The one-bit fields sit at positions 0-3, 8 and 9 of any word. */
  lemma ConfigFlagBits(w: bv16)
    ensures Bit(w, 0) == ConfigBitAt(DecodeConfig(w), 0) && Bit(w, 1) == ConfigBitAt(DecodeConfig(w), 1)
    ensures Bit(w, 2) == ConfigBitAt(DecodeConfig(w), 2) && Bit(w, 3) == ConfigBitAt(DecodeConfig(w), 3)
    ensures Bit(w, 8) == ConfigBitAt(DecodeConfig(w), 8) && Bit(w, 9) == ConfigBitAt(DecodeConfig(w), 9)
  {
  }

  /** The mode constants sit at positions 4-7 of any word, low bit first. */
  lemma ConfigModeBits(w: bv16)
    ensures Bit(w, 4) == ConfigBitAt(DecodeConfig(w), 4) && Bit(w, 5) == ConfigBitAt(DecodeConfig(w), 5)
    ensures Bit(w, 6) == ConfigBitAt(DecodeConfig(w), 6) && Bit(w, 7) == ConfigBitAt(DecodeConfig(w), 7)
  {
    RemoteModeBits((w >> 4) & 0x3);
    AuxModeBits((w >> 6) & 0x3);
  }

  /** Positions 10-15 of a word with clear unused bits carry nothing. */
  lemma ConfigUnusedBits(w: bv16)
    requires w & 0xFC00 == 0
    ensures !Bit(w, 10) && !Bit(w, 11) && !Bit(w, 12) && !Bit(w, 13) && !Bit(w, 14) && !Bit(w, 15)
  {
  }

  /** Any word with clear unused bits follows the table of its own named view. */
  lemma ConfigWordFollowsTable(w: bv16)
    requires w & 0xFC00 == 0
    ensures forall k: bv4 :: Bit(w, k) == ConfigBitAt(DecodeConfig(w), k)
  {
    ConfigFlagBits(w);
    ConfigModeBits(w);
    ConfigUnusedBits(w);
    var f := DecodeConfig(w);
    forall k: bv4
      ensures Bit(w, k) == ConfigBitAt(f, k)
    {
      if k < 8 {
        if k < 4 {
          if k == 0 {} else if k == 1 {} else if k == 2 {} else {}
        } else {
          if k == 4 {} else if k == 5 {} else if k == 6 {} else {}
        }
      } else {
        if k < 12 {
          if k == 8 {} else if k == 9 {} else if k == 10 {} else {}
        } else {
          if k == 12 {} else if k == 13 {} else if k == 14 {} else {}
        }
      }
    }
  }

  /** The packer's word for a named view follows the table bit by bit. */
  lemma EncodeConfigFollowsTable(f: ConfigFlags)
    ensures forall k: bv4 :: Bit(EncodeConfig(f), k) == ConfigBitAt(f, k)
  {
    ConfigWordFollowsTable(EncodeConfig(f));
    DecodeEncodeConfig(f);
  }

  /** Conversely, a word that agrees with the table on every bit is the packer's word for
      `f`, and its named view is `f`. */
  lemma TableDeterminesConfigWord(w: bv16, f: ConfigFlags)
    requires forall k: bv4 :: Bit(w, k) == ConfigBitAt(f, k)
    ensures w == EncodeConfig(f) && DecodeConfig(w) == f
  {
    EncodeConfigFollowsTable(f);
    BitsDetermineWord(w, EncodeConfig(f));
    DecodeEncodeConfig(f);
  }
}
