/** DEVICE_STRUCT_t and the readability macros over it: single-flag reads of the three
    registers and the composite conditions built from several flags. The process-wide
    instance is passed in as a value. */
module Device {
  import opened CTypes
  import opened Modes
  import opened StatusRegister
  import opened ConfigRegister
  import opened ErrorRegister

  /** One status, one configuration and one error register. */
  datatype DeviceStruct = DeviceStruct(status: DeviceStatus, config: DeviceConfig, error: bv16)

  // ---------------------------------------------------------------------------
  // Configuration flags
  // ---------------------------------------------------------------------------

  /** IsCfgChgrEnabled: the charger-enabled-on-startup bit. */
  function IsCfgChgrEnabled(d: DeviceStruct): (r: bool)
    ensures r <==> d.config.flags & 0x0002 != 0
  {
    DecodeConfig(d.config.flags).chgrEnabled
  }

  /** IsRemModeDisabled: remote mode equals REMOTE_DISABLED. */
  function IsRemModeDisabled(d: DeviceStruct): (r: bool)
    ensures r <==> d.config.flags & 0x0030 == 0x0000
  {
    DecodeConfig(d.config.flags).remoteMode == RemoteDisabled
  }

  /** IsRemModeSnap: remote mode equals REMOTE_SNAP. */
  function IsRemModeSnap(d: DeviceStruct): (r: bool)
    ensures r <==> d.config.flags & 0x0030 == 0x0010
  {
    DecodeConfig(d.config.flags).remoteMode == RemoteSnap
  }

  /** IsRemModeMom: remote mode equals REMOTE_MOMENTARY. */
  function IsRemModeMom(d: DeviceStruct): (r: bool)
    ensures r <==> d.config.flags & 0x0030 == 0x0020
  {
    DecodeConfig(d.config.flags).remoteMode == RemoteMomentary
  }

  /** IsRemModeCustom: remote mode equals REMOTE_CUSTOM. */
  function IsRemModeCustom(d: DeviceStruct): (r: bool)
    ensures r <==> d.config.flags & 0x0030 == 0x0030
  {
    DecodeConfig(d.config.flags).remoteMode == RemoteCustom
  }

  /** The remote-mode field is two bits wide, so every configuration word satisfies
      exactly one of the four remote-mode tests. */
  lemma RemoteModeTestsExclusive(d: DeviceStruct)
    ensures (if IsRemModeDisabled(d) then 1 else 0) + (if IsRemModeSnap(d) then 1 else 0)
          + (if IsRemModeMom(d) then 1 else 0) + (if IsRemModeCustom(d) then 1 else 0) == 1
  {
  }

  // ---------------------------------------------------------------------------
  // Status flags
  // ---------------------------------------------------------------------------

  /** IsInvEnabled: the inverter is enabled by network command. */
  function IsInvEnabled(d: DeviceStruct): (r: bool)
    ensures r <==> d.status.allFlags & 0x0008 != 0
  {
    DecodeStatus(d.status.allFlags).invEnabled
  }

  /** IsAcLineValid: the hardware line-OK signal. */
  function IsAcLineValid(d: DeviceStruct): (r: bool)
    ensures r <==> d.status.allFlags & 0x4000 != 0
  {
    DecodeStatus(d.status.allFlags).acLineValid
  }

  /** IsAcLineQualified: the line has been valid for the qualification time. */
  function IsAcLineQualified(d: DeviceStruct): (r: bool)
    ensures r <==> d.status.allFlags & 0x0200 != 0
  {
    DecodeStatus(d.status.allFlags).acLineQualified
  }

  /** IsChgrRelayActive */
  function IsChgrRelayActive(d: DeviceStruct): (r: bool)
    ensures r <==> d.status.allFlags & 0x0400 != 0
  {
    DecodeStatus(d.status.allFlags).chgrRelayActive
  }

  /** IsXferRelayActive */
  function IsXferRelayActive(d: DeviceStruct): (r: bool)
    ensures r <==> d.status.allFlags & 0x0800 != 0
  {
    DecodeStatus(d.status.allFlags).xferRelayActive
  }

  /** IsChgrEnByCan: the charger is enabled by network command. */
  function IsChgrEnByCan(d: DeviceStruct): (r: bool)
    ensures r <==> d.status.allFlags & 0x0010 != 0
  {
    DecodeStatus(d.status.allFlags).chgrEnableCan
  }

  /** IsChgrEnByBcr: the branch circuit rating is non-zero. */
  function IsChgrEnByBcr(d: DeviceStruct): (r: bool)
    ensures r <==> d.status.allFlags & 0x0020 != 0
  {
    DecodeStatus(d.status.allFlags).chgrEnableBcr
  }

  /** IsChgrEnByJmpr: the enable jumper is in place. */
  function IsChgrEnByJmpr(d: DeviceStruct): (r: bool)
    ensures r <==> d.status.allFlags & 0x0040 != 0
  {
    DecodeStatus(d.status.allFlags).chgrEnableJmpr
  }

  /** IsChgrEnByTime: the charge-time flag, read as it is stored. */
  function IsChgrEnByTime(d: DeviceStruct): (r: bool)
    ensures r <==> d.status.allFlags & 0x0080 != 0
  {
    DecodeStatus(d.status.allFlags).chgrEnableTime
  }

  /** IsChgrEnabled: the charger is enabled only when all four enable sources agree,
      that is, when bits 4-7 of the status word are all set. The charge-time flag takes
      part un-negated, like the other three. */
  function IsChgrEnabled(d: DeviceStruct): (r: bool)
    ensures r <==> d.status.allFlags & 0x00F0 == 0x00F0
  {
    IsChgrEnByCan(d) && IsChgrEnByBcr(d) && IsChgrEnByJmpr(d) && IsChgrEnByTime(d)
  }

  /** IsRemoteOn: the hardware remote input. */
  function IsRemoteOn(d: DeviceStruct): (r: bool)
    ensures r <==> d.status.allFlags & 0x8000 != 0
  {
    DecodeStatus(d.status.allFlags).remoteOn
  }

  /** HasInvRequest */
  function HasInvRequest(d: DeviceStruct): (r: bool)
    ensures r <==> d.status.allFlags & 0x0001 != 0
  {
    DecodeStatus(d.status.allFlags).invRequest
  }

  /** HasChgrRequest */
  function HasChgrRequest(d: DeviceStruct): (r: bool)
    ensures r <==> d.status.allFlags & 0x0002 != 0
  {
    DecodeStatus(d.status.allFlags).chgrRequest
  }

  /** HasRelayRequest */
  function HasRelayRequest(d: DeviceStruct): (r: bool)
    ensures r <==> d.status.allFlags & 0x0004 != 0
  {
    DecodeStatus(d.status.allFlags).relayRequest
  }

  /** device_status_aux_input: the auxiliary input level, a plain field read. */
  function DeviceStatusAuxInput(d: DeviceStruct): Int8
  {
    d.status.auxInput
  }

  /** The device with its status flags replaced by the encoding of `f`. */
  function WithStatusFlags(d: DeviceStruct, f: StatusFlags): DeviceStruct
  {
    d.(status := d.status.(allFlags := EncodeStatus(f)))
  }

  /** The sixteen-row truth table of IsChgrEnabled: whatever the other twelve status
      flags, the charger is enabled exactly when all four sub-enables are set. */
  lemma ChgrEnabledTruthTable(d: DeviceStruct, f: StatusFlags, can: bool, bcr: bool, jmpr: bool, time: bool)
    ensures IsChgrEnabled(WithStatusFlags(d, f.(chgrEnableCan := can, chgrEnableBcr := bcr,
                                                  chgrEnableJmpr := jmpr, chgrEnableTime := time)))
            == (can && bcr && jmpr && time)
  {
  }

  /** The charge-time flag is ANDed as stored: with the other three sources enabled, a
      set flag (which the field's comment reads as "a charge timeout has occurred")
      leaves the charger enabled, and a clear flag disables it. */
  lemma ChgrEnabledFollowsTimeFlagAsStored(d: DeviceStruct)
    requires IsChgrEnByCan(d) && IsChgrEnByBcr(d) && IsChgrEnByJmpr(d)
    ensures IsChgrEnabled(d) == IsChgrEnByTime(d)
  {
  }

  // ---------------------------------------------------------------------------
  // Error flags
  // ---------------------------------------------------------------------------

  /** IsXfrmOverTemp: transformer over-temperature. */
  function IsXfrmOverTemp(d: DeviceStruct): (r: bool)
    ensures r <==> d.error & 0x0001 != 0
  {
    DecodeErrors(d.error).xfmrOt
  }

  /** IsHeatSinkOverTemp: heatsink over-temperature. */
  function IsHeatSinkOverTemp(d: DeviceStruct): (r: bool)
    ensures r <==> d.error & 0x0002 != 0
  {
    DecodeErrors(d.error).hsTemp
  }

  /** IsBattOverTemp: battery over-temperature. */
  function IsBattOverTemp(d: DeviceStruct): (r: bool)
    ensures r <==> d.error & 0x0008 != 0
  {
    DecodeErrors(d.error).battOt
  }

  /** IsBattTempSnsOpen: the battery temperature sensor is open. */
  function IsBattTempSnsOpen(d: DeviceStruct): (r: bool)
    ensures r <==> d.error & 0x0010 != 0
  {
    DecodeErrors(d.error).battTempSnsrOpen
  }

  /** IsBattTempSnsShort: the battery temperature sensor is shorted. */
  function IsBattTempSnsShort(d: DeviceStruct): (r: bool)
    ensures r <==> d.error & 0x0020 != 0
  {
    DecodeErrors(d.error).battTempSnsrShort
  }

  /** IsNvmBad: the non-volatile memory chip is bad. */
  function IsNvmBad(d: DeviceStruct): (r: bool)
    ensures r <==> d.error & 0x0004 != 0
  {
    DecodeErrors(d.error).nvmIsBad
  }

  /** Is15VoltBad: the housekeeping supply is low. */
  function Is15VoltBad(d: DeviceStruct): (r: bool)
    ensures r <==> d.error & 0x0040 != 0
  {
    DecodeErrors(d.error).vreg15Invalid
  }

  /** device_error_battery_low: the battery is too low for the charger/transfer relay. */
  function DeviceErrorBatteryLow(d: DeviceStruct): (r: bool)
    ensures r <==> d.error & 0x0080 != 0
  {
    DecodeErrors(d.error).batteryLow
  }

  /** IsDevOverTemp: transformer or heatsink over-temperature, that is, bit 0 or bit 1
      of the error word. */
  function IsDevOverTemp(d: DeviceStruct): (r: bool)
    ensures r <==> d.error & 0x0003 != 0
  {
    IsXfrmOverTemp(d) || IsHeatSinkOverTemp(d)
  }

  /** HasDevAnyErrors: the eight-bit flat view is non-zero, which is the case exactly
      when at least one of the eight named faults is set. */
  function HasDevAnyErrors(d: DeviceStruct): (r: bool)
    ensures r <==> IsXfrmOverTemp(d) || IsHeatSinkOverTemp(d) || IsNvmBad(d) || IsBattOverTemp(d)
                   || IsBattTempSnsOpen(d) || IsBattTempSnsShort(d) || Is15VoltBad(d)
                   || DeviceErrorBatteryLow(d)
  {
    ErrorAllFlags(d.error) != 0
  }

  /** The unused upper byte of the error word never changes HasDevAnyErrors. */
  lemma HasDevAnyErrorsIgnoresUnused(d1: DeviceStruct, d2: DeviceStruct)
    requires d1.error & 0x00FF == d2.error & 0x00FF
    ensures HasDevAnyErrors(d1) == HasDevAnyErrors(d2)
  {
  }

  /** An over-temperature device has an error; the converse fails, e.g. for a bad
      non-volatile memory alone. */
  lemma DevOverTempIsAnError(d: DeviceStruct)
    ensures IsDevOverTemp(d) ==> HasDevAnyErrors(d)
    ensures d.error == 0x0004 ==> HasDevAnyErrors(d) && !IsDevOverTemp(d)
  {
  }

  /** With only the heatsink fault set, the device is over-temperature although the
      transformer is not. */
  lemma HeatsinkAloneIsOverTemp(d: DeviceStruct)
    requires d.error == EncodeErrors(ErrorFlags(false, true, false, false, false, false, false, false))
    ensures IsDevOverTemp(d) && IsHeatSinkOverTemp(d) && !IsXfrmOverTemp(d)
  {
  }
}
