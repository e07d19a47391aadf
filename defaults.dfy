/** The ROM default configuration DeviceConfigDefaults: a per-model profile of field
    values, the temperature-sensor option, and the two delay constants, packed with
    DEVICE_CFG_ALL_FLAGS. The build switches become a value of BuildOptions. */
module Defaults {
  import opened CTypes
  import opened Modes
  import opened ConfigRegister

  /** The hardware model the firmware is built for. */
  datatype HardwareModel = Model12LP15 | StandardModel

  /** The build-time switches the defaults depend on: the model, whether the charger
      enable switch option is fitted, and the AC-line qualification time in seconds
      (a constant of the build options that is not part of this model). */
  datatype BuildOptions = BuildOptions(model: HardwareModel, hasChgrEnSwitch: bool, acLineQualSecs: int)

  /** The DEVICE_DFLT_* field values of one model, as the integers the packer takes. */
  datatype DefaultProfile = DefaultProfile(
    inverterEnable: int,
    chargerEnable: int,
    passThruEnable: int,
    tmrShutdownEnable: int,
    pushbuttonEnable: int,
    remoteMode: int,
    auxMode: int)

  /** The profile table: the 12LP15 has no charger hardware and uses the snap remote
      mode; the standard build enables charger, pass-through and push button and uses
      the momentary remote mode. */
  function ProfileOf(m: HardwareModel): DefaultProfile
  {
    match m
    case Model12LP15 => DefaultProfile(1, 0, 0, 0, 0, RemoteSnap.Code(), AuxDisabled.Code())
    case StandardModel => DefaultProfile(1, 1, 1, 0, 1, RemoteMomentary.Code(), AuxDisabled.Code())
  }

  /** DEVICE_DFLT_TEMP_SENSOR_PRESENT: the charger enable switch occupies the sensor jack. */
  function DefaultTempSensorPresent(hasChgrEnSwitch: bool): int
  {
    if hasChgrEnSwitch then 0 else 1
  }

  /** DEVICE_DFLT_TMR_SHUTDOWN_DELAY: sixty minutes in seconds. */
  function DefaultTmrShutdownDelay(): (r: Int16)
    ensures r == 3600
  {
    ToInt16(60 * 60)
  }

  /** DEVICE_DFLT_AC_LINE_QUAL_DELAY: the qualification time in milliseconds, converted
      to int16_t; exact for -32 .. 32 seconds and wrapped outside that range. */
  function DefaultAcLineQualDelay(secs: int): (r: Int16)
    ensures r as int == secs * 1000 <==> -32 <= secs <= 32
  {
    ToInt16KeepsExactlyInRange(secs * 1000);
    ToInt16(secs * 1000)
  }

  /** The flag word of DeviceConfigDefaults: the profile packed by DEVICE_CFG_ALL_FLAGS
      and stored in the ten-bit `all_flags` field, so the unused bits are zero. */
  function DefaultFlags(m: HardwareModel, hasChgrEnSwitch: bool): (w: bv16)
    ensures w & 0xFC00 == 0
  {
    var p := ProfileOf(m);
    ConfigAllFlags(CfgAllFlags(p.inverterEnable, p.chargerEnable, p.passThruEnable, p.tmrShutdownEnable,
                               p.remoteMode, p.auxMode, p.pushbuttonEnable,
                               DefaultTempSensorPresent(hasChgrEnSwitch)))
  }

  /** DeviceConfigDefaults: the default flag word and the two default delays. */
  function DeviceConfigDefaults(o: BuildOptions): (c: DeviceConfig)
    ensures c.flags & 0xFC00 == 0
    ensures c.tmrShutdownDelay == 3600
    ensures c.acLineQualDelay as int == o.acLineQualSecs * 1000 <==> -32 <= o.acLineQualSecs <= 32
  {
    DeviceConfig(
      DefaultFlags(o.model, o.hasChgrEnSwitch),
      DefaultTmrShutdownDelay(),
      DefaultAcLineQualDelay(o.acLineQualSecs))
  }

  /** The named view of the default word is the model's profile: inverter on, timer
      shutdown and auxiliary mode off on both models; charger, pass-through and push
      button on and momentary remote mode only on the standard model (snap otherwise);
      temperature sensor present unless the charger enable switch is fitted. */
  lemma DefaultProfileFields(o: BuildOptions)
    ensures var f := DecodeConfig(DeviceConfigDefaults(o).flags);
            && f.invEnabled
            && f.chgrEnabled == (o.model == StandardModel)
            && f.passThruEnabled == (o.model == StandardModel)
            && !f.tmrShutdownEnabled
            && f.remoteMode == (if o.model == StandardModel then RemoteMomentary else RemoteSnap)
            && f.auxMode == AuxDisabled
            && f.pushbuttonEnabled == (o.model == StandardModel)
            && f.battTempSensePresent == !o.hasChgrEnSwitch
  {
    DefaultFlagWords(o);
  }

  /** The four ROM flag words as numbers, as diagnostic tooling reads them. */
  lemma DefaultFlagWords(o: BuildOptions)
    ensures DeviceConfigDefaults(o).flags ==
      match (o.model, o.hasChgrEnSwitch)
      case (Model12LP15, false) => 0x0211
      case (Model12LP15, true) => 0x0011
      case (StandardModel, false) => 0x0327
      case (StandardModel, true) => 0x0127
  {
    var p := ProfileOf(o.model);
    var t := DefaultTempSensorPresent(o.hasChgrEnSwitch);
    if o.model == Model12LP15 {
      assert p == DefaultProfile(1, 0, 0, 0, 0, 1, 0);
    } else {
      assert p == DefaultProfile(1, 1, 1, 0, 1, 2, 0);
    }
  }

  /** For the same options otherwise, the two models' words differ exactly in bits 1, 2,
      4, 5 and 8 (charger, pass-through, remote mode and push button), and agree on the
      delays. */
  lemma ProfilesDiffer(sw: bool, secs: int)
    ensures var a := DeviceConfigDefaults(BuildOptions(Model12LP15, sw, secs));
            var b := DeviceConfigDefaults(BuildOptions(StandardModel, sw, secs));
            && a.flags ^ b.flags == 0x0136
            && a.tmrShutdownDelay == b.tmrShutdownDelay
            && a.acLineQualDelay == b.acLineQualDelay
  {
    DefaultFlagWords(BuildOptions(Model12LP15, sw, secs));
    DefaultFlagWords(BuildOptions(StandardModel, sw, secs));
  }
}
