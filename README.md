# Device-state registers of an inverter/charger controller

This project models `dsPIC/src/common/device.h`: the vocabulary of device state shared by
the inverter/charger firmware and read by external diagnostic tools over the field bus.
The header declares three packed 16-bit registers: status, configuration and errors.
Each is a union of a flat word (`all_flags`) and a named bit-field view. Around them the
header defines:

- the configuration packer `DEVICE_CFG_ALL_FLAGS` with its helpers `BITF1`/`BITF2`;
- the ROM default configuration `DeviceConfigDefaults`, which is chosen per hardware
  model and per build option;
- the accessor macros, including the composite conditions `IsChgrEnabled`,
  `IsDevOverTemp` and `HasDevAnyErrors`.

The model keeps each register as a `bv16` word. The named view is a record of booleans
and 2-bit enumerations, with explicit decode and encode functions. The unions, memory
reinterpretation and `#pragma pack` are not used. Modules, leaves first:

- `CTypes`: the fixed-width integer types and the `(uint16_t)` / `(int16_t)` conversions.
- `Modes`: `REMOTE_MODE_t` and `AUX_MODE_t`, with their enumeration constants.
- `Bits`: `PackByte`, eight flags as a byte, from which the status and error words are
  built; `Bit`, the bit at a position 0..15; and the fact that a word is determined by
  its bits.
- `StatusRegister`, `ConfigRegister`, `ErrorRegister`: the three layouts. `ConfigRegister`
  also holds `BITF1`, `BITF2` and `DEVICE_CFG_ALL_FLAGS`.
- `Device`: `DEVICE_STRUCT_t` and every accessor macro, as functions of a `DeviceStruct`
  value that stands for the global `Device`.
- `Defaults`: the per-model default profile and the build switches as a `BuildOptions`
  value. The functions are `ProfileOf`, `DefaultTempSensorPresent`,
  `DefaultTmrShutdownDelay`, `DefaultAcLineQualDelay`, `DefaultFlags` and
  `DeviceConfigDefaults`.

The decoders `DecodeStatus` and `DecodeErrors` test the masks the header gives in the
comments of each bit-field. The configuration fields carry no mask comments. Their
positions follow from the field widths in declaration order, which the packer
`DEVICE_CFG_ALL_FLAGS` relies on (line 178), and `DecodeConfig` tests those positions. Their properties are stated by the encoders and the round-trip
lemmas listed below.

The header marks the bit order of all three registers as an external interface, read by
diagnostic and test tools. Each register therefore also has a bit-position table
(`StatusFlagAt`, `ConfigBitAt`, `ErrorFlagAt`) that names the flag carried at each
position. The table is stated independently of the masks. For each register there are
two lemmas against its table. The word for a named view follows the table bit by bit.
Conversely, a word that agrees with the table at every position is that view's word.

Where the header's comments and its code disagree, the model follows the code:

- `IsChgrEnabled` ANDs `chgr_enable_time` as stored. The field's comment says 1 means "a
  charge timeout has occurred". A reading of "enabled" as "no timeout" would negate the
  flag, and the code does not.
- The comment on `remote_mode` (line 184) calls the value 3 undefined. The enumeration
  defines `REMOTE_CUSTOM = 3` (line 37), and `IsRemModeCustom` tests for it (line 280).
  The model has the mode `RemoteCustom`.

Two facts about the code that the model states:

- `BITF1` and `BITF2` cut each argument of `DEVICE_CFG_ALL_FLAGS` to its field width.
  Remote mode 5 packs as 1, 4 as 0 and 6 as 2.
- The default flag words are 0x211 (12LP15) and 0x327 (standard). With the charger enable
  switch option they are 0x011 and 0x127.

## Model

| member | source | states |
|---|---|---|
| `CTypes.ToInt16` | dsPIC/src/common/device.h:87-88 | the `(int16_t)` cast keeps values in -32768..32767 and is congruent modulo 2^16 otherwise |
| `CTypes.U16OfSmall` | dsPIC/src/common/device.h:198-199 | the `(uint16_t)` cast leaves a value in 0..65535 unchanged |
| `CTypes.ToInt16KeepsExactlyInRange` | dsPIC/src/common/device.h:87-88 | the cast returns its argument exactly when the argument is in range |
| `Modes.RemoteMode.Code` | dsPIC/src/common/device.h:32-38 | the remote-mode constants are 0..3 |
| `Modes.AuxMode.Code` | dsPIC/src/common/device.h:41-47 | the auxiliary-mode constants are 0..3 |
| `Modes.RemoteModeOf` | dsPIC/src/common/device.h:32-38 | every 2-bit field value names the remote mode whose constant it is |
| `Modes.AuxModeOf` | dsPIC/src/common/device.h:41-47 | every 2-bit field value names the auxiliary mode whose constant it is |
| `Modes.RemoteCodeRoundTrip` | dsPIC/src/common/device.h:32-38 | writing a remote-mode constant into the 2-bit field and reading it back gives the same mode |
| `Modes.AuxCodeRoundTrip` | dsPIC/src/common/device.h:41-47 | the same for auxiliary modes |
| `Modes.RemoteModeBits` | dsPIC/src/common/device.h:184 | the low bit of the remote-mode field is set exactly for snap and custom, the high bit exactly for momentary and custom |
| `Modes.AuxModeBits` | dsPIC/src/common/device.h:185 | the low bit of the auxiliary-mode field is set exactly for RV and wired control, the high bit exactly for utility and wired control |
| `Bits.PackByte` | dsPIC/src/common/device.h:229-239 | eight flags land on masks 0x01..0x80 in order, and the high byte stays clear |
| `Bits.BitsDetermineWord` | dsPIC/src/common/device.h:106-111 | the flat word is determined by its bits: agreement at every position implies equality; the three `TableDetermines*` lemmas rest on it |
| `StatusRegister.EncodeStatus` | dsPIC/src/common/device.h:106-141 | the word written through the named view reads back as the same 16 flags: flag k is at mask 2^k |
| `StatusRegister.StatusWordRoundTrip` | dsPIC/src/common/device.h:110-140 | every 16-bit status word is the encoding of its own named flags, so the view is lossless |
| `StatusRegister.DecodeStatusInjective` | dsPIC/src/common/device.h:110-140 | two status words with equal named flags are equal |
| `StatusRegister.StatusWordFollowsTable` | dsPIC/src/common/device.h:114-140 | every status word follows the position table of its own named view, at all 16 positions |
| `StatusRegister.EncodeStatusFollowsTable` | dsPIC/src/common/device.h:114-140 | the word written through the named view has flag k at bit k, as the external interface fixes |
| `StatusRegister.TableDeterminesStatusWord` | dsPIC/src/common/device.h:114-140 | a word read bit by bit that matches the table for a view is that view's encoding, and decodes to it |
| `ErrorRegister.EncodeErrors` | dsPIC/src/common/device.h:217-246 | the 8 faults read back unchanged from bits 0-7, and the unused byte is zero |
| `ErrorRegister.ErrorAllFlags` | dsPIC/src/common/device.h:229-245 | the 8-bit flat view overlays the faults bit for bit: it has the word's named view and equals the encoding of its faults, so it is at most 0xFF and zero exactly when no fault is set |
| `ErrorRegister.ErrorWordRoundTrip` | dsPIC/src/common/device.h:229-244 | re-encoding the named view of any error word gives its low byte |
| `ErrorRegister.DecodeErrorsIgnoresUnused` | dsPIC/src/common/device.h:239-244 | the unused high byte never shows in the named view |
| `ErrorRegister.EncodeErrorsFollowsTable` | dsPIC/src/common/device.h:221-239 | the encoded word has fault k at bit k for k in 0..7 and nothing at bits 8-15 |
| `ErrorRegister.TableDeterminesErrorWord` | dsPIC/src/common/device.h:221-239 | a word that matches the fault table at every position is that view's encoding, and decodes to it |
| `ConfigRegister.ConfigAllFlags` | dsPIC/src/common/device.h:164-168 | the 10-bit flat view is at most 0x3FF and has the same named view as the word |
| `ConfigRegister.BitF1` | dsPIC/src/common/device.h:198 | the result is 0 or the single bit `bitno`, set exactly when the converted argument is odd |
| `ConfigRegister.BitF2` | dsPIC/src/common/device.h:199 | the result is the converted argument's low two bits moved to `bitno`, with nothing below `bitno` |
| `ConfigRegister.CfgAllFlags` | dsPIC/src/common/device.h:198-210 | each argument, cut to 1 or 2 bits, decodes from its documented position (bit 0 inv ... bit 9 temp sensor); bits 10-15 are zero |
| `ConfigRegister.EncodeConfig` | dsPIC/src/common/device.h:179-189 | a configuration word built by the packer from a named view has bits 10-15 clear |
| `ConfigRegister.DecodeEncodeConfig` | dsPIC/src/common/device.h:179-189 | decoding the packer's word for a named view gives back that view |
| `ConfigRegister.ConfigWordRoundTrip` | dsPIC/src/common/device.h:164-189 | packing the decoded view of any word gives the word's 10 defined bits, with the unused bits ignored |
| `ConfigRegister.DecodeConfigInjective` | dsPIC/src/common/device.h:179-189 | on words with clear unused bits, the named view determines the word |
| `ConfigRegister.PackerCutsRemoteMode` | dsPIC/src/common/device.h:199-207 | remote mode 5 packs as 0x0010 (snap), 4 as disabled and 6 as momentary |
| `ConfigRegister.PackerCutsOtherFields` | dsPIC/src/common/device.h:198-208 | an enable of 2 packs as 0 and auxiliary mode 7 as 3 (0x00C0) |
| `ConfigRegister.ConfigWordFollowsTable` | dsPIC/src/common/device.h:164-189 | every configuration word with clear unused bits follows the position table of its own named view |
| `ConfigRegister.EncodeConfigFollowsTable` | dsPIC/src/common/device.h:178-210 | the packer's word for a named view follows the position table bit by bit |
| `ConfigRegister.TableDeterminesConfigWord` | dsPIC/src/common/device.h:178-210 | a word that matches the table for a view at every position is the packer's word for it, and decodes to it |
| `Device.IsCfgChgrEnabled` | dsPIC/src/common/device.h:275 | reads configuration bit 1 (0x0002) |
| `Device.IsRemModeDisabled` | dsPIC/src/common/device.h:277 | true exactly when bits 4-5 of the configuration hold 0 |
| `Device.IsRemModeSnap` | dsPIC/src/common/device.h:278 | true exactly when bits 4-5 hold 1 |
| `Device.IsRemModeMom` | dsPIC/src/common/device.h:279 | true exactly when bits 4-5 hold 2 |
| `Device.IsRemModeCustom` | dsPIC/src/common/device.h:280 | true exactly when bits 4-5 hold 3 |
| `Device.RemoteModeTestsExclusive` | dsPIC/src/common/device.h:277-280 | every configuration satisfies exactly one of the four remote-mode tests |
| `Device.IsInvEnabled` | dsPIC/src/common/device.h:284 | reads status mask 0x0008 |
| `Device.IsAcLineValid` | dsPIC/src/common/device.h:285 | reads status mask 0x4000 |
| `Device.IsAcLineQualified` | dsPIC/src/common/device.h:286 | reads status mask 0x0200 |
| `Device.IsChgrRelayActive` | dsPIC/src/common/device.h:287 | reads status mask 0x0400 |
| `Device.IsXferRelayActive` | dsPIC/src/common/device.h:288 | reads status mask 0x0800 |
| `Device.IsChgrEnByCan` | dsPIC/src/common/device.h:289 | reads status mask 0x0010 |
| `Device.IsChgrEnByBcr` | dsPIC/src/common/device.h:290 | reads status mask 0x0020 |
| `Device.IsChgrEnByJmpr` | dsPIC/src/common/device.h:291 | reads status mask 0x0040 |
| `Device.IsChgrEnByTime` | dsPIC/src/common/device.h:292 | reads status mask 0x0080 |
| `Device.IsChgrEnabled` | dsPIC/src/common/device.h:293 | true exactly when all four charger sub-enable bits 4-7 are set (mask 0x00F0) |
| `Device.ChgrEnabledTruthTable` | dsPIC/src/common/device.h:289-293 | for all 16 combinations of the sub-enables, and any other status flags, the result is their conjunction |
| `Device.ChgrEnabledFollowsTimeFlagAsStored` | dsPIC/src/common/device.h:127-130 | with the other three sources set, the result equals the un-negated charge-time flag |
| `Device.IsRemoteOn` | dsPIC/src/common/device.h:294 | reads status mask 0x8000 |
| `Device.HasInvRequest` | dsPIC/src/common/device.h:295 | reads status mask 0x0001 |
| `Device.HasChgrRequest` | dsPIC/src/common/device.h:296 | reads status mask 0x0002 |
| `Device.HasRelayRequest` | dsPIC/src/common/device.h:297 | reads status mask 0x0004 |
| `Device.IsXfrmOverTemp` | dsPIC/src/common/device.h:301 | reads error mask 0x0001 |
| `Device.IsHeatSinkOverTemp` | dsPIC/src/common/device.h:302 | reads error mask 0x0002 |
| `Device.IsBattOverTemp` | dsPIC/src/common/device.h:303 | reads error mask 0x0008 |
| `Device.IsBattTempSnsOpen` | dsPIC/src/common/device.h:304 | reads error mask 0x0010 |
| `Device.IsBattTempSnsShort` | dsPIC/src/common/device.h:305 | reads error mask 0x0020 |
| `Device.IsNvmBad` | dsPIC/src/common/device.h:306 | reads error mask 0x0004 |
| `Device.Is15VoltBad` | dsPIC/src/common/device.h:307 | reads error mask 0x0040 |
| `Device.IsDevOverTemp` | dsPIC/src/common/device.h:308 | true exactly when error bit 0 or bit 1 is set |
| `Device.HasDevAnyErrors` | dsPIC/src/common/device.h:309 | true exactly when at least one of the eight named faults is set |
| `Device.DeviceErrorBatteryLow` | dsPIC/src/common/device.h:310 | reads error mask 0x0080 |
| `Device.HasDevAnyErrorsIgnoresUnused` | dsPIC/src/common/device.h:239-244 | the unused high byte of the error word never changes the any-error result |
| `Device.DevOverTempIsAnError` | dsPIC/src/common/device.h:308-309 | over-temperature implies an error; a bad memory alone (0x0004) is an error without over-temperature |
| `Device.HeatsinkAloneIsOverTemp` | dsPIC/src/common/device.h:301-308 | with only the heatsink fault set, the device is over-temperature and the transformer is not |
| `Defaults.DefaultTmrShutdownDelay` | dsPIC/src/common/device.h:87 | the default timer-shutdown delay is 3600 seconds |
| `Defaults.DefaultAcLineQualDelay` | dsPIC/src/common/device.h:88 | the default qualification delay equals seconds times 1000 exactly when seconds is in -32..32 |
| `Defaults.DefaultFlags` | dsPIC/src/common/device.h:333-346 | the default flag word has bits 10-15 clear |
| `Defaults.DeviceConfigDefaults` | dsPIC/src/common/device.h:333-349 | the defaults have clear unused bits, a 3600 s shutdown delay, and an exact millisecond delay when in range |
| `Defaults.DefaultProfileFields` | dsPIC/src/common/device.h:60-85 | the decoded defaults are each model's profile; the temperature sensor is present unless the switch option is set |
| `Defaults.DefaultFlagWords` | dsPIC/src/common/device.h:326-346 | the flag word is 0x211 / 0x011 (12LP15, without / with the switch option) and 0x327 / 0x127 (standard) |
| `Defaults.ProfilesDiffer` | dsPIC/src/common/device.h:60-85 | the two models' words differ exactly in bits 1, 2, 4, 5 and 8 (XOR 0x0136), and their delays are equal |

`Device.DeviceStatusAuxInput` (`device_status_aux_input`, line 311) is a plain read of the
`aux_input` field and carries no contract. `Defaults.ProfileOf` and
`Defaults.DefaultTempSensorPresent` hold the constant tables of lines 60-85 and 326-331.
Their content is stated by `DefaultProfileFields` and `DefaultFlagWords`. `Bits.Bit` and
the position tables `StatusFlagAt`, `ConfigBitAt` and `ErrorFlagAt` are reference
definitions. They are stated by the table lemmas above.

The following are proof helpers and carry no row of their own:
- `ConfigRegister.BoolArg` turns a truth value into the 0/1 argument the packer takes.
- `Device.WithStatusFlags` replaces the status flag word of a `DeviceStruct`, for the
  charger truth table.
- `Modes.CodesConvertUnchanged` and `ConfigRegister.BoolArgSurvivesCut` are arithmetic
  facts about the `(uint16_t)` conversion of 0..3 and of 0/1.
- `Bits.SameBitsSameWord` is `BitsDetermineWord` with the sixteen positions listed one
  by one.
- `StatusLowByteBits`, `StatusHighByteBits`, `ConfigFlagBits`, `ConfigModeBits` and
  `ConfigUnusedBits` split the table lemmas `StatusWordFollowsTable` and
  `ConfigWordFollowsTable` into parts small enough to prove.

## Left out

- Battery thresholds `DEVICE_BATT_LOW_SHUTDOWN` and `DEVICE_BATT_HYSTERESIS` (lines 90-96) are floating-point voltages converted by `VBATT_VOLTS_ADC`. That macro is not part of this model.
- `OPTION_AC_LINE_QUAL_SECS` comes from `options.h`, which is not part of this model, so it is the parameter `BuildOptions.acLineQualSecs`, assumed integral. A fractional value would make the C product a `double`, which is not modelled. The product `secs * 1000` is computed without bound before the `(int16_t)` cast. On a target with 16-bit `int`, the C multiplication itself overflows beyond the same ±32 s range.
- `dev_MainState`, `dev_CheckVReg15` and `dev_ResetCheckVReg15` (lines 315, 352-354) are only declared in this header. Their bodies are not part of this model.
- The global `extern DEVICE_STRUCT_t Device` is a `DeviceStruct` parameter of each accessor. Interrupt-versus-main-loop interleaving and torn reads are not modelled, since the header has no synchronisation.
- Compiler bit-field allocation, `#pragma pack` byte order and the 4-byte storage size are not modelled. The layouts are stated as masks and shifts on a 16-bit word.
- The scalar status and configuration fields (temperatures, timers, disabled source, aux input, delays) are bounded-integer storage with no logic in this header.
- The `unused`/`unused2` bit-fields of the configuration and error registers have no accessors in the header. The model only states that they are ignored on decode and zero on construction.
- `ConfigRegister.CfgAllFlags`: states the cut of each argument in terms of the low bits of its 16-bit conversion. It does not restate that as "the argument modulo 2 or 4" on integers. The low bits of the 16-bit conversion are that residue, and the concrete cases are in `PackerCutsRemoteMode` and `PackerCutsOtherFields`.
