/** The two 2-bit operating-mode enumerations of the configuration register. */
module Modes {
  import opened CTypes

  /** REMOTE_MODE_t: how the remote on/off input is interpreted. */
  datatype RemoteMode = RemoteDisabled | RemoteSnap | RemoteMomentary | RemoteCustom
  {
    /** The C enumeration constant. */
    function Code(): (c: int)
      ensures 0 <= c < 4
    {
      match this
      case RemoteDisabled => 0
      case RemoteSnap => 1
      case RemoteMomentary => 2
      case RemoteCustom => 3
    }
  }

  /** AUX_MODE_t: how the auxiliary input is used. */
  datatype AuxMode = AuxDisabled | AuxRv | AuxUtility | AuxControl
  {
    /** The C enumeration constant. */
    function Code(): (c: int)
      ensures 0 <= c < 4
    {
      match this
      case AuxDisabled => 0
      case AuxRv => 1
      case AuxUtility => 2
      case AuxControl => 3
    }
  }

  /** The remote mode a 2-bit field value names: every value 0..3 names one. */
  function RemoteModeOf(v: bv16): (m: RemoteMode)
    requires v <= 3
    ensures U16(m.Code()) == v
  {
    if v == 0 then RemoteDisabled
    else if v == 1 then RemoteSnap
    else if v == 2 then RemoteMomentary
    else RemoteCustom
  }

  /** The auxiliary mode a 2-bit field value names: every value 0..3 names one. */
  function AuxModeOf(v: bv16): (m: AuxMode)
    requires v <= 3
    ensures U16(m.Code()) == v
  {
    if v == 0 then AuxDisabled
    else if v == 1 then AuxRv
    else if v == 2 then AuxUtility
    else AuxControl
  }

  /** The four enumeration constants convert to the 16-bit values 0..3. */
  lemma CodesConvertUnchanged()
    ensures U16(0) == 0 && U16(1) == 1 && U16(2) == 2 && U16(3) == 3
  {
    U16OfSmall(0);
    U16OfSmall(1);
    U16OfSmall(2);
    U16OfSmall(3);
  }

  /** Reading back the field written from an enumeration constant gives that constant. */
  lemma RemoteCodeRoundTrip(m: RemoteMode)
    ensures U16(m.Code()) <= 3 && RemoteModeOf(U16(m.Code())) == m
  {
    CodesConvertUnchanged();
  }

  lemma AuxCodeRoundTrip(m: AuxMode)
    ensures U16(m.Code()) <= 3 && AuxModeOf(U16(m.Code())) == m
  {
    CodesConvertUnchanged();
  }

  /** The two bits of a remote-mode field: the low bit is set for snap and custom, the
      high bit for momentary and custom. */
  lemma RemoteModeBits(v: bv16)
    requires v <= 3
    ensures (RemoteModeOf(v) == RemoteSnap || RemoteModeOf(v) == RemoteCustom) == (v & 1 == 1)
    ensures (RemoteModeOf(v) == RemoteMomentary || RemoteModeOf(v) == RemoteCustom) == (v & 2 == 2)
  {
  }

  /** The two bits of an auxiliary-mode field: the low bit is set for RV and control, the
      high bit for utility and control. */
  lemma AuxModeBits(v: bv16)
    requires v <= 3
    ensures (AuxModeOf(v) == AuxRv || AuxModeOf(v) == AuxControl) == (v & 1 == 1)
    ensures (AuxModeOf(v) == AuxUtility || AuxModeOf(v) == AuxControl) == (v & 2 == 2)
  {
  }
}
