/** The older packet codec. Its header redefines the names of the current codec and cannot be
    built beside it, so it lives in its own module. The two share the union, the float, the
    axis and field enumerations and the notion of a target, which are taken from `CommPacket`
    so that the divergences can be stated against it:
    - D is addressed by codes `xx11`, both `xx10` and `xx11` write D, and trim is never written;
    - `build_packet` packs only the armed bit and leaves the gain value as it was;
    - `is_armed` tests the low nibble rather than bit 7;
    - `check_packet` returns nothing. */
module RadioPacket {
  import opened Arduino
  import CommPacket

  const MAGIC_BYTE: bv8 := 0x37
  const TELEMETRY_MAGIC_BYTE: bv8 := 0xAA

  const COMPLEMENTARY_GAIN: bv8 := 0x1
  const GYRO_HIGHPASS: bv8 := 0x2
  const XL_LOWPASS: bv8 := 0x3

  const PITCH_P: bv8 := 0x4
  const PITCH_I: bv8 := 0x5
  const PITCH_D: bv8 := 0x7
  const YAW_P: bv8 := 0x8
  const YAW_I: bv8 := 0x9
  const YAW_D: bv8 := 0xB
  const ROLL_P: bv8 := 0xC
  const ROLL_I: bv8 := 0xD
  const ROLL_D: bv8 := 0xF

  const FRONT_LEFT: bv8 := 0x0
  const FRONT_RIGHT: bv8 := 0x1
  const BACK_LEFT: bv8 := 0x2
  const BACK_RIGHT: bv8 := 0x3

  /** The legacy header's constants: the same magic bytes as the current codec, no code for
      "no parameter" and none for trim, and D at `xx11` where the current codec puts trim. */
  lemma LegacyConstants()
    ensures MAGIC_BYTE == CommPacket.MAGIC_BYTE && TELEMETRY_MAGIC_BYTE == CommPacket.TELEMETRY_MAGIC_BYTE
    ensures {COMPLEMENTARY_GAIN, GYRO_HIGHPASS, XL_LOWPASS, PITCH_P, PITCH_I, PITCH_D, YAW_P, YAW_I, YAW_D,
             ROLL_P, ROLL_I, ROLL_D} == {1, 2, 3, 4, 5, 7, 8, 9, 11, 12, 13, 15}
    ensures PITCH_D == CommPacket.PITCH_TRIM && YAW_D == CommPacket.YAW_TRIM && ROLL_D == CommPacket.ROLL_TRIM
  {
  }

  /** The legacy `PIDValues`: its fourth field is called `t`. */
  datatype PidValues = PidValues(p: CommPacket.Float, i: CommPacket.Float, d: CommPacket.Float, t: CommPacket.Float)

  class Packet {
    var magicNumber: bv8
    var features: bv8
    var gainValue: CommPacket.ParameterValue
    var throttle: bv8
    var pitch: Int8
    var roll: Int8
    var yaw: Int8
  }

  function GetSelectedParameter(p: Packet): (code: bv8)
    reads p
    ensures code < 16
    ensures code == CommPacket.MiscParameter(p.features)
  {
    p.features & 0x0F
  }

  /** `is_armed` as written: the low nibble of `features` converted to `bool`, which is where
      the parameter address lives, not the armed bit. */
  predicate IsArmed(p: Packet)
    reads p
    ensures IsArmed(p) <==> GetSelectedParameter(p) != 0
  {
    p.features & 0x0F != 0
  }

  /** The armed test `build_packet` calls for: bit 7 of `features`. */
  predicate IsArmedBit7(p: Packet)
    reads p
    ensures IsArmedBit7(p) <==> p.features >= 0x80
  {
    p.features & 0x80 != 0
  }

  /** What `build_packet(armed = true, ...)` leaves in `features` reads as not armed. */
  lemma IsArmedMissesArmedBit(p: Packet)
    requires p.features == CommPacket.Bit(true) << 7
    ensures !IsArmed(p) && IsArmedBit7(p)
  {
  }

  /** `check_packet` as written: the comparison with the magic byte is evaluated and dropped,
      and control flows off the end of a function returning `bool`, which C++ leaves undefined.
      The model returns whatever the caller finds in place of a result, `leftover`. */
  predicate CheckPacketAsWritten(packet: Packet, leftover: bool)
    reads packet
    ensures packet.magicNumber != MAGIC_BYTE && leftover ==> CheckPacketAsWritten(packet, leftover)
    ensures packet.magicNumber == MAGIC_BYTE && !leftover ==> !CheckPacketAsWritten(packet, leftover)
  {
    leftover
  }

  /** The evidently intended check: the packet carries the magic byte. */
  predicate CheckPacket(packet: Packet)
    reads packet
    ensures CheckPacket(packet) <==> packet.magicNumber == 0x37
    ensures CheckPacket(packet) ==> packet.magicNumber != TELEMETRY_MAGIC_BYTE
  {
    packet.magicNumber == MAGIC_BYTE
  }

  /** Whatever the magic byte, the as-written check answers with `leftover`: a packet without
      the magic byte can be accepted, and one with it can be rejected. */
  lemma CheckPacketAsWrittenIgnoresMagic(packet: Packet, leftover: bool)
    ensures CheckPacketAsWritten(packet, leftover) == leftover
    ensures packet.magicNumber != MAGIC_BYTE && leftover ==> CheckPacketAsWritten(packet, leftover) && !CheckPacket(packet)
    ensures packet.magicNumber == MAGIC_BYTE && !leftover ==> !CheckPacketAsWritten(packet, leftover) && CheckPacket(packet)
  {
  }

  /** `build_packet` writes the magic byte, only the armed bit of `features`, and the four
      sticks; the gain value keeps whatever the packet held. */
  method BuildPacket(packet: Packet, armed: bool, throttle: bv8, pitch: Int8, roll: Int8, yaw: Int8)
    modifies packet
    ensures packet.magicNumber == MAGIC_BYTE && packet.features == CommPacket.Bit(armed) << 7
    ensures packet.gainValue == old(packet.gainValue)
    ensures packet.throttle == throttle && packet.pitch == pitch && packet.roll == roll && packet.yaw == yaw
    ensures CheckPacket(packet) && GetSelectedParameter(packet) == 0
    ensures !IsArmed(packet) && IsArmedBit7(packet) == armed
  {
    packet.magicNumber := MAGIC_BYTE;
    packet.features := CommPacket.Bit(armed) << 7;
    packet.throttle := throttle;
    packet.pitch := pitch;
    packet.roll := roll;
    packet.yaw := yaw;
  }

  /** The target the legacy `setParametersFromPacket` writes for an address: the global codes
      and the axis as in the current codec, but the field by `00` P, `01` I and D otherwise.
      It never names trim, and it differs from the current codec exactly on the trim codes. */
  function Route(code: bv8): (t: CommPacket.Target)
    ensures !(t.Pid? && t.field == CommPacket.Trim)
    ensures code < 16 && !(CommPacket.Classify(code).Pid? && CommPacket.Classify(code).field == CommPacket.Trim) ==>
      t == CommPacket.Classify(code)
    ensures code < 16 && CommPacket.Classify(code).Pid? && CommPacket.Classify(code).field == CommPacket.Trim ==>
      t == CommPacket.Pid(CommPacket.Classify(code).axis, CommPacket.D)
  {
    if code & 0xC == 0x0 then
      if code == COMPLEMENTARY_GAIN then CommPacket.Complementary
      else if code == GYRO_HIGHPASS then CommPacket.GyroHighpass
      else if code == XL_LOWPASS then CommPacket.XlLowpass
      else CommPacket.Unused
    else
      var axis := if code & 0xC == 0x4 then CommPacket.Pitch
                  else if code & 0xC == 0x8 then CommPacket.Yaw
                  else CommPacket.Roll;
      var field := if code & 0x3 == 0x0 then CommPacket.P
                   else if code & 0x3 == 0x1 then CommPacket.I
                   else CommPacket.D;
      CommPacket.Pid(axis, field)
  }

  /** Each legacy address constant routes to the slot it is named after; the code after each
      P and I that the legacy header leaves unnamed (`xx10`) also writes D. */
  lemma RouteConstants()
    ensures Route(COMPLEMENTARY_GAIN) == CommPacket.Complementary
    ensures Route(GYRO_HIGHPASS) == CommPacket.GyroHighpass && Route(XL_LOWPASS) == CommPacket.XlLowpass
    ensures Route(PITCH_P) == CommPacket.Pid(CommPacket.Pitch, CommPacket.P)
    ensures Route(PITCH_I) == CommPacket.Pid(CommPacket.Pitch, CommPacket.I)
    ensures Route(PITCH_D) == CommPacket.Pid(CommPacket.Pitch, CommPacket.D)
    ensures Route(YAW_P) == CommPacket.Pid(CommPacket.Yaw, CommPacket.P)
    ensures Route(YAW_I) == CommPacket.Pid(CommPacket.Yaw, CommPacket.I)
    ensures Route(YAW_D) == CommPacket.Pid(CommPacket.Yaw, CommPacket.D)
    ensures Route(ROLL_P) == CommPacket.Pid(CommPacket.Roll, CommPacket.P)
    ensures Route(ROLL_I) == CommPacket.Pid(CommPacket.Roll, CommPacket.I)
    ensures Route(ROLL_D) == CommPacket.Pid(CommPacket.Roll, CommPacket.D)
    ensures Route(0x6) == Route(PITCH_D) && Route(0xA) == Route(YAW_D) && Route(0xE) == Route(ROLL_D)
  {
  }

  function FieldOf(values: PidValues, field: CommPacket.PidField): CommPacket.Float
  {
    match field
    case P => values.p
    case I => values.i
    case D => values.d
    case Trim => values.t
  }

  /** The legacy receiver's parameter table, updated in place. */
  class ParameterValues {
    var pitchValues: PidValues
    var rollValues: PidValues
    var yawValues: PidValues
    var complementary: CommPacket.Float
    var gyroHighpass: bv8
    var accelLowpassRatio: bv8

    function AxisValues(axis: CommPacket.Axis): PidValues
      reads this
    {
      match axis
      case Pitch => pitchValues
      case Roll => rollValues
      case Yaw => yawValues
    }

    /** The value held in the slot a target names (`Trim` names the field `t`). */
    function Read(t: CommPacket.Target): CommPacket.ParameterValue
      reads this
      requires !t.Unused?
    {
      match t
      case Complementary => CommPacket.ContinuousGain(complementary)
      case GyroHighpass => CommPacket.RegisterValue(gyroHighpass)
      case XlLowpass => CommPacket.RegisterValue(accelLowpassRatio)
      case Pid(axis, field) => CommPacket.ContinuousGain(FieldOf(AxisValues(axis), field))
    }
  }

  /** The legacy `setParametersFromPacket`: the gain value lands in exactly the slot `Route`
      names; every other slot, and in particular every trim field, keeps its value. */
  method SetParametersFromPacket(packet: Packet, parameters: ParameterValues)
    requires CommPacket.GainFits(Route(GetSelectedParameter(packet)), packet.gainValue)
    modifies parameters
    ensures forall t: CommPacket.Target :: !t.Unused? ==>
      parameters.Read(t) == if t == Route(GetSelectedParameter(packet)) then packet.gainValue else old(parameters.Read(t))
    ensures forall axis :: parameters.AxisValues(axis).t == old(parameters.AxisValues(axis).t)
  {
    var code := GetSelectedParameter(packet);
    if code & 0xC == 0x0 {
      if code == COMPLEMENTARY_GAIN {
        parameters.complementary := packet.gainValue.continuousGain;
      } else if code == GYRO_HIGHPASS {
        parameters.gyroHighpass := packet.gainValue.registerValue;
      } else if code == XL_LOWPASS {
        parameters.accelLowpassRatio := packet.gainValue.registerValue;
      }
    } else {
      // As in the current codec, the write through the address of one PID struct becomes a read,
      // an update and a store back.
      var axis;
      if code & 0xC == 0x4 {
        axis := CommPacket.Pitch;
      } else if code & 0xC == 0x8 {
        axis := CommPacket.Yaw;
      } else {
        axis := CommPacket.Roll;
      }
      var values := parameters.AxisValues(axis);
      var gain := packet.gainValue.continuousGain;
      if code & 0x3 == 0x0 {
        values := values.(p := gain);
      } else if code & 0x3 == 0x1 {
        values := values.(i := gain);
      } else {
        values := values.(d := gain);
      }
      match axis
      case Pitch => parameters.pitchValues := values;
      case Yaw => parameters.yawValues := values;
      case Roll => parameters.rollValues := values;
    }
  }

  /** The legacy telemetry: a magic byte and the armed flag, no error terms. */
  class Telemetry {
    var magicNumber: bv8
    var armed: bool
  }

  predicate CheckTelemetry(telemetry: Telemetry)
    reads telemetry
    ensures CheckTelemetry(telemetry) <==> telemetry.magicNumber == 0xAA
    ensures CheckTelemetry(telemetry) ==> telemetry.magicNumber != MAGIC_BYTE
  {
    telemetry.magicNumber == TELEMETRY_MAGIC_BYTE
  }

  predicate IsTelemetryArmed(telemetry: Telemetry)
    reads telemetry
    ensures IsTelemetryArmed(telemetry) <==> telemetry.armed
  {
    telemetry.armed
  }

  method BuildTelemetry(telemetry: Telemetry, armed: bool)
    modifies telemetry
    ensures telemetry.magicNumber == TELEMETRY_MAGIC_BYTE && telemetry.armed == armed
    ensures CheckTelemetry(telemetry) && IsTelemetryArmed(telemetry) == armed
  {
    telemetry.magicNumber := TELEMETRY_MAGIC_BYTE;
    telemetry.armed := armed;
  }
}
