/** The command packet and telemetry codec (current layout): a magic byte, a `misc` byte that
    packs the armed flag, the single-motor flag, a 2-bit motor selector and a 4-bit parameter
    address, a gain value, and the four stick bytes. The receiver routes the gain value to one
    slot of its parameter table according to the address. */
module CommPacket {
  import opened Arduino

  const MAGIC_BYTE: bv8 := 0x37
  const TELEMETRY_MAGIC_BYTE: bv8 := 0xAA

  // Parameter addresses. Codes 0-3 are global; from 4 on, bits 3-2 pick the axis
  // (01 pitch, 10 yaw, 11 roll) and bits 1-0 the field (P, I, D, trim).
  const NO_PARAMETER: bv8 := 0x0
  const COMPLEMENTARY_GAIN: bv8 := 0x1
  const GYRO_HIGHPASS: bv8 := 0x2
  const XL_LOWPASS: bv8 := 0x3
  const PITCH_P: bv8 := 0x4
  const PITCH_I: bv8 := 0x5
  const PITCH_D: bv8 := 0x6
  const PITCH_TRIM: bv8 := 0x7
  const YAW_P: bv8 := 0x8
  const YAW_I: bv8 := 0x9
  const YAW_D: bv8 := 0xA
  const YAW_TRIM: bv8 := 0xB
  const ROLL_P: bv8 := 0xC
  const ROLL_I: bv8 := 0xD
  const ROLL_D: bv8 := 0xE
  const ROLL_TRIM: bv8 := 0xF

  const FRONT_LEFT: bv8 := 0x0
  const FRONT_RIGHT: bv8 := 0x1
  const BACK_LEFT: bv8 := 0x2
  const BACK_RIGHT: bv8 := 0x3

  /** A 32-bit float, carried as its bit pattern; the codec only copies it. */
  datatype Float = Float(bits: bv32)

  /** The `ParameterValue` union, by the member that was written: a continuous gain, or an
      8-bit register setting. */
  datatype ParameterValue = ContinuousGain(continuousGain: Float) | RegisterValue(registerValue: bv8)

  datatype PidValues = PidValues(p: Float, i: Float, d: Float, trim: Float)

  datatype Axis = Pitch | Roll | Yaw
  datatype PidField = P | I | D | Trim

  /** What a parameter address designates: nothing, one of the three global parameters, or
      one field of one axis' PID values. */
  datatype Target = Unused | Complementary | GyroHighpass | XlLowpass | Pid(axis: Axis, field: PidField)

  function AxisBits(axis: Axis): bv8
  {
    match axis
    case Pitch => 1
    case Yaw => 2
    case Roll => 3
  }

  function FieldBits(field: PidField): bv8
  {
    match field
    case P => 0
    case I => 1
    case D => 2
    case Trim => 3
  }

  /** The address constant that names each target. */
  function Address(t: Target): (code: bv8)
    ensures code < 16
    ensures t.Pid? <==> code >= 4
    ensures t.Pid? ==> code >> 2 == AxisBits(t.axis) && code & 0x3 == FieldBits(t.field)
  {
    match t
    case Unused => NO_PARAMETER
    case Complementary => COMPLEMENTARY_GAIN
    case GyroHighpass => GYRO_HIGHPASS
    case XlLowpass => XL_LOWPASS
    case Pid(Pitch, P) => PITCH_P
    case Pid(Pitch, I) => PITCH_I
    case Pid(Pitch, D) => PITCH_D
    case Pid(Pitch, Trim) => PITCH_TRIM
    case Pid(Yaw, P) => YAW_P
    case Pid(Yaw, I) => YAW_I
    case Pid(Yaw, D) => YAW_D
    case Pid(Yaw, Trim) => YAW_TRIM
    case Pid(Roll, P) => ROLL_P
    case Pid(Roll, I) => ROLL_I
    case Pid(Roll, D) => ROLL_D
    case Pid(Roll, Trim) => ROLL_TRIM
  }

  /** The target `setParametersFromPacket` writes for a parameter address, decided by the same
      mask tests: bits 3-2 clear selects a global parameter by the whole code, otherwise bits
      3-2 select the axis and bits 1-0 the field. Every 4-bit code names exactly the target
      whose constant it is. */
  function Classify(code: bv8): (t: Target)
    ensures code < 16 ==> Address(t) == code
  {
    if code & 0xC == 0x0 then
      if code == COMPLEMENTARY_GAIN then Complementary
      else if code == GYRO_HIGHPASS then GyroHighpass
      else if code == XL_LOWPASS then XlLowpass
      else Unused
    else
      var axis := if code & 0xC == 0x4 then Pitch else if code & 0xC == 0x8 then Yaw else Roll;
      var field := if code & 0x3 == 0x0 then P else if code & 0x3 == 0x1 then I
                   else if code & 0x3 == 0x2 then D else Trim;
      Pid(axis, field)
  }

  /** The address space is a bijection: each target's constant classifies back to it. */
  lemma ClassifyAddress(t: Target)
    ensures Classify(Address(t)) == t
  {
  }

  function Bit(b: bool): bv8
  {
    if b then 1 else 0
  }

  predicate MiscArmed(misc: bv8)
    ensures MiscArmed(misc) <==> misc >= 0x80
  {
    misc & 0x80 != 0
  }

  predicate MiscSingleMotor(misc: bv8)
    ensures MiscSingleMotor(misc) <==> misc % 0x80 >= 0x40
  {
    misc & 0x40 != 0
  }

  function MiscMotor(misc: bv8): (motor: bv8)
    ensures motor < 4
  {
    (misc & 0x30) >> 4
  }

  function MiscParameter(misc: bv8): (code: bv8)
    ensures code < 16
  {
    misc & 0x0F
  }

  /** The `misc` byte `buildPacket` assembles: `(armed << 7) | (single_motor_mode << 6) |
      (motor_select << 4) | parameter_select`. The C++ shifts are done in `int` and the result
      is stored in a `uint8_t`; shifting within `bv8` drops the same high bits. No selector is
      masked, so a motor selector from 4 up or an address from 16 up spills into the bits to
      its left, as the first four ensures spell out. */
  function PackMisc(armed: bool, singleMotorMode: bool, motorSelect: bv8, parameterSelect: bv8): (misc: bv8)
    ensures MiscArmed(misc) <==> armed || motorSelect & 0x8 != 0 || parameterSelect & 0x80 != 0
    ensures MiscSingleMotor(misc) <==> singleMotorMode || motorSelect & 0x4 != 0 || parameterSelect & 0x40 != 0
    ensures MiscMotor(misc) == (motorSelect | (parameterSelect >> 4)) & 0x3
    ensures MiscParameter(misc) == parameterSelect & 0xF
    ensures motorSelect < 4 && parameterSelect < 16 ==>
      MiscArmed(misc) == armed && MiscSingleMotor(misc) == singleMotorMode &&
      MiscMotor(misc) == motorSelect && MiscParameter(misc) == parameterSelect
  {
    (Bit(armed) << 7) | (Bit(singleMotorMode) << 6) | (motorSelect << 4) | parameterSelect
  }

  /** Each motor constant fits the 2-bit selector and survives packing. */
  lemma MotorConstantsRoundTrip(armed: bool, singleMotorMode: bool, parameterSelect: bv8)
    requires parameterSelect < 16
    ensures forall motor :: motor in [FRONT_LEFT, FRONT_RIGHT, BACK_LEFT, BACK_RIGHT] ==>
      MiscMotor(PackMisc(armed, singleMotorMode, motor, parameterSelect)) == motor
  {
  }

  /** The unmasked selectors at work: motor 8 sets the armed bit, motor 4 the single-motor bit,
      and address 0x80 the armed bit. */
  lemma PackMiscOverflow()
    ensures MiscArmed(PackMisc(false, false, 8, 0))
    ensures MiscSingleMotor(PackMisc(false, false, 4, 0))
    ensures MiscArmed(PackMisc(false, false, 0, 0x80))
  {
  }

  class Packet {
    var magicNum: bv8
    var misc: bv8
    var gainValue: ParameterValue
    var throttle: bv8
    var pitch: Int8
    var roll: Int8
    var yaw: Int8
  }

  /** A command packet is recognised by its magic byte alone, and never passes for telemetry. */
  predicate CheckPacket(p: Packet)
    reads p
    ensures CheckPacket(p) <==> p.magicNum == 0x37
    ensures CheckPacket(p) ==> p.magicNum != TELEMETRY_MAGIC_BYTE
  {
    p.magicNum == MAGIC_BYTE
  }

  predicate IsArmed(p: Packet)
    reads p
  {
    MiscArmed(p.misc)
  }

  predicate IsSingleMotor(p: Packet)
    reads p
    ensures IsSingleMotor(p) <==> p.misc % 0x80 >= 0x40
  {
    MiscSingleMotor(p.misc)
  }

  function GetSelectedMotor(p: Packet): bv8
    reads p
  {
    MiscMotor(p.misc)
  }

  function GetSelectedParameter(p: Packet): bv8
    reads p
  {
    MiscParameter(p.misc)
  }

  /** `buildPacket` fills every field of the packet. What it packs in range reads back
      unchanged through the accessors. */
  method BuildPacket(packet: Packet, armed: bool, singleMotorMode: bool, motorSelect: bv8, parameterSelect: bv8,
                     gainValue: ParameterValue, throttle: bv8, pitch: Int8, roll: Int8, yaw: Int8)
    modifies packet
    ensures packet.magicNum == MAGIC_BYTE
    ensures packet.misc == PackMisc(armed, singleMotorMode, motorSelect, parameterSelect)
    ensures packet.gainValue == gainValue && packet.throttle == throttle
    ensures packet.pitch == pitch && packet.roll == roll && packet.yaw == yaw
    ensures CheckPacket(packet)
    ensures motorSelect < 4 && parameterSelect < 16 ==>
      IsArmed(packet) == armed && IsSingleMotor(packet) == singleMotorMode &&
      GetSelectedMotor(packet) == motorSelect && GetSelectedParameter(packet) == parameterSelect
  {
    packet.magicNum := MAGIC_BYTE;
    packet.misc := (Bit(armed) << 7) | (Bit(singleMotorMode) << 6) | (motorSelect << 4) | parameterSelect;
    packet.gainValue := gainValue;
    packet.throttle := throttle;
    packet.pitch := pitch;
    packet.roll := roll;
    packet.yaw := yaw;
  }

  function FieldOf(values: PidValues, field: PidField): Float
  {
    match field
    case P => values.p
    case I => values.i
    case D => values.d
    case Trim => values.trim
  }

  /** The receiver's table of tunable parameters, updated in place. */
  class ParameterValues {
    var pitchValues: PidValues
    var rollValues: PidValues
    var yawValues: PidValues
    var complementary: Float
    var gyroHighpass: bv8
    var accelLowpassRatio: bv8

    function AxisValues(axis: Axis): PidValues
      reads this
    {
      match axis
      case Pitch => pitchValues
      case Roll => rollValues
      case Yaw => yawValues
    }

    /** The value held in the slot a target names; every field of the table is some slot. */
    function Read(t: Target): ParameterValue
      reads this
      requires !t.Unused?
    {
      match t
      case Complementary => ContinuousGain(complementary)
      case GyroHighpass => RegisterValue(gyroHighpass)
      case XlLowpass => RegisterValue(accelLowpassRatio)
      case Pid(axis, field) => ContinuousGain(FieldOf(AxisValues(axis), field))
    }
  }

  /** The gain value was written through the union member the target reads: the register
      value for the two filter registers, the continuous gain otherwise. */
  predicate GainFits(t: Target, gain: ParameterValue)
  {
    match t
    case Unused => true
    case GyroHighpass => gain.RegisterValue?
    case XlLowpass => gain.RegisterValue?
    case _ => gain.ContinuousGain?
  }

  /** `setParametersFromPacket`: the gain value lands in exactly the slot the packet's address
      names, and every other slot keeps its value; address 0 changes nothing. */
  method SetParametersFromPacket(packet: Packet, parameters: ParameterValues)
    requires GainFits(Classify(GetSelectedParameter(packet)), packet.gainValue)
    modifies parameters
    ensures forall t: Target :: !t.Unused? ==>
      parameters.Read(t) == if t == Classify(GetSelectedParameter(packet)) then packet.gainValue else old(parameters.Read(t))
  {
    var code := GetSelectedParameter(packet);
    if code & 0xC == 0x0 {
      if code == COMPLEMENTARY_GAIN {
        parameters.complementary := packet.gainValue.continuousGain;
      } else if code == GYRO_HIGHPASS {
        parameters.gyroHighpass := packet.gainValue.registerValue;
      } else if code == XL_LOWPASS {
        parameters.accelLowpassRatio := packet.gainValue.registerValue;
      }
    } else {
      // The firmware points at one of the embedded PID structs and writes one field through
      // its address; here the chosen struct is read, updated and stored back.
      var axis;
      if code & 0xC == 0x4 {
        axis := Pitch;
      } else if code & 0xC == 0x8 {
        axis := Yaw;
      } else {
        axis := Roll;
      }
      var values := parameters.AxisValues(axis);
      var gain := packet.gainValue.continuousGain;
      if code & 0x3 == 0x0 {
        values := values.(p := gain);
      } else if code & 0x3 == 0x1 {
        values := values.(i := gain);
      } else if code & 0x3 == 0x2 {
        values := values.(d := gain);
      } else {
        values := values.(trim := gain);
      }
      match axis
      case Pitch => parameters.pitchValues := values;
      case Yaw => parameters.yawValues := values;
      case Roll => parameters.rollValues := values;
    }
  }

  /** One transmitter-to-receiver round: the transmitter packs the arming flag and a new
      roll-I gain, and the receiver accepts the packet, reads the flag back and stores the gain
      in the roll-I slot while the pitch table is left alone. */
  method RollIGainRound(gain: Float, throttle: bv8, parameters: ParameterValues) returns (accepted: bool, armed: bool)
    modifies parameters
    ensures accepted && armed
    ensures parameters.rollValues == old(parameters.rollValues).(i := gain)
    ensures parameters.pitchValues == old(parameters.pitchValues)
    ensures forall t: Target :: !t.Unused? && t != Pid(Roll, I) ==> parameters.Read(t) == old(parameters.Read(t))
  {
    var packet := new Packet;
    BuildPacket(packet, true, false, BACK_RIGHT, ROLL_I, ContinuousGain(gain), throttle, 0, 0, 0);
    accepted := CheckPacket(packet);
    armed := IsArmed(packet);
    assert Classify(ROLL_I) == Pid(Roll, I);
    SetParametersFromPacket(packet, parameters);
    assert parameters.Read(Pid(Roll, P)) == old(parameters.Read(Pid(Roll, P)));
    assert parameters.Read(Pid(Roll, D)) == old(parameters.Read(Pid(Roll, D)));
    assert parameters.Read(Pid(Roll, Trim)) == old(parameters.Read(Pid(Roll, Trim)));
    assert parameters.Read(Pid(Pitch, P)) == old(parameters.Read(Pid(Pitch, P)));
    assert parameters.Read(Pid(Pitch, I)) == old(parameters.Read(Pid(Pitch, I)));
    assert parameters.Read(Pid(Pitch, D)) == old(parameters.Read(Pid(Pitch, D)));
    assert parameters.Read(Pid(Pitch, Trim)) == old(parameters.Read(Pid(Pitch, Trim)));
    assert parameters.Read(Pid(Roll, I)) == ContinuousGain(gain);
  }

  class Telemetry {
    var magicNum: bv8
    var armed: bool
    var pitchErr: Float
    var rollErr: Float
    var yawErr: Float
  }

  /** A telemetry frame is recognised by its own magic byte, which no command packet carries. */
  predicate CheckTelemetry(telemetry: Telemetry)
    reads telemetry
    ensures CheckTelemetry(telemetry) <==> telemetry.magicNum == 0xAA
    ensures CheckTelemetry(telemetry) ==> telemetry.magicNum != MAGIC_BYTE
  {
    telemetry.magicNum == TELEMETRY_MAGIC_BYTE
  }

  /** The armed state reported is the stored flag, whatever the magic byte says. */
  predicate IsTelemetryArmed(telemetry: Telemetry)
    reads telemetry
    ensures IsTelemetryArmed(telemetry) <==> telemetry.armed
  {
    telemetry.armed
  }

  /** `buildTelemetry` fills every field; the result passes the magic check and reports the
      armed flag it was given. */
  method BuildTelemetry(telemetry: Telemetry, armed: bool, pitchErr: Float, rollErr: Float, yawErr: Float)
    modifies telemetry
    ensures telemetry.magicNum == TELEMETRY_MAGIC_BYTE && telemetry.armed == armed
    ensures telemetry.pitchErr == pitchErr && telemetry.rollErr == rollErr && telemetry.yawErr == yawErr
    ensures CheckTelemetry(telemetry) && IsTelemetryArmed(telemetry) == armed
  {
    telemetry.magicNum := TELEMETRY_MAGIC_BYTE;
    telemetry.armed := armed;
    telemetry.pitchErr := pitchErr;
    telemetry.rollErr := rollErr;
    telemetry.yawErr := yawErr;
  }
}
