# DroneSneakySnap firmware core, modelled in Dafny

This project models the part of the DroneSneakySnap quadcopter firmware that turns stick readings into
commands and carries them over the radio:

- **Stick calibration and mapping** (`GimbalCalibration`). A calibration session learns each stick's
  travel from raw analog samples. The deadband-compensated split linear map `map_pry` and
  `scale_gimbals` turn raw readings into the command ranges (throttle 0..255; pitch, roll and yaw
  -127..127). `is_armed` detects the arm gesture.
- **The current packet codec** (`CommPacket`). It has a magic byte and a `misc` byte holding the armed
  flag, the single-motor flag, a 2-bit motor selector and a 4-bit parameter address. It also carries a
  gain value (a float/byte union) and the four stick bytes. The receiver writes the gain value into
  the one slot of its parameter table that the address names. Telemetry goes back the other way.
- **The legacy packet codec** (`RadioPacket`). It is an older variant whose header clashes with the
  current one, so it is its own module. Its divergences from the current codec are stated as lemmas.
- **The debouncer** (`Debouncer`). It fires when more than `debounce_time` milliseconds have passed on
  the wrapping 32-bit millisecond clock.
- **The Arduino core pieces these rely on** (`Arduino`). These are C's truncating integer division, the
  AVR core's `map` and the `constrain` macro.

Structs that the firmware fills in through references are classes whose methods modify them:
`CalibrationValues`, both codecs' `Packet`, `ParameterValues` and `Telemetry`, and the `Debouncer`
object. `GimbalValues` is a value type, because `scale_gimbals` writes its output struct in full, so
it becomes a function returning a `GimbalValues`. Byte fields are `bv8`, so shifts into a `uint8_t` drop
their high bits exactly as the C++ assignment does. The float members are carried as opaque 32-bit
patterns, since the codec only copies them.

The model keeps the code's own arithmetic where a design might have chosen otherwise:

- `map_pry` and `scale_gimbals` divide by the calibrated span without checking it. The model makes a
  non-zero span a precondition rather than inventing a fallback such as returning the low end.
- `map` uses C's truncating division, so results are truncated toward zero, not rounded.

Source lines below are relative to `firmware/libraries/`.

## Model

| member | source | states |
|---|---|---|
| Arduino.CDiv | firmware/libraries/GimbalCalibration/GimbalCalibration.cpp:92-94 | the quotient of C integer division as `map` uses it: the remainder is smaller than the divisor in magnitude and has the dividend's sign, for all four sign combinations |
| Arduino.CDivMonotone | firmware/libraries/GimbalCalibration/GimbalCalibration.cpp:92-94 | truncating division by a positive divisor preserves order, also across zero |
| Arduino.Map | firmware/libraries/GimbalCalibration/GimbalCalibration.cpp:92 | the core's `map` sends the low input end to the low output end and the high input end to the high output end |
| Arduino.MapMonotone | firmware/libraries/GimbalCalibration/GimbalCalibration.cpp:92-94 | with an increasing input range and a non-decreasing output range, `map` never reverses order |
| Arduino.Constrain | firmware/libraries/GimbalCalibration/GimbalCalibration.cpp:92-94 | `constrain` lands in [low, high], is the identity inside it, gives low below it and high above it |
| GimbalCalibration.OutputRangesSymmetric | firmware/libraries/GimbalCalibration/GimbalCalibration.h:11-18 | pitch, roll and yaw ranges are closed under negation; the throttle range is exactly one unsigned byte |
| GimbalCalibration.EmptyCalibration | firmware/libraries/GimbalCalibration/GimbalCalibration.cpp:33-46 | every min and max, and the pitch, roll and yaw centers, become the sample; the bounds are then ordered and cover the sample |
| GimbalCalibration.Widen | firmware/libraries/GimbalCalibration/GimbalCalibration.cpp:52-58 | one axis step never lowers a max or raises a min, moves at most one bound and moves it exactly to the sample, reports a change exactly when a bound moved, covers the sample on ordered bounds, and leaves bounds that already cover the sample alone |
| GimbalCalibration.WidenIdempotent | firmware/libraries/GimbalCalibration/GimbalCalibration.cpp:52-82 | on ordered bounds, a second step with the same sample changes nothing |
| GimbalCalibration.WidenInvertedNotIdempotent | firmware/libraries/GimbalCalibration/GimbalCalibration.cpp:52-58 | on inverted bounds the `else if` moves one bound per call, so a repeated sample changes the bounds twice |
| GimbalCalibration.PerformCalibration | firmware/libraries/GimbalCalibration/GimbalCalibration.cpp:50-83 | each axis is widened to the sample independently, centers are never written, the change flag (where the firmware stamps the time) is set iff some bound moved, ordered bounds stay ordered and then cover the sample, and a covered sample changes nothing |
| GimbalCalibration.MapPry | firmware/libraries/GimbalCalibration/GimbalCalibration.cpp:86-98 | exactly 0 within DEADBAND of the center; in [0, max] above the deadband and [min, 0] below it; the calibrated max gives max and the calibrated min gives min |
| GimbalCalibration.MapPryMonotone | firmware/libraries/GimbalCalibration/GimbalCalibration.cpp:91-97 | with both segments non-empty, the mapping is non-decreasing in the raw value |
| GimbalCalibration.MapPryExamples | firmware/libraries/GimbalCalibration/GimbalCalibration.cpp:91-97 | for center 512 and travel 0..1023: 520 gives 0, 600 gives 20 (truncated), 1023 gives 127, 0 gives -127 |
| GimbalCalibration.ScaleGimbals | firmware/libraries/GimbalCalibration/GimbalCalibration.cpp:102-109 | throttle in [0, 255] and given by `ScaleThrottle`; pitch, roll and yaw in [-127, 127]; pitch and yaw are the negated `map_pry`, roll is not; so pushing pitch or yaw up gives a non-positive command and roll a non-negative one |
| GimbalCalibration.ScaleThrottle | firmware/libraries/GimbalCalibration/GimbalCalibration.cpp:104 | the throttle command lies in [0, 255]; the calibrated min gives 0 and the calibrated max gives 255 |
| GimbalCalibration.ThrottleMonotone | firmware/libraries/GimbalCalibration/GimbalCalibration.cpp:104 | needing only an increasing calibrated travel, scaled throttle is non-decreasing in the raw throttle and saturates at 0 and 255 at the calibrated ends |
| GimbalCalibration.IsArmed | firmware/libraries/GimbalCalibration/GimbalCalibration.cpp:112-122 | armed iff the scaled tuple is exactly (0, -127, 127, -127), so changing any one field disarms |
| GimbalCalibration.ArmGestureAtCalibratedCorner | firmware/libraries/GimbalCalibration/GimbalCalibration.cpp:102-122 | throttle at its calibrated min with pitch, roll and yaw at their calibrated max scales to the arming tuple |
| CommPacket.Address | firmware/libraries/CommPacket/CommPacket.h:9-24 | each target's constant is below 16 and is at least 4 iff it is a PID target; bits 3-2 give the axis (01 pitch, 10 yaw, 11 roll) and bits 1-0 the field (P, I, D, trim) |
| CommPacket.Classify | firmware/libraries/CommPacket/CommPacket.cpp:15-50 | the mask tests of `setParametersFromPacket` pick, for every 4-bit code, the target whose constant is that code |
| CommPacket.ClassifyAddress | firmware/libraries/CommPacket/CommPacket.h:9-24 | every target's constant classifies back to it, so the 16 codes are distinct and cover 0..15 |
| CommPacket.CheckPacket | firmware/libraries/CommPacket/CommPacket.h:80 | a packet passes iff its magic byte is 0x37, so nothing carrying the telemetry magic byte passes |
| CommPacket.MiscArmed | firmware/libraries/CommPacket/CommPacket.h:81 | `isArmed` holds iff bit 7 of `misc` is set |
| CommPacket.MiscSingleMotor | firmware/libraries/CommPacket/CommPacket.h:82 | the single-motor flag holds iff bit 6 of `misc` is set (the byte modulo 0x80 is at least 0x40) |
| CommPacket.IsSingleMotor | firmware/libraries/CommPacket/CommPacket.h:82 | `isSingleMotor` of a packet holds iff bit 6 of its `misc` is set |
| CommPacket.MiscMotor | firmware/libraries/CommPacket/CommPacket.h:83 | `getSelectedMotor` is always in 0..3 |
| CommPacket.MiscParameter | firmware/libraries/CommPacket/CommPacket.h:84 | `getSelectedParameter` is always in 0..15 |
| CommPacket.PackMisc | firmware/libraries/CommPacket/CommPacket.cpp:6 | each accessor reads back its input when the motor is below 4 and the address below 16; otherwise the unmasked high bits of the selectors are OR-ed into the motor, single-motor and armed bits, as each ensures spells out |
| CommPacket.MotorConstantsRoundTrip | firmware/libraries/CommPacket/CommPacket.h:26-29 | the four motor constants fit the 2-bit selector and read back unchanged |
| CommPacket.PackMiscOverflow | firmware/libraries/CommPacket/CommPacket.cpp:6 | motor 8 sets the armed bit, motor 4 the single-motor bit, and address 0x80 the armed bit |
| CommPacket.BuildPacket | firmware/libraries/CommPacket/CommPacket.cpp:4-12 | the packet passes `checkPacket`, copies the gain and the sticks verbatim, and its accessors return the flags, the motor and the address given when these are in range |
| CommPacket.SetParametersFromPacket | firmware/libraries/CommPacket/CommPacket.cpp:14-52 | the gain lands in exactly the slot the address names (address 0 names none) and every other slot of the table keeps its value |
| CommPacket.RollIGainRound | firmware/libraries/CommPacket/CommPacket.cpp:4-52 | a packet built as armed with a roll-I gain is accepted, reads as armed, sets the roll I field to the gain, and leaves every other slot of the receiver's table unchanged |
| CommPacket.CheckTelemetry | firmware/libraries/CommPacket/CommPacket.h:86 | telemetry passes iff its magic byte is 0xAA, so nothing carrying the packet magic byte passes |
| CommPacket.IsTelemetryArmed | firmware/libraries/CommPacket/CommPacket.h:87 | reports the stored armed flag, independently of the magic byte |
| CommPacket.BuildTelemetry | firmware/libraries/CommPacket/CommPacket.cpp:54-60 | the telemetry passes `checkTelemetry`, `isTelemetryArmed` returns the flag given, and the error terms are copied |
| RadioPacket.LegacyConstants | firmware/libraries/RadioPacket/RadioPacket.h:7-22 | the magic bytes equal the current codec's; the defined codes are 1-5, 7-9, 11-13 and 15; each D code is the current codec's trim code |
| RadioPacket.GetSelectedParameter | firmware/libraries/RadioPacket/RadioPacket.cpp:62-65 | the address is always in 0..15 and is the same low nibble the current codec's `getSelectedParameter` reads |
| RadioPacket.IsArmed | firmware/libraries/RadioPacket/RadioPacket.cpp:88-91 | as written: armed iff the parameter nibble is non-zero |
| RadioPacket.IsArmedBit7 | firmware/libraries/RadioPacket/RadioPacket.cpp:7 | armed iff bit 7 of `features` is set |
| RadioPacket.IsArmedMissesArmedBit | firmware/libraries/RadioPacket/RadioPacket.cpp:88-91 | a `features` byte built with armed = true reads as not armed through `is_armed` and as armed through bit 7 |
| RadioPacket.CheckPacketAsWritten | firmware/libraries/RadioPacket/RadioPacket.cpp:67-70 | as written, the answer is what is left in the result: a packet without the magic byte can be accepted and one with it rejected |
| RadioPacket.CheckPacket | firmware/libraries/RadioPacket/RadioPacket.cpp:69 | the intended check: passes iff the magic byte is 0x37, so nothing carrying the telemetry magic byte passes |
| RadioPacket.CheckPacketAsWrittenIgnoresMagic | firmware/libraries/RadioPacket/RadioPacket.cpp:67-70 | the as-written check answers with whatever is left in the result, whatever the magic byte, so it can accept a bad packet and reject a good one |
| RadioPacket.BuildPacket | firmware/libraries/RadioPacket/RadioPacket.cpp:4-12 | magic 0x37 and `features = armed << 7`; the sticks are copied and the gain is left as it was; the address reads 0, so `is_armed` reads false while bit 7 reads `armed` |
| RadioPacket.Route | firmware/libraries/RadioPacket/RadioPacket.cpp:16-58 | the legacy routing never names trim; it agrees with the current codec on every code except the trim codes, which it sends to D of the same axis |
| RadioPacket.RouteConstants | firmware/libraries/RadioPacket/RadioPacket.cpp:34-58 | every legacy constant routes to the slot it is named after, and the unnamed codes `xx10` also write D |
| RadioPacket.SetParametersFromPacket | firmware/libraries/RadioPacket/RadioPacket.cpp:14-60 | the gain lands in exactly the slot `Route` names, every other slot keeps its value, and no trim field `t` is ever written |
| RadioPacket.CheckTelemetry | firmware/libraries/RadioPacket/RadioPacket.cpp:78-81 | telemetry passes iff its magic byte is 0xAA, so nothing carrying the packet magic byte passes |
| RadioPacket.IsTelemetryArmed | firmware/libraries/RadioPacket/RadioPacket.cpp:83-86 | reports the stored armed flag, independently of the magic byte |
| RadioPacket.BuildTelemetry | firmware/libraries/RadioPacket/RadioPacket.cpp:72-86 | the telemetry passes `check_telemetry` and `is_telemetry_armed` returns the flag given |
| Debouncer.Elapsed | firmware/libraries/Debouncer/Debouncer.cpp:11 | `now - last_fired` in `unsigned long` is the true elapsed time, also after one wrap of the clock |
| Debouncer.Fires | firmware/libraries/Debouncer/Debouncer.cpp:11 | for a non-negative threshold, fires iff the elapsed time exceeds it; a negative threshold is compared as 2^32 plus it, so it fires only after more than 2^31 ms, and -1 never fires |
| Debouncer.NoDoubleFire | firmware/libraries/Debouncer/Debouncer.cpp:11-12 | after firing at `now`, whatever the threshold, the debouncer does not fire again at the same `now` |
| Debouncer.FiresAcrossWrap | firmware/libraries/Debouncer/Debouncer.cpp:11 | fired 10 ms before the clock wraps, 5 ms after the wrap 15 ms have elapsed, so thresholds 14 and 15 fire and do not fire |
| Debouncer.Debouncer.constructor | firmware/libraries/Debouncer/Debouncer.cpp:4-7 | stores the threshold and starts with `last_fired` = 0 |
| Debouncer.Debouncer.Debounce | firmware/libraries/Debouncer/Debouncer.cpp:9-16 | returns `Fires` of the old state; when it fires, `last_fired` becomes `now` and a second call at the same `now` would not fire; otherwise nothing changes |

## Left out

- EEPROM `load_gimbal_values`/`save_gimbal_values` and `read_raw` (`analogRead`) in `GimbalCalibration.cpp` lines 10-30: these are I/O. The raw sample is a parameter instead.
- `millis()`: `perfom_calibration`'s global `last_calibration_update` timestamp becomes the returned `changed` flag. The debouncer's clock reading becomes the `now` parameter.
- `Despiker` and `Logger` are not part of this model.
- Float arithmetic: floats are opaque bit patterns, since the codecs only copy them.
- CommPacket.SetParametersFromPacket: requires that the gain was written through the union member the target reads (`GainFits`). Reading the other member is type punning that C++ leaves undefined, and the model does not capture the byte reinterpretation.
- RadioPacket.SetParametersFromPacket: has the same `GainFits` precondition, for the same reason.
- The in-memory byte layout and padding of `Packet`, `Telemetry` and the union are not modelled. The packet is modelled field by field.
- Arduino.Map: integers are unbounded. The firmware evaluates `map` in 32-bit `long`, whose product `(x - in_min) * (out_max - out_min)` cannot overflow for 10-bit analog readings and byte-sized ranges. The model does not restate that bound.
- GimbalCalibration.MapPry: requires non-zero divisors (`MapPryDefined`); the firmware divides by zero there. The `int` arithmetic of `center_value ± DEADBAND` is unbounded, and `int` is 16 bits on AVR targets.
- GimbalCalibration.ScaleGimbals: requires non-zero divisors (`CanScale`) for the same reason. The modified out-parameter is modelled as the function's result.
- The `PITCH_ID`..`THROTTLE_ID` constants (`CommPacket.h` lines 31-34, `RadioPacket.h` lines 29-32) are used by nothing in the core.
- The legacy header declares `getSelectedParameter(const Packet&)` while the definition takes `Packet&`. This C++ overload mismatch is a link-level question with no counterpart here.
- RadioPacket shares the current codec's union, float, axis, field and target types rather than redeclaring them. The legacy `PIDValues` (trim field `t`) is its own datatype.
- CommPacket.RollIGainRound: composes the operations on one example. It is not an operation of the firmware.

## Findings

| source | as written | input that shows it | evidently intended | confidence | as-written member | corrected member |
|---|---|---|---|---|---|---|
| firmware/libraries/RadioPacket/RadioPacket.cpp:67-70 | `check_packet` evaluates `magic_number == MAGIC_BYTE` as a statement and returns nothing, which is undefined behaviour for a `bool` function | any packet: with magic 0x00 the caller may read true; with magic 0x37 it may read false | `return packet.magic_number == MAGIC_BYTE;` | not executed | RadioPacket.CheckPacketAsWrittenIgnoresMagic | RadioPacket.CheckPacket |
| firmware/libraries/RadioPacket/RadioPacket.cpp:88-91 | `is_armed` returns `features & 0x0F`, the parameter nibble | `build_packet(armed = true, ...)` gives `features = 0x80`, which `is_armed` reads as false | test bit 7, `features & 0x80`, the bit `build_packet` writes | not executed | RadioPacket.IsArmedMissesArmedBit | RadioPacket.IsArmedBit7 |
