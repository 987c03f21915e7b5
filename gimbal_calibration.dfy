/** Stick (gimbal) calibration and mapping on the transmitter: per-axis bounds learned from raw
    analog samples, and the deadband-compensated split linear map from raw readings to the
    command ranges that go into a packet, with the arm-gesture detector. */
module GimbalCalibration {
  import opened Arduino

  /** Half-width of the dead zone around each stick's calibrated center. */
  const DEADBAND: int := 8

  const THROTTLE_MAP_MIN: int := 0
  const THROTTLE_MAP_MAX: int := 255
  const PITCH_MAP_MIN: int := -127
  const PITCH_MAP_MAX: int := 127
  const ROLL_MAP_MIN: int := -127
  const ROLL_MAP_MAX: int := 127
  const YAW_MAP_MIN: int := -127
  const YAW_MAP_MAX: int := 127

  /** The pitch, roll and yaw command ranges are symmetric about zero, so negating a value in
      range stays in range; throttle spans one unsigned byte. */
  lemma OutputRangesSymmetric(v: int)
    ensures PITCH_MAP_MIN <= v <= PITCH_MAP_MAX <==> PITCH_MAP_MIN <= -v <= PITCH_MAP_MAX
    ensures ROLL_MAP_MIN <= v <= ROLL_MAP_MAX <==> ROLL_MAP_MIN <= -v <= ROLL_MAP_MAX
    ensures YAW_MAP_MIN <= v <= YAW_MAP_MAX <==> YAW_MAP_MIN <= -v <= YAW_MAP_MAX
    ensures THROTTLE_MAP_MIN <= v <= THROTTLE_MAP_MAX <==> 0 <= v < 0x100
  {
  }

  /** One reading of the four sticks: raw analog samples, or the scaled command values. */
  datatype GimbalValues = GimbalValues(throttle: int, pitch: int, roll: int, yaw: int)

  /** The learned travel of each stick. Throttle has no center; the three others keep the
      center captured when calibration started. The struct is updated in place. */
  class CalibrationValues {
    var minThrottle: int
    var maxThrottle: int
    var minPitch: int
    var centerPitch: int
    var maxPitch: int
    var minRoll: int
    var centerRoll: int
    var maxRoll: int
    var minYaw: int
    var centerYaw: int
    var maxYaw: int

    /** The bounds are ordered and every center lies between its axis' bounds. */
    predicate Ordered()
      reads this
    {
      minThrottle <= maxThrottle &&
      minPitch <= centerPitch <= maxPitch &&
      minRoll <= centerRoll <= maxRoll &&
      minYaw <= centerYaw <= maxYaw
    }

    /** Every axis of `raw` lies within the calibrated bounds. */
    predicate Covers(raw: GimbalValues)
      reads this
    {
      minThrottle <= raw.throttle <= maxThrottle &&
      minPitch <= raw.pitch <= maxPitch &&
      minRoll <= raw.roll <= maxRoll &&
      minYaw <= raw.yaw <= maxYaw
    }
  }

  /** Starts a calibration session (`empty_calibration`): every bound, and the centers of
      pitch, roll and yaw, become the current raw sample. */
  method EmptyCalibration(values: CalibrationValues, raw: GimbalValues)
    modifies values
    ensures values.minThrottle == values.maxThrottle == raw.throttle
    ensures values.minPitch == values.centerPitch == values.maxPitch == raw.pitch
    ensures values.minRoll == values.centerRoll == values.maxRoll == raw.roll
    ensures values.minYaw == values.centerYaw == values.maxYaw == raw.yaw
    ensures values.Ordered() && values.Covers(raw)
  {
    values.minThrottle := raw.throttle;
    values.maxThrottle := raw.throttle;
    values.minPitch := raw.pitch;
    values.maxPitch := raw.pitch;
    values.centerPitch := raw.pitch;
    values.minRoll := raw.roll;
    values.maxRoll := raw.roll;
    values.centerRoll := raw.roll;
    values.minYaw := raw.yaw;
    values.maxYaw := raw.yaw;
    values.centerYaw := raw.yaw;
  }

  /** The bounds of one axis after one calibration step, and whether they moved. */
  datatype Widened = Widened(min: int, max: int, changed: bool)

  /** One axis of a calibration step: the maximum rises to a sample above it; only when it
      does not, the minimum falls to a sample below it. */
  function Widen(min: int, max: int, sample: int): (w: Widened)
    ensures w.min <= min && max <= w.max
    ensures w.min == min || w.max == max
    ensures w.changed <==> (w.min != min || w.max != max)
    ensures w.max != max ==> w.max == sample
    ensures w.min != min ==> w.min == sample
    ensures sample <= w.max
    ensures min <= max ==> w.min <= sample && w.min <= w.max
    ensures min <= sample <= max ==> w == Widened(min, max, false)
  {
    if sample > max then Widened(min, sample, true)
    else if sample < min then Widened(sample, max, true)
    else Widened(min, max, false)
  }

  /** On ordered bounds a second step with the same sample changes nothing. */
  lemma WidenIdempotent(min: int, max: int, sample: int)
    requires min <= max
    ensures var w := Widen(min, max, sample);
      Widen(w.min, w.max, sample) == Widened(w.min, w.max, false)
  {
  }

  /** On inverted bounds (possible for bounds loaded from storage) the `else if` lets a sample
      between them move both bounds, one per call, so the step is not idempotent there. */
  lemma WidenInvertedNotIdempotent()
    ensures Widen(5, 3, 4) == Widened(5, 4, true)
    ensures Widen(5, 4, 4) == Widened(4, 4, true)
  {
  }

  /** One calibration step (`perfom_calibration`): each axis is widened in place to the new
      sample. The firmware stamps a global time whenever a bound moves; here that event is
      the returned `changed`. */
  method PerformCalibration(values: CalibrationValues, raw: GimbalValues) returns (changed: bool)
    modifies values
    ensures var w := Widen(old(values.minThrottle), old(values.maxThrottle), raw.throttle);
      values.minThrottle == w.min && values.maxThrottle == w.max
    ensures var w := Widen(old(values.minPitch), old(values.maxPitch), raw.pitch);
      values.minPitch == w.min && values.maxPitch == w.max
    ensures var w := Widen(old(values.minRoll), old(values.maxRoll), raw.roll);
      values.minRoll == w.min && values.maxRoll == w.max
    ensures var w := Widen(old(values.minYaw), old(values.maxYaw), raw.yaw);
      values.minYaw == w.min && values.maxYaw == w.max
    ensures values.centerPitch == old(values.centerPitch)
    ensures values.centerRoll == old(values.centerRoll)
    ensures values.centerYaw == old(values.centerYaw)
    ensures changed <==>
      Widen(old(values.minThrottle), old(values.maxThrottle), raw.throttle).changed ||
      Widen(old(values.minPitch), old(values.maxPitch), raw.pitch).changed ||
      Widen(old(values.minRoll), old(values.maxRoll), raw.roll).changed ||
      Widen(old(values.minYaw), old(values.maxYaw), raw.yaw).changed
    ensures old(values.Ordered()) ==> values.Ordered() && values.Covers(raw)
    ensures old(values.Covers(raw)) ==> !changed && unchanged(values)
  {
    // Each of the firmware's four if/else-if blocks is one `Widen` of that axis' bounds;
    // a bound the block does not move is written back unchanged.
    var t := Widen(values.minThrottle, values.maxThrottle, raw.throttle);
    values.minThrottle, values.maxThrottle := t.min, t.max;
    var p := Widen(values.minPitch, values.maxPitch, raw.pitch);
    values.minPitch, values.maxPitch := p.min, p.max;
    var r := Widen(values.minRoll, values.maxRoll, raw.roll);
    values.minRoll, values.maxRoll := r.min, r.max;
    var y := Widen(values.minYaw, values.maxYaw, raw.yaw);
    values.minYaw, values.maxYaw := y.min, y.max;
    changed := t.changed || p.changed || r.changed || y.changed;
  }

  /** The divisions `map_pry` performs for `value` have non-zero divisors: the upper segment
      divides by `maxValue - (centerValue + DEADBAND)`, the lower one by
      `(centerValue - DEADBAND) - minValue`. The firmware does not check this. */
  predicate MapPryDefined(value: int, minValue: int, centerValue: int, maxValue: int)
  {
    (value > centerValue + DEADBAND ==> maxValue != centerValue + DEADBAND) &&
    (value < centerValue - DEADBAND ==> minValue != centerValue - DEADBAND)
  }

  /** `map_pry`: zero inside the deadband; above it, `[centerValue + DEADBAND, maxValue]` is
      mapped onto `[0, max]`; below it, `[minValue, centerValue - DEADBAND]` onto `[min, 0]`,
      each clamped to its half of the range. */
  function MapPry(value: int, minValue: int, centerValue: int, maxValue: int, min: int, max: int): (r: int)
    requires MapPryDefined(value, minValue, centerValue, maxValue)
    ensures centerValue - DEADBAND <= value <= centerValue + DEADBAND ==> r == 0
    ensures value > centerValue + DEADBAND && 0 <= max ==> 0 <= r <= max
    ensures value < centerValue - DEADBAND && min <= 0 ==> min <= r <= 0
    ensures value == maxValue > centerValue + DEADBAND && 0 <= max ==> r == max
    ensures value == minValue < centerValue - DEADBAND && min <= 0 ==> r == min
  {
    if value > centerValue + DEADBAND then
      Constrain(Map(value, centerValue + DEADBAND, maxValue, 0, max), 0, max)
    else if value < centerValue - DEADBAND then
      Constrain(Map(value, minValue, centerValue - DEADBAND, min, 0), min, 0)
    else
      0
  }

  /** With both segments non-empty, the mapping never reverses the stick's direction. */
  lemma MapPryMonotone(v1: int, v2: int, minValue: int, centerValue: int, maxValue: int, min: int, max: int)
    requires v1 <= v2
    requires minValue < centerValue - DEADBAND && centerValue + DEADBAND < maxValue
    requires min <= 0 <= max
    ensures MapPry(v1, minValue, centerValue, maxValue, min, max)
         <= MapPry(v2, minValue, centerValue, maxValue, min, max)
  {
    var high, low := centerValue + DEADBAND, centerValue - DEADBAND;
    if v1 > high {
      MapMonotone(v1, v2, high, maxValue, 0, max);
      ConstrainMonotone(Map(v1, high, maxValue, 0, max), Map(v2, high, maxValue, 0, max), 0, max);
    } else if v2 < low {
      MapMonotone(v1, v2, minValue, low, min, 0);
      ConstrainMonotone(Map(v1, minValue, low, min, 0), Map(v2, minValue, low, min, 0), min, 0);
    }
  }

  /** The worked examples for a stick centered at 512 with travel 0..1023: inside the deadband,
      partway up (C division truncates 80 * 127 / 503), and both ends. */
  lemma MapPryExamples()
    ensures MapPry(520, 0, 512, 1023, -127, 127) == 0
    ensures MapPry(600, 0, 512, 1023, -127, 127) == 20
    ensures MapPry(1023, 0, 512, 1023, -127, 127) == 127
    ensures MapPry(0, 0, 512, 1023, -127, 127) == -127
  {
  }

  /** The throttle line of `scale_gimbals`: the raw throttle mapped linearly from its calibrated
      travel onto [0, 255] and clamped there. It divides by the calibrated span, which the
      firmware does not check. */
  function ScaleThrottle(original: CalibrationValues, rawThrottle: int): (throttle: int)
    reads original
    requires original.maxThrottle != original.minThrottle
    ensures THROTTLE_MAP_MIN <= throttle <= THROTTLE_MAP_MAX
    ensures rawThrottle == original.minThrottle ==> throttle == THROTTLE_MAP_MIN
    ensures rawThrottle == original.maxThrottle ==> throttle == THROTTLE_MAP_MAX
  {
    Constrain(Map(rawThrottle, original.minThrottle, original.maxThrottle, THROTTLE_MAP_MIN, THROTTLE_MAP_MAX),
              THROTTLE_MAP_MIN, THROTTLE_MAP_MAX)
  }

  /** Throttle output never decreases as the stick rises, and it saturates at both ends of the
      calibrated travel. */
  lemma ThrottleMonotone(original: CalibrationValues, raw1: int, raw2: int)
    requires original.minThrottle < original.maxThrottle
    requires raw1 <= raw2
    ensures ScaleThrottle(original, raw1) <= ScaleThrottle(original, raw2)
    ensures raw1 <= original.minThrottle ==> ScaleThrottle(original, raw1) == THROTTLE_MAP_MIN
    ensures original.maxThrottle <= raw2 ==> ScaleThrottle(original, raw2) == THROTTLE_MAP_MAX
  {
    var lo, hi := original.minThrottle, original.maxThrottle;
    MapMonotone(raw1, raw2, lo, hi, THROTTLE_MAP_MIN, THROTTLE_MAP_MAX);
    ConstrainMonotone(Map(raw1, lo, hi, THROTTLE_MAP_MIN, THROTTLE_MAP_MAX),
                      Map(raw2, lo, hi, THROTTLE_MAP_MIN, THROTTLE_MAP_MAX), THROTTLE_MAP_MIN, THROTTLE_MAP_MAX);
    if raw1 <= lo {
      MapMonotone(raw1, lo, lo, hi, THROTTLE_MAP_MIN, THROTTLE_MAP_MAX);
    }
    if hi <= raw2 {
      MapMonotone(hi, raw2, lo, hi, THROTTLE_MAP_MIN, THROTTLE_MAP_MAX);
    }
  }

  /** Every division `scale_gimbals` performs for `raw` has a non-zero divisor. */
  predicate CanScale(original: CalibrationValues, raw: GimbalValues)
    reads original
  {
    original.maxThrottle != original.minThrottle &&
    MapPryDefined(raw.pitch, original.minPitch, original.centerPitch, original.maxPitch) &&
    MapPryDefined(raw.roll, original.minRoll, original.centerRoll, original.maxRoll) &&
    MapPryDefined(raw.yaw, original.minYaw, original.centerYaw, original.maxYaw)
  }

  /** `scale_gimbals`: throttle is mapped linearly over its calibrated travel and clamped to
      [0, 255]; pitch, roll and yaw go through `MapPry`, with pitch and yaw negated to follow
      the sticks' wiring polarity. The out-parameter is written in full, so it is the result. */
  function ScaleGimbals(original: CalibrationValues, raw: GimbalValues): (scaled: GimbalValues)
    reads original
    requires CanScale(original, raw)
    ensures THROTTLE_MAP_MIN <= scaled.throttle <= THROTTLE_MAP_MAX
    ensures PITCH_MAP_MIN <= scaled.pitch <= PITCH_MAP_MAX
    ensures ROLL_MAP_MIN <= scaled.roll <= ROLL_MAP_MAX
    ensures YAW_MAP_MIN <= scaled.yaw <= YAW_MAP_MAX
    ensures scaled.throttle == ScaleThrottle(original, raw.throttle)
    ensures scaled.pitch == -MapPry(raw.pitch, original.minPitch, original.centerPitch, original.maxPitch, PITCH_MAP_MIN, PITCH_MAP_MAX)
    ensures scaled.roll == MapPry(raw.roll, original.minRoll, original.centerRoll, original.maxRoll, ROLL_MAP_MIN, ROLL_MAP_MAX)
    ensures scaled.yaw == -MapPry(raw.yaw, original.minYaw, original.centerYaw, original.maxYaw, YAW_MAP_MIN, YAW_MAP_MAX)
    ensures raw.pitch > original.centerPitch + DEADBAND ==> scaled.pitch <= 0
    ensures raw.roll > original.centerRoll + DEADBAND ==> scaled.roll >= 0
    ensures raw.yaw > original.centerYaw + DEADBAND ==> scaled.yaw <= 0
  {
    GimbalValues(
      ScaleThrottle(original, raw.throttle),
      -MapPry(raw.pitch, original.minPitch, original.centerPitch, original.maxPitch, PITCH_MAP_MIN, PITCH_MAP_MAX),
      MapPry(raw.roll, original.minRoll, original.centerRoll, original.maxRoll, ROLL_MAP_MIN, ROLL_MAP_MAX),
      -MapPry(raw.yaw, original.minYaw, original.centerYaw, original.maxYaw, YAW_MAP_MIN, YAW_MAP_MAX))
  }

  /** `is_armed`: the scaled sticks sit in the arming corner, throttle fully down, pitch at
      its minimum, roll at its maximum and yaw at its minimum. */
  predicate IsArmed(scaled: GimbalValues)
    ensures IsArmed(scaled) <==> scaled == GimbalValues(0, -127, 127, -127)
  {
    scaled.throttle == THROTTLE_MAP_MIN &&
    scaled.pitch == PITCH_MAP_MIN &&
    scaled.roll == ROLL_MAP_MAX &&
    scaled.yaw == YAW_MAP_MIN
  }

  /** Holding throttle at its calibrated minimum and pitch, roll and yaw at their calibrated
      maxima (pitch and yaw are negated) produces exactly the arming tuple. */
  lemma ArmGestureAtCalibratedCorner(original: CalibrationValues, raw: GimbalValues)
    requires original.minThrottle < original.maxThrottle
    requires original.centerPitch + DEADBAND < original.maxPitch
    requires original.centerRoll + DEADBAND < original.maxRoll
    requires original.centerYaw + DEADBAND < original.maxYaw
    requires raw == GimbalValues(original.minThrottle, original.maxPitch, original.maxRoll, original.maxYaw)
    ensures CanScale(original, raw) && IsArmed(ScaleGimbals(original, raw))
  {
  }
}
