/** Properties of the two-point calibration classifier (`isOnLine`) and of the
    way `create` and `calibrate` feed it. */
module Classification {
  import opened Rounding
  import opened LineFollower

  /** Before `calibrate` has run the baselines are `undefined`, and every
      comparison with them is false: no sensor is ever on the line. */
  lemma UncalibratedNeverOnLine(s: State, sensor: Sensor, raw: int)
    requires WhiteOf(s, sensor).None? || BlackOf(s, sensor).None?
    ensures !IsOnLine(s, sensor, raw).value
  {
  }

  /** The power-on state is uncalibrated. */
  lemma InitNeverOnLine(sensor: Sensor, raw: int)
    ensures !IsOnLine(Init(), sensor, raw).value
  {
  }

  /** The bounds are never reordered: baselines captured with white at or
      above black make the classifier always report "off the line". */
  lemma InvertedBaselinesNeverOnLine(s: State, sensor: Sensor, raw: int)
    requires WhiteOf(s, sensor).Some? && BlackOf(s, sensor).Some?
    requires WhiteOf(s, sensor).value >= BlackOf(s, sensor).value
    ensures !IsOnLine(s, sensor, raw).value
  {
  }

  /** Both bounds are strict: a rounded reading equal to either baseline is
      "off the line". */
  lemma BaselineIsOffLine(s: State, sensor: Sensor, raw: int)
    requires WhiteOf(s, sensor).Some? && BlackOf(s, sensor).Some?
    requires var v := Round(FilteredReading(s, PinOf(s, sensor), raw, false).value) as real;
             v == WhiteOf(s, sensor).value || v == BlackOf(s, sensor).value
    ensures !IsOnLine(s, sensor, raw).value
  {
  }

  /** `isOnLine(Left)` is decided by the left filter and the left baselines
      alone, and `isOnLine(Right)` by the filter the right pin drives and the
      right baselines alone: changing the other sensor's baselines does not
      change the answer. */
  lemma BaselinesAreSensorLocal(s: State, raw: int, w: Option<real>, b: Option<real>)
    ensures IsOnLine(s.(whiteRight := w, blackRight := b), Left, raw).value
            == IsOnLine(s, Left, raw).value
    ensures IsOnLine(s.(whiteLeft := w, blackLeft := b), Right, raw).value
            == IsOnLine(s, Right, raw).value
  {
  }

  /** With whole-code baselines w and b (as `calibrate` stores them), the
      classifier accepts exactly the smoothed values in [w + 1/2, b - 1/2):
      rounding half up makes the lower bound inclusive and the upper one
      exclusive. */
  lemma OnLineUnrounded(s: State, sensor: Sensor, raw: int, w: int, b: int)
    requires WhiteOf(s, sensor) == Some(w as real) && BlackOf(s, sensor) == Some(b as real)
    ensures var r := IsOnLine(s, sensor, raw);
            r.value <==> w as real + 0.5 <= Stored(r.state, PinOf(s, sensor)) < b as real - 0.5
  {
    var r := IsOnLine(s, sensor, raw);
    var v := Stored(r.state, PinOf(s, sensor));
    RoundAbove(v, w);
    RoundBelow(v, b);
  }

  /** The first classification of the left sensor after calibrating with
      distinct pins blends the fresh sample with the black sample still held
      by the filter: it is "on the line" exactly when
      2*white + 1 - black <= raw < black - 1. */
  lemma FirstLeftClassificationAfterCalibrate(
    s: State, wl: int, wr: int, bl: int, br: int, raw: int)
    requires s.leftPin != s.rightPin
    ensures IsOnLine(Calibrate(s, wl, wr, bl, br), Left, raw).value
            <==> 2 * wl + 1 - bl <= raw < bl - 1
  {
    var c := Calibrate(s, wl, wr, bl, br);
    assert c.leftValue == bl as real;
    var v := Stored(IsOnLine(c, Left, raw).state, c.leftPin);
    assert v == (bl + raw) as real / 2.0;
    RoundAbove(v, wl);
    RoundBelow(v, bl);
  }

  /** `create` with the same pin twice makes every read drive the left filter:
      a right-sensor read smooths the left value and leaves the right one. */
  lemma SamePinsShareLeftFilter(s: State, pin: Pin, raw: int)
    ensures var c := Create(s, pin, pin);
            var r := ReadRightSensor(c, raw);
            && r.state.rightValue == s.rightValue
            && r.state.leftValue == FilterStep(s.leftValue, raw)
  {
  }

  /** The example of two-point calibration: with white 100 and black 300, a
      steady reading of 200 is on the line, and steady readings of 50 and 350
      are not. */
  lemma CalibrationExample(s: State, sensor: Sensor)
    requires WhiteOf(s, sensor) == Some(100.0) && BlackOf(s, sensor) == Some(300.0)
    ensures Stored(s, PinOf(s, sensor)) == 200.0 ==> IsOnLine(s, sensor, 200).value
    ensures Stored(s, PinOf(s, sensor)) == 50.0 ==> !IsOnLine(s, sensor, 50).value
    ensures Stored(s, PinOf(s, sensor)) == 350.0 ==> !IsOnLine(s, sensor, 350).value
  {
    RoundInteger(200);
    RoundInteger(50);
    RoundInteger(350);
  }
}
