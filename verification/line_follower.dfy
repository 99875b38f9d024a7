/** The line-follower block (`SeguidordeLinha`): two reflectance sensors, each
    with a single-pole smoothing filter, and a two-point (white/black)
    calibration used to classify a reading as "on the line".

    The firmware keeps this state in module-level variables that every block
    mutates; here it is one immutable `State` record, and every block is a pure
    function from the state before the call to the state after it (together
    with the block's return value, in a `Step`). The analog read of a pin is
    the `raw` parameter of each function.
 */
module LineFollower {
  import opened Rounding

  /** A JavaScript variable that may still be `undefined`. */
  datatype Option<T> = None | Some(value: T)

  /** An `AnalogPin` of the board, identified by its number. */
  type Pin = int

  /** The sensor selector of `isOnLine`. */
  datatype Sensor = Left | Right

  /** Smoothing weight of a fresh sample. */
  const Alpha: real := 0.5

  /** Everything the block remembers between calls. Pins are `undefined`
      until `create` runs and baselines until `calibrate` runs; both smoothed
      values start at 0. */
  datatype State = State(
    leftPin: Option<Pin>,
    rightPin: Option<Pin>,
    whiteLeft: Option<real>,
    blackLeft: Option<real>,
    whiteRight: Option<real>,
    blackRight: Option<real>,
    leftValue: real,
    rightValue: real)

  /** The new state after a block call, and what the block returned. */
  datatype Step<T> = Step(state: State, value: T)

  /** The state at power-on. */
  function Init(): (r: State)
    ensures r.leftPin.None? && r.rightPin.None?
    ensures r.whiteLeft.None? && r.blackLeft.None? && r.whiteRight.None? && r.blackRight.None?
    ensures r.leftValue == 0.0 && r.rightValue == 0.0
  {
    State(None, None, None, None, None, None, 0.0, 0.0)
  }

  /** Reads are dispatched by comparing the pin with the bound left pin
      (`===`, so two `undefined`s compare equal); every other pin, whatever
      it is, drives the right sensor's filter. */
  predicate IsLeft(s: State, pin: Option<Pin>)
  {
    pin == s.leftPin
  }

  /** The smoothed value a read of `pin` would update. */
  function Stored(s: State, pin: Option<Pin>): real
  {
    if IsLeft(s, pin) then s.leftValue else s.rightValue
  }

  /** The pin a sensor selector reads. */
  function PinOf(s: State, sensor: Sensor): Option<Pin>
  {
    match sensor
    case Left => s.leftPin
    case Right => s.rightPin
  }

  /** One step of the smoothing filter: the new value is the midpoint of the
      previous value and the fresh sample, so it moves half-way towards the
      sample. */
  function FilterStep(prev: real, raw: int): (v: real)
    ensures v - prev == raw as real - v
    ensures prev <= raw as real ==> prev <= v <= raw as real
    ensures raw as real <= prev ==> raw as real <= v <= prev
  {
    Alpha * raw as real + (1.0 - Alpha) * prev
  }

  /** `create(leftPin, rightPin)`: binds the two pins and nothing else. */
  function Create(s: State, leftPin: Pin, rightPin: Pin): (r: State)
    ensures r.leftPin == Some(leftPin) && r.rightPin == Some(rightPin)
    ensures r.leftValue == s.leftValue && r.rightValue == s.rightValue
    ensures r.whiteLeft == s.whiteLeft && r.blackLeft == s.blackLeft
    ensures r.whiteRight == s.whiteRight && r.blackRight == s.blackRight
  {
    s.(leftPin := Some(leftPin), rightPin := Some(rightPin))
  }

  /** `getFilteredReading(pin, isCalibration)` with `raw` the analog read of
      `pin`. Exactly one filter state changes, and the value returned is the
      value now stored there. */
  function FilteredReading(s: State, pin: Option<Pin>, raw: int, isCalibration: bool): (r: Step<real>)
    // the returned value is the one stored by this call
    ensures r.value == Stored(r.state, pin)
    // only the selected sensor's state changes
    ensures IsLeft(s, pin) ==> r.state == s.(leftValue := r.value)
    ensures !IsLeft(s, pin) ==> r.state == s.(rightValue := r.value)
    // calibration mode takes the raw sample, with no history blended in
    ensures isCalibration ==> r.value == raw as real
    // normal mode moves half-way from the old value to the sample
    ensures !isCalibration ==> r.value - Stored(s, pin) == raw as real - r.value
    ensures !isCalibration ==>
              Min(Stored(s, pin), raw as real) <= r.value <= Max(Stored(s, pin), raw as real)
    // a sample equal to the smoothed value is a fixed point
    ensures !isCalibration && raw as real == Stored(s, pin) ==> r.state == s
  {
    var v := if isCalibration then raw as real else FilterStep(Stored(s, pin), raw);
    if IsLeft(s, pin) then Step(s.(leftValue := v), v)
    else Step(s.(rightValue := v), v)
  }

  function Min(a: real, b: real): real
  {
    if a <= b then a else b
  }

  function Max(a: real, b: real): real
  {
    if a <= b then b else a
  }

  /** `readLeftSensor()`: a normal read of the left pin, rounded. */
  function ReadLeftSensor(s: State, raw: int): (r: Step<int>)
    ensures r.state == FilteredReading(s, s.leftPin, raw, false).state
    ensures r.state.rightValue == s.rightValue
    ensures r.state.leftValue - 0.5 < r.value as real <= r.state.leftValue + 0.5
  {
    var rd := FilteredReading(s, s.leftPin, raw, false);
    Step(rd.state, Round(rd.value))
  }

  /** `readRightSensor()`: a normal read of the right pin, rounded. When both
      pins are the same, this read drives the left filter. */
  function ReadRightSensor(s: State, raw: int): (r: Step<int>)
    ensures r.state == FilteredReading(s, s.rightPin, raw, false).state
    ensures s.rightPin != s.leftPin ==> r.state.leftValue == s.leftValue
    ensures s.rightPin == s.leftPin ==> r.state.rightValue == s.rightValue
    ensures Stored(r.state, s.rightPin) - 0.5 < r.value as real <= Stored(r.state, s.rightPin) + 0.5
  {
    var rd := FilteredReading(s, s.rightPin, raw, false);
    Step(rd.state, Round(rd.value))
  }

  /** `calibrate()` without the operator prompts: the white samples of the
      left and right pins, then the black samples, each taken through a
      calibration-mode read in that order. */
  function Calibrate(s: State, whiteLeftRaw: int, whiteRightRaw: int, blackLeftRaw: int, blackRightRaw: int): (r: State)
    // the baselines are the raw codes themselves
    ensures r.whiteLeft == Some(whiteLeftRaw as real) && r.whiteRight == Some(whiteRightRaw as real)
    ensures r.blackLeft == Some(blackLeftRaw as real) && r.blackRight == Some(blackRightRaw as real)
    ensures r.leftPin == s.leftPin && r.rightPin == s.rightPin
    // each filter holds the last raw sample of its pin
    ensures s.leftPin != s.rightPin ==>
              r.leftValue == blackLeftRaw as real && r.rightValue == blackRightRaw as real
    // with both pins equal, every sample went to the left filter
    ensures s.leftPin == s.rightPin ==>
              r.leftValue == blackRightRaw as real && r.rightValue == s.rightValue
  {
    var wl := FilteredReading(s, s.leftPin, whiteLeftRaw, true);
    var s1 := wl.state.(whiteLeft := Some(wl.value));
    var wr := FilteredReading(s1, s1.rightPin, whiteRightRaw, true);
    var s2 := wr.state.(whiteRight := Some(wr.value));
    var bl := FilteredReading(s2, s2.leftPin, blackLeftRaw, true);
    var s3 := bl.state.(blackLeft := Some(bl.value));
    var br := FilteredReading(s3, s3.rightPin, blackRightRaw, true);
    br.state.(blackRight := Some(br.value))
  }

  /** The white baseline `isOnLine` uses for a selector. */
  function WhiteOf(s: State, sensor: Sensor): Option<real>
  {
    match sensor
    case Left => s.whiteLeft
    case Right => s.whiteRight
  }

  /** The black baseline `isOnLine` uses for a selector. */
  function BlackOf(s: State, sensor: Sensor): Option<real>
  {
    match sensor
    case Left => s.blackLeft
    case Right => s.blackRight
  }

  /** JavaScript's `v > white && v < black`: any comparison with an
      `undefined` baseline is false. */
  predicate StrictlyBetween(white: Option<real>, v: int, black: Option<real>)
  {
    white.Some? && black.Some? && white.value < v as real && v as real < black.value
  }

  /** `isOnLine(sensor)`: a normal read of the sensor's pin, rounded, and
      compared against that sensor's baselines with strict bounds. */
  function IsOnLine(s: State, sensor: Sensor, raw: int): (r: Step<bool>)
    ensures r.state == FilteredReading(s, PinOf(s, sensor), raw, false).state
    ensures r.value <==>
              && WhiteOf(s, sensor).Some? && BlackOf(s, sensor).Some?
              && WhiteOf(s, sensor).value < Round(Stored(r.state, PinOf(s, sensor))) as real
              && Round(Stored(r.state, PinOf(s, sensor))) as real < BlackOf(s, sensor).value
    ensures r.value ==> WhiteOf(s, sensor).value < BlackOf(s, sensor).value
  {
    var pin := PinOf(s, sensor);
    var rd := FilteredReading(s, pin, raw, false);
    Step(rd.state, StrictlyBetween(WhiteOf(s, sensor), Round(rd.value), BlackOf(s, sensor)))
  }
}
