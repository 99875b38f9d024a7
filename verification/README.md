# Line-follower sensor conditioning, in Dafny

This project models the `SeguidordeLinha` ("line follower") block of a
micro:bit extension (`main.ts`). The block reads two reflectance sensors, one
left and one right. It smooths each sensor's analog readings with a
single-pole filter (α = 0.5). In calibration mode the filter is bypassed and
takes the raw sample. A two-point calibration records a white and a black
baseline per sensor. `isOnLine` then reports a sensor as "on the line" when
its rounded smoothed reading lies strictly between the two baselines.

The firmware keeps its state in module-level variables. The model holds the
same state in one immutable record, `LineFollower.State`. It has the two
bound pins, the four baselines and the two smoothed values. Each block
(`create`, `getFilteredReading`, `readLeftSensor`, `readRightSensor`,
`calibrate`, `isOnLine`) is a pure function. It maps the state before the
call to the state after it and returns the block's result. The analog read
of a pin (`pins.analogReadPin`) is a `raw` parameter. Smoothed values are
exact `real`s, because with α = 0.5 every step stays a dyadic rational.
`Math.round` is modelled as floor(x + 1/2).

Files:

- `rounding.dfy` (module `Rounding`): `Math.round` and its facts.
- `line_follower.dfy` (module `LineFollower`): the state and the blocks.
- `classification.dfy` (module `Classification`): properties of `isOnLine`,
  `create` and `calibrate`.
- `smoothing.dfy` (module `Smoothing`): what repeated reads do to a
  smoothed value.

### Reading of the source

`main.ts` as written does not compile. The model reads it as follows.

- The `SeguidordeLinha` namespace is spliced into the body of `acenderLEDs`
  (main.ts:28-29). It is read as a top-level namespace.
- `readRightSensor` is declared twice (main.ts:80, main.ts:85). In
  JavaScript a later function declaration replaces an earlier one, so the
  second would win if the file ran. That declaration reads the never-declared
  `centerSensorPin`, so the model chooses to keep the first one (main.ts:80).
- In `isOnLine`, the `else if {` branch has no condition (main.ts:100). The
  selector enum has only `Left` and `Right` (main.ts:134-139). Every non-left
  selection is modelled by the final `else` (main.ts:105-109): the right pin
  with the right baselines. Both non-left branches use the right baselines.
- `calibrate` also assigns the never-declared `blackCenter` from the
  never-declared `centerSensorPin` (main.ts:66). That line is dropped.
- The parameter of `isOnLine` is typed `SeguidordelinhaSensor` (main.ts:91),
  which does not match the enum `SeguidordeLinhaSensor` (main.ts:134). It is
  read as that enum, `LineFollower.Sensor`.
- Pins and baselines start as JavaScript `undefined`, so they are
  `Option`s. `pin === leftSensorPin` is `Option` equality, so two
  `undefined` pins compare equal. Any comparison with an `undefined`
  baseline is false, so `isOnLine` is false before `calibrate` runs.

`calibrate` reads each baseline through `getFilteredReading` in calibration
mode, which returns the raw sample (main.ts:117-118, main.ts:124-125). The
baselines are therefore raw codes, not blended values.

## Model

| member | source | states |
|---|---|---|
| Rounding.Round | main.ts:75 | `Math.round` gives the unique integer within (x - 1/2, x + 1/2] of its argument |
| Rounding.RoundInteger | main.ts:97 | rounding leaves a whole code unchanged |
| Rounding.RoundAbove | main.ts:110 | a rounded value exceeds integer w iff the unrounded value is at least w + 1/2 |
| Rounding.RoundBelow | main.ts:110 | a rounded value is below integer b iff the unrounded value is below b - 1/2 |
| LineFollower.Init | main.ts:30-39 | at power-on both pins and all four baselines are `undefined` and both smoothed values are 0 |
| LineFollower.FilterStep | main.ts:120 | one filter step lands at the midpoint of the old value and the sample, between the two |
| LineFollower.Create | main.ts:44-47 | `create` binds both pins and leaves smoothed values and baselines untouched |
| LineFollower.FilteredReading | main.ts:113-131 | the read returns the value it stores; only the selected sensor's state changes, and any non-left pin selects the right state; calibration mode stores the raw sample exactly; normal mode lands half-way between the old value and the sample, within their min and max; a sample equal to the old value leaves the state unchanged |
| LineFollower.ReadLeftSensor | main.ts:74-76 | a normal left read leaves the right filter alone and returns the stored value rounded to within 1/2 |
| LineFollower.ReadRightSensor | main.ts:80-82 | a normal right read returns the stored value rounded; with distinct pins the left filter is untouched, and with equal pins the right filter is |
| LineFollower.Calibrate | main.ts:51-70 | each baseline is the raw code of its step; pins are unchanged; with distinct pins each filter ends at its black sample, and with equal pins every sample went to the left filter |
| LineFollower.IsOnLine | main.ts:91-111 | the answer is true iff both baselines are defined and white < rounded reading < black, with strict bounds; true implies white < black; the state is that of a normal read of the selected pin |
| Classification.UncalibratedNeverOnLine | main.ts:33-36 | with an undefined baseline the classifier is always false |
| Classification.InitNeverOnLine | main.ts:30-39 | from the power-on state no sensor is on the line |
| Classification.InvertedBaselinesNeverOnLine | main.ts:110 | with white >= black the classifier always reports off the line |
| Classification.BaselineIsOffLine | main.ts:110 | a rounded reading equal to either baseline is off the line |
| Classification.BaselinesAreSensorLocal | main.ts:96-109 | `isOnLine(Left)` ignores the right baselines and `isOnLine(Right)` ignores the left ones |
| Classification.OnLineUnrounded | main.ts:97-110 | with whole-code baselines w, b the classifier accepts exactly smoothed values in [w + 1/2, b - 1/2) |
| Classification.FirstLeftClassificationAfterCalibrate | main.ts:65-110 | with distinct pins, the first left classification after `calibrate` is true iff 2·white + 1 - black <= raw < black - 1, because the filter still holds the black sample |
| Classification.SamePinsShareLeftFilter | main.ts:44-47 | after `create(p, p)` a right read smooths the left value and leaves the right value alone |
| Classification.CalibrationExample | main.ts:110 | with white 100 and black 300, steady readings of 200, 50 and 350 classify as on, off and off |
| Smoothing.PollLeftSmooths | main.ts:74-76 | repeated left reads run the left filter over the samples and change nothing else |
| Smoothing.SmoothStaysInHull | main.ts:120 | the smoothed value stays within any interval that holds the start value and every sample |
| Smoothing.SmoothMonotone | main.ts:120 | a larger start value never yields a smaller smoothed value |
| Smoothing.SmoothConverges | main.ts:120 | under a steady sample c, the distance to c after n reads is the start distance divided by 2^n |
| Smoothing.SmoothExample | main.ts:120 | from 100, a sample of 200 smooths to 150 |

## Left out

- `acenderLEDs` and every LED or display call (`led.*`, `basic.showString`, `basic.showIcon`, `basic.clearScreen`): user-interface output with no logic (main.ts:20-27, main.ts:52, main.ts:60, main.ts:69, main.ts:142-143).
- The button-polling loops and `basic.pause` in `calibrate`: they wait for the operator (main.ts:53-55, main.ts:61-63). `Calibrate` takes the four raw samples as arguments instead.
- `pins.analogReadPin`: a hardware read (main.ts:114). Each block takes the raw code as a parameter. The model does not bound it to 0..1023, and nothing in the model depends on that range.
- The center sensor: the second `readRightSensor` (main.ts:83-87), the `else if {` branch (main.ts:100-104) and the `blackCenter` line (main.ts:66). They refer to undeclared names and have no defined behaviour.
- IEEE floating point: values are exact reals. With α = 0.5 and integer samples, doubles are exact until the smoothed value needs more than 53 significant bits.
- Block-editor `//%` annotations: editor metadata only.
- Everything in `main.ts` outside the `SeguidordeLinha` namespace: the file holds only the LED block and the line-follower block, and nothing else in the extension is modelled.
