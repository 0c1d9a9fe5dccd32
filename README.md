# Game-controller and steering-wheel to CAN: a Dafny model

Two small bridges turn operator input devices into CAN frames for a vehicle
test bench.

* `CNTRLR_2_VCAN.py` reads a game controller once per tick. It suppresses stick
  drift with a deadzone and scales sticks and triggers to bytes. From the
  steering stick and the two triggers it computes a curve radius and a
  curvature: a damping trigger picks a maximum radius from a three-point table
  (190, 60 and 10 at damping 0, 0.5 and 1). That radius divided by the steering
  is the raw radius. Its reciprocal is the curvature, and the radius is then
  clamped to ±100000. The curvature goes through a first-order (PT1) low-pass
  filter whose coefficient is set by the second trigger. The filter's last
  output is kept between ticks.
* `G920_2_CAN.py` samples a steering wheel on a timer. It packs steering,
  pedals, rpm and gear into the 8 data bytes of frame 0x60 and counts every
  write attempt.

The model is in six files:

| file | module | contents |
|---|---|---|
| `wrappers.dfy` | `Wrappers` | `Option`, `Result` |
| `numeric.dfy` | `Numeric` | `Abs`, Python's `int()` on floats (`TruncToInt`), `Pow`, the byte predicate `AllBytes`, arithmetic helper lemmas |
| `interpolation.dfy` | `Interpolation` | linear `interp1d` over a table of control points: raises outside the table, passes through the knots, stays within the values' range, preserves a falling table's order |
| `controller.dfy` | `Controller` | deadzone, axis/trigger scaling, payload byte order |
| `curvature.dfy` | `Curvature` | the curve computation as the function `Tick`, the class `CurvatureEngine` whose method updates the filter state in place, and lemmas about the filter |
| `g920.dfy` | `G920` | the wheel frame's bytes as the function `MsgBytes`, the in-place `GetMsgBytes` on an 8-byte array, the byte round trips, the handle split, and the `TimerWrite` counter |

All arithmetic is over `real`. `int()` is truncation toward zero. A query outside
the interpolation table is an error result (interp1d's `ValueError`), and the
filter state is not written in that case. For steering exactly 0, the source divides
a positive numpy float by `0.0` and gets `+inf`. The model takes this path
explicitly: the curvature `1/inf` is 0, and the clamp turns the radius into 100000.

Facts about the curve computation that the model makes explicit:

* The curvature is the reciprocal of the radius before the clamp
  (`CNTRLR_2_VCAN.py:82-87`). Only the returned radius is clamped, so when the
  clamp acts the two no longer multiply to 1
  (`ClampedRadiusKeepsUnclampedCurvature` gives such an input). For any
  steering value in [-1, 1] that has passed the 0.05 deadzone, the clamp
  never acts (`DeadzonedSteeringNotClamped`).
* The damping value goes into the table lookup unclamped
  (`CNTRLR_2_VCAN.py:76-81`). A trigger outside [-1, 1] makes interp1d raise,
  and `Tick` returns a `Failure` for it.
* Axis scaling truncates with `int()` (`CNTRLR_2_VCAN.py:54`). The centre 0.0
  maps to 127 (`ScaleAxisCentre`).
* The smallest maximum radius in the table is 10 (`CNTRLR_2_VCAN.py:79`). For
  steering in [-1, 1] the unfiltered curvature is therefore bounded by 1/10
  (`UnfilteredCurvatureBound`), and the filter state keeps that bound
  (`TickKeepsCurvatureBound`).
* Zero steering divides by `0.0` and gives numpy's `inf`, so one call returns
  radius 100000 and pulls the filter toward curvature 0 (`TickZeroSteering`).

## Model

| member | source | states |
|---|---|---|
| `Numeric.TruncToInt` | CNTRLR_2_VCAN.py:54 | `int()` on a float truncates toward zero: the result is within 1 of its argument and never farther from 0 |
| `Numeric.TruncMonotone` | G920_2_CAN.py:99-102 | truncation toward zero preserves order |
| `Interpolation.Interp1d` | CNTRLR_2_VCAN.py:80-81 | linear interp1d succeeds exactly on [x[0], x[last]]; below it raises the below-range error, above it the above-range error |
| `Interpolation.Lookup` | CNTRLR_2_VCAN.py:80-81 | interp1d's evaluation inside the table; its ensures give the first value at the first knot and the last value at the last knot, and `LookupOnSegment` states that it is the line through the two neighbouring knots everywhere in between |
| `Interpolation.LookupOnSegment` | CNTRLR_2_VCAN.py:80-81 | for x between neighbouring knots xs[i] and xs[i+1], the interpolated value is the line through (xs[i], ys[i]) and (xs[i+1], ys[i+1]) evaluated at x, for every segment of any valid table |
| `Interpolation.LerpBetween` | CNTRLR_2_VCAN.py:80-81 | between two control points the line stays between their values |
| `Interpolation.LookupAtKnot` | CNTRLR_2_VCAN.py:78-81 | the interpolation passes through every control point of the table |
| `Interpolation.LookupBounded` | CNTRLR_2_VCAN.py:78-81 | interpolated values stay within any bounds of the table's values |
| `Interpolation.LookupNonIncreasing` | CNTRLR_2_VCAN.py:78-81 | a table of non-increasing values gives a non-increasing interpolation |
| `Controller.ApplyDeadzone` | CNTRLR_2_VCAN.py:38-40 | the result is 0.0 exactly when \|v\| < deadzone (or v is 0), otherwise v unchanged; a nonzero result is at least the deadzone in magnitude |
| `Controller.DeadzoneIdempotent` | CNTRLR_2_VCAN.py:38-40 | applying the deadzone twice is applying it once |
| `Controller.DeadzoneExamples` | CNTRLR_2_VCAN.py:31-40 | with the 0.05 deadzone, 0.03 becomes 0.0 and ±0.06 pass unchanged |
| `Controller.ScaleAxis` | CNTRLR_2_VCAN.py:52-54 | on [-1, 1] the byte lies in [0, 255], is the floor of (v+1)·127.5, and maps -1 to 0 and 1 to 255 |
| `Controller.ScaleAxisMonotone` | CNTRLR_2_VCAN.py:52-54 | axis scaling is non-decreasing |
| `Controller.ScaleAxisCentre` | CNTRLR_2_VCAN.py:52-54 | the stick centre 0.0 scales to 127 (truncation) |
| `Controller.ScaleTrigger` | CNTRLR_2_VCAN.py:68-70 | on [-1, 1] the trigger byte lies in [0, 255] and is the floor of (v+1)·127.5 |
| `Controller.ScaleTriggerIsScaleAxis` | CNTRLR_2_VCAN.py:68-70 | trigger scaling equals axis scaling on every input |
| `Controller.StickPayload` | CNTRLR_2_VCAN.py:103-108 | the list is left x, left y, right x, right y in this order (body); the ensures state that it has four entries and that all are bytes when the sticks are in [-1, 1] |
| `Controller.TriggerButtonPayload` | CNTRLR_2_VCAN.py:118-125 | the list is left trigger, right trigger, then buttons A, B, X, Y in this order (body); the ensures state that it has six entries, that all are bytes when the triggers are in [-1, 1], and that the four button entries are 0 or 1 |
| `Curvature.Normalise` | CNTRLR_2_VCAN.py:76-77 | a trigger maps onto [0, 1] exactly when it lies in [-1, 1]; released gives 0 and pressed gives 1 |
| `Curvature.RadiusTableValid` | CNTRLR_2_VCAN.py:78-79 | the radius table has strictly increasing x and non-increasing y |
| `Curvature.MaxRadius` | CNTRLR_2_VCAN.py:78-81 | the lookup succeeds exactly for damping in [0, 1], with a maximum radius in [10, 190] |
| `Curvature.MaxRadiusAtKnots` | CNTRLR_2_VCAN.py:78-81 | the lookup gives 190, 60 and 10 at 0, 0.5 and 1, and 125 at 0.25 |
| `Curvature.MaxRadiusClosedForm` | CNTRLR_2_VCAN.py:78-81 | the maximum radius is 190 - 260·d for damping d in [0, 0.5] and 110 - 100·d for d in [0.5, 1] |
| `Curvature.MaxRadiusNonIncreasing` | CNTRLR_2_VCAN.py:78-81 | more damping never gives a larger maximum radius |
| `Curvature.ClampRadius` | CNTRLR_2_VCAN.py:84-87 | the radius is bounded to [-100000, 100000] and left unchanged inside that range |
| `Curvature.ClampIsNearest` | CNTRLR_2_VCAN.py:84-87 | the clamped radius is the point of the allowed range nearest to the raw radius |
| `Curvature.Unfiltered` | CNTRLR_2_VCAN.py:82-87 | the radius lies in [-100000, 100000]; zero steering gives radius 100000 and curvature 0 |
| `Curvature.UnfilteredReciprocal` | CNTRLR_2_VCAN.py:82-87 | for nonzero steering the curvature is steering / max radius, the reciprocal of the unclamped radius; where no clamping happens, the radius is max radius / steering and radius·curvature = 1 |
| `Curvature.RadiusMagnitude` | CNTRLR_2_VCAN.py:79-82 | a maximum radius in [10, 190] over a steering of magnitude in [0.05, 1] has magnitude in [10, 3800] |
| `Curvature.Alpha` | CNTRLR_2_VCAN.py:90-92 | the coefficient is 1/3 at filter 0 and 1/60 at filter 1, and lies in [1/60, 1/3] on [0, 1] |
| `Curvature.AlphaNonIncreasing` | CNTRLR_2_VCAN.py:90-92 | pressing the filter trigger further never raises the coefficient |
| `Curvature.Pt1` | CNTRLR_2_VCAN.py:94 | the filter step alpha·c + (1 - alpha)·last; it carries no ensures, and `Pt1Contracts` and `Pt1Between` state that it shrinks the distance to c by (1 - alpha) and lands between last and c |
| `Curvature.Pt1Contracts` | CNTRLR_2_VCAN.py:94 | the filter step shrinks the distance to the target by the factor (1 - alpha) |
| `Curvature.Pt1Between` | CNTRLR_2_VCAN.py:94 | for alpha in [0, 1] the filtered value lies between the previous output and the target |
| `Curvature.Tick` | CNTRLR_2_VCAN.py:73-98 | one call succeeds exactly when the damping trigger is in [-1, 1], and then returns a radius in [-100000, 100000] |
| `Curvature.TickFilteredBetween` | CNTRLR_2_VCAN.py:88-98 | the returned curvature lies between the previous filter output and the tick's unfiltered curvature |
| `Curvature.NextLast` | CNTRLR_2_VCAN.py:80-95 | the value left in `curvature_lastvalue` after one call: unchanged when the damping trigger is outside [-1, 1], because interp1d raises before the write; `TickKeepsCurvatureBound` and `RunHeld` state what it is otherwise |
| `Curvature.TickZeroSteering` | CNTRLR_2_VCAN.py:82-95 | zero steering returns radius 100000 and the curvature (1 - alpha)·last |
| `Curvature.DeadzonedSteeringNotClamped` | CNTRLR_2_VCAN.py:82-87 | a stick value in [-1, 1] that passed the deadzone, with a maximum radius in [10, 190], gives a radius of magnitude in [10, 3800] that equals max radius / steering and is the reciprocal of the curvature |
| `Curvature.ClampedRadiusKeepsUnclampedCurvature` | CNTRLR_2_VCAN.py:82-87 | steering 1/100000 at maximum radius 10 returns radius 100000 with curvature 1/1000000, so radius·curvature ≠ 1 |
| `Curvature.UnfilteredCurvatureBound` | CNTRLR_2_VCAN.py:79-83 | for steering in [-1, 1] the unfiltered curvature lies in [-1/10, 1/10] |
| `Curvature.TickKeepsCurvatureBound` | CNTRLR_2_VCAN.py:88-95 | with inputs in range, a filter state in [-1/10, 1/10] stays there |
| `Curvature.ScenarioHalfSteeringFullDamping` | CNTRLR_2_VCAN.py:73-98 | steering 0.5, damping trigger pressed, filter released, from 0: max radius 10, radius 20, unfiltered curvature 0.05, alpha 1/3, filtered curvature 1/60 |
| `Curvature.ScenarioSmallLeftSteering` | CNTRLR_2_VCAN.py:73-98 | steering -0.2, damping released, filter pressed: max radius 190, radius -950, curvature -1/950, alpha 1/60 |
| `Curvature.Iterate` | CNTRLR_2_VCAN.py:94-95 | n filter steps toward a constant target; it carries no ensures, and `IterateClosedForm`, `IterateConverges` and `IterateTenReleased` state its closed form and convergence |
| `Curvature.IterateClosedForm` | CNTRLR_2_VCAN.py:94-95 | n filter steps toward a constant c from L0 give c + (1-alpha)^n·(L0 - c) |
| `Curvature.IterateConverges` | CNTRLR_2_VCAN.py:94-95 | for alpha in [0, 1] the distance to a constant target never grows and never exceeds the initial distance |
| `Curvature.IterateTenReleased` | CNTRLR_2_VCAN.py:90-95 | with alpha 1/3, ten steps leave (2/3)^10 = 1024/59049 of the initial distance |
| `Curvature.CurvatureEngine.constructor` | CNTRLR_2_VCAN.py:72 | the filter state starts at 0.0 |
| `Curvature.CurvatureEngine.CalcCurveValues` | CNTRLR_2_VCAN.py:73-98 | returns what `Tick` gives for the old filter state, and stores the filtered curvature as the new state (unchanged on error) |
| `Curvature.RunHeld` | CNTRLR_2_VCAN.py:134 | n ticks of the main loop's call with inputs held leave the state at c + (1-alpha)^n·(old state - c) |
| `G920.Ubyte` | G920_2_CAN.py:107-111 | a value stored into the c_ubyte data array keeps its low 8 bits: a byte congruent to it, itself if already a byte |
| `G920.PedalInt` | G920_2_CAN.py:100-102 | for a pedal in [0, 1], int(x·255) is floor(x·255) in [0, 255]; 0 gives 0 and 1 gives 255 |
| `G920.SteeringInt` | G920_2_CAN.py:99 | for steering in [-1, 1], int(s·32767) lies in [-32767, 32767]; ±1 give ±32767 |
| `G920.Quantize` | G920_2_CAN.py:90-104 | sampling succeeds exactly when steering, throttle and brake are present; rpm and gear are reduced modulo 2^16 and 2^8 |
| `G920.EncodeInt16BE` | G920_2_CAN.py:106 | signed 16-bit big-endian encoding succeeds exactly in [-32768, 32767], gives two bytes, and decodes back to the value |
| `G920.EncodeDecodeInt16BE` | G920_2_CAN.py:106 | every two bytes are the signed big-endian encoding of the value they decode to |
| `G920.EncodeUint16BE` | G920_2_CAN.py:110 | the rpm bytes are big-endian: b5·256 + b6 is the masked rpm |
| `G920.FrameBytes` | G920_2_CAN.py:106-111 | the 8 data bytes exist exactly when the steering integer fits 16 signed bits |
| `G920.FrameRoundTrip` | G920_2_CAN.py:106-111 | decoding the bytes of an encodable frame gives the frame back, and all are bytes |
| `G920.DecodeEncodeFrame` | G920_2_CAN.py:106-111 | every 8 bytes are the encoding of the frame they decode to |
| `G920.MsgBytes` | G920_2_CAN.py:83-114 | the data is 8 bytes, and all 8 are zero for every ID other than 0x60 |
| `G920.TelemetryRoundTrip` | G920_2_CAN.py:99-111 | for readings in range, the frame decodes to int(steering·32767), floor(pedal·255) for each pedal, int(rpm) mod 2^16 and int(gear) mod 2^8 |
| `G920.SteeringOverflowSendsZeros` | G920_2_CAN.py:99-113 | a steering integer outside [-32768, 32767], above or below, makes the frame all zeros |
| `G920.MissingKeySendsZeros` | G920_2_CAN.py:90-113 | a missing steering, throttle or brake reading makes the frame all zeros |
| `G920.GetMsgBytes` | G920_2_CAN.py:83-114 | zeroes the first 8 array entries, then writes the frame bytes; the first 8 entries end as `MsgBytes` and every later entry is unchanged |
| `G920.FormatChannelName` | G920_2_CAN.py:159-166 | below 0x100 the handle is device·16 + channel with a nibble channel; from 0x100 on, device·256 + channel with a byte channel |
| `G920.TimerWrite.constructor` | G920_2_CAN.py:30-34 | the send counter starts at 0 with the configured handle |
| `G920.TimerWrite.WriteMessage` | G920_2_CAN.py:122-128 | the frame has the given ID, length 8, the standard type and the data `MsgBytes`; the driver's status is returned |
| `G920.TimerWrite.WriteMessages` | G920_2_CAN.py:116-120 | the send counter grows by exactly 1 whatever the status; a non-OK status is reported; frame 0x60 is sent |

## Left out

- Device polling (pygame initialisation, joystick axes and buttons, the wheel's `get_state`): their readings are method and function inputs.
- The CAN transport: bus setup, `can.Message`, `bus.send` and `CanError`, and the PCANBasic `Initialize`, `Write`, `Uninitialize` and `CheckForLibrary` calls. `Write`'s status is a parameter of `WriteMessage`.
- `struct.pack('<ff', ...)`: the float32 little-endian layout of the curve frame is not modelled. Radius and curvature stay `real`.
- Floating-point rounding, NaN, infinities as inputs, and negative zero. The source's steering is always +0.0 inside the deadzone, so zero steering is modelled as +0.0.
- `bytearray(...)` raising for a value outside 0..255 (CNTRLR_2_VCAN.py:109, 126): the payload functions return integers and only promise bytes for inputs in range.
- The endless main loop, its 50 Hz sleep, and `TimerRepeater`'s thread and event. `RunHeld` models finitely many ticks with the inputs held.
- Console input and output: `getInput`, `clear`, `ShowConfigurationHelp`, `ShowCurrentConfiguration`, `ShowStatus`, and every `print`.
- `GetFormattedError`, `GetDeviceName` and `ConvertBitrateToString`, which are lookups over PCAN constants. PCANBasic is not part of this model.
- G920.FormatChannelName: returns the device/channel split only, not the formatted string with the device name.
- G920.GetMsgBytes: does not return the array, because the source returns the same object it was given.
- The `TimerWrite` fields `Bitrate`, `TimerInterval` and `m_DLLFound`, which only feed the driver and the console.
- `CURVE_RADIUS_MIN`, `CURVE_RADIUS_MAX` and `CURVATURE_MIN` (CNTRLR_2_VCAN.py:33-36): declared in the source but never used.
