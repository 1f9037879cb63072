# Joy-Car driver core in Dafny

A model of the Joy-Car driver library (`joycar.ts`), the
MakeCode extension that drives the Joy-Car robot from a micro:bit. It covers
the three pieces of sequential logic in that file:

- **Motor command translator** (`motor.dfy`, module `Motor`; arithmetic in
  `scaling.dfy`, module `Scaling`). `drive`, `turn` and `stop` build the four
  raw channel values handed to `driveJoyCar` (`DriveFrame`, `TurnFrame`,
  `StopFrame`). `driveJoyCar` scales each positive channel by its side's bias
  (channels 2 and 3 by the right bias, 4 and 5 by the left bias) and remaps it
  from [0, 255] onto [80, 255]. It then emits four writes to I2C address 112,
  for registers 2, 3, 4, 5 in that order. The writes are returned as a
  `seq<Write>`, not performed. `bias` stores the inverted percentage
  `scale(percent, 0, 100, 100, 0)`.
- **IO-expander decoder** (`sensors.dfy`, module `Sensors`). `sensorData`
  splits the expander byte LSB-first into a list of binary digits, stopping
  when the byte reaches 0. It answers the negation of the digit at the
  queried position; a position past the end reads as `undefined`, so the
  answer there is `true`. `linefinder`, `obstacleavoidance` and `speed` pick
  bits 2/3/4, 5/6 and 0/1.
- **Light strip** (`lights.dfy`, module `Lights`; state in `car.dfy`, module
  `Car`). An 8-pixel buffer holds 24-bit colours. Steady setters paint fixed
  pixels. Two blink phases toggle at most once every 400 ms of running time:
  one is shared by the left and right indicators, the other belongs to the
  hazard lights.

The driver's globals are one immutable `Car.State` record: the pixels, the
indicator phase (`indicatorBool`, `lastIndicator`), the hazard phase
(`hazardBool`, `lastHazard`), `biasL` and `biasR`. It is threaded through the
functions. JavaScript numbers are `real`. `Math.round(x)` is `Floor(x + 0.5)`,
which is exact for every real. `input.runningTime()` is a `now: int`
parameter. The byte returned by `pins.i2cReadBuffer(56, 1, true)` is a
`Byte` parameter.

Lights are last-writer-wins, as `Lights.LastWriterWins` states.

## Model

| member | source | states |
|---|---|---|
| Scaling.Scale | joycar.ts:492-494 | the result lies on the line through (inMin, outMin) and (inMax, outMax) |
| Scaling.ScaleInverse | joycar.ts:492-494 | scaling back from the output range to the input range returns the original value |
| Scaling.ScaleMonotone | joycar.ts:492-494 | onto an increasing output range, scale preserves strict order |
| Scaling.Round | joycar.ts:99-100 | `Math.round` gives the integer n with n - 0.5 <= x < n + 0.5: the nearest integer, ties rounded up |
| Motor.Remap | joycar.ts:449-464 | a channel <= 0 is written unchanged, so 0 is written as exactly 0 whatever the bias; a positive channel with bias >= 0 lands at >= 80; a channel in (0, 255] with bias in [0, 100] lands in [80, 255]; 255 at bias 100 is exactly 255 |
| Motor.RemapRoundTrip | joycar.ts:449-464 | with a positive bias the written value determines the raw channel value (inverse remap recovers it) |
| Motor.RemapMonotone | joycar.ts:449-464 | with a positive bias a larger positive channel is written strictly larger |
| Motor.FullBiasKeepsFloor | joycar.ts:457-464 | at stored bias 0, meaning bias 100 %, a nonzero channel is still written as 80, not 0 |
| Motor.DriveJoyCar | joycar.ts:447-477 | exactly four writes to address 112, registers 2, 3, 4, 5 in order; registers 2, 3 use the right bias and 4, 5 the left; zero channels are written as 0; channels in (0, 255] land in [80, 255] when both biases are in [0, 100] |
| Motor.DriveJoyCarRoundTrip | joycar.ts:447-477 | with positive biases, decoding the four writes gives back the frame passed in |
| Motor.ComplementaryWrites | joycar.ts:449-464 | if at most one channel per wheel is nonzero before the remap, the same holds of the written values |
| Motor.Pwm | joycar.ts:99-100 | the PWM value is the nearest integer to 255 * speed / 100, and lies in [0, 255] for speed in [0, 100] |
| Motor.DriveFrame | joycar.ts:98-107 | forward passes (0, r, 0, r) and reverse passes (r, 0, r, 0): both wheels get r = round(255 * speed / 100) on the direction's channels, the opposite channels get 0 |
| Motor.Drive | joycar.ts:98-107 | opposite-direction channels are written 0; a speed that rounds to 0 writes 0 everywhere; for speed in [0, 100] and biases in [0, 100], each wheel's driving channel is otherwise written in [80, 255] |
| Motor.InnerSpeed | joycar.ts:120-124 | inner wheel speed is 0 for radius <= 0; for radius in (0, 5] and pwm >= 0 it is at most 0.7 * pwm, and for pwm > 0 it lies strictly between 0 and pwm |
| Motor.InnerBounds | joycar.ts:123 | bounds of pwm * 0.7 * radius / 5 for radius in (0, 5] |
| Motor.InnerSpeedMonotone | joycar.ts:110-124 | for a positive PWM, a larger radius level (from 0 up) gives a strictly faster inner wheel: the higher the radius, the wider the curve |
| Motor.TurnFrame | joycar.ts:117-146 | the wheel on the turning side gets the inner speed and the other wheel the full pwm, both on the orientation's channels; opposite channels get 0, for all four orientation/direction cases |
| Motor.Turn | joycar.ts:117-146 | four writes; opposite-orientation channels written 0; a pivot (radius <= 0) writes 0 for the inner wheel; for a speed in (0, 100] that rounds to a positive PWM and biases in [0, 100], the outer wheel is written in [80, 255] |
| Motor.TurnInnerSlower | joycar.ts:117-146 | with equal positive biases, a speed that rounds to a positive PWM and radius in (0, 5], the inner wheel is written strictly below the outer wheel |
| Motor.TurnWiderWithRadius | joycar.ts:110-146 | with positive biases and a positive PWM, a larger radius level writes a strictly larger value for the inner wheel |
| Motor.StopFrame | joycar.ts:154-163 | intense stop passes all zeros, soft stop passes 255 on all four channels; only the intense stop keeps both channels of a wheel from being driven at once |
| Motor.Stop | joycar.ts:154-163 | intense stop writes 0 on all four registers; for biases in [0, 100] soft stop writes values in [80, 255], and exactly 255 when both biases are 100 |
| Motor.Bias | joycar.ts:189-196 | the chosen side's bias becomes 100 - percent; the other side's bias and everything else are unchanged; biases stay in [0, 100] for percent in [0, 100] |
| Motor.InitialBias | joycar.ts:79-80 | a freshly loaded driver has both biases at 100, within [0, 100], so its soft stop writes 255 on all four registers |
| Motor.DrivePwm | joycar.ts:208-210 | four writes whose values are the remapped raw arguments (registers 2, 3 with the right bias, 4, 5 with the left); a 0 argument is written as 0, and for biases in [0, 100] an argument in (0, 255] is written in [80, 255] |
| Sensors.BitsOf | joycar.ts:482-486 | the digit list is empty exactly for 0, every digit is 0 or 1, and the last digit is 1 |
| Sensors.BitsOfIndex | joycar.ts:482-486 | the i-th listed digit is bit i of the byte |
| Sensors.BitsBeyond | joycar.ts:482-486 | every bit at or past the end of the list is 0 |
| Sensors.BitsOfLength | joycar.ts:482-486 | a number below 2^n yields at most n digits |
| Sensors.ValueOfBits | joycar.ts:482-486 | the digits re-encode to the original number |
| Sensors.ByteDigits | joycar.ts:481-486 | for a byte: at most 8 digits, they re-encode to the byte, digit i is bit i, and all later bits are 0 |
| Sensors.Decompose | joycar.ts:481-486 | the loop ends with at most 8 digits that re-encode to the byte, digit i equal to bit i, and every higher bit 0 |
| Sensors.SensorData | joycar.ts:480-489 | the answer is true exactly when bit `bit` of the byte is 0 (negative positions answer true); a byte of 0 answers true everywhere |
| Sensors.Linefinder | joycar.ts:379-389 | left, center and right answer bit 2, 3 and 4 being 0 |
| Sensors.ObstacleAvoidance | joycar.ts:396-403 | left and right answer bit 5 and 6 being 0 |
| Sensors.Speed | joycar.ts:411-418 | left and right answer bit 0 and 1 being 0 |
| Lights.Light | joycar.ts:218-232 | pixels 0 and 3 become 0xB2B2B2 and pixels 5 and 6 become 0xB30000 when on; all four are 0 when off; other pixels, phases and biases are unchanged |
| Lights.Brakelight | joycar.ts:240-250 | pixels 5 and 6 become 0xff0000 (on) or 0 (off); nothing else changes |
| Lights.Reversinglight | joycar.ts:342-350 | pixel 6 becomes 0xffffff (on) or 0 (off); nothing else changes |
| Lights.Blinking | joycar.ts:258-334 | switched on and due (>= 400 ms since the last toggle), the phase flips, is stamped with now, and the group shows 0xff7200 or 0 per the new phase; on but not yet due, nothing changes; off darkens the group and keeps phase and stamp; pixels outside the group never change |
| Lights.Indicator | joycar.ts:258-300 | the blink rule on pixels {1, 4} (left) or {2, 7} (right) with the single shared indicator phase; the hazard phase and biases are untouched |
| Lights.Hazardlights | joycar.ts:308-334 | the blink rule on pixels {1, 2, 4, 7} with the hazard phase; the indicator phase and biases are untouched |
| Lights.BlinkAlternates | joycar.ts:258-334 | n calls spaced >= 400 ms apart flip the phase n times; the phase is stamped with the last call, the group shows it, and other pixels are unchanged |
| Lights.SharedIndicatorPhase | joycar.ts:258-287 | after the left indicator toggles, a right-indicator call within 400 ms does nothing |
| Lights.SwitchingSidesLeavesLeftLit | joycar.ts:258-287 | switching from left to right without turning left off leaves pixels 1 and 4 amber, darkens 2 and 7, and leaves the phase off |
| Lights.RelightSkipsOnePhase | joycar.ts:258-298 | turning a lit indicator off keeps its phase on, so the next due call turns the phase off and the group stays dark |
| Lights.LastWriterWins | joycar.ts:218-250 | setters have no priority: whichever of brake or tail light writes pixel 5 last decides it, and turning the light off darkens the reversing pixel |
| Lights.LightCommutesWithIndicator | joycar.ts:218-300 | the front/rear light and an indicator touch disjoint pixels and state, so their calls commute |
| Lights.ReversinglightCommutesWithHazard | joycar.ts:308-350 | the reversing light and the hazard lights commute |
| Lights.InitialIndicator | joycar.ts:74-78 | a freshly loaded driver has a dark strip and both phases off at time 0, so an indicator switched on before 400 ms of running time does nothing, and the first call after that lights its group amber |
| Lights.HazardOffDarkensIndicators | joycar.ts:327-332 | switching the hazard lights off darkens both indicators' pixels |

## Left out

- Module initialisation (joycar.ts:83-89): two fixed I2C writes to the PWM controller, with no logic.
- `servo` (joycar.ts:173-180): a pass-through to `pins.servoWritePin`.
- `strip.show()`: pushes the buffer to the hardware; the model keeps only the buffer.
- `sonar` (joycar.ts:360-371): pin toggling, microsecond waits and `pulseIn` timing; all that is left is a constant multiply on a hardware reading.
- `readAdc` (joycar.ts:437-443): an analog read times two floating-point constants.
- `buzzer` (joycar.ts:426-429): a call into the music library.
- Motor.DriveJoyCar: the written value is the one passed to `setNumber(NumberFormat.UInt8LE, …)`. The byte that conversion produces for non-integer or out-of-range values is not modelled, because the conversion is not part of this code.
- The I2C transport: writes are returned as data and reads are parameters. A failed read is not modelled; it would simply be whatever byte the parameter holds.
- `input.runningTime()` is read up to three times within one `indicator`/`hazardlights` call. The model reads it once as `now`, which assumes the clock does not advance during a call.
- JavaScript numbers are IEEE-754 doubles; the model computes with exact reals, so floating-point rounding in `scale`, the bias multiply and the turn's inner speed is not modelled.
- `strip.setPixelColor` may scale colours by the strip's brightness and stores them as bytes; the model keeps the 24-bit colour passed in, not the buffer bytes.
- test.ts, the application loop, is not part of this model.
