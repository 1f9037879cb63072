/** The enumerations of the Joy-Car driver (joycar.ts) and the driver's
    process-wide state: the 8-pixel light strip, the two blink phases and the
    two motor biases. */
module Car {

  datatype FRDirection = Forward | Reverse
  datatype LRDirection = Left | Right
  datatype StopIntensity = Intense | Soft
  datatype ToggleSwitch = On | Off
  datatype SensorLCRSelection = Left | Center | Right
  datatype SensorLRSelection = Left | Right

  /** The light strip has eight pixels, each a 24-bit RGB colour. */
  const StripLength := 8
  type Color = int
  type Strip = p: seq<Color> | |p| == StripLength witness [0, 0, 0, 0, 0, 0, 0, 0]

  /** A blink phase: whether the group is lit, and the running time (ms) of its last toggle.
      The indicator phase is `indicatorBool`/`lastIndicator`, the hazard phase
      `hazardBool`/`lastHazard`. */
  datatype Blink = Blink(isOn: bool, last: int)

  /** Everything the driver keeps between calls. The biases are percentages
      (100 = no attenuation) applied to the right (channels 2, 3) and left
      (channels 4, 5) motor. */
  datatype State = State(pixels: Strip, indicator: Blink, hazard: Blink, biasL: real, biasR: real)

  /** The state when the driver module is loaded: a dark strip, both phases off at time 0, no bias. */
  const Initial: State := State([0, 0, 0, 0, 0, 0, 0, 0], Blink(false, 0), Blink(false, 0), 100.0, 100.0)
}
