/** The two arithmetic helpers the Joy-Car driver relies on: the linear range
    remap `scale` and JavaScript's `Math.round`. Numbers are JavaScript
    numbers, modelled as `real`. */
module Scaling {

  /** Maps `num` linearly from the range [inMin, inMax] onto [outMin, outMax],
      without clamping. joycar.ts never calls it with an empty input range. */
  function Scale(num: real, inMin: real, inMax: real, outMin: real, outMax: real): (r: real)
    requires inMin != inMax
    ensures (r - outMin) * (inMax - inMin) == (num - inMin) * (outMax - outMin)
  {
    (num - inMin) * (outMax - outMin) / (inMax - inMin) + outMin
  }

  /** Scaling back from the output range to the input range recovers the value. */
  lemma ScaleInverse(num: real, inMin: real, inMax: real, outMin: real, outMax: real)
    requires inMin != inMax && outMin != outMax
    ensures Scale(Scale(num, inMin, inMax, outMin, outMax), outMin, outMax, inMin, inMax) == num
  {
  }

  /** A scale onto an increasing output range preserves strict order. */
  lemma ScaleMonotone(a: real, b: real, inMin: real, inMax: real, outMin: real, outMax: real)
    requires inMin < inMax && outMin < outMax && a < b
    ensures Scale(a, inMin, inMax, outMin, outMax) < Scale(b, inMin, inMax, outMin, outMax)
  {
  }

  /** Multiplying and then dividing by the same nonzero factor is the identity. */
  lemma Cancel(v: real, b: real)
    requires b != 0.0
    ensures v * b / b == v
  {
  }

  /** `Math.round`: the nearest integer, halves rounded towards +infinity. */
  function Round(x: real): (n: int)
    ensures n as real - 0.5 <= x < n as real + 0.5
  {
    (x + 0.5).Floor
  }
}
