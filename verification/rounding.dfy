/** Rounding of the firmware's numbers to whole sensor codes.

    The firmware rounds a smoothed reading with JavaScript's `Math.round`,
    which rounds half-way values up (towards +infinity). On exact reals this is
    floor(x + 1/2); floating-point representation is not modelled.
 */
module Rounding {

  /** `Math.round(x)`: the unique integer r with x - 1/2 < r <= x + 1/2. */
  function Round(x: real): (r: int)
    ensures x - 0.5 < r as real <= x + 0.5
  {
    (x + 0.5).Floor
  }

  /** Whole codes are left alone. */
  lemma RoundInteger(n: int)
    ensures Round(n as real) == n
  {
  }

  /** A rounded value lies strictly above the integer w exactly when the
      unrounded value reaches w + 1/2 (half-way values round up). */
  lemma RoundAbove(x: real, w: int)
    ensures Round(x) > w <==> x >= w as real + 0.5
  {
  }

  /** A rounded value lies strictly below the integer b exactly when the
      unrounded value stays below b - 1/2. */
  lemma RoundBelow(x: real, b: int)
    ensures Round(x) < b <==> x < b as real - 0.5
  {
  }
}
