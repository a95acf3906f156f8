/** Rounding of exact reals. */
module Rounding {

  /** math.Round: to the nearest integer, halves away from zero. */
  function Round(x: real): (r: int)
    ensures -0.5 <= r as real - x <= 0.5
    ensures x - r as real == 0.5 ==> x < 0.0
    ensures r as real - x == 0.5 ==> x > 0.0
  {
    if x >= 0.0 then (x + 0.5).Floor else -((-x + 0.5).Floor)
  }
}
