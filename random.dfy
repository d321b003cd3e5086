/**
 * Math.random() is not modelled; every value it would return is passed in
 * explicitly, so the model states what happens for EVERY possible draw.
 */
module Random {

  /** A value Math.random() can return: a real in [0, 1). */
  type Draw = r: real | 0.0 <= r < 1.0

  /**
   * The two draws one call of generateRandomNumber consumes, in the order
   * the call makes them: first the one scaled into a magnitude, then the one
   * that becomes the sign coin.
   */
  datatype Roll = Roll(magnitude: Draw, sign: Draw)

  /** Math.floor(Math.random() * 2): a fair coin, 1 for the upper half of [0, 1). */
  function Coin(s: Draw): (c: int)
    ensures c == 0 || c == 1
    ensures c == 1 <==> 0.5 <= s
  {
    (s * 2.0).Floor
  }

  lemma ProductNonNegative(a: real, b: real)
    requires 0.0 <= a && 0.0 <= b
    ensures 0.0 <= a * b
  {
  }

  lemma ProductPositive(a: real, b: real)
    requires 0.0 < a && 0.0 < b
    ensures 0.0 < a * b
  {
  }

  /**
   * `r * (max - min)` for a draw r lies in [0, max - min), or is 0 when
   * min == max: the scaled part of generateRandomNumber.
   */
  lemma DrawScales(r: Draw, min: real, max: real)
    requires min <= max
    ensures 0.0 <= r * (max - min) <= max - min
    ensures min < max ==> r * (max - min) < max - min
  {
    ProductNonNegative(r, max - min);
    ProductNonNegative(1.0 - r, max - min);
    assert (1.0 - r) * (max - min) == (max - min) - r * (max - min);
    if min < max {
      ProductPositive(1.0 - r, max - min);
    }
  }
}
