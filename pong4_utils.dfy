/**
 * The random-velocity helper of pong-4 (src/pong-4/utils.js).
 *
 * As written, the magnitude is `r * (max - min) + max`, so it lies in
 * [max, 2 * max - min) and not in [min, max) as the helper's documentation
 * says; the model follows the code.
 */
module Pong4Utils {
  import opened Numbers
  import opened Random

  /** generateRandomNumber(min, max), with its two Math.random() draws in `roll`. */
  function GenerateRandomNumber(min: real, max: real, roll: Roll): (v: real)
    ensures min <= max && 0.0 <= max ==> max <= Abs(v) <= 2.0 * max - min
    ensures min < max && 0.0 <= max ==> Abs(v) < 2.0 * max - min
    ensures min <= max && 0.0 < max ==> (v < 0.0 <==> Coin(roll.sign) == 1)
  {
    var magnitude := roll.magnitude * (max - min) + max;
    assert min <= max ==> max <= magnitude <= 2.0 * max - min && (min < max ==> magnitude < 2.0 * max - min) by {
      if min <= max { DrawScales(roll.magnitude, min, max); }
    }
    if Coin(roll.sign) == 1 then -magnitude else magnitude
  }

  /** The first draw alone fixes the magnitude; the coin only picks the sign. */
  lemma MagnitudeIgnoresCoin(min: real, max: real, r: Draw, s1: Draw, s2: Draw)
    ensures Abs(GenerateRandomNumber(min, max, Roll(r, s1))) == Abs(GenerateRandomNumber(min, max, Roll(r, s2)))
    ensures GenerateRandomNumber(min, max, Roll(r, s1)) == r * (max - min) + max
         || GenerateRandomNumber(min, max, Roll(r, s1)) == -(r * (max - min) + max)
  {
  }

  /** With equal bounds the result is exactly `max` or `-max`. */
  lemma EqualBounds(max: real, roll: Roll)
    ensures GenerateRandomNumber(max, max, roll) == max || GenerateRandomNumber(max, max, roll) == -max
  {
  }

  /**
   * For a non-empty range of non-negative bounds, the magnitude is never in
   * the documented range [min, max); the first draw 0 gives `max` itself.
   */
  lemma OutsideDocumentedRange(min: real, max: real, roll: Roll)
    requires 0.0 <= min < max
    ensures !(min <= Abs(GenerateRandomNumber(min, max, roll)) < max)
    ensures Abs(GenerateRandomNumber(min, max, Roll(0.0, roll.sign))) == max
  {
  }
}
