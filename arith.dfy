/** Small facts about real arithmetic shared by the price computations. */
module Arith {
  function Abs(x: real): real { if x < 0.0 then -x else x }

  function Max(a: real, b: real): real { if a >= b then a else b }

  function Min(a: real, b: real): real { if a <= b then a else b }

  lemma NonNegProduct(u: real, v: real)
    requires u >= 0.0 && v >= 0.0
    ensures u * v >= 0.0
  {}

  /** Multiplying by a positive factor keeps the sign. */
  lemma PositiveFactor(u: real, v: real)
    requires v > 0.0
    ensures u * v > 0.0 <==> u > 0.0
    ensures u * v == 0.0 <==> u == 0.0
  {}

  lemma PositiveProduct(u: real, v: real)
    requires u > 0.0 && v > 0.0
    ensures u * v > 0.0
  {}

  /** Scaling a positive value by a factor in (0, 1] keeps it positive and no larger. */
  lemma ScaleDown(x: real, f: real)
    requires x > 0.0 && 0.0 < f <= 1.0
    ensures 0.0 < x * f <= x
  {
    PositiveProduct(x, f);
    assert x - x * f == x * (1.0 - f);
    NonNegProduct(x, 1.0 - f);
  }
}
