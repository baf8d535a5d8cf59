/**
 * Small facts about multiplication of reals, stated over plain variables so
 * that the solver never has to rewrite inside a product on its own.
 */
module RealAlgebra {

  lemma MulNonNegative(x: real, y: real)
    requires x >= 0.0 && y >= 0.0
    ensures x * y >= 0.0
  {
  }

  lemma SquareNonNegative(x: real)
    ensures x * x >= 0.0
  {
    if x < 0.0 {
      MulNonNegative(-x, -x);
    } else {
      MulNonNegative(x, x);
    }
  }

  function Square(x: real): (sq: real) {
    x * x
  }

  /** The square of a non-zero value is positive. */
  lemma SquarePositive(x: real, r: real)
    requires x != 0.0 && r == x * x
    ensures r > 0.0
  {
    if x > 0.0 {
      calc { r; == x * x; > 0.0 * x; }
    } else {
      calc { r; == (-x) * (-x); > 0.0 * (-x); }
    }
  }

  /** Multiplying by a non-negative factor keeps the order. */
  lemma MulLe(c: real, x: real, y: real)
    requires c >= 0.0 && x <= y
    ensures c * x <= c * y
  {
    MulNonNegative(c, y - x);
  }

  lemma MulByOne(x: real, y: real)
    requires y == 1.0
    ensures x * y == x
  {
  }

  lemma MulCongruence(x: real, y: real, z: real)
    requires x == y
    ensures x * z == y * z
  {
  }
}
