/** Facts about products and quotients that several proofs need one at a time. */
module Arithmetic {
  lemma Distribute(x: real, y: real, z: real)
    ensures x * (y + z) == x * y + x * z
  {
  }

  lemma Grow(x: real, y: real, k: real)
    requires x <= y && k >= 0.0
    ensures x * k <= y * k
  {
  }

  lemma Divide(x: real, y: real, t: real)
    requires x <= y && t > 0.0
    ensures x / t <= y / t
  {
  }

  lemma Product(x: real, y: real)
    requires x >= 0.0 && y >= 0.0
    ensures x * y >= 0.0
  {
  }

  lemma PositiveProduct(x: real, y: real)
    requires x > 0.0 && y > 0.0
    ensures x * y > 0.0
  {
  }

  lemma NoZeroProduct(x: real, y: real)
    requires x * y == 0.0 && y != 0.0
    ensures x == 0.0
  {
  }

  lemma SignOfProduct(x: real, y: real)
    requires y >= 0.0
    ensures x * y > 0.0 <==> x > 0.0 && y > 0.0
    ensures x * y < 0.0 <==> x < 0.0 && y > 0.0
  {
    if y > 0.0 {
      if x > 0.0 {
        PositiveProduct(x, y);
      } else if x < 0.0 {
        PositiveProduct(-x, y);
        assert -x * y == -(x * y);
      }
    }
  }

  lemma SquareIsNotNegative(x: real)
    ensures x * x >= 0.0
  {
  }

  /** One more product, after the weight was pushed along its input. */
  lemma OneTerm(was: real, now: real, w: real, w': real, push: real, x: real, energy: real)
    requires now == was + push * (1.0 + energy) && w' == w + push * x
    ensures now + w' * x == was + w * x + push * (1.0 + (energy + x * x))
  {
    var y := push * x;
    assert (w + y) * x == w * x + y * x;
    assert y * x == push * (x * x);
    Distribute(push, 1.0 + energy, x * x);
  }
}
