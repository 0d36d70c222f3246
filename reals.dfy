/**
  Facts about squares and products of reals, shared by the vector model and
  the frame model (squared lengths and squared distances stand in for
  `Math.sqrt`).
*/
module Reals {

  /**
    The identity on reals, a device for the solver only: `Square` multiplies
    by `Same(a)` rather than by `a`, which keeps the two factors apart as
    terms; the value is a * a.
  */
  function Same(a: real): real {
    a
  }

  function Square(a: real): real {
    a * Same(a)
  }

  /** a · b, written like `Square` for the same reason. */
  function Product(a: real, b: real): real {
    a * Same(b)
  }

  lemma ProductPositive(a: real, b: real)
    requires a > 0.0 && b > 0.0
    ensures a * b > 0.0
  {
  }

  /** A square is never negative, and is zero only for zero. */
  lemma SquareSign(a: real)
    ensures Square(a) >= 0.0
    ensures Square(a) > 0.0 <==> a != 0.0
  {
    if a > 0.0 {
      ProductPositive(a, a);
    } else if a < 0.0 {
      ProductPositive(-a, -a);
    }
  }

  /** Squaring is strictly increasing on the non-negative reals. */
  lemma SquareLess(a: real, b: real)
    requires 0.0 <= a && 0.0 <= b
    ensures a < b <==> Square(a) < Square(b)
  {
    if a < b {
      ProductPositive(b - a, b + a);
      assert (b - a) * (b + a) == Square(b) - Square(a);
    } else if b < a {
      ProductPositive(a - b, b + a);
      assert (a - b) * (b + a) == Square(a) - Square(b);
    }
  }

  /** If x·z + y·z == z for a positive z, then x + y == 1. */
  lemma ScaledSumIsOne(x: real, y: real, z: real, u: real, w: real)
    requires z > 0.0 && u == x * z && w == y * z && z == u + w
    ensures x + y == 1.0
  {
    var d := x + y - 1.0;
    assert d * z == 0.0;
    if d > 0.0 {
      ProductPositive(d, z);
    } else if d < 0.0 {
      ProductPositive(-d, z);
    }
  }

  /** A roll in [0, 1) scaled by a positive width lands in [0, width). */
  lemma ScaledRollInRange(r: real, w: real)
    ensures 0.0 <= r < 1.0 && w > 0.0 ==> 0.0 <= Product(r, w) < w
  {
    if 0.0 <= r < 1.0 && w > 0.0 {
      if r > 0.0 {
        ProductPositive(r, w);
      }
      ProductPositive(1.0 - r, w);
      assert Product(1.0 - r, w) == w - Product(r, w);
    }
  }
}
