/**
  The immutable 2D vector of vector.js.

  Every operation builds a new value; a Dafny datatype value cannot be
  updated in place, so "the receiver and the argument are left unchanged"
  holds by construction. Components are mathematical reals.

  `length()` is `Math.sqrt(x*x + y*y)`. The square root is not computed
  here: the model works with the squared length, and a length is any
  non-negative `l` with `Square(l) == LengthSquared()` (see `IsLength`).
*/
module Vectors {

  import opened Reals

  datatype Vector2 = Vector2(x: real, y: real) {

    /** `add`: componentwise sum, a fresh vector. */
    function Add(other: Vector2): Vector2 {
      Vector2(x + other.x, y + other.y)
    }

    /** `mul`: scaling by a number, a fresh vector. */
    function Mul(a: real): Vector2 {
      Vector2(x * a, y * a)
    }

    /** The square of `length()`: x² + y². */
    function LengthSquared(): real {
      Square(x) + Square(y)
    }

    /**
      `normalized`: both components divided by the length. `len` stands for
      `this.length()`; dividing by it needs a vector other than zero.
      Scaling the result back by the length gives the vector again.
    */
    function Normalized(len: real): (r: Vector2)
      requires IsLength(this, len) && this != Zero()
      ensures r.Mul(len) == this
    {
      LengthZeroIff(this, len);
      Vector2(x / len, y / len)
    }
  }

  function Zero(): Vector2 {
    Vector2(0.0, 0.0)
  }

  /** `l` is what `v.length()` returns: the non-negative square root of x² + y². */
  ghost predicate IsLength(v: Vector2, l: real) {
    l >= 0.0 && Square(l) == v.LengthSquared()
  }

  /** The squared length is never negative and is zero exactly for the zero vector. */
  lemma LengthSquaredZeroIff(v: Vector2)
    ensures v.LengthSquared() >= 0.0
    ensures v.LengthSquared() == 0.0 <==> v == Zero()
  {
    SquareSign(v.x);
    SquareSign(v.y);
  }

  /** The length is zero exactly for the zero vector. */
  lemma LengthZeroIff(v: Vector2, l: real)
    requires IsLength(v, l)
    ensures l == 0.0 <==> v == Zero()
  {
    SquareSign(l);
    LengthSquaredZeroIff(v);
  }

  /** `length()` is a function of the vector: there is at most one length. */
  lemma LengthUnique(v: Vector2, l1: real, l2: real)
    requires IsLength(v, l1) && IsLength(v, l2)
    ensures l1 == l2
  {
    SquareLess(l1, l2);
    SquareLess(l2, l1);
  }

  /** The length of a normalized vector is 1. */
  lemma NormalizedHasLengthOne(v: Vector2, len: real)
    requires IsLength(v, len) && v != Zero()
    ensures IsLength(v.Normalized(len), 1.0)
  {
    LengthZeroIff(v, len);
    var p, q := v.x / len, v.y / len;
    assert v.x == p * len && v.y == q * len;
    assert Square(v.x) == Square(p) * Square(len);
    assert Square(v.y) == Square(q) * Square(len);
    SquareSign(len);
    ScaledSumIsOne(Square(p), Square(q), Square(len), Square(v.x), Square(v.y));
  }

  lemma AddCommutes(a: Vector2, b: Vector2)
    ensures a.Add(b) == b.Add(a)
  {
  }

  lemma AddAssociates(a: Vector2, b: Vector2, c: Vector2)
    ensures a.Add(b).Add(c) == a.Add(b.Add(c))
  {
  }

  lemma AddZeroIsIdentity(a: Vector2)
    ensures a.Add(Zero()) == a && Zero().Add(a) == a
  {
  }

  lemma MulOneIsIdentity(a: Vector2)
    ensures a.Mul(1.0) == a
  {
  }

  lemma MulZeroIsZero(a: Vector2)
    ensures a.Mul(0.0) == Zero()
  {
  }

  /** Scaling distributes over the scale factors: a·m + a·n == a·(m + n). */
  lemma MulDistributes(a: Vector2, m: real, n: real)
    ensures a.Mul(m).Add(a.Mul(n)) == a.Mul(m + n)
  {
  }
}
