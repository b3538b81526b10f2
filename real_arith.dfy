/**
 Facts about squares of reals used by the orientation lemmas. Products are
 written through `Mul` so that the facts are stated about one term the
 solver keeps intact, and powers through the recursive `Pow`, which the
 solver unfolds only as far as a proof asks it to.
 */
module RealArith {

  function Mul(x: real, y: real): real {
    x * y
  }

  /** `x**k` for a natural exponent k, by repeated multiplication. */
  function Pow(x: real, k: nat): real {
    PowTimes(x, k, 1.0)
  }

  /** `acc * x**k` */
  function PowTimes(x: real, k: nat, acc: real): (r: real)
    ensures k == 0 ==> r == acc
  {
    if k == 0 then acc else PowTimes(x, k - 1, Mul(acc, x))
  }

  /** `a**2` */
  function Square(a: real): real {
    Pow(a, 2)
  }

  /** The square is the product of a number with itself. */
  lemma SquareIsProduct(a: real)
    ensures Square(a) == Mul(a, a)
  {
    assert PowTimes(a, 1, Mul(1.0, a)) == PowTimes(a, 0, Mul(a, a));
  }

  /** `dx**2 + dy**2 + dz**2` */
  function SquaredLength(a: real, b: real, d: real): real {
    Square(a) + Square(b) + Square(d)
  }

  lemma MulPositive(x: real, y: real)
    requires x > 0.0 && y > 0.0
    ensures Mul(x, y) > 0.0
  {
  }

  lemma MulStrictlyMonotone(x: real, y: real, z: real)
    requires x < y && z > 0.0
    ensures Mul(x, z) < Mul(y, z) && Mul(z, x) < Mul(z, y)
  {
  }

  lemma MulNegate(x: real, y: real)
    ensures Mul(-x, -y) == Mul(x, y)
  {
  }

  /** A square is never negative, and positive unless the number is 0. */
  lemma SquareSign(a: real)
    ensures Square(a) >= 0.0
    ensures a != 0.0 ==> Square(a) > 0.0
  {
    SquareIsProduct(a);
    if a > 0.0 {
      MulPositive(a, a);
    } else if a < 0.0 {
      MulPositive(-a, -a);
      MulNegate(a, a);
    }
  }

  /** Squaring is strictly increasing on the non-negative reals. */
  lemma SquareMonotone(x: real, y: real)
    requires 0.0 <= x < y
    ensures Square(x) < Square(y)
  {
    SquareIsProduct(x);
    SquareIsProduct(y);
    if x > 0.0 {
      MulStrictlyMonotone(x, y, x);
    }
    MulStrictlyMonotone(x, y, y);
  }

  /** The squared length is 0 exactly for the zero vector, and bounds the square of each component. */
  lemma SquaredLengthSign(a: real, b: real, d: real)
    ensures SquaredLength(a, b, d) >= Square(b) >= 0.0
    ensures SquaredLength(a, b, d) == 0.0 <==> a == 0.0 && b == 0.0 && d == 0.0
  {
    SquareSign(a);
    SquareSign(b);
    SquareSign(d);
  }

  /** b / s lies in [-1, 1] when s is positive and b * b <= s * s. */
  lemma RatioWithinUnit(b: real, s: real)
    requires s > 0.0 && Square(s) >= Square(b)
    ensures -1.0 <= b / s <= 1.0
  {
    SquareIsProduct(b);
    if b > s {
      SquareMonotone(s, b);
    } else if -b > s {
      SquareMonotone(s, -b);
      SquareIsProduct(-b);
      MulNegate(b, b);
    }
  }
}
