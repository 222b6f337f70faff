/**
 * Signs and cancellation laws for real products and quotients. Squares are
 * built from `Mul` on two parameters so that their signs follow from the
 * signs of the factors.
 */
module RealAlgebra {
  function Mul(a: real, b: real): (p: real)
  {
    a * b
  }

  lemma MulPos(a: real, b: real)
    requires a > 0.0 && b > 0.0
    ensures Mul(a, b) > 0.0
  {
  }

  lemma MulNeg(a: real, b: real)
    requires a < 0.0 && b < 0.0
    ensures Mul(a, b) > 0.0
  {
  }

  /** `r * r`. */
  function Sq(r: real): real
  {
    Mul(r, r)
  }

  lemma SqNonNeg(r: real)
    ensures Sq(r) >= 0.0
  {
    if r > 0.0 {
      MulPos(r, r);
    } else if r < 0.0 {
      MulNeg(r, r);
    }
  }

  lemma SqPos(r: real)
    requires r != 0.0
    ensures Sq(r) > 0.0
  {
    if r > 0.0 {
      MulPos(r, r);
    } else {
      MulNeg(r, r);
    }
  }

  /** `x * x + y * y`, the squared distance of (x, y) from the origin. */
  function SqNorm(x: real, y: real): real
  {
    Sq(x) + Sq(y)
  }

  /** The squared distance is positive everywhere except at the origin. */
  lemma SqNormPos(x: real, y: real)
    requires x != 0.0 || y != 0.0
    ensures SqNorm(x, y) > 0.0
  {
    SqNonNeg(x);
    SqNonNeg(y);
    if x != 0.0 {
      SqPos(x);
    } else {
      SqPos(y);
    }
  }

  // Scaling laws, one step each: if a = 2c / n then a * n = 2c; squaring both
  // sides and adding the two coordinates relates the squared norms of (a, b)
  // and (x, y); a positive factor cancels.

  lemma Quotient(c: real, n: real, a: real)
    requires n > 0.0 && a == 2.0 * c / n
    ensures a * n == 2.0 * c
  {
  }

  lemma SquareBoth(c: real, n: real, a: real)
    requires a * n == 2.0 * c
    ensures Sq(a) * Sq(n) == 4.0 * Sq(c)
  {
  }

  lemma SumScaled(a: real, b: real, n: real, x: real, y: real)
    requires Sq(a) * Sq(n) == 4.0 * Sq(x) && Sq(b) * Sq(n) == 4.0 * Sq(y)
    ensures SqNorm(a, b) * Sq(n) == 4.0 * SqNorm(x, y)
  {
  }

  lemma Cancel(m: real, n: real)
    requires n > 0.0 && m * Sq(n) == 4.0 * n
    ensures m * n == 4.0
  {
  }

  lemma Back(a: real, m: real, n: real, x: real)
    requires m * n == 4.0 && a * n == 2.0 * x && n > 0.0
    ensures m > 0.0 && 2.0 * a / m == x
  {
  }

  lemma ScaleBelow(u: real, v: real, w: real)
    requires w > 0.0 && u * w < v * w
    ensures u < v
  {
  }

  lemma ScaleCancel(u: real, v: real, w: real)
    requires w > 0.0 && u * w == v * w
    ensures u == v
  {
  }
}
