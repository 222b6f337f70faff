/**
 * The 2x2 matrices and 2x1 column vectors of the Kalman step in the
 * non-bending (x, z) projection, with the inverse in closed form.
 */
module Matrix2 {
  import opened RealAlgebra

  /** The matrix [[a, b], [c, d]]. */
  datatype Mat2 = Mat2(a: real, b: real, c: real, d: real)

  /** The column vector (x, y). */
  datatype Vec2 = Vec2(x: real, y: real)

  function Det(m: Mat2): real
  {
    Mul(m.a, m.d) - Mul(m.b, m.c)
  }

  predicate Symmetric(m: Mat2)
  {
    m.b == m.c
  }

  /** Symmetric with positive leading minors. */
  predicate PosDef(m: Mat2)
  {
    Symmetric(m) && m.a > 0.0 && Det(m) > 0.0
  }

  function Identity(): Mat2
  {
    Mat2(1.0, 0.0, 0.0, 1.0)
  }

  function Plus(m: Mat2, n: Mat2): Mat2
  {
    Mat2(m.a + n.a, m.b + n.b, m.c + n.c, m.d + n.d)
  }

  function Times(m: Mat2, n: Mat2): Mat2
  {
    Mat2(Mul(m.a, n.a) + Mul(m.b, n.c), Mul(m.a, n.b) + Mul(m.b, n.d),
         Mul(m.c, n.a) + Mul(m.d, n.c), Mul(m.c, n.b) + Mul(m.d, n.d))
  }

  function Transpose(m: Mat2): Mat2
  {
    Mat2(m.a, m.c, m.b, m.d)
  }

  function Apply(m: Mat2, v: Vec2): Vec2
  {
    Vec2(Mul(m.a, v.x) + Mul(m.b, v.y), Mul(m.c, v.x) + Mul(m.d, v.y))
  }

  function VPlus(u: Vec2, v: Vec2): Vec2
  {
    Vec2(u.x + v.x, u.y + v.y)
  }

  /** `TMatrixD::Invert` of a non-singular 2x2 matrix. */
  function Inverse(m: Mat2): Mat2
    requires Det(m) != 0.0
  {
    Mat2(m.d / Det(m), -m.b / Det(m), -m.c / Det(m), m.a / Det(m))
  }

  lemma RightInverse(a: real, b: real, c: real, d: real, k: real)
    requires k != 0.0 && Mul(a, d) - Mul(b, c) == k
    ensures Mul(a, d / k) + Mul(b, -c / k) == 1.0
    ensures Mul(a, -b / k) + Mul(b, a / k) == 0.0
    ensures Mul(c, d / k) + Mul(d, -c / k) == 0.0
    ensures Mul(c, -b / k) + Mul(d, a / k) == 1.0
  {
  }

  /** The closed form is an inverse: m times it is the identity. */
  lemma InverseIsInverse(m: Mat2)
    requires Det(m) != 0.0
    ensures Times(m, Inverse(m)) == Identity()
  {
    RightInverse(m.a, m.b, m.c, m.d, Det(m));
  }

  lemma DetOfScaled(a: real, b: real, c: real, d: real, k: real)
    requires k != 0.0 && Mul(a, d) - Mul(b, c) == k
    ensures Mul(d / k, a / k) - Mul(-b / k, -c / k) == 1.0 / k
  {
  }

  lemma BackScale(u: real, k: real)
    requires k != 0.0
    ensures (u / k) / (1.0 / k) == u
  {
  }

  /** Inverting twice gives the matrix back; the determinant of the inverse is the reciprocal. */
  lemma InverseInverse(m: Mat2)
    requires Det(m) != 0.0
    ensures Det(Inverse(m)) == 1.0 / Det(m)
    ensures Det(Inverse(m)) != 0.0 && Inverse(Inverse(m)) == m
  {
    var k := Det(m);
    DetOfScaled(m.a, m.b, m.c, m.d, k);
    BackScale(m.a, k);
    BackScale(m.b, k);
    BackScale(m.c, k);
    BackScale(m.d, k);
  }

  lemma MulNonPos(a: real, b: real)
    requires a > 0.0 && b <= 0.0
    ensures Mul(a, b) <= 0.0
  {
  }

  lemma MulComm(a: real, b: real)
    ensures Mul(a, b) == Mul(b, a)
  {
  }

  lemma DivPos(u: real, k: real)
    requires u > 0.0 && k > 0.0
    ensures u / k > 0.0
  {
  }

  /** A positive-definite matrix also has a positive lower-right entry. */
  lemma PosDefCorner(m: Mat2)
    requires PosDef(m)
    ensures m.d > 0.0
  {
    SqNonNeg(m.b);
    if m.d <= 0.0 {
      MulNonPos(m.a, m.d);
    }
  }

  /** For a symmetric matrix, a positive lower-right entry and determinant suffice. */
  lemma PosDefFromCorner(m: Mat2)
    requires Symmetric(m) && m.d > 0.0 && Det(m) > 0.0
    ensures PosDef(m)
  {
    SqNonNeg(m.b);
    if m.a <= 0.0 {
      MulNonPos(m.d, m.a);
      MulComm(m.a, m.d);
    }
  }

  /** The inverse of a positive-definite matrix exists and is positive definite. */
  lemma InversePosDef(m: Mat2)
    requires PosDef(m)
    ensures Det(m) != 0.0 && PosDef(Inverse(m))
  {
    PosDefCorner(m);
    InverseInverse(m);
    DivPos(m.d, Det(m));
    DivPos(1.0, Det(m));
  }
}
