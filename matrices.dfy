/**
 * Dense real matrices as rows of entries, the value-level counterpart of the
 * TMatrixD objects the track fit multiplies. Every operation is total: an
 * entry outside a row reads as zero, so products need no shape precondition.
 */
module Matrices {
  type Matrix = seq<seq<real>>

  /** A matrix with r rows of c entries each. */
  predicate Shape(A: Matrix, r: nat, c: nat)
  {
    |A| == r && forall i :: 0 <= i < r ==> |A[i]| == c
  }

  /** `A[i][j]`, or zero outside the matrix. */
  function At(A: Matrix, i: int, j: int): real
  {
    if 0 <= i < |A| && 0 <= j < |A[i]| then A[i][j] else 0.0
  }

  /** `v[j]`, or zero outside the vector. */
  function Get(v: seq<real>, j: int): real
  {
    if 0 <= j < |v| then v[j] else 0.0
  }

  /** The number of columns, read off the first row. */
  function Cols(A: Matrix): nat
  {
    if |A| == 0 then 0 else |A[0]|
  }

  /** A freshly constructed `TMatrixD(r, c)`: every entry zero. */
  function Zeros(r: nat, c: nat): (Z: Matrix)
    ensures Shape(Z, r, c) && forall i, j :: 0 <= i < r && 0 <= j < c ==> Z[i][j] == 0.0
  {
    seq(r, _ => seq(c, _ => 0.0))
  }

  /** The contents of a two-dimensional array as a matrix. */
  function Contents(A: array2<real>): (M: Matrix)
    reads A
    ensures Shape(M, A.Length0, A.Length1)
    ensures forall i, j :: 0 <= i < A.Length0 && 0 <= j < A.Length1 ==> M[i][j] == A[i, j]
  {
    seq(A.Length0, i reads A requires 0 <= i < A.Length0 =>
      seq(A.Length1, j reads A requires 0 <= j < A.Length1 => A[i, j]))
  }

  /** `f(0) + ... + f(n - 1)`, summed from the left. */
  function Sum(n: nat, f: int -> real): real
  {
    if n == 0 then 0.0 else Sum(n - 1, f) + f(n - 1)
  }

  function Transpose(A: Matrix): (t: Matrix)
    ensures Shape(t, Cols(A), |A|)
  {
    seq(Cols(A), j => seq(|A|, i => At(A, i, j)))
  }

  /** The terms `A[i][k] * B[k][j]` of entry (i, j) of a product, indexed by k. */
  function ProductTerms(A: Matrix, B: Matrix, i: int, j: int): int -> real
  {
    k => At(A, i, k) * At(B, k, j)
  }

  /** The matrix product, with the inner dimension taken from A. */
  function Times(A: Matrix, B: Matrix): (p: Matrix)
    ensures Shape(p, |A|, Cols(B))
  {
    seq(|A|, i => seq(Cols(B), j => Sum(Cols(A), ProductTerms(A, B, i, j))))
  }

  /** Entry (i, j) of a product is the sum of its terms. */
  lemma TimesEntry(A: Matrix, B: Matrix, i: nat, j: nat)
    requires i < |A| && j < Cols(B)
    ensures Times(A, B)[i][j] == Sum(Cols(A), ProductTerms(A, B, i, j))
  {
  }

  /** Entry i of A times a column of five entries, written out term by term. */
  lemma FiveTerms(A: Matrix, v: seq<real>, i: nat)
    requires i < |A| && Cols(A) == 5 && |A[i]| == 5 && |v| == 5
    ensures Times(A, Column(v))[i][0] ==
      A[i][0] * v[0] + A[i][1] * v[1] + A[i][2] * v[2] + A[i][3] * v[3] + A[i][4] * v[4]
  {
    var t := ProductTerms(A, Column(v), i, 0);
    TimesEntry(A, Column(v), i, 0);
    assert Sum(5, t) == Sum(4, t) + t(4);
    assert Sum(4, t) == Sum(3, t) + t(3);
    assert Sum(3, t) == Sum(2, t) + t(2);
  }

  function Minus(A: Matrix, B: Matrix): (d: Matrix)
    ensures Shape(d, |A|, Cols(A))
  {
    seq(|A|, i => seq(Cols(A), j => At(A, i, j) - At(B, i, j)))
  }

  /** A vector as an n x 1 column matrix. */
  function Column(v: seq<real>): (c: Matrix)
    ensures Shape(c, |v|, 1)
  {
    seq(|v|, i requires 0 <= i < |v| => [v[i]])
  }

  /** The single column of an n x 1 matrix as a vector. */
  function Entries(c: Matrix): (v: seq<real>)
    ensures |v| == |c|
  {
    seq(|c|, i => At(c, i, 0))
  }

  /** Row i of a doubly indexed family of terms. */
  function RowOf(f: (int, int) -> real, i: int): int -> real
  {
    j => f(i, j)
  }

  /** Column j of a doubly indexed family of terms. */
  function ColumnOf(f: (int, int) -> real, j: int): int -> real
  {
    i => f(i, j)
  }

  /** The sums of the first m terms of each row. */
  function RowSums(f: (int, int) -> real, m: nat): int -> real
  {
    i => Sum(m, RowOf(f, i))
  }

  /** The sums of the first n terms of each column. */
  function ColumnSums(f: (int, int) -> real, n: nat): int -> real
  {
    j => Sum(n, ColumnOf(f, j))
  }

  /** The terms `v[j] * A[i][j] * v[i]` of a quadratic form. */
  function QuadTerms(A: Matrix, v: seq<real>): (int, int) -> real
  {
    (i, j) => Get(v, j) * At(A, i, j) * Get(v, i)
  }

  /** `sum over i, j of v[j] * A[i][j] * v[i]`, rows outermost. */
  function QuadForm(A: Matrix, v: seq<real>): real
  {
    Sum(|v|, RowSums(QuadTerms(A, v), |v|))
  }

  /** A non-negative quadratic form on every vector of length n. */
  ghost predicate SemiDefinite(A: Matrix, n: nat)
  {
    forall v: seq<real> {:trigger QuadForm(A, v)} :: |v| == n ==> QuadForm(A, v) >= 0.0
  }

  lemma {:induction false} SumExt(n: nat, f: int -> real, g: int -> real)
    requires forall k :: 0 <= k < n ==> f(k) == g(k)
    ensures Sum(n, f) == Sum(n, g)
  {
    if n > 0 {
      SumExt(n - 1, f, g);
    }
  }

  lemma {:induction false} SumScale(n: nat, f: int -> real, c: real, g: int -> real)
    requires forall k :: 0 <= k < n ==> g(k) == f(k) * c
    ensures Sum(n, f) * c == Sum(n, g)
  {
    if n > 0 {
      SumScale(n - 1, f, c, g);
    }
  }

  lemma {:induction false} SumAdd(n: nat, f: int -> real, g: int -> real, h: int -> real)
    requires forall k :: 0 <= k < n ==> h(k) == f(k) + g(k)
    ensures Sum(n, f) + Sum(n, g) == Sum(n, h)
  {
    if n > 0 {
      SumAdd(n - 1, f, g, h);
    }
  }

  lemma {:induction false} SumZero(m: nat, f: int -> real)
    requires forall k :: 0 <= k < m ==> f(k) == 0.0
    ensures Sum(m, f) == 0.0
  {
    if m > 0 {
      SumZero(m - 1, f);
    }
  }

  /** Two finite sums may be taken in either order. */
  lemma {:induction false} SumSwap(n: nat, m: nat, f: (int, int) -> real)
    ensures Sum(n, RowSums(f, m)) == Sum(m, ColumnSums(f, n))
  {
    if n > 0 {
      SumSwap(n - 1, m, f);
      SumAdd(m, ColumnSums(f, n - 1), RowOf(f, n - 1), ColumnSums(f, n));
    } else {
      SumZero(m, ColumnSums(f, n));
    }
  }

  /**
   * The 1 x 1 product `rᵀ · A · r` of a column r is the quadratic form of A
   * at r's entries.
   */
  lemma SandwichIsQuadForm(A: Matrix, r: Matrix, n: nat)
    requires n > 0 && Shape(r, n, 1) && Shape(A, n, n)
    ensures Shape(Times(Times(Transpose(r), A), r), 1, 1)
    ensures Times(Times(Transpose(r), A), r)[0][0] == QuadForm(A, Entries(r))
  {
    var v := Entries(r);
    var rt := Transpose(r);
    var e := Times(rt, A);
    var f := QuadTerms(A, v);
    assert Cols(r) == 1 && Cols(rt) == n && Cols(e) == n;
    forall j | 0 <= j < n
      ensures ProductTerms(e, r, 0, 0)(j) == ColumnSums(f, n)(j)
    {
      SandwichColumn(A, r, n, j);
    }
    SumExt(n, ProductTerms(e, r, 0, 0), ColumnSums(f, n));
    SumSwap(n, n, f);
  }

  /** Term j of the outer product in `rᵀ · A · r` is column j of the quadratic form's terms, summed. */
  lemma SandwichColumn(A: Matrix, r: Matrix, n: nat, j: nat)
    requires n > 0 && Shape(r, n, 1) && Shape(A, n, n) && j < n
    ensures ProductTerms(Times(Transpose(r), A), r, 0, 0)(j) == ColumnSums(QuadTerms(A, Entries(r)), n)(j)
  {
    var v := Entries(r);
    var rt := Transpose(r);
    var f := QuadTerms(A, v);
    assert Cols(rt) == n;
    forall k | 0 <= k < n
      ensures ColumnOf(f, j)(k) == ProductTerms(rt, A, 0, j)(k) * At(r, j, 0)
    {
      assert At(rt, 0, k) == Get(v, k);
      assert At(r, j, 0) == Get(v, j);
    }
    SumScale(n, ProductTerms(rt, A, 0, j), At(r, j, 0), ColumnOf(f, j));
  }

  /** The n x n identity matrix. */
  function Identity(n: nat): (I: Matrix)
    ensures Shape(I, n, n) && forall i, j :: 0 <= i < n && 0 <= j < n ==> I[i][j] == (if i == j then 1.0 else 0.0)
  {
    seq(n, i => seq(n, j => if i == j then 1.0 else 0.0))
  }

  /** A sum whose only nonzero term is term i. */
  lemma {:induction false} SumSingle(n: nat, f: int -> real, i: nat)
    requires i < n && forall k :: 0 <= k < n && k != i ==> f(k) == 0.0
    ensures Sum(n, f) == f(i)
  {
    if n - 1 == i {
      SumZero(n - 1, f);
    } else {
      SumSingle(n - 1, f, i);
    }
  }

  /** Multiplying by the identity on the left changes nothing. */
  lemma TimesIdentity(X: Matrix, n: nat, c: nat)
    requires n > 0 && Shape(X, n, c)
    ensures Times(Identity(n), X) == X
  {
    var I := Identity(n);
    forall i, j | 0 <= i < n && 0 <= j < c
      ensures Times(I, X)[i][j] == X[i][j]
    {
      SumSingle(n, ProductTerms(I, X, i, j), i);
    }
    assert forall i :: 0 <= i < n ==> Times(I, X)[i] == X[i];
  }

  /** The matrix product is associative. */
  lemma TimesAssoc(A: Matrix, B: Matrix, C: Matrix, r: nat, p: nat, q: nat, n: nat)
    requires p > 0 && q > 0 && Shape(A, r, p) && Shape(B, p, q) && Shape(C, q, n)
    ensures Times(Times(A, B), C) == Times(A, Times(B, C))
  {
    var AB, BC := Times(A, B), Times(B, C);
    assert Shape(Times(AB, C), r, n) && Shape(Times(A, BC), r, n);
    forall i, j | 0 <= i < r && 0 <= j < n
      ensures Times(AB, C)[i][j] == Times(A, BC)[i][j]
    {
      TimesAssocEntry(A, B, C, r, p, q, n, i, j);
    }
    assert forall i :: 0 <= i < r ==> Times(AB, C)[i] == Times(A, BC)[i];
  }

  /** Entry (i, j) of both groupings is the sum of `A[i][l] B[l][k] C[k][j]` over l and k. */
  lemma TimesAssocEntry(A: Matrix, B: Matrix, C: Matrix, r: nat, p: nat, q: nat, n: nat, i: nat, j: nat)
    requires p > 0 && q > 0 && Shape(A, r, p) && Shape(B, p, q) && Shape(C, q, n) && i < r && j < n
    ensures Times(Times(A, B), C)[i][j] == Times(A, Times(B, C))[i][j]
  {
    var AB, BC := Times(A, B), Times(B, C);
    var f: (int, int) -> real := (l, k) => At(A, i, l) * At(B, l, k) * At(C, k, j);
    forall k | 0 <= k < q
      ensures ProductTerms(AB, C, i, j)(k) == ColumnSums(f, p)(k)
    {
      SumScale(p, ProductTerms(A, B, i, k), At(C, k, j), ColumnOf(f, k));
    }
    SumExt(q, ProductTerms(AB, C, i, j), ColumnSums(f, p));
    forall l | 0 <= l < p
      ensures ProductTerms(A, BC, i, j)(l) == RowSums(f, q)(l)
    {
      SumScale(q, ProductTerms(B, C, l, j), At(A, i, l), RowOf(f, l));
    }
    SumExt(p, ProductTerms(A, BC, i, j), RowSums(f, q));
    SumSwap(p, q, f);
  }

  /**
   * The weighted least-squares solution `(Hᵀ W H)⁻¹ Hᵀ W m` returns x when
   * the measurements are exactly `m = H x` and the inverse is exact.
   */
  lemma SolveRecovers(H: Matrix, W: Matrix, C: Matrix, X: Matrix, n: nat, k: nat)
    requires n > 0 && k > 0 && Shape(H, n, k) && Shape(W, n, n) && Shape(C, k, k) && Shape(X, k, 1)
    requires Times(C, Times(Times(Transpose(H), W), H)) == Identity(k)
    ensures Times(Times(Times(C, Transpose(H)), W), Times(H, X)) == X
  {
    var HT := Transpose(H);
    var P := Times(Times(C, HT), W);
    assert Times(P, H) == Identity(k) by {
      TimesAssoc(Times(C, HT), W, H, k, n, n, k);
      TimesAssoc(C, HT, Times(W, H), k, k, n, k);
      TimesAssoc(HT, W, H, k, n, n, k);
    }
    TimesAssoc(P, H, X, k, n, k, 1);
    TimesIdentity(X, k, 1);
  }

  /** A matrix minus itself is zero. */
  lemma MinusSelf(M: Matrix, r: nat, c: nat)
    requires r > 0 && Shape(M, r, c)
    ensures Minus(M, M) == Zeros(r, c)
  {
    assert forall i :: 0 <= i < r ==> Minus(M, M)[i] == Zeros(r, c)[i];
  }

  /** A product with a zero right-hand factor is zero. */
  lemma TimesZero(A: Matrix, Z: Matrix, n: nat, c: nat)
    requires Shape(Z, n, c) && forall k, j :: 0 <= k < n && 0 <= j < c ==> Z[k][j] == 0.0
    ensures forall i, j :: 0 <= i < |A| && 0 <= j < Cols(Z) ==> Times(A, Z)[i][j] == 0.0
  {
    forall i, j | 0 <= i < |A| && 0 <= j < Cols(Z)
      ensures Times(A, Z)[i][j] == 0.0
    {
      SumZero(Cols(A), ProductTerms(A, Z, i, j));
    }
  }
}
