/**
 * The global least-squares fit of `globalChi2` in spectrometer6.c: the
 * measurement vector m, the measurement covariance V (pixel resolution plus
 * the correlations that multiple scattering induces between planes) and the
 * projection H of the five track parameters onto the measurements, each
 * filled by the source's index loops, and then the linear fit itself.
 *
 * Indices: measurement a < NPlanes is the z coordinate in plane a, and
 * measurement NPlanes + a the y coordinate in plane a. The track state is
 * x = (z0, dz/dx, y0, dy/dx, 1/p) at plane 0.
 */
module TrackFit {
  import opened RealAlgebra
  import opened Matrices
  import opened Spectrometer

  /** The hits chosen in each plane index into that plane's buffers. */
  predicate ValidChoice(ys: seq<seq<real>>, zs: seq<seq<real>>, ihits: seq<int>)
  {
    |ys| == NPlanes && |zs| == NPlanes && |ihits| == NPlanes &&
    forall i :: 0 <= i < NPlanes ==> 0 <= ihits[i] < |ys[i]| && ihits[i] < |zs[i]|
  }

  /** The measurements: the nplane z coordinates, then the nplane y coordinates. */
  function Measurements(ys: seq<seq<real>>, zs: seq<seq<real>>, ihits: seq<int>): (m: seq<real>)
    requires ValidChoice(ys, zs, ihits)
    ensures |m| == NDim
  {
    seq(NDim, a requires 0 <= a < NDim =>
      if a < NPlanes then zs[a][ihits[a]] else ys[a - NPlanes][ihits[a - NPlanes]])
  }

  method BuildMeasurements(ys: seq<seq<real>>, zs: seq<seq<real>>, ihits: seq<int>) returns (m: array<real>)
    requires ValidChoice(ys, zs, ihits)
    ensures fresh(m) && m[..] == Measurements(ys, zs, ihits)
  {
    m := new real[NDim];
    for i := 0 to NPlanes
      invariant forall a :: 0 <= a < i ==> m[a] == zs[a][ihits[a]] && m[a + NPlanes] == ys[a][ihits[a]]
    {
      m[i] := zs[i][ihits[i]];
      m[i + NPlanes] := ys[i][ihits[i]];
    }
    assert forall a :: NPlanes <= a < NDim ==> m[a] == m[(a - NPlanes) + NPlanes];
  }

  // ----- the measurement covariance V -----

  /** The scattering term `i * j * t2 * d2` of entry (i, j) of a block. */
  function Scattering(i: nat, j: nat): real
  {
    ((i * j) as real) * T2 * (D * D)
  }

  /**
   * The scattering accumulated over the first n planes by two measurements
   * g planes apart: the sum for k = 1..n of `k * (k + g) * t2 * d2`.
   */
  function Accumulated(n: nat, g: nat): real
  {
    if n == 0 then 0.0 else Accumulated(n - 1, g) + Scattering(n, n + g)
  }

  /**
   * Entry (i, j), i <= j, of one diagonal block in closed form: the
   * resolution on the diagonal plus the scattering of every plane before i.
   */
  function Upper(i: nat, j: nat): real
    requires i <= j
  {
    (if i == j then S2 else 0.0) + Accumulated(i, j - i)
  }

  /** Entry (i, j) of one diagonal block. */
  function Block(i: nat, j: nat): real
  {
    if i <= j then Upper(i, j) else Upper(j, i)
  }

  /** Entry (a, b) of V: the z block, the y block, and zero between them. */
  function VEntry(a: nat, b: nat): real
  {
    if a < NPlanes && b < NPlanes then Block(a, b)
    else if NPlanes <= a && NPlanes <= b then Block(a - NPlanes, b - NPlanes)
    else 0.0
  }

  function VMatrix(): (V: Matrix)
    ensures Shape(V, NDim, NDim)
  {
    seq(NDim, a => seq(NDim, b => if a < 0 || b < 0 then 0.0 else VEntry(a, b)))
  }

  lemma VSymmetric(a: nat, b: nat)
    ensures VEntry(a, b) == VEntry(b, a)
  {
  }

  lemma VBlocks(a: nat, b: nat)
    requires a < NPlanes && b < NPlanes
    ensures VEntry(a + NPlanes, b + NPlanes) == VEntry(a, b)
    ensures VEntry(a, b + NPlanes) == 0.0 && VEntry(a + NPlanes, b) == 0.0
  {
  }

  lemma VFirstRow(j: nat)
    requires 0 < j < NPlanes
    ensures VEntry(0, 0) == S2 && VEntry(0, j) == 0.0
  {
  }

  /** The recurrence the source fills V by. */
  lemma VRecurrence(i: nat, j: nat)
    requires 1 <= i <= j < NPlanes
    ensures VEntry(i, j) == VEntry(i - 1, j - 1) + Scattering(i, j)
  {
    assert j - i == (j - 1) - (i - 1);
  }

  lemma {:induction false} AccumulatedNonNeg(n: nat, g: nat)
    ensures Accumulated(n, g) >= 0.0
  {
    if n > 0 {
      AccumulatedNonNeg(n - 1, g);
      MulPos(n as real, (n + g) as real);
      assert ((n * (n + g)) as real) == (n as real) * ((n + g) as real);
    }
  }

  /** Each measurement's variance is at least the pixel resolution squared. */
  lemma VDiagonal(a: nat)
    requires a < NDim
    ensures VEntry(a, a) >= S2
  {
    if a < NPlanes {
      AccumulatedNonNeg(a, 0);
    } else {
      AccumulatedNonNeg(a - NPlanes, 0);
    }
  }

  /** Whether block cell (p, q) is written once rows before i and row i up to column j are done. */
  predicate Done(i: nat, j: nat, p: nat, q: nat)
  {
    var lo, hi := if p <= q then p else q, if p <= q then q else p;
    lo < i || (lo == i && hi < j)
  }

  /** V part way through the loops. */
  function Stage(i: nat, j: nat, a: nat, b: nat): real
  {
    if a < NPlanes && b < NPlanes then (if Done(i, j, a, b) then Block(a, b) else 0.0)
    else if NPlanes <= a && NPlanes <= b then
      (if Done(i, j, a - NPlanes, b - NPlanes) then Block(a - NPlanes, b - NPlanes) else 0.0)
    else 0.0
  }

  /** Row i up to column j + 1 differs from row i up to column j in the four cells of (i, j). */
  lemma StageNext(i: nat, j: nat, a: nat, b: nat)
    requires 1 <= i <= j < NPlanes && a < NDim && b < NDim
    ensures Stage(i, j + 1, a, b) ==
      if (a == i && b == j) || (a == j && b == i) || (a == i + NPlanes && b == j + NPlanes) ||
         (a == j + NPlanes && b == i + NPlanes)
      then Block(i, j) else Stage(i, j, a, b)
  {
  }

  /** One step of the inner loop: the four cells (i, j), (j, i) in both blocks. */
  method FillCell(V: array2<real>, i: nat, j: nat)
    requires V.Length0 == NDim && V.Length1 == NDim && 1 <= i <= j < NPlanes
    requires forall a, b :: 0 <= a < NDim && 0 <= b < NDim ==> V[a, b] == Stage(i, j, a, b)
    modifies V
    ensures forall a, b :: 0 <= a < NDim && 0 <= b < NDim ==> V[a, b] == Stage(i, j + 1, a, b)
  {
    VRecurrence(i, j);
    V[i, j] := V[i - 1, j - 1] + Scattering(i, j);
    V[i + NPlanes, j + NPlanes] := V[i, j];
    if j > i {
      V[j, i] := V[i, j];
      V[j + NPlanes, i + NPlanes] := V[j, i];
    }
    forall a, b | 0 <= a < NDim && 0 <= b < NDim
      ensures V[a, b] == Stage(i, j + 1, a, b)
    {
      StageNext(i, j, a, b);
    }
  }

  /** `V.Zero()`, the two corners, then the two index loops over the upper triangle. */
  method BuildV() returns (V: array2<real>)
    ensures fresh(V) && V.Length0 == NDim && V.Length1 == NDim
    ensures forall a, b :: 0 <= a < NDim && 0 <= b < NDim ==> V[a, b] == VEntry(a, b)
    ensures Contents(V) == VMatrix()
  {
    V := new real[NDim, NDim]((a, b) => 0.0);
    V[0, 0] := S2;
    V[NPlanes, NPlanes] := S2;
    var i := 1;
    while i < NPlanes
      invariant 1 <= i <= NPlanes
      invariant forall a, b :: 0 <= a < NDim && 0 <= b < NDim ==> V[a, b] == Stage(i, i, a, b)
    {
      var j := i;
      while j < NPlanes
        invariant i <= j <= NPlanes
        invariant forall a, b :: 0 <= a < NDim && 0 <= b < NDim ==> V[a, b] == Stage(i, j, a, b)
      {
        FillCell(V, i, j);
        j := j + 1;
      }
      i := i + 1;
    }
    assert forall k :: 0 <= k < NDim ==> Contents(V)[k] == VMatrix()[k];
  }

  // ----- the projection H -----

  /** The bend term of a y measurement in plane i: zero before the magnet. */
  function Bend(i: nat): real
  {
    if i > NumberOfPlanes - 1 then Dpdt * D * (0.5 + (i as real) - (NumberOfPlanes as real)) else 0.0
  }

  /**
   * Entry (a, b) of H: a z measurement in plane i sees z0 + i * d * dz/dx,
   * a y measurement y0 + i * d * dy/dx plus the bend times 1/p.
   */
  function HEntry(a: nat, b: nat): real
  {
    if a < NPlanes then
      (if b == 0 then 1.0 else if b == 1 then (a as real) * D else 0.0)
    else if a < NDim then
      (if b == 2 then 1.0 else if b == 3 then ((a - NPlanes) as real) * D
       else if b == 4 then Bend(a - NPlanes) else 0.0)
    else 0.0
  }

  function HMatrix(): (H: Matrix)
    ensures Shape(H, NDim, NParameters)
  {
    seq(NDim, a => seq(NParameters, b => if a < 0 || b < 0 then 0.0 else HEntry(a, b)))
  }

  /** The straight-line track prediction of measurement a from the state x. */
  function Predicted(a: nat, x: seq<real>): real
    requires a < NDim && |x| == NParameters
  {
    if a < NPlanes then x[0] + (a as real) * D * x[1]
    else x[2] + ((a - NPlanes) as real) * D * x[3] + Bend(a - NPlanes) * x[4]
  }

  /** A z row of H applied to a state gives the predicted z measurement. */
  lemma ZRowPredicts(x: seq<real>, a: nat)
    requires |x| == NParameters && a < NPlanes
    ensures Times(HMatrix(), Column(x))[a][0] == x[0] + (a as real) * D * x[1]
  {
    var H := HMatrix();
    FiveTerms(H, x, a);
    assert H[a] == [1.0, (a as real) * D, 0.0, 0.0, 0.0];
    RowTimes(H[a], x, 1.0, (a as real) * D, 0.0, 0.0, 0.0);
  }

  /** A y row of H applied to a state gives the predicted y measurement, bend included. */
  lemma YRowPredicts(x: seq<real>, a: nat)
    requires |x| == NParameters && NPlanes <= a < NDim
    ensures Times(HMatrix(), Column(x))[a][0] ==
      x[2] + ((a - NPlanes) as real) * D * x[3] + Bend(a - NPlanes) * x[4]
  {
    var H := HMatrix();
    FiveTerms(H, x, a);
    assert H[a] == [0.0, 0.0, 1.0, ((a - NPlanes) as real) * D, Bend(a - NPlanes)];
    RowTimes(H[a], x, 0.0, 0.0, 1.0, ((a - NPlanes) as real) * D, Bend(a - NPlanes));
  }

  /** A row of five known coefficients times a state. */
  lemma RowTimes(h: seq<real>, x: seq<real>, h0: real, h1: real, h2: real, h3: real, h4: real)
    requires h == [h0, h1, h2, h3, h4] && |x| == NParameters
    ensures h[0] * x[0] + h[1] * x[1] + h[2] * x[2] + h[3] * x[3] + h[4] * x[4] ==
      h0 * x[0] + h1 * x[1] + h2 * x[2] + h3 * x[3] + h4 * x[4]
  {
  }

  /** H applied to a state gives the predicted measurements. */
  lemma ProjectionPredicts(x: seq<real>)
    requires |x| == NParameters
    ensures Shape(Times(HMatrix(), Column(x)), NDim, 1)
    ensures forall a :: 0 <= a < NDim ==> Times(HMatrix(), Column(x))[a][0] == Predicted(a, x)
  {
    forall a | 0 <= a < NDim
      ensures Times(HMatrix(), Column(x))[a][0] == Predicted(a, x)
    {
      if a < NPlanes {
        ZRowPredicts(x, a);
      } else {
        YRowPredicts(x, a);
      }
    }
  }

  /** `H.Zero()` and then one loop over the planes, filling a z row and a y row. */
  method BuildH() returns (H: array2<real>)
    ensures fresh(H) && H.Length0 == NDim && H.Length1 == NParameters
    ensures forall a, b :: 0 <= a < NDim && 0 <= b < NParameters ==> H[a, b] == HEntry(a, b)
    ensures Contents(H) == HMatrix()
  {
    H := new real[NDim, NParameters]((a, b) => 0.0);
    for i := 0 to NPlanes
      invariant forall a, b :: 0 <= a < NDim && 0 <= b < NParameters ==>
        H[a, b] == (if a < i || NPlanes <= a < NPlanes + i then HEntry(a, b) else 0.0)
    {
      var j := i + NPlanes;
      H[i, 0] := 1.0;
      H[j, 2] := 1.0;
      H[i, 1] := (i as real) * D;
      H[j, 3] := (i as real) * D;
      if i > NumberOfPlanes - 1 && NParameters > 4 {
        H[j, 4] := Dpdt * D * (0.5 + (i as real) - (NumberOfPlanes as real));
      }
    }
    assert forall k :: 0 <= k < NDim ==> Contents(H)[k] == HMatrix()[k];
  }

  // ----- the fit -----

  datatype FitResult = FitResult(chi2: real, x: Matrix, C: Matrix)

  /** The residuals `m - H x` of the fitted state. */
  function Residual(m: seq<real>, H: Matrix, x: Matrix): (R: Matrix)
    requires |m| == NDim
    ensures Shape(R, NDim, 1)
  {
    Minus(Column(m), Times(H, x))
  }

  /**
   * The linear chi-square fit: with W the inverse of V, the state covariance
   * is `C = (Hᵀ W H)⁻¹`, the state `x = C Hᵀ W m`, and the chi-square the
   * W-weighted squared residual. `inv` stands for TMatrixD::Invert.
   */
  function Fit(m: seq<real>, V: Matrix, H: Matrix, inv: Matrix -> Matrix): FitResult
    requires |m| == NDim
  {
    var W := inv(V);
    var HT := Transpose(H);
    var C := inv(Times(Times(HT, W), H));
    var x := Times(Times(Times(C, HT), W), Column(m));
    var R := Residual(m, H, x);
    FitResult(Times(Times(Transpose(R), W), R)[0][0], x, C)
  }

  /** The fit of the chosen hits; it takes no track state as input. */
  function GlobalFit(ys: seq<seq<real>>, zs: seq<seq<real>>, ihits: seq<int>, inv: Matrix -> Matrix): FitResult
    requires ValidChoice(ys, zs, ihits)
  {
    Fit(Measurements(ys, zs, ihits), VMatrix(), HMatrix(), inv)
  }

  /**
   * The fit's chi-square is the quadratic form of the inverted covariance at
   * the residuals, hence never negative when that inverse is positive
   * semidefinite.
   */
  lemma FitChi2(m: seq<real>, V: Matrix, H: Matrix, inv: Matrix -> Matrix)
    requires |m| == NDim && Shape(inv(V), NDim, NDim)
    ensures var f := Fit(m, V, H, inv);
      f.chi2 == QuadForm(inv(V), Entries(Residual(m, H, f.x)))
    ensures SemiDefinite(inv(V), NDim) ==> Fit(m, V, H, inv).chi2 >= 0.0
  {
    var f := Fit(m, V, H, inv);
    SandwichIsQuadForm(inv(V), Residual(m, H, f.x), NDim);
  }

  /** `Hᵀ V⁻¹ H`, the matrix whose inverse is the fitted covariance. */
  function Normal(inv: Matrix -> Matrix): Matrix
  {
    Times(Times(Transpose(HMatrix()), inv(VMatrix())), HMatrix())
  }

  /**
   * A noiseless track is recovered: when the chosen hits are exactly the
   * measurements a state x predicts and the 5 x 5 inversion really inverts
   * `Hᵀ V⁻¹ H`, the fit returns x itself with zero residuals and a zero
   * chi-square.
   */
  lemma FitRecovers(ys: seq<seq<real>>, zs: seq<seq<real>>, ihits: seq<int>, x: seq<real>, inv: Matrix -> Matrix)
    requires ValidChoice(ys, zs, ihits) && |x| == NParameters
    requires forall a :: 0 <= a < NDim ==> Measurements(ys, zs, ihits)[a] == Predicted(a, x)
    requires Shape(inv(VMatrix()), NDim, NDim)
    requires Shape(inv(Normal(inv)), NParameters, NParameters)
    requires Times(inv(Normal(inv)), Normal(inv)) == Identity(NParameters)
    ensures var f := GlobalFit(ys, zs, ihits, inv);
      f.x == Column(x) && Residual(Measurements(ys, zs, ihits), HMatrix(), f.x) == Zeros(NDim, 1) && f.chi2 == 0.0
  {
    var m := Measurements(ys, zs, ihits);
    assert Column(m) == Times(HMatrix(), Column(x)) by {
      ProjectionPredicts(x);
      assert forall a :: 0 <= a < NDim ==> Column(m)[a] == Times(HMatrix(), Column(x))[a];
    }
    ExactFit(m, VMatrix(), HMatrix(), Column(x), inv, NParameters);
  }

  /** The fit of measurements that are exactly `H X`, with an exact k x k inverse. */
  lemma ExactFit(m: seq<real>, V: Matrix, H: Matrix, X: Matrix, inv: Matrix -> Matrix, k: nat)
    requires |m| == NDim && k > 0 && Shape(H, NDim, k) && Shape(X, k, 1) && Column(m) == Times(H, X)
    requires Shape(inv(V), NDim, NDim)
    requires var A := Times(Times(Transpose(H), inv(V)), H);
      Shape(inv(A), k, k) && Times(inv(A), A) == Identity(k)
    ensures var f := Fit(m, V, H, inv);
      f.x == X && Residual(m, H, f.x) == Zeros(NDim, 1) && f.chi2 == 0.0
  {
    var W := inv(V);
    var f := Fit(m, V, H, inv);
    assert f.x == X by {
      SolveRecovers(H, W, inv(Times(Times(Transpose(H), W), H)), X, NDim, k);
    }
    var R := Residual(m, H, f.x);
    assert R == Zeros(NDim, 1) by {
      assert R == Minus(Times(H, X), Times(H, X));
      MinusSelf(Times(H, X), NDim, 1);
    }
    TimesZero(Times(Transpose(R), W), R, NDim, 1);
  }

  /**
   * `globalChi2(ihits, x, C)`: m, V and H filled by their loops, then the
   * fit. The incoming state x is overwritten without being read.
   */
  method GlobalChi2(ys: seq<seq<real>>, zs: seq<seq<real>>, ihits: seq<int>, x: Matrix, inv: Matrix -> Matrix)
    returns (chi2: real, xfit: Matrix, Cfit: Matrix)
    requires ValidChoice(ys, zs, ihits)
    ensures FitResult(chi2, xfit, Cfit) == GlobalFit(ys, zs, ihits, inv)
  {
    var m := BuildMeasurements(ys, zs, ihits);
    var V := BuildV();
    var H := BuildH();
    var f := Fit(m[..], Contents(V), Contents(H), inv);
    chi2, xfit, Cfit := f.chi2, f.x, f.C;
  }
}
