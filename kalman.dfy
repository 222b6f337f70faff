/**
 * `kalmanFilter` of spectrometer6.c and of kalman_testbeam.py: one
 * predict/update step of the track state (z, dz/dx) and its covariance from
 * one plane to the next, returning the chi-square of the hit.
 */
module Kalman {
  import opened RealAlgebra
  import opened Matrix2
  import opened Spectrometer

  /** The C++ macro, or its Python port, whose propagator differs. */
  datatype Port = Cxx | Python

  /** `Fz`: the straight-line propagator over one plane spacing; the Python port sets `Fz[1][1] = 0`. */
  function Propagator(port: Port): Mat2
  {
    Mat2(1.0, D, 0.0, if port == Cxx then 1.0 else 0.0)
  }

  /** `Qz`: the multiple-scattering contribution `t0^2 [[d^2, d], [d, 1]]`. */
  function Scattering(): Mat2
  {
    Mat2(T2 * D * D, T2 * D, T2 * D, T2)
  }

  /** `Minv`: the weight `1 / s2` of the measured z. */
  function HitWeight(): Mat2
  {
    Mat2(1.0 / S2, 0.0, 0.0, 0.0)
  }

  /** `Cpz = Fz * C * FTz + Qz`, the covariance of the extrapolation. */
  function PredictedCov(port: Port, C: Mat2): Mat2
  {
    Plus(Times(Times(Propagator(port), C), Transpose(Propagator(port))), Scattering())
  }

  /** `zpred = Fz * z`. */
  function PredictedState(port: Port, z: Vec2): Vec2
  {
    Apply(Propagator(port), z)
  }

  /** What one step produces: the chi-square and the updated state and covariance. */
  datatype Update = Update(chi2: real, z: Vec2, C: Mat2)

  /**
   * One step, in the order of the source: invert `Cpz`, add the hit weight,
   * invert again for the new covariance, weight the prediction and the hit
   * for the new state, invert `Cpz` back and take the chi-square of the
   * residual from the prediction.
   */
  function Step(port: Port, z: Vec2, C: Mat2, hit: real): (u: Update)
    requires PosDef(C)
    ensures PosDef(u.C)
    ensures u.chi2 >= 0.0
  {
    var Cp := PredictedCov(port, C);
    PredictPosDef(port, C);
    InversePosDef(Cp);
    var W := Inverse(Cp);
    WeightedPosDef(W);
    InversePosDef(Plus(W, HitWeight()));
    var Cnew := Inverse(Plus(W, HitWeight()));
    var zpred := PredictedState(port, z);
    InverseInverse(Cp);
    ResidualNonNeg(hit - zpred.x, S2 + Inverse(W).a);
    Update(Sq(hit - zpred.x) / (S2 + Inverse(W).a),
           Apply(Cnew, VPlus(Apply(W, zpred), Vec2(hit / S2, 0.0))),
           Cnew)
  }

  lemma ResidualNonNeg(r: real, w: real)
    requires w > 0.0
    ensures Sq(r) / w >= 0.0
  {
    SqNonNeg(r);
  }

  /** The returned chi-square is `(hit - zpred0)^2 / (s2 + Cpz00)`, with `Cpz` the prediction's covariance. */
  lemma StepChi2(port: Port, z: Vec2, C: Mat2, hit: real)
    requires PosDef(C)
    ensures PredictedCov(port, C).a > 0.0
    ensures Step(port, z, C, hit).chi2 ==
      Sq(hit - PredictedState(port, z).x) / (S2 + PredictedCov(port, C).a)
  {
    var Cp := PredictedCov(port, C);
    PredictPosDef(port, C);
    InversePosDef(Cp);
    InverseInverse(Cp);
  }

  /** The Python port's propagator loses the slope: the predicted dz/dx is always 0. */
  lemma PythonPredictsFlat(z: Vec2)
    ensures PredictedState(Python, z).y == 0.0
    ensures PredictedState(Python, z).x == z.x + D * z.y
    ensures PredictedState(Cxx, z) == Vec2(z.x + D * z.y, z.y)
  {
  }

  /** A symmetric covariance gives a symmetric prediction. */
  lemma PredictSymmetric(port: Port, C: Mat2)
    requires Symmetric(C)
    ensures Symmetric(PredictedCov(port, C))
  {
  }

  /** The prediction in closed form, for each propagator. */
  lemma PredictedCovEntries(port: Port, C: Mat2)
    requires Symmetric(C)
    ensures port == Cxx ==> (
      var e := C.d + T2;
      PredictedCov(port, C) == Mat2(C.a + 2.0 * D * C.b + D * D * e, C.b + D * e, C.b + D * e, e))
    ensures port == Python ==> (
      var q := C.a + 2.0 * D * C.b + D * D * C.d;
      PredictedCov(port, C) == Mat2(q + T2 * D * D, T2 * D, T2 * D, T2))
  {
  }

  lemma CxxPredictDet(a: real, b: real, e: real)
    ensures Mul(a + 2.0 * D * b + D * D * e, e) - Mul(b + D * e, b + D * e) == Mul(a, e) - Mul(b, b)
  {
  }

  lemma ShiftCorner(a: real, d: real, t: real)
    ensures Mul(a, d + t) == Mul(a, d) + Mul(a, t)
  {
  }

  lemma PythonPredictDet(q: real)
    ensures Mul(q + T2 * D * D, T2) - Mul(T2 * D, T2 * D) == T2 * q
  {
  }

  /** (a + 2 D b + D^2 d) a = (a + D b)^2 + D^2 (a d - b^2). */
  lemma QuadIdentity(a: real, b: real, d: real)
    ensures Mul(a + 2.0 * D * b + D * D * d, a) == Sq(a + D * b) + D * D * (Mul(a, d) - Mul(b, b))
  {
  }

  lemma PositiveFactor(q: real, a: real)
    requires a > 0.0 && Mul(q, a) > 0.0
    ensures q > 0.0
  {
    if q <= 0.0 {
      MulNonPos(a, q);
      MulComm(a, q);
    }
  }

  /** A positive-definite C keeps the variance of the extrapolated z positive. */
  lemma QuadPositive(C: Mat2)
    requires PosDef(C)
    ensures C.a + 2.0 * D * C.b + D * D * C.d > 0.0
  {
    var q := C.a + 2.0 * D * C.b + D * D * C.d;
    QuadIdentity(C.a, C.b, C.d);
    SqNonNeg(C.a + D * C.b);
    PositiveFactor(q, C.a);
  }

  /** Prediction keeps the covariance positive definite, for both propagators. */
  lemma PredictPosDef(port: Port, C: Mat2)
    requires PosDef(C)
    ensures PosDef(PredictedCov(port, C))
  {
    var Cp := PredictedCov(port, C);
    PredictedCovEntries(port, C);
    if port == Cxx {
      PosDefCorner(C);
      CxxPredictDet(C.a, C.b, C.d + T2);
      ShiftCorner(C.a, C.d, T2);
      assert Det(Cp) == Det(C) + Mul(C.a, T2);
      MulPos(C.a, T2);
    } else {
      var q := C.a + 2.0 * D * C.b + D * D * C.d;
      QuadPositive(C);
      PythonPredictDet(q);
      assert Det(Cp) == T2 * q;
    }
    PosDefFromCorner(Cp);
  }

  lemma AddToCorner(a: real, b: real, c: real, d: real, w: real)
    ensures Mul(a + w, d) - Mul(b, c) == Mul(a, d) - Mul(b, c) + w * d
  {
  }

  /** Adding the hit weight keeps a positive-definite inverse covariance positive definite. */
  lemma WeightedPosDef(W: Mat2)
    requires PosDef(W)
    ensures PosDef(Plus(W, HitWeight()))
  {
    PosDefCorner(W);
    AddToCorner(W.a, W.b, W.c, W.d, 1.0 / S2);
    PosDefFromCorner(Plus(W, HitWeight()));
  }

  /** The state at plane 1 seeded from a hit z0 in plane 0 and z1 in plane 1. */
  function SeedState(z0: real, z1: real): Vec2
  {
    Vec2(z1, (z1 - z0) / D)
  }

  /** The seed covariance `[[s2, s2/d], [s2/d, 2 s2/d^2]]`. */
  function SeedCov(): (C: Mat2)
    ensures PosDef(C)
  {
    Mat2(S2, S2 / D, S2 / D, 2.0 * S2 / D / D)
  }

  /**
   * The `z` and `Cz` of one track candidate in spectrometer6.c: TMatrixD
   * objects passed by reference to `kalmanFilter`, which overwrites them.
   */
  class ZTrack {
    var z: Vec2
    var C: Mat2

    /** The seed built in `reco4` for hits z0 in plane 0 and z1 in plane 1. */
    constructor Seed(z0: real, z1: real)
      ensures z == SeedState(z0, z1) && C == SeedCov()
    {
      z := Vec2(z1, (z1 - z0) / D);
      C := Mat2(S2, S2 / D, S2 / D, 2.0 * S2 / D / D);
    }

    /** `kalmanFilter(p1, ihit, z, C)` of spectrometer6.c, for the hit `zHits[p1][ihit]`. */
    method Filter(hit: real) returns (chi2: real)
      requires PosDef(C)
      modifies this
      ensures Update(chi2, z, C) == Step(Cxx, old(z), old(C), hit)
      ensures PosDef(C) && chi2 >= 0.0
    {
      var F := Propagator(Cxx);
      var FT := Transpose(F);
      var Q := Scattering();
      var Cp := Plus(Times(Times(F, C), FT), Q);
      var zpred := Apply(F, z);
      PredictPosDef(Cxx, C);
      InversePosDef(Cp);
      InverseInverse(Cp);
      Cp := Inverse(Cp);
      WeightedPosDef(Cp);
      var Cinv := Plus(Cp, HitWeight());
      InversePosDef(Cinv);
      C := Inverse(Cinv);
      var znew := Vec2(hit / S2, 0.0);
      z := Apply(C, VPlus(Apply(Cp, zpred), znew));
      Cp := Inverse(Cp);
      var r := hit - zpred.x;
      ResidualNonNeg(r, S2 + Cp.a);
      chi2 := Sq(r) / (S2 + Cp.a);
    }
  }

  /**
   * `kalmanFilter(p1, ihit, z, C)` of kalman_testbeam.py: the same step built
   * with in-place `*=` and `+=` on copies, returning `[chi2, z, C]` and
   * leaving the caller's matrices alone.
   */
  method KalmanFilterPy(hit: real, z: Vec2, C: Mat2) returns (chi2: real, z': Vec2, C': Mat2)
    requires PosDef(C)
    ensures Update(chi2, z', C') == Step(Python, z, C, hit)
    ensures PosDef(C') && chi2 >= 0.0
  {
    var Fz := Propagator(Python);
    var FTz := Transpose(Fz);
    var Qz := Scattering();
    var Cpz := Fz;
    Cpz := Times(Cpz, C);
    Cpz := Times(Cpz, FTz);
    Cpz := Plus(Cpz, Qz);
    var zpred := Apply(Fz, z);
    PredictPosDef(Python, C);
    InversePosDef(Cpz);
    Cpz := Inverse(Cpz);
    WeightedPosDef(Cpz);
    var Cinv := Plus(Cpz, HitWeight());
    InversePosDef(Cinv);
    C' := Inverse(Cinv);
    var znew := Vec2(hit / S2, 0.0);
    var Ctmp := Apply(Cpz, zpred);
    Ctmp := VPlus(Ctmp, znew);
    z' := Apply(C', Ctmp);
    InverseInverse(Inverse(Cpz));
    Cpz := Inverse(Cpz);
    var r := hit - zpred.x;
    ResidualNonNeg(r, S2 + Cpz.a);
    chi2 := Sq(r) / (S2 + Cpz.a);
  }
}
