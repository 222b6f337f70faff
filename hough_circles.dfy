/**
 * demo_hough_circles.py: hits of circular tracks through the origin are
 * mapped by the conformal transformation onto straight lines, whose Hough
 * accumulator is then filled in two passes (first the radius range, then
 * the votes).
 *
 * The cosine and sine of the 180 angles are inputs.
 */
module HoughCircles {
  import opened Numeric
  import opened Votes
  import opened Wrappers
  import opened RealAlgebra

  /** `len(thetas)`: one angle per integer degree in [-90, 90). */
  const NumAngles: nat := 180
  /** The fixed binning `Maxdist = 100`; the accumulator has `2 * Maxdist` rows. */
  const Maxdist: nat := 100
  /** The starting values of the running extremes, `rmin, rmax = 1e6, -1e6`. */
  const StartMin: real := 1000000.0
  const StartMax: real := -1000000.0

  datatype Point = Point(x: real, y: real)

  /** The exception the second pass raises when the radius step is zero. */
  datatype HoughError = ZeroStep

  /** `zip(xHits, yHits)`: pairs up to the shorter list. */
  function Zip(xs: seq<real>, ys: seq<real>): (ps: seq<Point>)
    ensures |ps| <= |xs| && |ps| <= |ys|
    ensures |ps| == |xs| || |ps| == |ys|
  {
    var n := if |xs| <= |ys| then |xs| else |ys|;
    seq(n, i requires 0 <= i < n => Point(xs[i], ys[i]))
  }

  predicate IsOrigin(p: Point)
  {
    p.x == 0.0 && p.y == 0.0
  }

  /** The conformal map (x, y) -> (2x, 2y) / (x^2 + y^2). */
  function Invert(p: Point): Point
    requires !IsOrigin(p)
  {
    SqNormPos(p.x, p.y);
    Point(2.0 * p.x / SqNorm(p.x, p.y), 2.0 * p.y / SqNorm(p.x, p.y))
  }

  /** The output of `conformal`: the origin is skipped, every other point is mapped, in order. */
  function Conformed(ps: seq<Point>): (qs: seq<Point>)
    ensures |qs| <= |ps|
  {
    if ps == [] then []
    else
      var last := ps[|ps| - 1];
      Conformed(ps[..|ps| - 1]) + (if IsOrigin(last) then [] else [Invert(last)])
  }

  /** The input points `conformal` keeps. */
  function NonOrigin(ps: seq<Point>): (qs: seq<Point>)
    ensures forall q :: q in qs ==> q in ps && !IsOrigin(q)
  {
    if ps == [] then []
    else if IsOrigin(ps[0]) then NonOrigin(ps[1..])
    else [ps[0]] + NonOrigin(ps[1..])
  }

  /** `conformal(xHits, yHits)`: both output lists are built by appending in one loop. */
  method Conformal(xs: seq<real>, ys: seq<real>) returns (cxs: seq<real>, cys: seq<real>)
    ensures |cxs| == |cys| == |Conformed(Zip(xs, ys))|
    ensures forall i :: 0 <= i < |cxs| ==> Point(cxs[i], cys[i]) == Conformed(Zip(xs, ys))[i]
  {
    var ps := Zip(xs, ys);
    cxs, cys := [], [];
    var i := 0;
    while i < |ps|
      invariant 0 <= i <= |ps|
      invariant |cxs| == |cys| == |Conformed(ps[..i])|
      invariant forall j :: 0 <= j < |cxs| ==> Point(cxs[j], cys[j]) == Conformed(ps[..i])[j]
    {
      var x, y := ps[i].x, ps[i].y;
      assert ps[..i + 1] == ps[..i] + [ps[i]];
      ConformedSnoc(ps[..i], ps[i]);
      if x == 0.0 && y == 0.0 {
        assert Conformed(ps[..i + 1]) == Conformed(ps[..i]);
        i := i + 1;
        continue;
      }
      SqNormPos(x, y);
      var cx := 2.0 * x / SqNorm(x, y);
      var cy := 2.0 * y / SqNorm(x, y);
      assert Conformed(ps[..i + 1]) == Conformed(ps[..i]) + [Point(cx, cy)];
      cxs := cxs + [cx];
      cys := cys + [cy];
      i := i + 1;
    }
    assert ps[..|ps|] == ps;
  }

  lemma ConformedSnoc(ps: seq<Point>, p: Point)
    ensures Conformed(ps + [p]) == Conformed(ps) + (if IsOrigin(p) then [] else [Invert(p)])
  {
    assert (ps + [p])[..|ps|] == ps;
  }

  lemma {:induction false} NonOriginSnoc(ps: seq<Point>, p: Point)
    ensures NonOrigin(ps + [p]) == NonOrigin(ps) + (if IsOrigin(p) then [] else [p])
    decreases |ps|
  {
    if ps == [] {
      assert [p][1..] == [];
    } else {
      assert (ps + [p])[1..] == ps[1..] + [p];
      NonOriginSnoc(ps[1..], p);
    }
  }

  /** `conformal` is a filter-map: it maps, in order, exactly the non-origin points. */
  lemma {:induction false} ConformedIsMapOfNonOrigin(ps: seq<Point>)
    ensures |Conformed(ps)| == |NonOrigin(ps)|
    ensures forall i :: 0 <= i < |Conformed(ps)| ==> Conformed(ps)[i] == Invert(NonOrigin(ps)[i])
    decreases |ps|
  {
    if ps != [] {
      var t, p := ps[..|ps| - 1], ps[|ps| - 1];
      assert ps == t + [p];
      ConformedIsMapOfNonOrigin(t);
      ConformedSnoc(t, p);
      NonOriginSnoc(t, p);
    }
  }

  /** The conformal map sends no point to the origin and undoes itself. */
  lemma InvertInvolution(p: Point)
    requires !IsOrigin(p)
    ensures !IsOrigin(Invert(p)) && Invert(Invert(p)) == p
  {
    SqNormPos(p.x, p.y);
    var n := SqNorm(p.x, p.y);
    var q := Invert(p);
    Quotient(p.x, n, q.x);
    Quotient(p.y, n, q.y);
    SquareBoth(p.x, n, q.x);
    SquareBoth(p.y, n, q.y);
    var m := SqNorm(q.x, q.y);
    SumScaled(q.x, q.y, n, p.x, p.y);
    Cancel(m, n);
    Back(q.x, m, n, p.x);
    Back(q.y, m, n, p.y);
  }

  lemma ConformedOfInverted(qs: seq<Point>, p: Point)
    requires !IsOrigin(p)
    ensures Conformed(qs + [Invert(p)]) == Conformed(qs) + [p]
  {
    InvertInvolution(p);
    ConformedSnoc(qs, Invert(p));
  }

  /** Mapping the output of `conformal` once more gives back the non-origin input points. */
  lemma {:induction false} ConformalTwice(ps: seq<Point>)
    ensures Conformed(Conformed(ps)) == NonOrigin(ps)
    decreases |ps|
  {
    if ps != [] {
      var t, p := ps[..|ps| - 1], ps[|ps| - 1];
      assert ps == t + [p];
      ConformalTwice(t);
      ConformedSnoc(t, p);
      NonOriginSnoc(t, p);
      if !IsOrigin(p) {
        ConformedOfInverted(Conformed(t), p);
        calc {
          Conformed(Conformed(ps));
          Conformed(Conformed(t) + [Invert(p)]);
          Conformed(Conformed(t)) + [p];
          NonOrigin(ps);
        }
      } else {
        assert Conformed(ps) == Conformed(t) + [];
        assert Conformed(t) + [] == Conformed(t);
        assert NonOrigin(t) + [] == NonOrigin(t);
      }
    }
  }

  // ---------------------------------------------------------------------
  // houghLine: first pass, the radius range

  /** `x*cos(theta) + y*sin(theta)`. */
  function Radius(p: Point, c: real, s: real): real
  {
    p.x * c + p.y * s
  }

  /** The radii of one point over the 180 angles, in angle order. */
  function PointRadii(p: Point, cos: seq<real>, sin: seq<real>): (rs: seq<real>)
    requires |cos| == NumAngles && |sin| == NumAngles
    ensures |rs| == NumAngles
  {
    seq(NumAngles, k requires 0 <= k < NumAngles => Radius(p, cos[k], sin[k]))
  }

  /** All radii the first pass visits, in loop order. */
  function Radii(ps: seq<Point>, cos: seq<real>, sin: seq<real>): (rs: seq<real>)
    requires |cos| == NumAngles && |sin| == NumAngles
  {
    if ps == [] then [] else Radii(ps[..|ps| - 1], cos, sin) + PointRadii(ps[|ps| - 1], cos, sin)
  }

  /** Running minimum with the source's update `if r < rmin: rmin = r`. */
  function MinFrom(init: real, rs: seq<real>): (m: real)
    ensures m <= init
  {
    if rs == [] then init
    else
      var m0 := MinFrom(init, rs[..|rs| - 1]);
      if rs[|rs| - 1] < m0 then rs[|rs| - 1] else m0
  }

  /** Running maximum with the source's update `if r > rmax: rmax = r`. */
  function MaxFrom(init: real, rs: seq<real>): (m: real)
    ensures init <= m
  {
    if rs == [] then init
    else
      var m0 := MaxFrom(init, rs[..|rs| - 1]);
      if rs[|rs| - 1] > m0 then rs[|rs| - 1] else m0
  }

  /** The running minimum is at most every radius it has seen, the running maximum at least. */
  lemma {:induction false} FoldBounds(rs: seq<real>, r: real)
    requires r in rs
    ensures MinFrom(StartMin, rs) <= r <= MaxFrom(StartMax, rs)
    decreases |rs|
  {
    var t := rs[..|rs| - 1];
    assert rs == t + [rs[|rs| - 1]];
    if r != rs[|rs| - 1] {
      FoldBounds(t, r);
    }
  }

  lemma {:induction false} FoldAttained(init: real, rs: seq<real>)
    ensures MinFrom(init, rs) == init || MinFrom(init, rs) in rs
    ensures MaxFrom(init, rs) == init || MaxFrom(init, rs) in rs
    decreases |rs|
  {
    if rs != [] {
      var t := rs[..|rs| - 1];
      FoldAttained(init, t);
      assert rs == t + [rs[|rs| - 1]];
    }
  }

  lemma FoldSnoc(init: real, rs: seq<real>, r: real)
    ensures MinFrom(init, rs + [r]) == (if r < MinFrom(init, rs) then r else MinFrom(init, rs))
    ensures MaxFrom(init, rs + [r]) == (if r > MaxFrom(init, rs) then r else MaxFrom(init, rs))
  {
    assert (rs + [r])[..|rs|] == rs;
  }

  /** The first loop of `houghLine`: the extremes of all radii, starting from 1e6 and -1e6. */
  method RadiusRange(ps: seq<Point>, cos: seq<real>, sin: seq<real>) returns (rmin: real, rmax: real)
    requires |cos| == NumAngles && |sin| == NumAngles
    ensures rmin == MinFrom(StartMin, Radii(ps, cos, sin))
    ensures rmax == MaxFrom(StartMax, Radii(ps, cos, sin))
  {
    rmin, rmax := StartMin, StartMax;
    var i := 0;
    assert ps[..0] == [];
    while i < |ps|
      invariant 0 <= i <= |ps|
      invariant rmin == MinFrom(StartMin, Radii(ps[..i], cos, sin))
      invariant rmax == MaxFrom(StartMax, Radii(ps[..i], cos, sin))
    {
      rmin, rmax := ScanPoint(ps[i], cos, sin, rmin, rmax, Radii(ps[..i], cos, sin));
      assert ps[..i + 1][..i] == ps[..i];
      i := i + 1;
    }
    assert ps[..|ps|] == ps;
  }

  /** The angle loop of the first pass for one point. */
  method ScanPoint(p: Point, cos: seq<real>, sin: seq<real>, rmin0: real, rmax0: real, ghost before: seq<real>)
    returns (rmin: real, rmax: real)
    requires |cos| == NumAngles && |sin| == NumAngles
    requires rmin0 == MinFrom(StartMin, before) && rmax0 == MaxFrom(StartMax, before)
    ensures rmin == MinFrom(StartMin, before + PointRadii(p, cos, sin))
    ensures rmax == MaxFrom(StartMax, before + PointRadii(p, cos, sin))
  {
    ghost var pr := PointRadii(p, cos, sin);
    rmin, rmax := rmin0, rmax0;
    var k := 0;
    assert before + pr[..0] == before;
    while k < NumAngles
      invariant 0 <= k <= NumAngles
      invariant rmin == MinFrom(StartMin, before + pr[..k])
      invariant rmax == MaxFrom(StartMax, before + pr[..k])
    {
      var r := Radius(p, cos[k], sin[k]);
      assert before + pr[..k + 1] == (before + pr[..k]) + [r];
      FoldSnoc(StartMin, before + pr[..k], r);
      FoldSnoc(StartMax, before + pr[..k], r);
      if r > rmax { rmax := r; }
      if r < rmin { rmin := r; }
      k := k + 1;
    }
    assert pr[..NumAngles] == pr;
  }

  // ---------------------------------------------------------------------
  // houghLine: second pass, the votes

  /** `rstep = (rmax - rmin) / (Maxdist * 2)`, with `Maxdist * 2 = 200`. */
  function Step(rmin: real, rmax: real): (st: real)
    ensures rmin < rmax ==> st > 0.0
    ensures st == 0.0 <==> rmin == rmax
  {
    (rmax - rmin) / 200.0
  }

  /** `rind = int((r - rmin) / rstep)`. */
  function RowIndex(r: real, rmin: real, rstep: real): int
    requires rstep != 0.0
  {
    Trunc((r - rmin) / rstep)
  }

  /** The row indices one angle's column computes for the points `ps`, in order. */
  function Rows(ps: seq<Point>, c: real, s: real, rmin: real, rstep: real): (rows: seq<int>)
    requires rstep != 0.0
    ensures |rows| == |ps|
  {
    if ps == [] then []
    else Rows(ps[..|ps| - 1], c, s, rmin, rstep) + [RowIndex(Radius(ps[|ps| - 1], c, s), rmin, rstep)]
  }

  lemma RowsSnoc(ps: seq<Point>, p: Point, c: real, s: real, rmin: real, rstep: real)
    requires rstep != 0.0
    ensures Rows(ps + [p], c, s, rmin, rstep) == Rows(ps, c, s, rmin, rstep) + [RowIndex(Radius(p, c, s), rmin, rstep)]
  {
    assert (ps + [p])[..|ps|] == ps;
  }

  /** With a positive step, a radius at or above `rmin` never gives a negative row,
      and it lands inside the accumulator exactly when it lies below `rmax`. */
  lemma RowIndexRange(r: real, rmin: real, rmax: real)
    requires rmin <= r <= rmax && rmin < rmax
    ensures Step(rmin, rmax) > 0.0
    ensures RowIndex(r, rmin, Step(rmin, rmax)) >= 0
    ensures RowIndex(r, rmin, Step(rmin, rmax)) < 2 * Maxdist <==> r < rmax
  {
    var st := Step(rmin, rmax);
    var q := (r - rmin) / st;
    QuotientBounds(r - rmin, rmax - rmin, st, q);
  }

  /** q = d / st with st = w / 200: q is non-negative, and below 200 exactly when d < w. */
  lemma QuotientBounds(d: real, w: real, st: real, q: real)
    requires 0.0 <= d <= w && 0.0 < w && st * 200.0 == w && q == d / st
    ensures q >= 0.0 && (q < 200.0 <==> d < w)
  {
    assert st > 0.0;
    Quotient(d / 2.0, st, q);
    if d < w {
      ScaleBelow(q, 200.0, st);
    } else {
      ScaleCancel(q, 200.0, st);
    }
  }

  /** Every radius the second pass computes lies in [rmin, rmax]. */
  lemma RadiusWithinRange(ps: seq<Point>, cos: seq<real>, sin: seq<real>, i: nat, k: nat)
    requires |cos| == NumAngles && |sin| == NumAngles && i < |ps| && k < NumAngles
    ensures var rs := Radii(ps, cos, sin);
      MinFrom(StartMin, rs) <= Radius(ps[i], cos[k], sin[k]) <= MaxFrom(StartMax, rs)
  {
    RadiiContains(ps, cos, sin, i, k);
    FoldBounds(Radii(ps, cos, sin), Radius(ps[i], cos[k], sin[k]));
  }

  /** The first pass visits the radius of every point at every angle. */
  lemma {:induction false} RadiiContains(ps: seq<Point>, cos: seq<real>, sin: seq<real>, i: nat, k: nat)
    requires |cos| == NumAngles && |sin| == NumAngles && i < |ps| && k < NumAngles
    ensures Radius(ps[i], cos[k], sin[k]) in Radii(ps, cos, sin)
    decreases |ps|
  {
    var t := ps[..|ps| - 1];
    if i < |ps| - 1 {
      RadiiContains(t, cos, sin, i, k);
    } else {
      assert PointRadii(ps[i], cos, sin)[k] == Radius(ps[i], cos[k], sin[k]);
    }
  }

  /** The votes of one point: the angle loop of the second pass. */
  method AddPoint(acc: array2<int>, p: Point, cos: seq<real>, sin: seq<real>, rmin: real, rstep: real,
                  ghost done: seq<Point>)
    requires acc.Length0 == 2 * Maxdist && acc.Length1 == NumAngles
    requires |cos| == NumAngles && |sin| == NumAngles && rstep != 0.0
    requires forall k :: 0 <= k < NumAngles ==> RowIndex(Radius(p, cos[k], sin[k]), rmin, rstep) >= 0
    requires forall row, k :: 0 <= row < 2 * Maxdist && 0 <= k < NumAngles ==>
      acc[row, k] == Count(Rows(done, cos[k], sin[k], rmin, rstep), row)
    modifies acc
    ensures forall row, k :: 0 <= row < 2 * Maxdist && 0 <= k < NumAngles ==>
      acc[row, k] == Count(Rows(done + [p], cos[k], sin[k], rmin, rstep), row)
  {
    // cols[j]: the row indices column j has computed, in order
    ghost var cols: seq<seq<int>> :=
      seq(NumAngles, j requires 0 <= j < NumAngles => Rows(done, cos[j], sin[j], rmin, rstep));
    var k := 0;
    while k < NumAngles
      invariant 0 <= k <= NumAngles && |cols| == NumAngles
      invariant forall j :: 0 <= j < k ==> cols[j] == Rows(done + [p], cos[j], sin[j], rmin, rstep)
      invariant forall j :: k <= j < NumAngles ==> cols[j] == Rows(done, cos[j], sin[j], rmin, rstep)
      invariant forall row, j :: 0 <= row < 2 * Maxdist && 0 <= j < NumAngles ==> acc[row, j] == Count(cols[j], row)
    {
      var rind := RowIndex(Radius(p, cos[k], sin[k]), rmin, rstep);
      RowsSnoc(done, p, cos[k], sin[k], rmin, rstep);
      Vote(acc, k, rind, cols[k]);
      cols := cols[k := cols[k] + [rind]];
      k := k + 1;
    }
  }

  /** One vote: row `rind` of column `k` goes up by one when it is inside the accumulator. */
  method Vote(acc: array2<int>, k: nat, rind: int, ghost col: seq<int>)
    requires acc.Length0 == 2 * Maxdist && acc.Length1 == NumAngles && k < NumAngles && rind >= 0
    requires forall row :: 0 <= row < 2 * Maxdist ==> acc[row, k] == Count(col, row)
    modifies acc
    ensures forall row :: 0 <= row < 2 * Maxdist ==> acc[row, k] == Count(col + [rind], row)
    ensures forall row, j :: 0 <= row < 2 * Maxdist && 0 <= j < NumAngles && j != k ==>
      acc[row, j] == old(acc[row, j])
  {
    forall v | 0 <= v < 2 * Maxdist
      ensures Count(col + [rind], v) == Count(col, v) + (if rind == v then 1 else 0)
    {
      CountSnoc(col, rind, v);
    }
    if rind < 2 * Maxdist {
      acc[rind, k] := acc[rind, k] + 1;
    }
  }

  /**
   * `houghLine(xHits, yHits)` of demo_hough_circles.py. With points and a
   * zero step the first `int(...)` of the second pass raises; otherwise cell
   * (row, k) counts the points whose row index at angle k is `row`.
   */
  method HoughLine(xs: seq<real>, ys: seq<real>, cos: seq<real>, sin: seq<real>)
    returns (res: Result<array2<int>, HoughError>)
    requires |cos| == NumAngles && |sin| == NumAngles
    ensures var ps := Zip(xs, ys);
      var rs := Radii(ps, cos, sin);
      res.Err? <==> ps != [] && MinFrom(StartMin, rs) == MaxFrom(StartMax, rs)
    ensures res.Ok? ==> res.value.Length0 == 2 * Maxdist && res.value.Length1 == NumAngles
    ensures res.Ok? ==>
      var ps := Zip(xs, ys);
      var rs := Radii(ps, cos, sin);
      var rmin := MinFrom(StartMin, rs);
      var rstep := Step(rmin, MaxFrom(StartMax, rs));
      rstep != 0.0 &&
      forall row, k :: 0 <= row < 2 * Maxdist && 0 <= k < NumAngles ==>
        res.value[row, k] == Count(Rows(ps, cos[k], sin[k], rmin, rstep), row)
  {
    var ps := Zip(xs, ys);
    var rmin, rmax := RadiusRange(ps, cos, sin);
    var rstep := Step(rmin, rmax);
    if ps != [] && rstep == 0.0 {
      // int() of the NaN or infinity that the division by a zero step gives
      return Err(ZeroStep);
    }
    var acc := new int[2 * Maxdist, NumAngles]((_, _) => 0);
    ScanPoints(acc, ps, cos, sin, rmin, rmax, rstep);
    return Ok(acc);
  }

  /** The second pass: every point votes, in order, into a zeroed accumulator. */
  method ScanPoints(acc: array2<int>, ps: seq<Point>, cos: seq<real>, sin: seq<real>,
                    rmin: real, rmax: real, rstep: real)
    requires |cos| == NumAngles && |sin| == NumAngles
    requires rmin == MinFrom(StartMin, Radii(ps, cos, sin)) && rmax == MaxFrom(StartMax, Radii(ps, cos, sin))
    requires rstep == Step(rmin, rmax) && rstep != 0.0
    requires acc.Length0 == 2 * Maxdist && acc.Length1 == NumAngles
    requires forall row, k :: 0 <= row < 2 * Maxdist && 0 <= k < NumAngles ==> acc[row, k] == 0
    modifies acc
    ensures forall row, k :: 0 <= row < 2 * Maxdist && 0 <= k < NumAngles ==>
      acc[row, k] == Count(Rows(ps, cos[k], sin[k], rmin, rstep), row)
  {
    if ps != [] {
      MinBelowMax(ps, cos, sin);
    }
    var i := 0;
    while i < |ps|
      invariant 0 <= i <= |ps|
      invariant forall row, k :: 0 <= row < 2 * Maxdist && 0 <= k < NumAngles ==>
        acc[row, k] == Count(Rows(ps[..i], cos[k], sin[k], rmin, rstep), row)
    {
      forall k | 0 <= k < NumAngles
        ensures RowIndex(Radius(ps[i], cos[k], sin[k]), rmin, rstep) >= 0
      {
        RadiusWithinRange(ps, cos, sin, i, k);
        RowIndexRange(Radius(ps[i], cos[k], sin[k]), rmin, rmax);
      }
      AddPoint(acc, ps[i], cos, sin, rmin, rstep, ps[..i]);
      assert ps[..i + 1] == ps[..i] + [ps[i]];
      i := i + 1;
    }
    assert ps[..|ps|] == ps;
  }

  /** With at least one point, the range is never inverted: rmin <= rmax. */
  lemma MinBelowMax(ps: seq<Point>, cos: seq<real>, sin: seq<real>)
    requires |cos| == NumAngles && |sin| == NumAngles && ps != []
    ensures MinFrom(StartMin, Radii(ps, cos, sin)) <= MaxFrom(StartMax, Radii(ps, cos, sin))
  {
    RadiusWithinRange(ps, cos, sin, 0, 0);
  }

  /** Each point adds at most one vote to each column; a point whose radius
      is the maximum adds none (its row index is exactly `2 * Maxdist`). */
  lemma ColumnAtMostPoints(ps: seq<Point>, cos: seq<real>, sin: seq<real>, k: nat)
    requires |cos| == NumAngles && |sin| == NumAngles && k < NumAngles
    requires var rs := Radii(ps, cos, sin); MinFrom(StartMin, rs) < MaxFrom(StartMax, rs)
    ensures var rs := Radii(ps, cos, sin);
      var rmin := MinFrom(StartMin, rs);
      ColumnTotal(Rows(ps, cos[k], sin[k], rmin, Step(rmin, MaxFrom(StartMax, rs))), 0, 2 * Maxdist) <= |ps|
  {
    var rs := Radii(ps, cos, sin);
    var rmin := MinFrom(StartMin, rs);
    var rows := Rows(ps, cos[k], sin[k], rmin, Step(rmin, MaxFrom(StartMax, rs)));
    ColumnTotalIsCountBetween(rows, 0, 2 * Maxdist);
  }

  /** A point is counted in column k exactly when its radius there is below `rmax`. */
  lemma CountedIffBelowMax(ps: seq<Point>, cos: seq<real>, sin: seq<real>, i: nat, k: nat)
    requires |cos| == NumAngles && |sin| == NumAngles && i < |ps| && k < NumAngles
    requires var rs := Radii(ps, cos, sin); MinFrom(StartMin, rs) < MaxFrom(StartMax, rs)
    ensures var rs := Radii(ps, cos, sin);
      var rmin, rmax := MinFrom(StartMin, rs), MaxFrom(StartMax, rs);
      var row := Rows(ps, cos[k], sin[k], rmin, Step(rmin, rmax))[i];
      0 <= row && (row < 2 * Maxdist <==> Radius(ps[i], cos[k], sin[k]) < rmax)
  {
    var rs := Radii(ps, cos, sin);
    var rmin, rmax := MinFrom(StartMin, rs), MaxFrom(StartMax, rs);
    RowsAt(ps, cos[k], sin[k], rmin, Step(rmin, rmax), i);
    RadiusWithinRange(ps, cos, sin, i, k);
    RowIndexRange(Radius(ps[i], cos[k], sin[k]), rmin, rmax);
  }

  lemma {:induction false} RowsAt(ps: seq<Point>, c: real, s: real, rmin: real, rstep: real, i: nat)
    requires rstep != 0.0 && i < |ps|
    ensures Rows(ps, c, s, rmin, rstep)[i] == RowIndex(Radius(ps[i], c, s), rmin, rstep)
    decreases |ps|
  {
    if i < |ps| - 1 {
      RowsAt(ps[..|ps| - 1], c, s, rmin, rstep, i);
    }
  }
}
