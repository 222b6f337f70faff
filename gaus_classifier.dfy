/**
 * The Gaussian classifier of MVA/gaus_classifier.py: the rotation applied to
 * every entry, the train/test split of `read_tr`, the sample mean and
 * covariance of `get_stat`, and the decision rule of `r_gaus`. `cos`, `sin`,
 * `log`, the determinant and the matrix inverse are parameters.
 */
module GausClassifier {
  import opened Wrappers
  import opened Numeric
  import opened Matrices
  import opened RealAlgebra

  /** The exceptions the Python functions can raise on their inputs. */
  datatype Error = ZeroDivision | IndexOutOfRange | TypeMismatch | MathDomain

  /** `do_rotation(x, y, ang)` with `c = cos(ang)` and `s = sin(ang)`: the pair `(xp, yp)`. */
  function DoRotation(x: real, y: real, c: real, s: real): (real, real)
  {
    (c * x + s * y, -s * x + c * y)
  }

  /** The two coordinates of a rotation by the opposite angle, expanded. */
  lemma Unrotate(x: real, y: real, c: real, s: real)
    ensures c * (c * x + s * y) + -s * (-s * x + c * y) == (c * c + s * s) * x
    ensures s * (c * x + s * y) + c * (-s * x + c * y) == (c * c + s * s) * y
  {
  }

  /** The squared length after a rotation, expanded. */
  lemma RotatedLength(x: real, y: real, c: real, s: real)
    ensures (c * x + s * y) * (c * x + s * y) + (-s * x + c * y) * (-s * x + c * y) ==
      (c * c + s * s) * (x * x + y * y)
  {
  }

  /**
   * With `cos² + sin² = 1`, rotating back by the opposite angle restores the
   * point, and a rotation keeps the distance to the origin.
   */
  lemma RotationInverse(x: real, y: real, c: real, s: real)
    requires Sq(c) + Sq(s) == 1.0
    ensures var p := DoRotation(x, y, c, s);
      DoRotation(p.0, p.1, c, -s) == (x, y) && Sq(p.0) + Sq(p.1) == Sq(x) + Sq(y)
  {
    Unrotate(x, y, c, s);
    RotatedLength(x, y, c, s);
  }

  /** One entry of the tree: the branches `X1` and `X2`. */
  datatype Entry = Entry(x1: real, x2: real)

  /** The point `read_tr` keeps for an entry: `[x1, x2]` after the rotation (`doRotation = 1`). */
  function Point(e: Entry, c: real, s: real): (p: seq<real>)
    ensures |p| == 2
  {
    var r := DoRotation(e.x1, e.x2, c, s);
    [r.0, r.1]
  }

  /** Entry i is training data iff `i % 1000 == 0`. */
  predicate ForTraining(i: nat)
  {
    i % 1000 == 0
  }

  /** The training list after the first n entries. */
  function Training(es: seq<Entry>, c: real, s: real, n: nat): seq<seq<real>>
    requires n <= |es|
  {
    if n == 0 then []
    else Training(es, c, s, n - 1) + if ForTraining(n - 1) then [Point(es[n - 1], c, s)] else []
  }

  /** The testing list after the first n entries. */
  function Testing(es: seq<Entry>, c: real, s: real, n: nat): seq<seq<real>>
    requires n <= |es|
  {
    if n == 0 then []
    else Testing(es, c, s, n - 1) + if ForTraining(n - 1) then [] else [Point(es[n - 1], c, s)]
  }

  /**
   * Every entry lands in exactly one list, in order: the k-th training point
   * is entry `1000 * k`, and one entry in a thousand is training data.
   */
  lemma {:induction false} SplitCounts(es: seq<Entry>, c: real, s: real, n: nat)
    requires n <= |es|
    ensures |Training(es, c, s, n)| + |Testing(es, c, s, n)| == n
    ensures |Training(es, c, s, n)| == (n + 999) / 1000
    ensures forall k :: 0 <= k < |Training(es, c, s, n)| ==>
      1000 * k < n && Training(es, c, s, n)[k] == Point(es[1000 * k], c, s)
  {
    if n > 0 {
      SplitCounts(es, c, s, n - 1);
      var t := Training(es, c, s, n - 1);
      if ForTraining(n - 1) {
        assert (n - 1) / 1000 * 1000 == n - 1;
        assert |t| == (n - 1) / 1000;
      }
    }
  }

  /**
   * The k-th testing point is entry `k + k / 999 + 1`: the entries between
   * two training entries, in order.
   */
  lemma {:induction false} TestingOrder(es: seq<Entry>, c: real, s: real, n: nat)
    requires n <= |es|
    ensures |Testing(es, c, s, n)| == n - (n + 999) / 1000
    ensures forall k :: 0 <= k < |Testing(es, c, s, n)| ==>
      k + k / 999 + 1 < n && Testing(es, c, s, n)[k] == Point(es[k + k / 999 + 1], c, s)
  {
    SplitCounts(es, c, s, n);
    if n > 0 {
      TestingOrder(es, c, s, n - 1);
      var t := Testing(es, c, s, n - 1);
      if !ForTraining(n - 1) {
        var k := |t|;
        assert k == n - 1 - (n + 998) / 1000;
        assert k + k / 999 + 1 == n - 1;
      }
    }
  }

  /** The progress interval `int(ns * 0.1)` of `read_tr`. */
  function ProgressEvery(ns: nat): (k: int)
    ensures k == ns / 10
  {
    Trunc(ns as real * 0.1)
  }

  /**
   * The loop of `read_tr` with the given progress interval: the modulo of
   * the progress check at every entry, then the rotated point appended to
   * the training or the testing list.
   */
  method ReadLoop(es: seq<Entry>, c: real, s: real, every: int)
    returns (r: Result<(seq<seq<real>>, seq<seq<real>>), Error>)
    ensures r.Err? <==> every == 0 && |es| > 0
    ensures r.Err? ==> r.error == ZeroDivision
    ensures r.Ok? ==> r.value == (Training(es, c, s, |es|), Testing(es, c, s, |es|))
  {
    var train, test := [], [];
    for i := 0 to |es|
      invariant every != 0 || i == 0
      invariant train == Training(es, c, s, i) && test == Testing(es, c, s, i)
    {
      if every == 0 {
        return Err(ZeroDivision);
      }
      var progress := i % every == 0;
      var p := Point(es[i], c, s);
      if i % 1000 == 0 {
        train := train + [p];
      } else {
        test := test + [p];
      }
    }
    return Ok((train, test));
  }

  /** `read_tr` as written: a tree of 1 to 9 entries divides by zero in the progress check. */
  method ReadTr(es: seq<Entry>, c: real, s: real) returns (r: Result<(seq<seq<real>>, seq<seq<real>>), Error>)
    ensures r.Err? <==> 0 < |es| < 10
    ensures r.Ok? ==> r.value == (Training(es, c, s, |es|), Testing(es, c, s, |es|))
  {
    r := ReadLoop(es, c, s, ProgressEvery(|es|));
  }

  /** `read_tr` with the progress interval at least one: every tree is split. */
  method ReadTrFixed(es: seq<Entry>, c: real, s: real) returns (train: seq<seq<real>>, test: seq<seq<real>>)
    ensures train == Training(es, c, s, |es|) && test == Testing(es, c, s, |es|)
  {
    var every := ProgressEvery(|es|);
    if every < 1 {
      every := 1;
    }
    var r := ReadLoop(es, c, s, every);
    train, test := r.value.0, r.value.1;
  }

  /** `get_stat`'s input: a list of lists (`nd = len(l_data[0])`) or of plain numbers (`nd = 1`). */
  datatype Sample = Rows(rows: seq<seq<real>>) | Scalars(xs: seq<real>)

  /** The mean and covariance matrix `get_stat` returns. */
  datatype Stat = Stat(mean: seq<real>, cov: Matrix)

  /** The data as rows; a plain number x is the row `[x]`. */
  function Data(d: Sample): (rows: seq<seq<real>>)
    ensures d.Rows? ==> rows == d.rows
    ensures d.Scalars? ==> |rows| == |d.xs| && forall i :: 0 <= i < |rows| ==> rows[i] == [d.xs[i]]
  {
    match d
    case Rows(rows) => rows
    case Scalars(xs) => seq(|xs|, i requires 0 <= i < |xs| => [xs[i]])
  }

  /** `nd`: the length of the first datum, or 1 for plain numbers. */
  function Dim(d: Sample): nat
  {
    match d
    case Rows(rows) => if |rows| == 0 then 0 else |rows[0]|
    case Scalars(_) => 1
  }

  /** `l_tot[j]` after the first n data; an entry a datum does not have adds nothing. */
  function Total(rows: seq<seq<real>>, j: nat, n: nat): real
    requires n <= |rows|
  {
    if n == 0 then 0.0 else Total(rows, j, n - 1) + Get(rows[n - 1], j)
  }

  /** `l_mean`: each total divided by the number of data. */
  function Mean(rows: seq<seq<real>>, nd: nat): (m: seq<real>)
    requires |rows| > 0
    ensures |m| == nd && forall j :: 0 <= j < nd ==> m[j] * |rows| as real == Total(rows, j, |rows|)
  {
    seq(nd, j requires 0 <= j => Total(rows, j, |rows|) / |rows| as real)
  }

  /** The term `(x - mean_j) * (y - mean_k)` one datum adds to `m_cov[j][k]`, if it has both entries. */
  function Term(row: seq<real>, m: seq<real>, j: nat, k: nat): real
  {
    if j < |row| && k < |row| && j < |m| && k < |m| then (row[j] - m[j]) * (row[k] - m[k]) else 0.0
  }

  /** `m_cov[j][k]` after the first n data of the accumulation loop. */
  function Spread(rows: seq<seq<real>>, m: seq<real>, j: nat, k: nat, n: nat): real
    requires n <= |rows|
  {
    if n == 0 then 0.0 else Spread(rows, m, j, k, n - 1) + Term(rows[n - 1], m, j, k)
  }

  /**
   * `m_cov` after the normaliser, which walks the entries of the last datum
   * only: those are divided by `N - 1`, the others keep their sum.
   */
  function Cov(rows: seq<seq<real>>, nd: nat): (C: Matrix)
    requires |rows| >= 2
    ensures Shape(C, nd, nd)
  {
    var m, last, n := Mean(rows, nd), rows[|rows| - 1], |rows|;
    seq(nd, j requires 0 <= j => seq(nd, k requires 0 <= k =>
      if j < |last| && k < |last| then Spread(rows, m, j, k, n) / (n - 1) as real else Spread(rows, m, j, k, n)))
  }

  /** The exception `get_stat` raises on its input, if any. */
  function StatError(d: Sample): Option<Error>
  {
    var rows := Data(d);
    if |rows| == 0 then None
    else if d.Rows? && Dim(d) == 0 then Some(IndexOutOfRange)
    else if d.Rows? && Dim(d) == 1 then Some(TypeMismatch)
    else if exists i :: 0 <= i < |rows| && |rows[i]| > Dim(d) then Some(IndexOutOfRange)
    else if |rows| == 1 then Some(ZeroDivision)
    else None
  }

  lemma {:induction false} SpreadSymmetric(rows: seq<seq<real>>, m: seq<real>, j: nat, k: nat, n: nat)
    requires n <= |rows|
    ensures Spread(rows, m, j, k, n) == Spread(rows, m, k, j, n)
  {
    if n > 0 {
      SpreadSymmetric(rows, m, j, k, n - 1);
    }
  }

  lemma {:induction false} SpreadDiagonal(rows: seq<seq<real>>, m: seq<real>, j: nat, n: nat)
    requires n <= |rows|
    ensures Spread(rows, m, j, j, n) >= 0.0
  {
    if n > 0 {
      SpreadDiagonal(rows, m, j, n - 1);
      var row := rows[n - 1];
      if j < |row| && j < |m| {
        SqNonNeg(row[j] - m[j]);
      }
    }
  }

  /** The covariance matrix is symmetric and has a non-negative diagonal. */
  lemma CovProperties(rows: seq<seq<real>>, nd: nat)
    requires |rows| >= 2
    ensures forall j, k :: 0 <= j < nd && 0 <= k < nd ==> Cov(rows, nd)[j][k] == Cov(rows, nd)[k][j]
    ensures forall j :: 0 <= j < nd ==> Cov(rows, nd)[j][j] >= 0.0
  {
    var m := Mean(rows, nd);
    forall j, k | 0 <= j < nd && 0 <= k < nd
      ensures Cov(rows, nd)[j][k] == Cov(rows, nd)[k][j]
    {
      SpreadSymmetric(rows, m, j, k, |rows|);
    }
    forall j | 0 <= j < nd
      ensures Cov(rows, nd)[j][j] >= 0.0
    {
      SpreadDiagonal(rows, m, j, |rows|);
      NonNegQuotient(Spread(rows, m, j, j, |rows|), (|rows| - 1) as real);
    }
  }

  lemma NonNegQuotient(a: real, b: real)
    requires a >= 0.0 && b > 0.0
    ensures a / b >= 0.0
  {
  }

  /** The deviations `x_ij - m` of the first n data in column j. */
  function Deviations(rows: seq<seq<real>>, m: real, j: nat, n: nat): real
    requires n <= |rows|
  {
    if n == 0 then 0.0 else Deviations(rows, m, j, n - 1) + (Get(rows[n - 1], j) - m)
  }

  lemma {:induction false} DeviationsTotal(rows: seq<seq<real>>, m: real, j: nat, n: nat)
    requires n <= |rows|
    ensures Deviations(rows, m, j, n) == Total(rows, j, n) - n as real * m
  {
    if n > 0 {
      DeviationsTotal(rows, m, j, n - 1);
    }
  }

  /** The deviations from the mean cancel: the mean centres every column. */
  lemma MeanCentres(rows: seq<seq<real>>, nd: nat, j: nat)
    requires |rows| > 0 && j < nd
    ensures Deviations(rows, Mean(rows, nd)[j], j, |rows|) == 0.0
  {
    DeviationsTotal(rows, Mean(rows, nd)[j], j, |rows|);
  }

  /**
   * The first loop of `get_stat`: each datum's entries added to `l_tot`;
   * `ok` is false when a datum is longer than `nd`, where `l_tot[j]` fails.
   */
  method Totals(rows: seq<seq<real>>, nd: nat) returns (ok: bool, tot: array<real>)
    ensures fresh(tot) && tot.Length == nd
    ensures ok <==> forall i :: 0 <= i < |rows| ==> |rows[i]| <= nd
    ensures ok ==> forall j :: 0 <= j < nd ==> tot[j] == Total(rows, j, |rows|)
  {
    tot := new real[nd](_ => 0.0);
    for i := 0 to |rows|
      invariant forall q :: 0 <= q < i ==> |rows[q]| <= nd
      invariant forall j :: 0 <= j < nd ==> tot[j] == Total(rows, j, i)
    {
      var d := rows[i];
      if |d| > nd {
        return false, tot;
      }
      for j := 0 to |d|
        invariant forall q :: 0 <= q < nd ==> tot[q] == Total(rows, q, i) + if q < j then d[q] else 0.0
      {
        tot[j] := tot[j] + d[j];
      }
    }
    ok := true;
  }

  /** The second loop of `get_stat`: `l_mean[j] = l_tot[j] / N`. */
  method MeanLoop(tot: array<real>, n: nat) returns (mean: array<real>)
    requires n > 0
    ensures fresh(mean) && mean.Length == tot.Length
    ensures forall j :: 0 <= j < tot.Length ==> mean[j] == tot[j] / n as real
  {
    mean := new real[tot.Length](_ => 0.0);
    for j := 0 to tot.Length
      invariant forall q :: 0 <= q < j ==> mean[q] == tot[q] / n as real
    {
      mean[j] := tot[j] / n as real;
    }
  }

  /** The covariance accumulation: every datum adds its products of deviations to `m_cov`. */
  method Spreads(rows: seq<seq<real>>, m: seq<real>, nd: nat) returns (cov: array2<real>)
    requires forall i :: 0 <= i < |rows| ==> |rows[i]| <= nd
    requires |m| == nd
    ensures fresh(cov) && cov.Length0 == nd && cov.Length1 == nd
    ensures forall j, k :: 0 <= j < nd && 0 <= k < nd ==> cov[j, k] == Spread(rows, m, j, k, |rows|)
  {
    cov := new real[nd, nd]((_, _) => 0.0);
    for i := 0 to |rows|
      invariant forall p, q :: 0 <= p < nd && 0 <= q < nd ==> cov[p, q] == Spread(rows, m, p, q, i)
    {
      AddDatum(cov, rows, m, i);
    }
  }

  /** The nested loops over one datum: `m_cov[j][k] += (x - mean_j) * (y - mean_k)`. */
  method AddDatum(cov: array2<real>, rows: seq<seq<real>>, m: seq<real>, i: nat)
    requires i < |rows| && |rows[i]| <= |m| == cov.Length0 == cov.Length1
    modifies cov
    ensures forall p, q :: 0 <= p < cov.Length0 && 0 <= q < cov.Length1 ==>
      cov[p, q] == old(cov[p, q]) + Term(rows[i], m, p, q)
  {
    var d := rows[i];
    for j := 0 to |d|
      invariant forall p, q :: 0 <= p < cov.Length0 && 0 <= q < cov.Length1 ==>
        cov[p, q] == old(cov[p, q]) + if p < j then Term(d, m, p, q) else 0.0
    {
      for k := 0 to |d|
        invariant forall p, q :: 0 <= p < cov.Length0 && 0 <= q < cov.Length1 ==>
          cov[p, q] == old(cov[p, q]) + if p < j || (p == j && q < k) then Term(d, m, p, q) else 0.0
      {
        cov[j, k] := cov[j, k] + (d[j] - m[j]) * (d[k] - m[k]);
      }
    }
  }

  /** The normaliser: `m_cov[j][k] /= (N - 1)` over the entries of the last datum. */
  method Normalise(cov: array2<real>, last: seq<real>, n: nat) returns (ok: bool)
    requires |last| <= cov.Length0 && |last| <= cov.Length1
    modifies cov
    ensures ok <==> n != 1 || |last| == 0
    ensures ok ==> forall p, q :: 0 <= p < cov.Length0 && 0 <= q < cov.Length1 ==>
      cov[p, q] == if p < |last| && q < |last| then old(cov[p, q]) / (n - 1) as real else old(cov[p, q])
  {
    for j := 0 to |last|
      invariant j > 0 ==> n != 1
      invariant forall p, q :: 0 <= p < cov.Length0 && 0 <= q < cov.Length1 ==>
        cov[p, q] == if p < j && q < |last| then old(cov[p, q]) / (n - 1) as real else old(cov[p, q])
    {
      for k := 0 to |last|
        invariant j > 0 || k > 0 ==> n != 1
        invariant forall p, q :: 0 <= p < cov.Length0 && 0 <= q < cov.Length1 ==>
          cov[p, q] == if (p < j || (p == j && q < k)) && q < |last| then old(cov[p, q]) / (n - 1) as real
                       else old(cov[p, q])
      {
        if n == 1 {
          return false;
        }
        cov[j, k] := cov[j, k] / (n - 1) as real;
      }
    }
    ok := true;
  }

  /**
   * The mean and covariance loops of `get_stat` over validated data, from
   * the totals; `ok` is false when the normaliser divides by `N - 1 = 0`.
   */
  method Moments(rows: seq<seq<real>>, nd: nat, tot: array<real>) returns (ok: bool, stat: Stat)
    requires |rows| >= 2 || (|rows| == 1 && |rows[0]| > 0)
    requires forall i :: 0 <= i < |rows| ==> |rows[i]| <= nd
    requires tot.Length == nd && forall j :: 0 <= j < nd ==> tot[j] == Total(rows, j, |rows|)
    ensures ok <==> |rows| >= 2
    ensures ok ==> stat == Stat(Mean(rows, nd), Cov(rows, nd))
  {
    var n := |rows|;
    var mean := MeanLoop(tot, n);
    assert mean[..] == Mean(rows, nd);
    var cov := Spreads(rows, mean[..], nd);
    ok := Normalise(cov, rows[n - 1], n);
    if ok {
      assert Contents(cov) == Cov(rows, nd) by {
        forall j | 0 <= j < nd
          ensures Contents(cov)[j] == Cov(rows, nd)[j]
        {
        }
      }
    }
    stat := Stat(mean[..], Contents(cov));
  }

  /**
   * `get_stat`: None for no data; otherwise the mean and the covariance
   * matrix, or the exception the input raises.
   */
  method GetStat(d: Sample) returns (r: Result<Option<Stat>, Error>)
    ensures StatError(d).Some? <==> r.Err?
    ensures r.Err? ==> StatError(d) == Some(r.error)
    ensures |Data(d)| == 0 ==> r == Ok(None)
    ensures r.Ok? && |Data(d)| > 0 ==> |Data(d)| >= 2 && r.value == Some(Stat(Mean(Data(d), Dim(d)), Cov(Data(d), Dim(d))))
  {
    var rows := Data(d);
    var n := |rows|;
    if n == 0 {
      return Ok(None);
    }
    var nd := Dim(d);
    if d.Rows? && nd < 2 {
      return Err(if nd == 0 then IndexOutOfRange else TypeMismatch);
    }
    var ok, tot := Totals(rows, nd);
    if !ok {
      return Err(IndexOutOfRange);
    }
    var stat;
    ok, stat := Moments(rows, nd, tot);
    if !ok {
      return Err(ZeroDivision);
    }
    return Ok(Some(stat));
  }

  /** The deviations `x[i] - m[i]` of a point from a mean. */
  function Diff(x: seq<real>, m: seq<real>): (v: seq<real>)
    requires |x| <= |m|
    ensures |v| == |x|
  {
    seq(|x|, i requires 0 <= i < |x| => x[i] - m[i])
  }

  /**
   * The column `m_x` of `r_gaus`: `x[i] - mean[i]` for every coordinate of
   * the point; `ok` is false when the mean is shorter than the point.
   */
  method Deviation(x: seq<real>, m: seq<real>) returns (ok: bool, v: seq<real>)
    ensures ok <==> |x| <= |m|
    ensures ok ==> v == Diff(x, m)
  {
    var col := new real[|x|](_ => 0.0);
    for i := 0 to |x|
      invariant i <= |m|
      invariant forall q :: 0 <= q < i ==> col[q] == x[q] - m[q]
    {
      if i >= |m| {
        return false, [];
      }
      col[i] := x[i] - m[i];
    }
    return true, col[..];
  }

  /**
   * The double loop `r += m_x_t[j] * icov[i][j] * m_x[i]`: the quadratic
   * form of the inverse covariance at the deviation, which is the 1 x 1
   * product `m_x_t * icov * m_x` the loop stands for.
   */
  method QuadLoop(v: seq<real>, A: Matrix) returns (r: real)
    requires Shape(A, |v|, |v|)
    ensures r == QuadForm(A, v)
    ensures |v| > 0 ==> r == Times(Times(Transpose(Column(v)), A), Column(v))[0][0]
  {
    var n := |v|;
    ghost var f := QuadTerms(A, v);
    r := 0.0;
    for i := 0 to n
      invariant r == Sum(i, RowSums(f, n))
    {
      for j := 0 to n
        invariant r == Sum(i, RowSums(f, n)) + Sum(j, RowOf(f, i))
      {
        assert RowOf(f, i)(j) == v[j] * A[i][j] * v[i];
        r := r + v[j] * A[i][j] * v[i];
      }
    }
    if n > 0 {
      assert Entries(Column(v)) == v;
      SandwichIsQuadForm(A, Column(v), n);
    }
  }

  /** The exception `r_gaus` raises, if any, in the order the Python evaluates its terms. */
  function GausError(x: seq<real>, ms: seq<real>, mb: seq<real>, pi: seq<real>, ds: real, db: real): Option<Error>
  {
    if |ms| < |x| || |mb| < |x| || |pi| < 2 then Some(IndexOutOfRange)
    else if pi[1] == 0.0 then Some(ZeroDivision)
    else if pi[0] / pi[1] <= 0.0 then Some(MathDomain)
    else if ds == 0.0 then Some(ZeroDivision)
    else if db / ds <= 0.0 then Some(MathDomain)
    else None
  }

  /**
   * How far the point is on the signal side: the background form plus the
   * prior and determinant terms, minus the signal form. `r_gaus` answers 1
   * exactly when this is positive.
   */
  function Score(x: seq<real>, ms: seq<real>, Cs: Matrix, mb: seq<real>, Cb: Matrix, pi: seq<real>,
                 inv: Matrix -> Matrix, det: Matrix -> real, log: real -> real): real
    requires GausError(x, ms, mb, pi, det(Cs), det(Cb)) == None
  {
    QuadForm(inv(Cb), Diff(x, mb)) + 2.0 * log(pi[0] / pi[1]) + log(det(Cb) / det(Cs))
      - QuadForm(inv(Cs), Diff(x, ms))
  }

  /**
   * `r_gaus`: 1 when the signal's quadratic form at the point is below the
   * background's plus `2 log(pi_s / pi_b) + log(det C_b / det C_s)`, else 0;
   * or the exception the input raises. The inverse, the determinant and
   * `log` are parameters; the inverses keep the covariance's shape.
   */
  method RGaus(x: seq<real>, ms: seq<real>, Cs: Matrix, mb: seq<real>, Cb: Matrix, pi: seq<real>,
               inv: Matrix -> Matrix, det: Matrix -> real, log: real -> real)
    returns (r: Result<nat, Error>)
    requires Shape(inv(Cs), |x|, |x|) && Shape(inv(Cb), |x|, |x|)
    ensures r.Err? <==> GausError(x, ms, mb, pi, det(Cs), det(Cb)).Some?
    ensures r.Err? ==> GausError(x, ms, mb, pi, det(Cs), det(Cb)) == Some(r.error)
    ensures r.Ok? ==> r.value <= 1 && (r.value == 1 <==> Score(x, ms, Cs, mb, Cb, pi, inv, det, log) > 0.0)
  {
    var ok, vs := Deviation(x, ms);
    if !ok {
      return Err(IndexOutOfRange);
    }
    var rs := QuadLoop(vs, inv(Cs));
    var ds := det(Cs);
    var vb;
    ok, vb := Deviation(x, mb);
    if !ok {
      return Err(IndexOutOfRange);
    }
    var rb := QuadLoop(vb, inv(Cb));
    var db := det(Cb);
    if |pi| < 2 {
      return Err(IndexOutOfRange);
    }
    if pi[1] == 0.0 {
      return Err(ZeroDivision);
    }
    if pi[0] / pi[1] <= 0.0 {
      return Err(MathDomain);
    }
    if ds == 0.0 {
      return Err(ZeroDivision);
    }
    if db / ds <= 0.0 {
      return Err(MathDomain);
    }
    var y := 0;
    if rs < rb + 2.0 * log(pi[0] / pi[1]) + log(db / ds) {
      y := 1;
    }
    return Ok(y);
  }

  /**
   * Swapping the roles of signal and background negates the score when
   * `log(1/t) = -log(t)` for the two ratios, so no point passes both the
   * signal test and the background test.
   */
  lemma SwapNegates(x: seq<real>, ms: seq<real>, Cs: Matrix, mb: seq<real>, Cb: Matrix, ps: real, pb: real,
                    inv: Matrix -> Matrix, det: Matrix -> real, log: real -> real)
    requires GausError(x, ms, mb, [ps, pb], det(Cs), det(Cb)) == None
    requires log(pb / ps) == -log(ps / pb) && log(det(Cs) / det(Cb)) == -log(det(Cb) / det(Cs))
    ensures GausError(x, mb, ms, [pb, ps], det(Cb), det(Cs)) == None
    ensures Score(x, mb, Cb, ms, Cs, [pb, ps], inv, det, log) == -Score(x, ms, Cs, mb, Cb, [ps, pb], inv, det, log)
    ensures !(Score(x, mb, Cb, ms, Cs, [pb, ps], inv, det, log) > 0.0 && Score(x, ms, Cs, mb, Cb, [ps, pb], inv, det, log) > 0.0)
  {
    ReciprocalPositive(ps, pb);
    ReciprocalPositive(det(Cb), det(Cs));
  }

  /** A positive ratio's reciprocal is defined and positive. */
  lemma ReciprocalPositive(a: real, b: real)
    requires b != 0.0 && a / b > 0.0
    ensures a != 0.0 && b / a > 0.0
  {
    assert a == (a / b) * b;
    if a < 0.0 {
      assert b < 0.0;
    }
  }
}
