/**
 * The Hough line accumulator of demo_hough_lines.py: every edge pixel of an
 * image votes, for each of 180 angles, for the radius row
 * `int(x cos t + y sin t) + Maxdist`.
 *
 * The cosine and sine of the 180 angles (one per integer degree in
 * [-90, 90)) and the rounded image diagonal `Maxdist` are inputs; what the
 * model needs of them is stated by `UnitCircle` and `RoundedDiagonal`.
 */
module HoughLines {
  import opened Numeric
  import opened Votes

  /** `len(thetas)`: one angle per integer degree in [-90, 90). */
  const NumAngles: nat := 180

  datatype Pixel = Pixel(x: nat, y: nat)

  /** A read-only 2-D image as numpy holds it: `rows[y][x]`, every row `width` long. */
  datatype Image = Image(rows: seq<seq<real>>, width: nat)
  {
    predicate Valid()
    {
      forall y :: 0 <= y < |rows| ==> |rows[y]| == width
    }
  }

  /** The angle tables hold points of the unit circle. */
  predicate UnitCircle(cos: seq<real>, sin: seq<real>)
  {
    |cos| == NumAngles && |sin| == NumAngles &&
    forall k :: 0 <= k < NumAngles ==> cos[k] * cos[k] + sin[k] * sin[k] == 1.0
  }

  /** `m == int(round(sqrt(nx^2 + ny^2)))`, stated without the square root:
      m - 1/2 <= sqrt(nx^2 + ny^2) <= m + 1/2. */
  predicate RoundedDiagonal(m: nat, nx: nat, ny: nat)
  {
    (m == 0 || (2 * m - 1) * (2 * m - 1) <= 4 * (nx * nx + ny * ny)) &&
    4 * (nx * nx + ny * ny) <= (2 * m + 1) * (2 * m + 1)
  }

  /** `image[y, x] > 0` at a pixel inside the image. */
  predicate IsEdge(image: Image, p: Pixel)
    requires image.Valid()
  {
    p.y < |image.rows| && p.x < image.width && image.rows[p.y][p.x] > 0.0
  }

  /** Edge pixels (value > 0) of row `y` among columns [0, n), left to right. */
  function RowEdges(image: Image, y: nat, n: nat): seq<Pixel>
    requires image.Valid() && y < |image.rows| && n <= image.width
  {
    if n == 0 then []
    else RowEdges(image, y, n - 1) + (if image.rows[y][n - 1] > 0.0 then [Pixel(n - 1, y)] else [])
  }

  /** Edge pixels of the rows [0, y), in the scan order of the source's loops. */
  function EdgesBefore(image: Image, y: nat): seq<Pixel>
    requires image.Valid() && y <= |image.rows|
  {
    if y == 0 then [] else EdgesBefore(image, y - 1) + RowEdges(image, y - 1, image.width)
  }

  function EdgePixels(image: Image): seq<Pixel>
    requires image.Valid()
  {
    EdgesBefore(image, |image.rows|)
  }

  function Radius(p: Pixel, c: real, s: real): real
  {
    p.x as real * c + p.y as real * s
  }

  /** The accumulator row a pixel votes for at one angle. */
  function VoteRow(p: Pixel, c: real, s: real, m: int): int
  {
    Trunc(Radius(p, c, s)) + m
  }

  /** The rows one angle's column receives from the pixels `ps`, in order. */
  function VoteRows(ps: seq<Pixel>, c: real, s: real, m: int): (rows: seq<int>)
    ensures |rows| == |ps|
  {
    if ps == [] then [] else VoteRows(ps[..|ps| - 1], c, s, m) + [VoteRow(ps[|ps| - 1], c, s, m)]
  }

  lemma VoteRowsSnoc(ps: seq<Pixel>, p: Pixel, c: real, s: real, m: int)
    ensures VoteRows(ps + [p], c, s, m) == VoteRows(ps, c, s, m) + [VoteRow(p, c, s, m)]
  {
    assert (ps + [p])[..|ps|] == ps;
  }

  lemma {:induction false} VoteRowsAt(ps: seq<Pixel>, c: real, s: real, m: int, i: nat)
    requires i < |ps|
    ensures VoteRows(ps, c, s, m)[i] == VoteRow(ps[i], c, s, m)
    decreases |ps|
  {
    if i < |ps| - 1 {
      VoteRowsAt(ps[..|ps| - 1], c, s, m, i);
    }
  }

  /** Every edge pixel lies inside the image and is positive. */
  lemma {:induction false} EdgePixelsInside(image: Image, y: nat)
    requires image.Valid() && y <= |image.rows|
    ensures forall p :: p in EdgesBefore(image, y) ==>
      p.y < y && p.x < image.width && image.rows[p.y][p.x] > 0.0
  {
    if y > 0 {
      EdgePixelsInside(image, y - 1);
      RowEdgesInside(image, y - 1, image.width);
    }
  }

  lemma {:induction false} RowEdgesInside(image: Image, y: nat, n: nat)
    requires image.Valid() && y < |image.rows| && n <= image.width
    ensures forall p :: p in RowEdges(image, y, n) ==>
      p.y == y && p.x < n && image.rows[p.y][p.x] > 0.0
  {
    if n > 0 {
      RowEdgesInside(image, y, n - 1);
    }
  }

  /** How many times `p` occurs in `ps`. */
  function Occurrences(ps: seq<Pixel>, p: Pixel): nat
  {
    if ps == [] then 0 else Occurrences(ps[..|ps| - 1], p) + (if ps[|ps| - 1] == p then 1 else 0)
  }

  lemma {:induction false} OccurrencesAppend(a: seq<Pixel>, b: seq<Pixel>, p: Pixel)
    ensures Occurrences(a + b, p) == Occurrences(a, p) + Occurrences(b, p)
    decreases |b|
  {
    if b != [] {
      assert (a + b)[..|a + b| - 1] == a + b[..|b| - 1];
      OccurrencesAppend(a, b[..|b| - 1], p);
    } else {
      assert a + b == a;
    }
  }

  /** `Occurrences` is the multiplicity of the sequence's multiset. */
  lemma {:induction false} OccurrencesCount(ps: seq<Pixel>, p: Pixel)
    ensures Occurrences(ps, p) == multiset(ps)[p]
  {
    if ps != [] {
      OccurrencesCount(ps[..|ps| - 1], p);
      assert ps == ps[..|ps| - 1] + [ps[|ps| - 1]];
      assert multiset(ps) == multiset(ps[..|ps| - 1]) + multiset{ps[|ps| - 1]};
    }
  }

  /** Row y's scan lists each of its positive pixels among the first n columns exactly once, and nothing else. */
  lemma {:induction false} RowEdgeCount(image: Image, y: nat, n: nat, p: Pixel)
    requires image.Valid() && y < |image.rows| && n <= image.width
    ensures Occurrences(RowEdges(image, y, n), p) == if p.y == y && p.x < n && IsEdge(image, p) then 1 else 0
  {
    if n > 0 {
      var init, last := RowEdges(image, y, n - 1), if image.rows[y][n - 1] > 0.0 then [Pixel(n - 1, y)] else [];
      assert RowEdges(image, y, n) == init + last;
      RowEdgeCount(image, y, n - 1, p);
      OccurrencesAppend(init, last, p);
      if p != Pixel(n - 1, y) {
        assert Occurrences(last, p) == 0;
        assert (p.y == y && p.x < n) == (p.y == y && p.x < n - 1);
      } else if image.rows[y][n - 1] > 0.0 {
        assert IsEdge(image, p) && last == [p];
      } else {
        assert !IsEdge(image, p) && last == [];
      }
    }
  }

  /** The scan of rows [0, y) lists each of their positive pixels exactly once, and nothing else. */
  lemma {:induction false} EdgeCount(image: Image, y: nat, p: Pixel)
    requires image.Valid() && y <= |image.rows|
    ensures Occurrences(EdgesBefore(image, y), p) == if p.y < y && IsEdge(image, p) then 1 else 0
  {
    if y > 0 {
      var before, row := EdgesBefore(image, y - 1), RowEdges(image, y - 1, image.width);
      assert EdgesBefore(image, y) == before + row;
      EdgeCount(image, y - 1, p);
      RowEdgeCount(image, y - 1, image.width, p);
      OccurrencesAppend(before, row, p);
      assert (p.y < y) == (p.y < y - 1 || p.y == y - 1);
    }
  }

  /**
   * The voting pixels are exactly the positive pixels of the image, each
   * voting once: `image[y, x] > 0` is the only test the loops apply.
   */
  lemma EdgePixelCount(image: Image, p: Pixel)
    requires image.Valid()
    ensures multiset(EdgePixels(image))[p] == if IsEdge(image, p) then 1 else 0
  {
    EdgeCount(image, |image.rows|, p);
    OccurrencesCount(EdgePixels(image), p);
  }

  lemma MulMono(a: int, b: int, c: int)
    requires a <= b && 0 <= c
    ensures a * c <= b * c
  {
  }

  lemma SquareStrictMono(a: int, b: int)
    requires 0 <= a < b
    ensures a * a < b * b
  {
    MulMono(a, b, a);
    MulMono(a, b, b);
    assert a * b < b * b;
  }

  lemma SquareSum(a: int, b: int)
    ensures (a + b) * (a + b) == a * a + 2 * (a * b) + b * b
  {
  }

  lemma DoubleSquare(t: int)
    ensures (2 * t) * (2 * t) == 4 * (t * t)
  {
  }

  lemma OddSquare(m: int)
    ensures (2 * m + 1) * (2 * m + 1) == 4 * (m * m) + 4 * m + 1
  {
  }

  lemma PredSquare(a: int)
    ensures (a - 1) * (a - 1) == a * a - 2 * a + 1
  {
  }

  /** The rounded diagonal of a non-empty image is at least 1 and at most nx + ny. */
  lemma RoundedDiagonalRange(m: nat, nx: nat, ny: nat)
    requires nx >= 1 && ny >= 1 && RoundedDiagonal(m, nx, ny)
    ensures 1 <= m <= nx + ny
  {
    MulMono(1, nx, nx);
    MulMono(1, ny, ny);
    assert m >= 1;
    var t := nx + ny;
    SquareSum(nx, ny);
    MulMono(0, nx, ny);
    DoubleSquare(t);
    SquareMonoConverse(2 * m - 1, 2 * t);
  }

  /** The diagonal bound: (nx-1)^2 + (ny-1)^2 < m^2 once the image has a pixel. */
  lemma DiagonalBound(m: nat, nx: nat, ny: nat)
    requires nx >= 1 && ny >= 1 && RoundedDiagonal(m, nx, ny)
    ensures (nx - 1) * (nx - 1) + (ny - 1) * (ny - 1) < m * m
  {
    RoundedDiagonalRange(m, nx, ny);
    OddSquare(m);
    PredSquare(nx);
    PredSquare(ny);
    MulMono(1, m, m);
    DiagonalFinish((nx - 1) * (nx - 1) + (ny - 1) * (ny - 1), nx * nx + ny * ny, nx + ny, m, m * m);
  }

  lemma DiagonalFinish(d: int, s: int, t: int, m: int, mm: int)
    requires d == s - 2 * t + 2 && 4 * s <= 4 * mm + 4 * m + 1
    requires 1 <= m <= t && 2 <= t
    requires t == 2 ==> d == 0 && mm >= 1
    ensures d < mm
  {
  }

  lemma SquareMonoConverse(a: int, b: int)
    requires 0 <= b && a * a <= b * b
    ensures a <= b
  {
    if a > b {
      SquareStrictMono(b, a);
    }
  }

  /** Cauchy-Schwarz in the plane: |x c + y s|^2 <= (x^2 + y^2)(c^2 + s^2). */
  lemma CauchySchwarz2(x: real, y: real, c: real, s: real)
    ensures (x * c + y * s) * (x * c + y * s) <= (x * x + y * y) * (c * c + s * s)
  {
    var u := x * s - y * c;
    assert (x * c + y * s) * (x * c + y * s) + u * u == (x * x + y * y) * (c * c + s * s);
    assert u * u >= 0.0;
  }

  lemma RealSquareInside(r: real, m: real)
    requires 0.0 <= m && r * r < m * m
    ensures -m < r < m
  {
  }

  /** DiagonalBound, stated on reals. */
  lemma DiagonalBoundReal(m: nat, nx: nat, ny: nat)
    requires nx >= 1 && ny >= 1 && (nx - 1) * (nx - 1) + (ny - 1) * (ny - 1) < m * m
    ensures ((nx - 1) as real) * ((nx - 1) as real) + ((ny - 1) as real) * ((ny - 1) as real) < (m as real) * (m as real)
  {
    CastSquare(nx - 1);
    CastSquare(ny - 1);
    CastSquare(m);
  }

  /** A point inside the a x b box, projected on a unit direction, stays strictly within
      any radius beyond the box's far corner. */
  lemma RadiusBelow(x: real, y: real, c: real, s: real, a: real, b: real, mr: real)
    requires c * c + s * s == 1.0
    requires 0.0 <= x <= a && 0.0 <= y <= b && 0.0 <= mr && a * a + b * b < mr * mr
    ensures -mr < x * c + y * s < mr
  {
    var r := x * c + y * s;
    CauchySchwarz2(x, y, c, s);
    SumSquaresMono(x, y, a, b);
    RealSquareInside(r, mr);
  }

  lemma SumSquaresMono(x: real, y: real, a: real, b: real)
    requires 0.0 <= x <= a && 0.0 <= y <= b
    ensures x * x + y * y <= a * a + b * b
  {
    RealSquareMono(x, a);
    RealSquareMono(y, b);
  }

  lemma CastSquare(a: int)
    ensures (a * a) as real == (a as real) * (a as real)
  {
  }

  lemma RealSquareMono(a: real, b: real)
    requires 0.0 <= a <= b
    ensures a * a <= b * b
  {
    assert a * a <= a * b <= b * b;
  }

  /** The comment's promise: every vote row lies in [0, 2 * Maxdist) (in fact in [1, 2 * Maxdist - 1]). */
  lemma VoteRowInRange(p: Pixel, c: real, s: real, m: nat, nx: nat, ny: nat)
    requires p.x < nx && p.y < ny && RoundedDiagonal(m, nx, ny)
    requires c * c + s * s == 1.0
    ensures 1 <= VoteRow(p, c, s, m) <= 2 * m - 1
  {
    DiagonalBound(m, nx, ny);
    DiagonalBoundReal(m, nx, ny);
    RowInside(p, c, s, m, nx, ny);
  }

  /** A pixel of an image whose far corner lies within distance m votes for a row in (-m, m) + m. */
  lemma RowInside(p: Pixel, c: real, s: real, m: nat, nx: nat, ny: nat)
    requires p.x < nx && p.y < ny
    requires ((nx - 1) as real) * ((nx - 1) as real) + ((ny - 1) as real) * ((ny - 1) as real) < (m as real) * (m as real)
    requires c * c + s * s == 1.0
    ensures -(m as int) < Trunc(Radius(p, c, s)) < m
  {
    RadiusBelow(p.x as real, p.y as real, c, s, (nx - 1) as real, (ny - 1) as real, m as real);
    TruncInside(Radius(p, c, s), m);
  }

  /** Every pixel of the image votes for a row of the accumulator at every angle. */
  ghost predicate VotesInRange(image: Image, cos: seq<real>, sin: seq<real>, maxdist: nat)
    requires |cos| == NumAngles && |sin| == NumAngles
  {
    forall p: Pixel, k :: p.x < image.width && p.y < |image.rows| && 0 <= k < NumAngles ==>
      0 <= VoteRow(p, cos[k], sin[k], maxdist) < 2 * maxdist
  }

  /** The comment's promise holds: with angle tables on the unit circle and
      Maxdist the rounded diagonal, no vote leaves the accumulator. */
  lemma VotesStayInAccumulator(image: Image, cos: seq<real>, sin: seq<real>, maxdist: nat)
    requires UnitCircle(cos, sin)
    requires RoundedDiagonal(maxdist, image.width, |image.rows|)
    ensures VotesInRange(image, cos, sin, maxdist)
  {
    forall p: Pixel, k | p.x < image.width && p.y < |image.rows| && 0 <= k < NumAngles
      ensures 0 <= VoteRow(p, cos[k], sin[k], maxdist) < 2 * maxdist
    {
      VoteRowInRange(p, cos[k], sin[k], maxdist, image.width, |image.rows|);
    }
  }

  /**
   * The accumulator of demo_hough_lines.py: `2 * maxdist` rows, one column
   * per angle; cell (row, k) holds how many edge pixels vote for `row` at
   * angle k.
   */
  method HoughLine(image: Image, cos: seq<real>, sin: seq<real>, maxdist: nat)
    returns (acc: array2<int>)
    requires image.Valid() && UnitCircle(cos, sin)
    requires RoundedDiagonal(maxdist, image.width, |image.rows|)
    ensures acc.Length0 == 2 * maxdist && acc.Length1 == NumAngles
    ensures forall row, k :: 0 <= row < 2 * maxdist && 0 <= k < NumAngles ==>
      acc[row, k] == Count(VoteRows(EdgePixels(image), cos[k], sin[k], maxdist), row)
  {
    VotesStayInAccumulator(image, cos, sin, maxdist);
    acc := new int[2 * maxdist, NumAngles]((_, _) => 0);
    ScanImage(acc, image, cos, sin, maxdist);
  }

  /** The row loop: rows of the image are scanned top to bottom into a zeroed accumulator. */
  method ScanImage(acc: array2<int>, image: Image, cos: seq<real>, sin: seq<real>, maxdist: nat)
    requires image.Valid() && |cos| == NumAngles && |sin| == NumAngles
    requires VotesInRange(image, cos, sin, maxdist)
    requires acc.Length0 == 2 * maxdist && acc.Length1 == NumAngles
    requires forall row, k :: 0 <= row < 2 * maxdist && 0 <= k < NumAngles ==> acc[row, k] == 0
    modifies acc
    ensures forall row, k :: 0 <= row < 2 * maxdist && 0 <= k < NumAngles ==>
      acc[row, k] == Count(VoteRows(EdgePixels(image), cos[k], sin[k], maxdist), row)
  {
    var y := 0;
    while y < |image.rows|
      invariant 0 <= y <= |image.rows|
      invariant forall row, k :: 0 <= row < 2 * maxdist && 0 <= k < NumAngles ==>
        acc[row, k] == Count(VoteRows(EdgesBefore(image, y), cos[k], sin[k], maxdist), row)
    {
      ScanRow(acc, image, y, cos, sin, maxdist);
      y := y + 1;
    }
  }

  /** The pixel loop over row y: every edge pixel of the row votes, left to right. */
  method ScanRow(acc: array2<int>, image: Image, y: nat, cos: seq<real>, sin: seq<real>, maxdist: nat)
    requires image.Valid() && y < |image.rows| && |cos| == NumAngles && |sin| == NumAngles
    requires VotesInRange(image, cos, sin, maxdist)
    requires acc.Length0 == 2 * maxdist && acc.Length1 == NumAngles
    requires forall row, k :: 0 <= row < 2 * maxdist && 0 <= k < NumAngles ==>
      acc[row, k] == Count(VoteRows(EdgesBefore(image, y), cos[k], sin[k], maxdist), row)
    modifies acc
    ensures forall row, k :: 0 <= row < 2 * maxdist && 0 <= k < NumAngles ==>
      acc[row, k] == Count(VoteRows(EdgesBefore(image, y + 1), cos[k], sin[k], maxdist), row)
  {
    var x := 0;
    assert EdgesBefore(image, y) + RowEdges(image, y, 0) == EdgesBefore(image, y);
    while x < image.width
      invariant 0 <= x <= image.width
      invariant forall row, k :: 0 <= row < 2 * maxdist && 0 <= k < NumAngles ==>
        acc[row, k] == Count(VoteRows(EdgesBefore(image, y) + RowEdges(image, y, x), cos[k], sin[k], maxdist), row)
    {
      ScanPixel(acc, image, y, x, cos, sin, maxdist);
      x := x + 1;
    }
    assert EdgesBefore(image, y + 1) == EdgesBefore(image, y) + RowEdges(image, y, image.width);
  }

  /** One pass of the pixel loop: pixel (x, y) votes when it is an edge pixel. */
  method ScanPixel(acc: array2<int>, image: Image, y: nat, x: nat, cos: seq<real>, sin: seq<real>, maxdist: nat)
    requires image.Valid() && y < |image.rows| && x < image.width && |cos| == NumAngles && |sin| == NumAngles
    requires VotesInRange(image, cos, sin, maxdist)
    requires acc.Length0 == 2 * maxdist && acc.Length1 == NumAngles
    requires forall row, k :: 0 <= row < 2 * maxdist && 0 <= k < NumAngles ==>
      acc[row, k] == Count(VoteRows(EdgesBefore(image, y) + RowEdges(image, y, x), cos[k], sin[k], maxdist), row)
    modifies acc
    ensures forall row, k :: 0 <= row < 2 * maxdist && 0 <= k < NumAngles ==>
      acc[row, k] == Count(VoteRows(EdgesBefore(image, y) + RowEdges(image, y, x + 1), cos[k], sin[k], maxdist), row)
  {
    ghost var done := EdgesBefore(image, y) + RowEdges(image, y, x);
    if image.rows[y][x] > 0.0 {
      CastVotes(acc, Pixel(x, y), cos, sin, maxdist, done);
      assert EdgesBefore(image, y) + RowEdges(image, y, x + 1) == done + [Pixel(x, y)];
    } else {
      assert EdgesBefore(image, y) + RowEdges(image, y, x + 1) == done;
    }
  }

  /** The angle loop for one edge pixel: its vote is added to every column,
      and `done` (the pixels that voted before it) grows by that pixel. */
  method CastVotes(acc: array2<int>, p: Pixel, cos: seq<real>, sin: seq<real>, maxdist: nat,
                   ghost done: seq<Pixel>)
    requires acc.Length0 == 2 * maxdist && acc.Length1 == NumAngles
    requires |cos| == NumAngles && |sin| == NumAngles
    requires forall k :: 0 <= k < NumAngles ==> 0 <= VoteRow(p, cos[k], sin[k], maxdist) < 2 * maxdist
    requires forall row, k :: 0 <= row < 2 * maxdist && 0 <= k < NumAngles ==>
      acc[row, k] == Count(VoteRows(done, cos[k], sin[k], maxdist), row)
    modifies acc
    ensures forall row, k :: 0 <= row < 2 * maxdist && 0 <= k < NumAngles ==>
      acc[row, k] == Count(VoteRows(done + [p], cos[k], sin[k], maxdist), row)
  {
    // cols[j]: the rows column j has received, in order
    ghost var cols: seq<seq<int>> := seq(NumAngles, j requires 0 <= j < NumAngles => VoteRows(done, cos[j], sin[j], maxdist));
    var k := 0;
    while k < NumAngles
      invariant 0 <= k <= NumAngles && |cols| == NumAngles
      invariant forall j :: 0 <= j < k ==> cols[j] == VoteRows(done + [p], cos[j], sin[j], maxdist)
      invariant forall j :: k <= j < NumAngles ==> cols[j] == VoteRows(done, cos[j], sin[j], maxdist)
      invariant forall row, j :: 0 <= row < 2 * maxdist && 0 <= j < NumAngles ==> acc[row, j] == Count(cols[j], row)
    {
      var row := VoteRow(p, cos[k], sin[k], maxdist);
      VoteRowsSnoc(done, p, cos[k], sin[k], maxdist);
      Vote(acc, k, row, cols[k]);
      cols := cols[k := cols[k] + [row]];
      k := k + 1;
    }
  }

  /** `acc[rind, k] += 1`: column k, which held the rows `col`, receives `row`. */
  method Vote(acc: array2<int>, k: nat, row: int, ghost col: seq<int>)
    requires 0 <= row < acc.Length0 && k < acc.Length1
    requires forall v :: 0 <= v < acc.Length0 ==> acc[v, k] == Count(col, v)
    modifies acc
    ensures forall v :: 0 <= v < acc.Length0 ==> acc[v, k] == Count(col + [row], v)
    ensures forall v, j :: 0 <= v < acc.Length0 && 0 <= j < acc.Length1 && j != k ==> acc[v, j] == old(acc[v, j])
  {
    forall v | 0 <= v < acc.Length0
      ensures Count(col + [row], v) == Count(col, v) + (if row == v then 1 else 0)
    {
      CountSnoc(col, row, v);
    }
    acc[row, k] := acc[row, k] + 1;
  }

  /** Each column sums to the number of edge pixels: every edge pixel casts
      exactly one vote per angle, and none falls outside the accumulator. */
  lemma ColumnSumIsEdgeCount(image: Image, cos: seq<real>, sin: seq<real>, maxdist: nat, k: nat)
    requires image.Valid() && UnitCircle(cos, sin)
    requires RoundedDiagonal(maxdist, image.width, |image.rows|)
    requires k < NumAngles
    ensures ColumnTotal(VoteRows(EdgePixels(image), cos[k], sin[k], maxdist), 0, 2 * maxdist)
         == |EdgePixels(image)|
  {
    var rows := VoteRows(EdgePixels(image), cos[k], sin[k], maxdist);
    ColumnInRange(image, cos, sin, maxdist, k);
    CountBetweenAll(rows, 0, 2 * maxdist);
    ColumnTotalIsCountBetween(rows, 0, 2 * maxdist);
  }

  lemma ColumnInRange(image: Image, cos: seq<real>, sin: seq<real>, maxdist: nat, k: nat)
    requires image.Valid() && UnitCircle(cos, sin) && k < NumAngles
    requires RoundedDiagonal(maxdist, image.width, |image.rows|)
    ensures forall i :: 0 <= i < |EdgePixels(image)| ==>
      0 <= VoteRows(EdgePixels(image), cos[k], sin[k], maxdist)[i] < 2 * maxdist
  {
    var ps := EdgePixels(image);
    var rows := VoteRows(ps, cos[k], sin[k], maxdist);
    VotesStayInAccumulator(image, cos, sin, maxdist);
    EdgePixelsInside(image, |image.rows|);
    forall i | 0 <= i < |rows| ensures 0 <= rows[i] < 2 * maxdist {
      VoteRowsAt(ps, cos[k], sin[k], maxdist, i);
      assert ps[i] in ps;
    }
  }

  /** An image without a positive pixel has no edge pixels, so every cell stays zero. */
  lemma {:induction false} BlankImageNoEdges(image: Image, y: nat)
    requires image.Valid() && y <= |image.rows|
    requires forall j, x :: 0 <= j < |image.rows| && 0 <= x < image.width ==> image.rows[j][x] <= 0.0
    ensures EdgesBefore(image, y) == []
  {
    if y > 0 {
      BlankImageNoEdges(image, y - 1);
      BlankRowNoEdges(image, y - 1, image.width);
    }
  }

  lemma {:induction false} BlankRowNoEdges(image: Image, y: nat, n: nat)
    requires image.Valid() && y < |image.rows| && n <= image.width
    requires forall x :: 0 <= x < image.width ==> image.rows[y][x] <= 0.0
    ensures RowEdges(image, y, n) == []
  {
    if n > 0 {
      BlankRowNoEdges(image, y, n - 1);
    }
  }
}
