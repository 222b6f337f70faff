/**
 * The combinatorial track search `reco4` of spectrometer6.c and of its
 * Python port kalman_testbeam.py. Every hit of plane 0 inside the beam
 * profile is combined with every hit of plane 1 to seed a Kalman filter in
 * the non-bending (x, z) projection; hits of planes 2 and 3 are added one at
 * a time and pruned on their filter chi-square; each surviving combination
 * is fitted globally and the first one with the strictly smallest global
 * chi-square is kept.
 *
 * The search is specified in two stages: `Search` lists the surviving
 * candidates in the order the loops reach them (threading the Kalman state
 * the way the source does), and `FoldBest` selects among them.
 */
module Search {
  import opened Matrix2
  import opened Kalman
  import opened Matrices
  import opened TrackFit
  import opened Spectrometer
  import opened Simulation

  /** The three chi-square cuts of the run: filter cuts on planes 2 and 3, and the cut on the best track. */
  datatype Cuts = Cuts(cut1: real, cut2: real, cut3: real)

  /** The cuts both programs are configured with. */
  const SourceCuts: Cuts := Cuts(Cut1, Cut2, Cut3)

  /**
   * The hit buffers, the inversion the search takes from outside, the cuts
   * it applies, and the two computations it calls: the port's Kalman step
   * and the global fit. The final cut lies below the `chi2min` sentinel, so
   * an event without candidates is never accepted.
   */
  datatype Setup = Setup(port: Port, ys: seq<seq<real>>, zs: seq<seq<real>>, flags: seq<seq<bool>>,
                         inv: Matrix -> Matrix, cuts: Cuts,
                         filter: (Vec2, Mat2, real) -> Update, globalFit: seq<int> -> FitResult)
  {
    /** What the loops need: hit buffers in lockstep, a final cut below the sentinel, and a filter that keeps a covariance positive definite. */
    ghost predicate Sane()
    {
      Lockstep(ys, zs, flags) && cuts.cut3 < NoTrack &&
      forall z, C, hit {:trigger filter(z, C, hit)} :: PosDef(C) ==> PosDef(filter(z, C, hit).C)
    }

    ghost predicate Valid()
    {
      Sane() && Calls()
    }

    /** `filter` is the port's `kalmanFilter` step and `globalFit` the fit of the chosen hits. */
    ghost predicate Calls()
    {
      (forall z, C, hit {:trigger Step(port, z, C, hit)} :: PosDef(C) ==> filter(z, C, hit) == Step(port, z, C, hit)) &&
      (forall ihits {:trigger GlobalFit(ys, zs, ihits, inv)} ::
        ValidChoice(ys, zs, ihits) ==> globalFit(ihits) == GlobalFit(ys, zs, ihits, inv))
    }
  }

  /** The setup of one event: the port's filter step and the global fit over the event's hits. */
  function Configure(port: Port, ys: seq<seq<real>>, zs: seq<seq<real>>, flags: seq<seq<bool>>,
                     inv: Matrix -> Matrix, cuts: Cuts): (s: Setup)
    ensures s.port == port && s.ys == ys && s.zs == zs && s.flags == flags && s.inv == inv && s.cuts == cuts
    ensures s.Calls()
    ensures Lockstep(ys, zs, flags) && cuts.cut3 < NoTrack ==> s.Valid()
  {
    Setup(port, ys, zs, flags, inv, cuts,
      (z: Vec2, C: Mat2, hit: real) => if PosDef(C) then Step(port, z, C, hit) else Update(0.0, z, C),
      (ihits: seq<int>) => if ValidChoice(ys, zs, ihits) then GlobalFit(ys, zs, ihits, inv) else FitResult(0.0, [], []))
  }

  /** A combination of one hit per plane that passed both filter cuts, with its global fit. */
  datatype Candidate = Candidate(ihits: seq<int>, chi2Second: real, chi2Third: real, fit: FitResult)

  /** A filter chi-square filled into the histogram of plane 2 (h11) or plane 3 (h12). */
  datatype Fill = Fill(plane: nat, chi2: real)

  /** What the loops have produced so far. */
  datatype Found = Found(allsignal: bool, cands: seq<Candidate>, fills: seq<Fill>)

  /** The same, with the z-projection Kalman state the inner loops share. */
  datatype Trace = Trace(z: Vec2, C: Mat2, found: Found)

  /** The beam-profile cut on the plane-0 hit: `fabs(y) > 4 * pixelSize` is skipped. */
  predicate InBeam(y: real)
  {
    Abs(y) <= 4.0 * PixelSize
  }

  /** What every candidate satisfies: valid indices, the beam cut, both filter cuts, and its fit. */
  predicate Sound(s: Setup, c: Candidate)
  {
    ValidChoice(s.ys, s.zs, c.ihits) && InBeam(s.ys[0][c.ihits[0]]) &&
    c.chi2Second <= s.cuts.cut1 && c.chi2Third <= s.cuts.cut2 && c.fit == s.globalFit(c.ihits)
  }

  /**
   * Candidate k of f. Soundness below is stated through it, so that a proof
   * unfolds a candidate's global fit only where it names the candidate.
   */
  function Cand(f: Found, k: nat): Candidate
    requires k < |f.cands|
  {
    f.cands[k]
  }

  /** g extends f: earlier candidates and fills are kept, and the new candidates are sound. */
  predicate Grows(s: Setup, f: Found, g: Found)
  {
    |f.cands| <= |g.cands| && g.cands[..|f.cands|] == f.cands &&
    |f.fills| <= |g.fills| && g.fills[..|f.fills|] == f.fills &&
    forall k :: |f.cands| <= k < |g.cands| ==> Sound(s, Cand(g, k))
  }

  /** Once `allsignal` is false it stays false, and nothing more is filled. */
  predicate Quiet(f: Found, g: Found)
  {
    !f.allsignal ==> !g.allsignal && g.fills == f.fills
  }

  lemma GrowsTrans(s: Setup, f: Found, g: Found, h: Found)
    requires Grows(s, f, g) && Grows(s, g, h)
    ensures Grows(s, f, h)
  {
    assert h.cands[..|f.cands|] == h.cands[..|g.cands|][..|f.cands|];
    assert h.fills[..|f.fills|] == h.fills[..|g.fills|][..|f.fills|];
    forall k | |f.cands| <= k < |h.cands|
      ensures Sound(s, Cand(h, k))
    {
      if k < |g.cands| {
        assert Cand(h, k) == h.cands[..|g.cands|][k] == Cand(g, k);
      }
    }
  }

  lemma GrowsSelf(s: Setup, f: Found)
    ensures Grows(s, f, f)
  {
    assert f.cands[..|f.cands|] == f.cands;
    assert f.fills[..|f.fills|] == f.fills;
  }

  /** The seed hits i0, i1 the plane-2 loop works under. */
  ghost predicate Seeded(s: Setup, i0: nat, i1: nat)
  {
    s.Sane() && i0 < |s.ys[0]| && InBeam(s.ys[0][i0]) && i1 < |s.ys[1]|
  }

  /** The hits i0, i1, i2 the plane-3 loop works under. */
  ghost predicate Placed(s: Setup, i0: nat, i1: nat, i2: nat)
  {
    Seeded(s, i0, i1) && i2 < |s.ys[2]|
  }

  lemma PlacedChoice(s: Setup, i0: nat, i1: nat, i2: nat, i3: nat)
    requires Placed(s, i0, i1, i2) && i3 < |s.ys[3]|
    ensures ValidChoice(s.ys, s.zs, [i0 as int, i1 as int, i2 as int, i3 as int])
  {
    var ihits := [i0 as int, i1 as int, i2 as int, i3 as int];
    assert ihits[0] == i0 && ihits[1] == i1 && ihits[2] == i2 && ihits[3] == i3;
  }

  /** One pass of the plane-3 loop, `kalmanFilter(3, i3, z, Cz)` and the global fit of a survivor. */
  function VisitThird(s: Setup, i0: nat, i1: nat, i2: nat, c2: real, t: Trace, i3: nat): (r: Trace)
    requires Placed(s, i0, i1, i2) && i3 < |s.ys[3]| && c2 <= s.cuts.cut1 && PosDef(t.C)
    ensures PosDef(r.C)
  {
    var hit := s.zs[3][i3];
    var u := s.filter(t.z, t.C, hit);
    var all := t.found.allsignal && !s.flags[3][i3];
    var fills := if all then t.found.fills + [Fill(3, u.chi2)] else t.found.fills;
    var ihits := [i0 as int, i1 as int, i2 as int, i3 as int];
    var cands := if u.chi2 > s.cuts.cut2 then t.found.cands
      else t.found.cands + [Candidate(ihits, c2, u.chi2, s.globalFit(ihits))];
    Trace(u.z, u.C, Found(all, cands, fills))
  }

  /** The plane-3 loop over its first n hits. */
  function Third(s: Setup, i0: nat, i1: nat, i2: nat, c2: real, t: Trace, n: nat): (r: Trace)
    requires Placed(s, i0, i1, i2) && n <= |s.ys[3]| && c2 <= s.cuts.cut1 && PosDef(t.C)
    ensures PosDef(r.C)
    decreases n
  {
    if n == 0 then t
    else VisitThird(s, i0, i1, i2, c2, Third(s, i0, i1, i2, c2, t, n - 1), n - 1)
  }

  /** One pass of the plane-2 loop: `kalmanFilter(2, i2, z, Cz)`, the `Cut1` prune, then plane 3. */
  function VisitSecond(s: Setup, i0: nat, i1: nat, t: Trace, i2: nat): (r: Trace)
    requires Placed(s, i0, i1, i2) && PosDef(t.C)
    ensures PosDef(r.C)
  {
    var hit := s.zs[2][i2];
    var u := s.filter(t.z, t.C, hit);
    var all := t.found.allsignal && !s.flags[2][i2];
    var fills := if all then t.found.fills + [Fill(2, u.chi2)] else t.found.fills;
    var q := Trace(u.z, u.C, Found(all, t.found.cands, fills));
    if u.chi2 > s.cuts.cut1 then q
    else Third(s, i0, i1, i2, u.chi2, q, |s.ys[3]|)
  }

  /** The plane-2 loop over its first n hits. */
  function Second(s: Setup, i0: nat, i1: nat, t: Trace, n: nat): (r: Trace)
    requires Seeded(s, i0, i1) && n <= |s.ys[2]| && PosDef(t.C)
    ensures PosDef(r.C)
    decreases n
  {
    if n == 0 then t
    else VisitSecond(s, i0, i1, Second(s, i0, i1, t, n - 1), n - 1)
  }

  /** One pass of the plane-1 loop: seed the filter from the hits of planes 0 and 1, then plane 2. */
  function VisitFirst(s: Setup, i0: nat, f: Found, i1: nat): Found
    requires s.Sane() && i0 < |s.ys[0]| && InBeam(s.ys[0][i0]) && i1 < |s.ys[1]|
  {
    var all := f.allsignal && !s.flags[1][i1];
    Second(s, i0, i1, Trace(SeedState(s.zs[0][i0], s.zs[1][i1]), SeedCov(), Found(all, f.cands, f.fills)), |s.ys[2]|).found
  }

  /** The plane-1 loop over its first n hits. */
  function First(s: Setup, i0: nat, f: Found, n: nat): Found
    requires s.Sane() && i0 < |s.ys[0]| && InBeam(s.ys[0][i0]) && n <= |s.ys[1]|
    decreases n
  {
    if n == 0 then f
    else VisitFirst(s, i0, First(s, i0, f, n - 1), n - 1)
  }

  /** One pass of the plane-0 loop: the beam-profile cut, then plane 1 with a fresh `allsignal`. */
  function VisitZero(s: Setup, f: Found, i0: nat): Found
    requires s.Sane() && i0 < |s.ys[0]|
  {
    if !InBeam(s.ys[0][i0]) then f
    else First(s, i0, f.(allsignal := !s.flags[0][i0]), |s.ys[1]|)
  }

  /** The plane-0 loop over its first n hits. */
  function Zero(s: Setup, f: Found, n: nat): Found
    requires s.Sane() && n <= |s.ys[0]|
    decreases n
  {
    if n == 0 then f
    else VisitZero(s, Zero(s, f, n - 1), n - 1)
  }

  /** The whole search: the candidates that survive the cuts, and the histogram fills. */
  function Searched(s: Setup): (g: Found)
    requires s.Valid()
    ensures Grows(s, Found(true, [], []), g)
  {
    ZeroGrows(s, Found(true, [], []), |s.ys[0]|);
    Zero(s, Found(true, [], []), |s.ys[0]|)
  }

  // ----- what the loops keep -----

  lemma VisitThirdGrows(s: Setup, i0: nat, i1: nat, i2: nat, c2: real, t: Trace, i3: nat)
    requires Placed(s, i0, i1, i2) && i3 < |s.ys[3]| && c2 <= s.cuts.cut1 && PosDef(t.C)
    ensures var r := VisitThird(s, i0, i1, i2, c2, t, i3); Grows(s, t.found, r.found) && Quiet(t.found, r.found)
  {
    var r := VisitThird(s, i0, i1, i2, c2, t, i3);
    assert r.found.cands[..|t.found.cands|] == t.found.cands;
    assert r.found.fills[..|t.found.fills|] == t.found.fills;
  }

  /** One more plane-3 hit extends what the loop had found. */
  lemma ThirdStepGrows(s: Setup, i0: nat, i1: nat, i2: nat, c2: real, t: Trace, n: nat)
    requires Placed(s, i0, i1, i2) && 0 < n <= |s.ys[3]| && c2 <= s.cuts.cut1 && PosDef(t.C)
    ensures var p, r := Third(s, i0, i1, i2, c2, t, n - 1), Third(s, i0, i1, i2, c2, t, n);
      Grows(s, p.found, r.found) && Quiet(p.found, r.found)
  {
    var p := Third(s, i0, i1, i2, c2, t, n - 1);
    assert Third(s, i0, i1, i2, c2, t, n) == VisitThird(s, i0, i1, i2, c2, p, n - 1);
    VisitThirdGrows(s, i0, i1, i2, c2, p, n - 1);
  }

  lemma {:induction false} ThirdGrows(s: Setup, i0: nat, i1: nat, i2: nat, c2: real, t: Trace, n: nat)
    requires Placed(s, i0, i1, i2) && n <= |s.ys[3]| && c2 <= s.cuts.cut1 && PosDef(t.C)
    ensures var r := Third(s, i0, i1, i2, c2, t, n); Grows(s, t.found, r.found) && Quiet(t.found, r.found)
    decreases n
  {
    if n == 0 {
      assert Third(s, i0, i1, i2, c2, t, n) == t;
      GrowsSelf(s, t.found);
    } else {
      ThirdGrows(s, i0, i1, i2, c2, t, n - 1);
      ThirdStepGrows(s, i0, i1, i2, c2, t, n);
      GrowsTrans(s, t.found, Third(s, i0, i1, i2, c2, t, n - 1).found, Third(s, i0, i1, i2, c2, t, n).found);
    }
  }

  lemma VisitSecondGrows(s: Setup, i0: nat, i1: nat, t: Trace, i2: nat)
    requires Placed(s, i0, i1, i2) && PosDef(t.C)
    ensures var r := VisitSecond(s, i0, i1, t, i2); Grows(s, t.found, r.found) && Quiet(t.found, r.found)
  {
    var hit := s.zs[2][i2];
    var u := s.filter(t.z, t.C, hit);
    var all := t.found.allsignal && !s.flags[2][i2];
    var fills := if all then t.found.fills + [Fill(2, u.chi2)] else t.found.fills;
    var q := Trace(u.z, u.C, Found(all, t.found.cands, fills));
    assert t.found.cands[..|t.found.cands|] == t.found.cands;
    assert fills[..|t.found.fills|] == t.found.fills;
    if u.chi2 <= s.cuts.cut1 {
      ThirdGrows(s, i0, i1, i2, u.chi2, q, |s.ys[3]|);
      GrowsTrans(s, t.found, q.found, Third(s, i0, i1, i2, u.chi2, q, |s.ys[3]|).found);
    }
  }

  /** One more plane-2 hit extends what the loop had found. */
  lemma SecondStepGrows(s: Setup, i0: nat, i1: nat, t: Trace, n: nat)
    requires Seeded(s, i0, i1) && 0 < n <= |s.ys[2]| && PosDef(t.C)
    ensures var p, r := Second(s, i0, i1, t, n - 1), Second(s, i0, i1, t, n);
      Grows(s, p.found, r.found) && Quiet(p.found, r.found)
  {
    var p := Second(s, i0, i1, t, n - 1);
    assert Second(s, i0, i1, t, n) == VisitSecond(s, i0, i1, p, n - 1);
    VisitSecondGrows(s, i0, i1, p, n - 1);
  }

  lemma {:induction false} SecondGrows(s: Setup, i0: nat, i1: nat, t: Trace, n: nat)
    requires Seeded(s, i0, i1) && n <= |s.ys[2]| && PosDef(t.C)
    ensures var r := Second(s, i0, i1, t, n); Grows(s, t.found, r.found) && Quiet(t.found, r.found)
    decreases n
  {
    if n == 0 {
      assert Second(s, i0, i1, t, n) == t;
      GrowsSelf(s, t.found);
    } else {
      SecondGrows(s, i0, i1, t, n - 1);
      SecondStepGrows(s, i0, i1, t, n);
      GrowsTrans(s, t.found, Second(s, i0, i1, t, n - 1).found, Second(s, i0, i1, t, n).found);
    }
  }

  lemma VisitFirstGrows(s: Setup, i0: nat, f: Found, i1: nat)
    requires s.Sane() && i0 < |s.ys[0]| && InBeam(s.ys[0][i0]) && i1 < |s.ys[1]|
    ensures var g := VisitFirst(s, i0, f, i1); Grows(s, f, g) && Quiet(f, g)
  {
    var all := f.allsignal && !s.flags[1][i1];
    var seeded := Trace(SeedState(s.zs[0][i0], s.zs[1][i1]), SeedCov(), Found(all, f.cands, f.fills));
    SecondGrows(s, i0, i1, seeded, |s.ys[2]|);
    GrowsSelf(s, f);
    GrowsTrans(s, f, seeded.found, Second(s, i0, i1, seeded, |s.ys[2]|).found);
  }

  lemma {:induction false} FirstGrows(s: Setup, i0: nat, f: Found, n: nat)
    requires s.Sane() && i0 < |s.ys[0]| && InBeam(s.ys[0][i0]) && n <= |s.ys[1]|
    ensures var g := First(s, i0, f, n); Grows(s, f, g) && Quiet(f, g)
    decreases n
  {
    if n == 0 {
      GrowsSelf(s, f);
    } else {
      var p := First(s, i0, f, n - 1);
      FirstGrows(s, i0, f, n - 1);
      VisitFirstGrows(s, i0, p, n - 1);
      GrowsTrans(s, f, p, VisitFirst(s, i0, p, n - 1));
    }
  }

  lemma VisitZeroGrows(s: Setup, f: Found, i0: nat)
    requires s.Sane() && i0 < |s.ys[0]|
    ensures Grows(s, f, VisitZero(s, f, i0))
  {
    if InBeam(s.ys[0][i0]) {
      FirstGrows(s, i0, f.(allsignal := !s.flags[0][i0]), |s.ys[1]|);
    } else {
      GrowsSelf(s, f);
    }
  }

  lemma {:induction false} ZeroGrows(s: Setup, f: Found, n: nat)
    requires s.Sane() && n <= |s.ys[0]|
    ensures Grows(s, f, Zero(s, f, n))
    decreases n
  {
    if n == 0 {
      GrowsSelf(s, f);
    } else {
      var p := Zero(s, f, n - 1);
      ZeroGrows(s, f, n - 1);
      VisitZeroGrows(s, p, n - 1);
      GrowsTrans(s, f, p, VisitZero(s, p, n - 1));
    }
  }

  /** Every candidate passed the beam cut and both filter cuts, and carries its own global fit. */
  lemma CandidatesSound(s: Setup)
    requires s.Valid()
    ensures forall c :: c in Searched(s).cands ==> Sound(s, c)
  {
    var g := Searched(s);
    forall c | c in g.cands
      ensures Sound(s, c)
    {
      var k :| 0 <= k < |g.cands| && g.cands[k] == c;
      assert Sound(s, Cand(g, k));
    }
  }

  /** A plane without hits leaves no candidate. */
  lemma EmptyPlaneNoCandidate(s: Setup, j: nat)
    requires s.Valid() && j < NPlanes && |s.ys[j]| == 0
    ensures Searched(s).cands == []
  {
    var g := Searched(s);
    assert 0 < |g.cands| ==> Sound(s, Cand(g, 0));
  }

  // ----- tighter cuts -----

  /**
   * Cuts k are tighter than c on plane 3 and on the best track and keep the
   * plane-2 cut: the plane-3 cut is applied after its filter step, so it
   * never changes the z-projection state that later hits are filtered with.
   */
  predicate Tightens(k: Cuts, c: Cuts)
  {
    k.cut1 == c.cut1 && k.cut2 <= c.cut2 && k.cut3 <= c.cut3
  }

  /** The same `allsignal` and fills, and every candidate of f' is one of f. */
  predicate FoundWithin(f': Found, f: Found)
  {
    f'.allsignal == f.allsignal && f'.fills == f.fills && forall c :: c in f'.cands ==> c in f.cands
  }

  /** The same filter state, and what was found is within. */
  predicate Within(t': Trace, t: Trace)
  {
    t'.z == t.z && t'.C == t.C && FoundWithin(t'.found, t.found)
  }

  lemma VisitThirdTighter(s: Setup, k: Cuts, i0: nat, i1: nat, i2: nat, c2: real, t': Trace, t: Trace, i3: nat)
    requires Placed(s, i0, i1, i2) && i3 < |s.ys[3]| && c2 <= s.cuts.cut1 && PosDef(t.C)
    requires Tightens(k, s.cuts) && Within(t', t)
    ensures Placed(s.(cuts := k), i0, i1, i2)
    ensures Within(VisitThird(s.(cuts := k), i0, i1, i2, c2, t', i3), VisitThird(s, i0, i1, i2, c2, t, i3))
  {
  }

  lemma {:induction false} ThirdTighter(s: Setup, k: Cuts, i0: nat, i1: nat, i2: nat, c2: real, t': Trace, t: Trace, n: nat)
    requires Placed(s, i0, i1, i2) && n <= |s.ys[3]| && c2 <= s.cuts.cut1 && PosDef(t.C)
    requires Tightens(k, s.cuts) && Within(t', t)
    ensures Placed(s.(cuts := k), i0, i1, i2)
    ensures Within(Third(s.(cuts := k), i0, i1, i2, c2, t', n), Third(s, i0, i1, i2, c2, t, n))
    decreases n
  {
    if n > 0 {
      ThirdTighter(s, k, i0, i1, i2, c2, t', t, n - 1);
      VisitThirdTighter(s, k, i0, i1, i2, c2, Third(s.(cuts := k), i0, i1, i2, c2, t', n - 1),
        Third(s, i0, i1, i2, c2, t, n - 1), n - 1);
    } else {
      assert Third(s.(cuts := k), i0, i1, i2, c2, t', n) == t' && Third(s, i0, i1, i2, c2, t, n) == t;
    }
  }

  lemma VisitSecondTighter(s: Setup, k: Cuts, i0: nat, i1: nat, t': Trace, t: Trace, i2: nat)
    requires Placed(s, i0, i1, i2) && PosDef(t.C) && Tightens(k, s.cuts) && Within(t', t)
    ensures Placed(s.(cuts := k), i0, i1, i2)
    ensures Within(VisitSecond(s.(cuts := k), i0, i1, t', i2), VisitSecond(s, i0, i1, t, i2))
  {
    var hit := s.zs[2][i2];
    var u := s.filter(t.z, t.C, hit);
    if u.chi2 <= s.cuts.cut1 {
      var all := t.found.allsignal && !s.flags[2][i2];
      var fills := if all then t.found.fills + [Fill(2, u.chi2)] else t.found.fills;
      ThirdTighter(s, k, i0, i1, i2, u.chi2, Trace(u.z, u.C, Found(all, t'.found.cands, fills)),
        Trace(u.z, u.C, Found(all, t.found.cands, fills)), |s.ys[3]|);
    }
  }

  /** One more plane-2 hit keeps the tighter search within the looser one. */
  lemma SecondStepTighter(s: Setup, k: Cuts, i0: nat, i1: nat, t': Trace, t: Trace, n: nat)
    requires Seeded(s, i0, i1) && 0 < n <= |s.ys[2]| && PosDef(t.C) && t'.C == t.C && Tightens(k, s.cuts)
    requires Within(Second(s.(cuts := k), i0, i1, t', n - 1), Second(s, i0, i1, t, n - 1))
    ensures Within(Second(s.(cuts := k), i0, i1, t', n), Second(s, i0, i1, t, n))
  {
    var p', p := Second(s.(cuts := k), i0, i1, t', n - 1), Second(s, i0, i1, t, n - 1);
    assert Second(s.(cuts := k), i0, i1, t', n) == VisitSecond(s.(cuts := k), i0, i1, p', n - 1);
    assert Second(s, i0, i1, t, n) == VisitSecond(s, i0, i1, p, n - 1);
    VisitSecondTighter(s, k, i0, i1, p', p, n - 1);
  }

  lemma {:induction false} SecondTighter(s: Setup, k: Cuts, i0: nat, i1: nat, t': Trace, t: Trace, n: nat)
    requires Seeded(s, i0, i1) && n <= |s.ys[2]| && PosDef(t.C) && Tightens(k, s.cuts) && Within(t', t)
    ensures Seeded(s.(cuts := k), i0, i1)
    ensures Within(Second(s.(cuts := k), i0, i1, t', n), Second(s, i0, i1, t, n))
    decreases n
  {
    if n > 0 {
      SecondTighter(s, k, i0, i1, t', t, n - 1);
      SecondStepTighter(s, k, i0, i1, t', t, n);
    } else {
      assert Second(s.(cuts := k), i0, i1, t', n) == t' && Second(s, i0, i1, t, n) == t;
    }
  }

  lemma VisitFirstTighter(s: Setup, k: Cuts, i0: nat, f': Found, f: Found, i1: nat)
    requires s.Sane() && i0 < |s.ys[0]| && InBeam(s.ys[0][i0]) && i1 < |s.ys[1]|
    requires Tightens(k, s.cuts) && FoundWithin(f', f)
    ensures s.(cuts := k).Sane()
    ensures FoundWithin(VisitFirst(s.(cuts := k), i0, f', i1), VisitFirst(s, i0, f, i1))
  {
    var all := f.allsignal && !s.flags[1][i1];
    var seed, cov := SeedState(s.zs[0][i0], s.zs[1][i1]), SeedCov();
    SecondTighter(s, k, i0, i1, Trace(seed, cov, Found(all, f'.cands, f'.fills)),
      Trace(seed, cov, Found(all, f.cands, f.fills)), |s.ys[2]|);
  }

  lemma {:induction false} FirstTighter(s: Setup, k: Cuts, i0: nat, f': Found, f: Found, n: nat)
    requires s.Sane() && i0 < |s.ys[0]| && InBeam(s.ys[0][i0]) && n <= |s.ys[1]|
    requires Tightens(k, s.cuts) && FoundWithin(f', f)
    ensures s.(cuts := k).Sane()
    ensures FoundWithin(First(s.(cuts := k), i0, f', n), First(s, i0, f, n))
    decreases n
  {
    if n > 0 {
      FirstTighter(s, k, i0, f', f, n - 1);
      VisitFirstTighter(s, k, i0, First(s.(cuts := k), i0, f', n - 1), First(s, i0, f, n - 1), n - 1);
    } else {
      assert First(s.(cuts := k), i0, f', n) == f' && First(s, i0, f, n) == f;
    }
  }

  lemma VisitZeroTighter(s: Setup, k: Cuts, f': Found, f: Found, i0: nat)
    requires s.Sane() && i0 < |s.ys[0]| && Tightens(k, s.cuts) && FoundWithin(f', f)
    ensures s.(cuts := k).Sane()
    ensures FoundWithin(VisitZero(s.(cuts := k), f', i0), VisitZero(s, f, i0))
  {
    if InBeam(s.ys[0][i0]) {
      FirstTighter(s, k, i0, f'.(allsignal := !s.flags[0][i0]), f.(allsignal := !s.flags[0][i0]), |s.ys[1]|);
    }
  }

  lemma {:induction false} ZeroTighter(s: Setup, k: Cuts, f': Found, f: Found, n: nat)
    requires s.Sane() && n <= |s.ys[0]| && Tightens(k, s.cuts) && FoundWithin(f', f)
    ensures s.(cuts := k).Sane()
    ensures FoundWithin(Zero(s.(cuts := k), f', n), Zero(s, f, n))
    decreases n
  {
    if n > 0 {
      ZeroTighter(s, k, f', f, n - 1);
      VisitZeroTighter(s, k, Zero(s.(cuts := k), f', n - 1), Zero(s, f, n - 1), n - 1);
    } else {
      assert Zero(s.(cuts := k), f', n) == f' && Zero(s, f, n) == f;
    }
  }

  /**
   * Under a tighter plane-3 cut (and any final cut) the search fills the
   * same histograms, and every candidate it keeps is one the looser cuts
   * kept too.
   */
  lemma SearchedTighter(s: Setup, k: Cuts)
    requires s.Valid() && Tightens(k, s.cuts)
    ensures s.(cuts := k).Valid()
    ensures FoundWithin(Searched(s.(cuts := k)), Searched(s))
  {
    ZeroTighter(s, k, Found(true, [], []), Found(true, [], []), |s.ys[0]|);
  }

  // ----- selection of the best candidate -----

  /** `chi2min`, `ibest`, `xbest` and `Cbest`. */
  datatype Best = Best(chi2min: real, ibest: seq<int>, x: Matrix, C: Matrix)

  /** What the search keeps when it takes candidate c. */
  function Chosen(c: Candidate): Best
  {
    Best(c.fit.chi2, c.ihits, c.fit.x, c.fit.C)
  }

  /** `if (chi2 < chi2min)`: a candidate replaces the best only when strictly better. */
  function Improve(b: Best, c: Candidate): Best
  {
    if c.fit.chi2 < b.chi2min then Chosen(c) else b
  }

  /** The selection over the candidates in order. */
  function FoldBest(b: Best, cs: seq<Candidate>): Best
  {
    if cs == [] then b else Improve(FoldBest(b, cs[..|cs| - 1]), cs[|cs| - 1])
  }

  /**
   * Candidate k is the first with the smallest global chi-square, and that
   * chi-square is below the bound: every earlier one is strictly worse and
   * no later one is better.
   */
  predicate FirstMinimum(cs: seq<Candidate>, k: int, bound: real)
  {
    0 <= k < |cs| && cs[k].fit.chi2 < bound &&
    (forall i :: 0 <= i < k ==> cs[i].fit.chi2 > cs[k].fit.chi2) &&
    (forall i :: k < i < |cs| ==> cs[i].fit.chi2 >= cs[k].fit.chi2)
  }

  lemma {:induction false} FirstMinimumExists(cs: seq<Candidate>, bound: real)
    requires exists k :: 0 <= k < |cs| && cs[k].fit.chi2 < bound
    ensures exists k :: FirstMinimum(cs, k, bound)
    decreases |cs|
  {
    var p, c := cs[..|cs| - 1], cs[|cs| - 1];
    if exists k :: 0 <= k < |p| && p[k].fit.chi2 < bound {
      FirstMinimumExists(p, bound);
      var k :| FirstMinimum(p, k, bound);
      if c.fit.chi2 < p[k].fit.chi2 {
        assert FirstMinimum(cs, |cs| - 1, bound);
      } else {
        assert FirstMinimum(cs, k, bound);
      }
    } else {
      assert FirstMinimum(cs, |cs| - 1, bound);
    }
  }

  /**
   * The selection keeps the first candidate with the smallest chi-square
   * below the starting `chi2min`, and leaves everything as it was when no
   * candidate is below it.
   */
  lemma {:induction false} FoldBestIsFirstMinimum(b: Best, cs: seq<Candidate>)
    ensures (forall k :: 0 <= k < |cs| ==> cs[k].fit.chi2 >= b.chi2min) ==> FoldBest(b, cs) == b
    ensures forall k :: FirstMinimum(cs, k, b.chi2min) ==> FoldBest(b, cs) == Chosen(cs[k])
    decreases |cs|
  {
    if cs != [] {
      var p, c := cs[..|cs| - 1], cs[|cs| - 1];
      FoldBestIsFirstMinimum(b, p);
      forall k | FirstMinimum(cs, k, b.chi2min)
        ensures FoldBest(b, cs) == Chosen(cs[k])
      {
        if k == |cs| - 1 {
          if exists i :: 0 <= i < |p| && p[i].fit.chi2 < b.chi2min {
            FirstMinimumExists(p, b.chi2min);
            var i :| FirstMinimum(p, i, b.chi2min);
            assert p[i] == cs[i];
          }
        } else {
          assert FirstMinimum(p, k, b.chi2min) by {
            forall i | k < i < |p| ensures p[i].fit.chi2 >= p[k].fit.chi2 {
              assert p[i] == cs[i];
            }
          }
        }
      }
    }
  }

  /** The selection never rises above its start, and never above any candidate. */
  lemma {:induction false} FoldBestLower(b: Best, cs: seq<Candidate>)
    ensures FoldBest(b, cs).chi2min <= b.chi2min
    ensures forall i :: 0 <= i < |cs| ==> FoldBest(b, cs).chi2min <= cs[i].fit.chi2
    decreases |cs|
  {
    if cs != [] {
      var p := cs[..|cs| - 1];
      FoldBestLower(b, p);
      assert forall i :: 0 <= i < |p| ==> cs[i] == p[i];
    }
  }

  /** Selecting among some of the candidates never gives a smaller chi-square than selecting among all. */
  lemma FoldBestFewer(b: Best, cs': seq<Candidate>, cs: seq<Candidate>)
    requires forall c :: c in cs' ==> c in cs
    ensures FoldBest(b, cs').chi2min >= FoldBest(b, cs).chi2min
  {
    FoldBestLower(b, cs);
    if FoldBest(b, cs').chi2min < b.chi2min {
      var k := Selected(b, cs');
      assert cs'[k] in cs;
    }
  }

  /** What `reco4` returns and writes, when it starts from the caller's ibest, xbest and Cbest. */
  function Reco4Result(s: Setup, ibest: seq<int>, xbest: Matrix, Cbest: Matrix): Best
    requires s.Valid()
  {
    FoldBest(Best(NoTrack, ibest, xbest, Cbest), Searched(s).cands)
  }

  /**
   * A returned chi-square below the `1e7` start comes from a candidate: the
   * written indices are valid hits, the first inside the beam profile, and
   * no combination reached by the loops has a smaller global chi-square.
   */
  lemma AcceptedIsCandidate(s: Setup, ibest: seq<int>, xbest: Matrix, Cbest: Matrix)
    requires s.Valid()
    ensures var r := Reco4Result(s, ibest, xbest, Cbest);
      r.chi2min < NoTrack ==>
        ValidChoice(s.ys, s.zs, r.ibest) && InBeam(s.ys[0][r.ibest[0]]) &&
        Chosen(Candidate(r.ibest, 0.0, 0.0, GlobalFit(s.ys, s.zs, r.ibest, s.inv))) == r &&
        forall i :: 0 <= i < |Searched(s).cands| ==> Searched(s).cands[i].fit.chi2 >= r.chi2min
  {
    var r := Reco4Result(s, ibest, xbest, Cbest);
    if r.chi2min < NoTrack {
      var k := Selected(Best(NoTrack, ibest, xbest, Cbest), Searched(s).cands);
      assert Sound(s, Cand(Searched(s), k));
    }
  }

  /** A selection that lowered `chi2min` took some candidate k, and none is below it. */
  lemma Selected(b: Best, cs: seq<Candidate>) returns (k: int)
    requires FoldBest(b, cs).chi2min < b.chi2min
    ensures 0 <= k < |cs| && FoldBest(b, cs) == Chosen(cs[k])
    ensures forall i :: 0 <= i < |cs| ==> cs[i].fit.chi2 >= FoldBest(b, cs).chi2min
  {
    FoldBestIsFirstMinimum(b, cs);
    FirstMinimumExists(cs, b.chi2min);
    k :| FirstMinimum(cs, k, b.chi2min);
  }

  // ----- the two implementations -----

  /**
   * One pass of the plane-3 loop of `reco4` in spectrometer6.c: filter the
   * hit into the shared state, fill h12 while `allsignal` holds, prune at
   * `Cut2`, fit a survivor and keep it when strictly better.
   */
  method ThirdHit(s: Setup, trk: ZTrack, i0: nat, i1: nat, i2: nat, i3: nat, ghost c2: real, ghost t: Trace,
                  allsignal: bool, fills: seq<Fill>, chi2min: real, xb: Matrix, Cb: Matrix,
                  ibest: array<int>, ghost init: Best)
    returns (allsignal': bool, fills': seq<Fill>, chi2min': real, xb': Matrix, Cb': Matrix, ghost t': Trace)
    requires Placed(s, i0, i1, i2) && s.Calls() && i3 < |s.ys[3]| && c2 <= s.cuts.cut1 && PosDef(t.C) && s.port == Cxx && s.cuts == SourceCuts
    requires trk.z == t.z && trk.C == t.C && allsignal == t.found.allsignal && fills == t.found.fills
    requires ibest.Length == NPlanes && Best(chi2min, ibest[..], xb, Cb) == FoldBest(init, t.found.cands)
    modifies trk, ibest
    ensures t' == VisitThird(s, i0, i1, i2, c2, t, i3)
    ensures trk.z == t'.z && trk.C == t'.C && allsignal' == t'.found.allsignal && fills' == t'.found.fills
    ensures Best(chi2min', ibest[..], xb', Cb') == FoldBest(init, t'.found.cands)
  {
    t' := VisitThird(s, i0, i1, i2, c2, t, i3);
    allsignal', fills', chi2min', xb', Cb' := allsignal, fills, chi2min, xb, Cb;
    var hit := s.zs[3][i3];
    var chi2 := trk.Filter(hit);
    assert Update(chi2, trk.z, trk.C) == s.filter(t.z, t.C, hit);
    allsignal' := allsignal' && !s.flags[3][i3];
    if allsignal' {
      fills' := fills' + [Fill(3, chi2)];
    }
    if chi2 > Cut2 {
      return;
    }
    ghost var before := Best(chi2min', ibest[..], xb', Cb');
    ghost var fit;
    chi2min', xb', Cb', fit := Consider(s, i0, i1, i2, i3, ibest, chi2min', xb', Cb');
    ghost var c := Candidate([i0 as int, i1 as int, i2 as int, i3 as int], c2, chi2, fit);
    assert t'.found.cands == t.found.cands + [c];
    assert (t.found.cands + [c])[..|t.found.cands|] == t.found.cands;
  }

  /**
   * The global fit of a combination that survived both cuts, kept in
   * chi2min, ibest, xbest and Cbest when its chi-square is strictly smaller.
   */
  method Consider(s: Setup, i0: nat, i1: nat, i2: nat, i3: nat, ibest: array<int>,
                  chi2min: real, xb: Matrix, Cb: Matrix)
    returns (chi2min': real, xb': Matrix, Cb': Matrix, ghost fit: FitResult)
    requires Placed(s, i0, i1, i2) && i3 < |s.ys[3]| && ibest.Length == NPlanes
    modifies ibest
    ensures fit == GlobalFit(s.ys, s.zs, [i0 as int, i1 as int, i2 as int, i3 as int], s.inv)
    ensures Best(chi2min', ibest[..], xb', Cb') ==
      Improve(Best(chi2min, old(ibest[..]), xb, Cb), Candidate([i0 as int, i1 as int, i2 as int, i3 as int], 0.0, 0.0, fit))
  {
    var x := Column([0.0, 0.0, 0.0, 0.0, InvP]);
    var ihits := [i0 as int, i1 as int, i2 as int, i3 as int];
    var chi2, xfit, Cfit;
    PlacedChoice(s, i0, i1, i2, i3);
    chi2, xfit, Cfit := GlobalChi2(s.ys, s.zs, ihits, x, s.inv);
    fit := FitResult(chi2, xfit, Cfit);
    chi2min', xb', Cb' := chi2min, xb, Cb;
    if chi2 < chi2min {
      ibest[0] := i0;
      ibest[1] := i1;
      ibest[2] := i2;
      ibest[3] := i3;
      assert ibest[..] == ihits;
      xb' := xfit;
      Cb' := Cfit;
      chi2min' := chi2;
    }
  }

  /** The plane-3 loop of `reco4` in spectrometer6.c, over the hits of plane 3 in order. */
  method ScanThird(s: Setup, trk: ZTrack, i0: nat, i1: nat, i2: nat, ghost c2: real, ghost t: Trace,
                   allsignal: bool, fills: seq<Fill>, chi2min: real, xb: Matrix, Cb: Matrix,
                   ibest: array<int>, ghost init: Best)
    returns (allsignal': bool, fills': seq<Fill>, chi2min': real, xb': Matrix, Cb': Matrix, ghost t': Trace)
    requires Placed(s, i0, i1, i2) && s.Calls() && c2 <= s.cuts.cut1 && PosDef(t.C) && s.port == Cxx && s.cuts == SourceCuts
    requires trk.z == t.z && trk.C == t.C && allsignal == t.found.allsignal && fills == t.found.fills
    requires ibest.Length == NPlanes && Best(chi2min, ibest[..], xb, Cb) == FoldBest(init, t.found.cands)
    modifies trk, ibest
    ensures t' == Third(s, i0, i1, i2, c2, t, |s.ys[3]|)
    ensures trk.z == t'.z && trk.C == t'.C && allsignal' == t'.found.allsignal && fills' == t'.found.fills
    ensures Best(chi2min', ibest[..], xb', Cb') == FoldBest(init, t'.found.cands)
  {
    allsignal', fills', chi2min', xb', Cb', t' := allsignal, fills, chi2min, xb, Cb, t;
    for i3 := 0 to |s.ys[3]|
      invariant t' == Third(s, i0, i1, i2, c2, t, i3)
      invariant trk.z == t'.z && trk.C == t'.C
      invariant allsignal' == t'.found.allsignal && fills' == t'.found.fills
      invariant Best(chi2min', ibest[..], xb', Cb') == FoldBest(init, t'.found.cands)
    {
      allsignal', fills', chi2min', xb', Cb', t' :=
        ThirdHit(s, trk, i0, i1, i2, i3, c2, t', allsignal', fills', chi2min', xb', Cb', ibest, init);
    }
  }

  /**
   * One pass of the plane-2 loop of `reco4` in spectrometer6.c: filter the
   * hit into the shared state, fill h11 while `allsignal` holds, prune at
   * `Cut1`, then run the plane-3 loop.
   */
  method SecondHit(s: Setup, trk: ZTrack, i0: nat, i1: nat, i2: nat, ghost t: Trace,
                   allsignal: bool, fills: seq<Fill>, chi2min: real, xb: Matrix, Cb: Matrix,
                   ibest: array<int>, ghost init: Best)
    returns (allsignal': bool, fills': seq<Fill>, chi2min': real, xb': Matrix, Cb': Matrix, ghost t': Trace)
    requires Placed(s, i0, i1, i2) && s.Calls() && PosDef(t.C) && s.port == Cxx && s.cuts == SourceCuts
    requires trk.z == t.z && trk.C == t.C && allsignal == t.found.allsignal && fills == t.found.fills
    requires ibest.Length == NPlanes && Best(chi2min, ibest[..], xb, Cb) == FoldBest(init, t.found.cands)
    modifies trk, ibest
    ensures t' == VisitSecond(s, i0, i1, t, i2)
    ensures trk.z == t'.z && trk.C == t'.C && allsignal' == t'.found.allsignal && fills' == t'.found.fills
    ensures Best(chi2min', ibest[..], xb', Cb') == FoldBest(init, t'.found.cands)
  {
    ghost var next := VisitSecond(s, i0, i1, t, i2);
    chi2min', xb', Cb' := chi2min, xb, Cb;
    var chi2 := trk.Filter(s.zs[2][i2]);
    allsignal', fills' := allsignal && !s.flags[2][i2], fills;
    if allsignal' {
      fills' := fills' + [Fill(2, chi2)];
    }
    t' := Trace(trk.z, trk.C, Found(allsignal', t.found.cands, fills'));
    if chi2 <= Cut1 {
      allsignal', fills', chi2min', xb', Cb', t' :=
        ScanThird(s, trk, i0, i1, i2, chi2, t', allsignal', fills', chi2min', xb', Cb', ibest, init);
    }
    assert t' == next;
  }

  /** The plane-2 loop of `reco4` in spectrometer6.c, over the hits of plane 2 in order. */
  method ScanSecond(s: Setup, trk: ZTrack, i0: nat, i1: nat, ghost t: Trace,
                    allsignal: bool, fills: seq<Fill>, chi2min: real, xb: Matrix, Cb: Matrix,
                    ibest: array<int>, ghost init: Best)
    returns (allsignal': bool, fills': seq<Fill>, chi2min': real, xb': Matrix, Cb': Matrix, ghost t': Trace)
    requires Seeded(s, i0, i1) && s.Calls() && PosDef(t.C) && s.port == Cxx && s.cuts == SourceCuts
    requires trk.z == t.z && trk.C == t.C && allsignal == t.found.allsignal && fills == t.found.fills
    requires ibest.Length == NPlanes && Best(chi2min, ibest[..], xb, Cb) == FoldBest(init, t.found.cands)
    modifies trk, ibest
    ensures t' == Second(s, i0, i1, t, |s.ys[2]|)
    ensures allsignal' == t'.found.allsignal && fills' == t'.found.fills
    ensures Best(chi2min', ibest[..], xb', Cb') == FoldBest(init, t'.found.cands)
  {
    allsignal', fills', chi2min', xb', Cb', t' := allsignal, fills, chi2min, xb, Cb, t;
    for i2 := 0 to |s.ys[2]|
      invariant t' == Second(s, i0, i1, t, i2)
      invariant trk.z == t'.z && trk.C == t'.C
      invariant allsignal' == t'.found.allsignal && fills' == t'.found.fills
      invariant Best(chi2min', ibest[..], xb', Cb') == FoldBest(init, t'.found.cands)
    {
      allsignal', fills', chi2min', xb', Cb', t' :=
        SecondHit(s, trk, i0, i1, i2, t', allsignal', fills', chi2min', xb', Cb', ibest, init);
    }
  }

  /**
   * `reco4` of spectrometer6.c. The filter state lives in one `ZTrack` per
   * plane-1 hit and is updated in place by every `kalmanFilter` call, so
   * sibling hits of planes 2 and 3 continue from whatever state the previous
   * sibling left. ibest, xbest and Cbest are written only on improvement.
   */
  method Reco4(ev: Event, ibest: array<int>, xbest: Matrix, Cbest: Matrix, inv: Matrix -> Matrix)
    returns (chi2min: real, xb: Matrix, Cb: Matrix, fills: seq<Fill>)
    requires ev.Valid() && ibest.Length == NPlanes
    modifies ibest
    ensures var s := Configure(Cxx, ev.yHits, ev.zHits, ev.isNoise, inv, SourceCuts);
      Best(chi2min, ibest[..], xb, Cb) == Reco4Result(s, old(ibest[..]), xbest, Cbest) &&
      fills == Searched(s).fills
  {
    var s := Configure(Cxx, ev.yHits, ev.zHits, ev.isNoise, inv, SourceCuts);
    ghost var init := Best(NoTrack, ibest[..], xbest, Cbest);
    chi2min, xb, Cb, fills := NoTrack, xbest, Cbest, [];
    ghost var start := Found(true, [], []);
    ghost var found := start;
    for i0 := 0 to |s.ys[0]|
      invariant found == Zero(s, start, i0) && fills == found.fills
      invariant Best(chi2min, ibest[..], xb, Cb) == FoldBest(init, found.cands)
    {
      if Abs(s.ys[0][i0]) > 4.0 * PixelSize {
        continue;
      }
      var allsignal := !s.flags[0][i0];
      found := found.(allsignal := allsignal);
      ghost var entry := found;
      for i1 := 0 to |s.ys[1]|
        invariant found == First(s, i0, entry, i1)
        invariant allsignal == found.allsignal && fills == found.fills
        invariant Best(chi2min, ibest[..], xb, Cb) == FoldBest(init, found.cands)
      {
        allsignal := allsignal && !s.flags[1][i1];
        var trk := new ZTrack.Seed(s.zs[0][i0], s.zs[1][i1]);
        ghost var t := Trace(trk.z, trk.C, Found(allsignal, found.cands, found.fills));
        allsignal, fills, chi2min, xb, Cb, t :=
          ScanSecond(s, trk, i0, i1, t, allsignal, fills, chi2min, xb, Cb, ibest, init);
        found := t.found;
      }
    }
  }

  /**
   * One pass of the plane-3 loop of `reco4` in kalman_testbeam.py:
   * `[chi2, z, Cz] = kalmanFilter(3, i3, z, Cz)` rebinds the state, then the
   * same fill, prune and fit as the C original.
   */
  method ThirdHitPy(s: Setup, i0: nat, i1: nat, i2: nat, i3: nat, ghost c2: real, ghost t: Trace,
                    z: Vec2, Cz: Mat2, allsignal: bool, fills: seq<Fill>, chi2min: real, xb: Matrix, Cb: Matrix,
                    ibest: array<int>, ghost init: Best)
    returns (z': Vec2, Cz': Mat2, allsignal': bool, fills': seq<Fill>, chi2min': real, xb': Matrix, Cb': Matrix,
             ghost t': Trace)
    requires Placed(s, i0, i1, i2) && s.Calls() && i3 < |s.ys[3]| && c2 <= s.cuts.cut1 && PosDef(t.C) && s.port == Python && s.cuts == SourceCuts
    requires z == t.z && Cz == t.C && allsignal == t.found.allsignal && fills == t.found.fills
    requires ibest.Length == NPlanes && Best(chi2min, ibest[..], xb, Cb) == FoldBest(init, t.found.cands)
    modifies ibest
    ensures t' == VisitThird(s, i0, i1, i2, c2, t, i3)
    ensures z' == t'.z && Cz' == t'.C && allsignal' == t'.found.allsignal && fills' == t'.found.fills
    ensures Best(chi2min', ibest[..], xb', Cb') == FoldBest(init, t'.found.cands)
  {
    t' := VisitThird(s, i0, i1, i2, c2, t, i3);
    chi2min', xb', Cb' := chi2min, xb, Cb;
    var chi2;
    chi2, z', Cz' := KalmanFilterPy(s.zs[3][i3], z, Cz);
    allsignal', fills' := allsignal && !s.flags[3][i3], fills;
    if allsignal' {
      fills' := fills' + [Fill(3, chi2)];
    }
    if chi2 > Cut2 {
      return;
    }
    ghost var fit;
    chi2min', xb', Cb', fit := Consider(s, i0, i1, i2, i3, ibest, chi2min', xb', Cb');
    ghost var c := Candidate([i0 as int, i1 as int, i2 as int, i3 as int], c2, chi2, fit);
    assert t'.found.cands == t.found.cands + [c];
    assert (t.found.cands + [c])[..|t.found.cands|] == t.found.cands;
  }

  /** The plane-3 loop of `reco4` in kalman_testbeam.py, over the hits of plane 3 in order. */
  method ScanThirdPy(s: Setup, i0: nat, i1: nat, i2: nat, ghost c2: real, ghost t: Trace,
                     z: Vec2, Cz: Mat2, allsignal: bool, fills: seq<Fill>, chi2min: real, xb: Matrix, Cb: Matrix,
                     ibest: array<int>, ghost init: Best)
    returns (z': Vec2, Cz': Mat2, allsignal': bool, fills': seq<Fill>, chi2min': real, xb': Matrix, Cb': Matrix,
             ghost t': Trace)
    requires Placed(s, i0, i1, i2) && s.Calls() && c2 <= s.cuts.cut1 && PosDef(t.C) && s.port == Python && s.cuts == SourceCuts
    requires z == t.z && Cz == t.C && allsignal == t.found.allsignal && fills == t.found.fills
    requires ibest.Length == NPlanes && Best(chi2min, ibest[..], xb, Cb) == FoldBest(init, t.found.cands)
    modifies ibest
    ensures t' == Third(s, i0, i1, i2, c2, t, |s.ys[3]|)
    ensures z' == t'.z && Cz' == t'.C && allsignal' == t'.found.allsignal && fills' == t'.found.fills
    ensures Best(chi2min', ibest[..], xb', Cb') == FoldBest(init, t'.found.cands)
  {
    z', Cz', allsignal', fills', chi2min', xb', Cb', t' := z, Cz, allsignal, fills, chi2min, xb, Cb, t;
    for i3 := 0 to |s.ys[3]|
      invariant t' == Third(s, i0, i1, i2, c2, t, i3)
      invariant z' == t'.z && Cz' == t'.C
      invariant allsignal' == t'.found.allsignal && fills' == t'.found.fills
      invariant Best(chi2min', ibest[..], xb', Cb') == FoldBest(init, t'.found.cands)
    {
      z', Cz', allsignal', fills', chi2min', xb', Cb', t' :=
        ThirdHitPy(s, i0, i1, i2, i3, c2, t', z', Cz', allsignal', fills', chi2min', xb', Cb', ibest, init);
    }
  }

  /** One pass of the plane-2 loop of `reco4` in kalman_testbeam.py. */
  method SecondHitPy(s: Setup, i0: nat, i1: nat, i2: nat, ghost t: Trace,
                     z: Vec2, Cz: Mat2, allsignal: bool, fills: seq<Fill>, chi2min: real, xb: Matrix, Cb: Matrix,
                     ibest: array<int>, ghost init: Best)
    returns (z': Vec2, Cz': Mat2, allsignal': bool, fills': seq<Fill>, chi2min': real, xb': Matrix, Cb': Matrix,
             ghost t': Trace)
    requires Placed(s, i0, i1, i2) && s.Calls() && PosDef(t.C) && s.port == Python && s.cuts == SourceCuts
    requires z == t.z && Cz == t.C && allsignal == t.found.allsignal && fills == t.found.fills
    requires ibest.Length == NPlanes && Best(chi2min, ibest[..], xb, Cb) == FoldBest(init, t.found.cands)
    modifies ibest
    ensures t' == VisitSecond(s, i0, i1, t, i2)
    ensures z' == t'.z && Cz' == t'.C && allsignal' == t'.found.allsignal && fills' == t'.found.fills
    ensures Best(chi2min', ibest[..], xb', Cb') == FoldBest(init, t'.found.cands)
  {
    ghost var next := VisitSecond(s, i0, i1, t, i2);
    chi2min', xb', Cb' := chi2min, xb, Cb;
    var chi2;
    chi2, z', Cz' := KalmanFilterPy(s.zs[2][i2], z, Cz);
    allsignal', fills' := allsignal && !s.flags[2][i2], fills;
    if allsignal' {
      fills' := fills' + [Fill(2, chi2)];
    }
    t' := Trace(z', Cz', Found(allsignal', t.found.cands, fills'));
    if chi2 <= Cut1 {
      z', Cz', allsignal', fills', chi2min', xb', Cb', t' :=
        ScanThirdPy(s, i0, i1, i2, chi2, t', z', Cz', allsignal', fills', chi2min', xb', Cb', ibest, init);
    }
    assert t' == next;
  }

  /** The plane-2 loop of `reco4` in kalman_testbeam.py, over the hits of plane 2 in order. */
  method ScanSecondPy(s: Setup, i0: nat, i1: nat, ghost t: Trace,
                      z: Vec2, Cz: Mat2, allsignal: bool, fills: seq<Fill>, chi2min: real, xb: Matrix, Cb: Matrix,
                      ibest: array<int>, ghost init: Best)
    returns (allsignal': bool, fills': seq<Fill>, chi2min': real, xb': Matrix, Cb': Matrix, ghost t': Trace)
    requires Seeded(s, i0, i1) && s.Calls() && PosDef(t.C) && s.port == Python && s.cuts == SourceCuts
    requires z == t.z && Cz == t.C && allsignal == t.found.allsignal && fills == t.found.fills
    requires ibest.Length == NPlanes && Best(chi2min, ibest[..], xb, Cb) == FoldBest(init, t.found.cands)
    modifies ibest
    ensures t' == Second(s, i0, i1, t, |s.ys[2]|)
    ensures allsignal' == t'.found.allsignal && fills' == t'.found.fills
    ensures Best(chi2min', ibest[..], xb', Cb') == FoldBest(init, t'.found.cands)
  {
    var z', Cz' := z, Cz;
    allsignal', fills', chi2min', xb', Cb', t' := allsignal, fills, chi2min, xb, Cb, t;
    for i2 := 0 to |s.ys[2]|
      invariant t' == Second(s, i0, i1, t, i2)
      invariant z' == t'.z && Cz' == t'.C
      invariant allsignal' == t'.found.allsignal && fills' == t'.found.fills
      invariant Best(chi2min', ibest[..], xb', Cb') == FoldBest(init, t'.found.cands)
    {
      z', Cz', allsignal', fills', chi2min', xb', Cb', t' :=
        SecondHitPy(s, i0, i1, i2, t', z', Cz', allsignal', fills', chi2min', xb', Cb', ibest, init);
    }
  }

  /**
   * `reco4` of kalman_testbeam.py. The state `z`, `Cz` is rebound from every
   * filter result, so sibling hits continue from the previous sibling's
   * state exactly as in the C original. The improved `xbest` and `Cbest`
   * are bound to local names only: the caller gets `chi2min` back and the
   * indices written into its `ibest` list.
   */
  method Reco4Py(ev: Event, ibest: array<int>, xbest: Matrix, Cbest: Matrix, inv: Matrix -> Matrix)
    returns (chi2min: real, fills: seq<Fill>)
    requires ev.Valid() && ibest.Length == NPlanes
    modifies ibest
    ensures var s := Configure(Python, ev.yHits, ev.zHits, ev.isNoise, inv, SourceCuts);
      var r := Reco4Result(s, old(ibest[..]), xbest, Cbest);
      chi2min == r.chi2min && ibest[..] == r.ibest && fills == Searched(s).fills
  {
    var s := Configure(Python, ev.yHits, ev.zHits, ev.isNoise, inv, SourceCuts);
    ghost var init := Best(NoTrack, ibest[..], xbest, Cbest);
    var xb, Cb := xbest, Cbest;
    chi2min, fills := NoTrack, [];
    ghost var start := Found(true, [], []);
    ghost var found := start;
    for i0 := 0 to |s.ys[0]|
      invariant found == Zero(s, start, i0) && fills == found.fills
      invariant Best(chi2min, ibest[..], xb, Cb) == FoldBest(init, found.cands)
    {
      if Abs(s.ys[0][i0]) > 4.0 * PixelSize {
        continue;
      }
      var allsignal := !s.flags[0][i0];
      found := found.(allsignal := allsignal);
      ghost var entry := found;
      for i1 := 0 to |s.ys[1]|
        invariant found == First(s, i0, entry, i1)
        invariant allsignal == found.allsignal && fills == found.fills
        invariant Best(chi2min, ibest[..], xb, Cb) == FoldBest(init, found.cands)
      {
        allsignal, fills, chi2min, xb, Cb, found :=
          FirstHitPy(s, i0, i1, found, allsignal, fills, chi2min, xb, Cb, ibest, init);
      }
    }
  }

  /** One pass of the plane-1 loop of `reco4` in kalman_testbeam.py: the seed, then plane 2. */
  method FirstHitPy(s: Setup, i0: nat, i1: nat, ghost f: Found,
                    allsignal: bool, fills: seq<Fill>, chi2min: real, xb: Matrix, Cb: Matrix,
                    ibest: array<int>, ghost init: Best)
    returns (allsignal': bool, fills': seq<Fill>, chi2min': real, xb': Matrix, Cb': Matrix, ghost f': Found)
    requires Seeded(s, i0, i1) && s.Calls() && s.port == Python && s.cuts == SourceCuts
    requires allsignal == f.allsignal && fills == f.fills
    requires ibest.Length == NPlanes && Best(chi2min, ibest[..], xb, Cb) == FoldBest(init, f.cands)
    modifies ibest
    ensures f' == VisitFirst(s, i0, f, i1)
    ensures allsignal' == f'.allsignal && fills' == f'.fills
    ensures Best(chi2min', ibest[..], xb', Cb') == FoldBest(init, f'.cands)
  {
    allsignal' := allsignal && !s.flags[1][i1];
    var z := Vec2(s.zs[1][i1], (s.zs[1][i1] - s.zs[0][i0]) / D);
    var Cz := Mat2(S2, S2 / D, S2 / D, 2.0 * S2 / D / D);
    assert z == SeedState(s.zs[0][i0], s.zs[1][i1]) && Cz == SeedCov();
    ghost var t := Trace(z, Cz, Found(allsignal', f.cands, f.fills));
    allsignal', fills', chi2min', xb', Cb', t :=
      ScanSecondPy(s, i0, i1, t, z, Cz, allsignal', fills, chi2min, xb, Cb, ibest, init);
    f' := t.found;
  }
}
