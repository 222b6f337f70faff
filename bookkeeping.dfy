/**
 * The per-event bookkeeping of the event loop in `doall` of spectrometer6.c
 * and of the module-level loop of kalman_testbeam.py: count the hits, give
 * up on an event with an empty plane, run the track search, reject the best
 * track above `Cut3`, otherwise refit it, store it and flag its hits as used.
 * Every event ends in exactly one of three counters.
 */
module Bookkeeping {
  import opened Matrices
  import opened Kalman
  import opened TrackFit
  import opened Spectrometer
  import opened Simulation
  import opened Search

  /** Whether a plane holds a real (non-noise) hit. */
  predicate HasReal(flags: seq<bool>)
  {
    exists k :: 0 <= k < |flags| && !flags[k]
  }

  /** `nRealHits` after the first n planes: the planes holding a real hit. */
  function RealPlanes(flags: seq<seq<bool>>, n: nat): (c: nat)
    requires n <= |flags|
    ensures c <= n
  {
    if n == 0 then 0 else RealPlanes(flags, n - 1) + (if HasReal(flags[n - 1]) then 1 else 0)
  }

  /** The hits of the first n planes. */
  function HitCount(ys: seq<seq<real>>, n: nat): nat
    requires n <= |ys|
  {
    if n == 0 then 0 else HitCount(ys, n - 1) + |ys[n - 1]|
  }

  /** `reject`: one of the first n planes did not fire. */
  predicate AnyEmpty(ys: seq<seq<real>>, n: nat)
    requires n <= |ys|
  {
    exists j :: 0 <= j < n && |ys[j]| == 0
  }

  /** The count `nRealHits > 2 * numberOfPlanes - 1` reaches exactly when every plane has a real hit. */
  lemma {:induction false} RealPlanesAll(flags: seq<seq<bool>>, n: nat)
    requires n <= |flags|
    ensures RealPlanes(flags, n) == n <==> forall j :: 0 <= j < n ==> HasReal(flags[j])
  {
    if n > 0 {
      RealPlanesAll(flags, n - 1);
    }
  }

  /** Whether the hit chosen in plane j is noise, reading out-of-range choices as real. */
  predicate NoisyChoice(flags: seq<seq<bool>>, ibest: seq<int>, j: int)
  {
    0 <= j < |flags| && j < |ibest| && 0 <= ibest[j] < |flags[j]| && flags[j][ibest[j]]
  }

  /** `nNoiseHitsOnTrack` added for a track: its noise hits among the first n planes. */
  function NoiseOnTrack(flags: seq<seq<bool>>, ibest: seq<int>, n: nat): (c: nat)
    ensures c <= n
  {
    if n == 0 then 0 else NoiseOnTrack(flags, ibest, n - 1) + (if NoisyChoice(flags, ibest, n - 1) then 1 else 0)
  }

  /** A track is noiseless iff none of its hits counts as a noise hit on track. */
  lemma {:induction false} CleanIffNoNoise(flags: seq<seq<bool>>, ibest: seq<int>, n: nat)
    ensures NoiseOnTrack(flags, ibest, n) == 0 <==> forall j :: 0 <= j < n ==> !NoisyChoice(flags, ibest, j)
  {
    if n > 0 {
      CleanIffNoNoise(flags, ibest, n - 1);
    }
  }

  /** `yHits[j][ibest[j]] = ySize[j] + 1.` for every plane: the used hits are moved off the chips. */
  function MarkUsed(ys: seq<seq<real>>, ibest: seq<int>): (ys': seq<seq<real>>)
    ensures |ys'| == |ys| && forall j :: 0 <= j < |ys| ==> |ys'[j]| == |ys[j]|
  {
    seq(|ys|, j requires 0 <= j < |ys| =>
      if j < |ibest| && 0 <= ibest[j] < |ys[j]| then ys[j][ibest[j] := YSize(j) + 1.0] else ys[j])
  }

  /** A used hit lies outside its chip, so a used plane-0 hit fails the beam-profile cut. */
  lemma UsedHitsOffChip(ys: seq<seq<real>>, ibest: seq<int>, j: nat)
    requires ValidChoice(ys, ys, ibest) && j < NPlanes
    ensures MarkUsed(ys, ibest)[j][ibest[j]] > YSize(j)
    ensures j == 0 ==> !InBeam(MarkUsed(ys, ibest)[0][ibest[0]])
    ensures forall k :: 0 <= k < |ys[j]| && k != ibest[j] ==> MarkUsed(ys, ibest)[j][k] == ys[j][k]
  {
  }

  /** How an event ended. */
  datatype Outcome = Inefficient | Rejected(good: bool) | Reconstructed(clean: bool, noise: nat)

  /** The counters `doall` keeps across events. */
  datatype Counts = Counts(inefficient: nat, rejected: nat, goodRejected: nat, reconstructed: nat,
                           goodReconstructed: nat, totalHits: nat, noiseOnTrack: nat)
  {
    /** The events counted so far: each lands in exactly one of three counters. */
    function Events(): nat
    {
      inefficient + rejected + reconstructed
    }

    /** Good tracks are among their kind, and a track has at most one noise hit per plane. */
    predicate Consistent()
    {
      goodRejected <= rejected && goodReconstructed <= reconstructed && noiseOnTrack <= NPlanes * reconstructed
    }
  }

  /** The search as the event loop runs it: ibest zero, xbest and Cbest fresh zero matrices. */
  function Selection(s: Setup): Best
    requires s.Valid()
  {
    Reco4Result(s, [0, 0, 0, 0], Zeros(NParameters, 1), Zeros(NParameters, NParameters))
  }

  /** The outcome of an event whose hit buffers the setup holds. */
  function Judge(s: Setup): (o: Outcome)
    requires s.Valid()
    ensures o.Reconstructed? ==> o.noise <= NPlanes
  {
    if AnyEmpty(s.ys, NPlanes) then Inefficient
    else
      var r := Selection(s);
      if r.chi2min > s.cuts.cut3 then Rejected(RealPlanes(s.flags, NPlanes) > 2 * NumberOfPlanes - 1)
      else
        Reconstructed(NoiseOnTrack(s.flags, r.ibest, NPlanes) == 0, NoiseOnTrack(s.flags, r.ibest, NPlanes))
  }

  /** The counters after one event with the given outcome and number of hits. */
  function Tally(c: Counts, o: Outcome, hits: nat): (c': Counts)
    requires o.Reconstructed? ==> o.noise <= NPlanes
    ensures c'.Events() == c.Events() + 1 && c'.totalHits == c.totalHits + hits
    ensures c.Consistent() ==> c'.Consistent()
    ensures c'.inefficient == c.inefficient + (if o.Inefficient? then 1 else 0)
    ensures c'.rejected == c.rejected + (if o.Rejected? then 1 else 0)
    ensures c'.reconstructed == c.reconstructed + (if o.Reconstructed? then 1 else 0)
  {
    var c := c.(totalHits := c.totalHits + hits);
    match o
    case Inefficient => c.(inefficient := c.inefficient + 1)
    case Rejected(good) => c.(rejected := c.rejected + 1, goodRejected := c.goodRejected + if good then 1 else 0)
    case Reconstructed(clean, noise) =>
      c.(reconstructed := c.reconstructed + 1, goodReconstructed := c.goodReconstructed + (if clean then 1 else 0),
         noiseOnTrack := c.noiseOnTrack + noise)
  }

  /**
   * An event with a hit in every plane is reconstructed iff the best global
   * chi-square passes `Cut3`; a good rejection is one with a real hit in
   * every plane, and a reconstructed track is noiseless iff none of its
   * chosen hits is noise.
   */
  lemma JudgeCases(s: Setup)
    requires s.Valid()
    ensures Judge(s).Inefficient? <==> exists j :: 0 <= j < NPlanes && |s.ys[j]| == 0
    ensures !AnyEmpty(s.ys, NPlanes) ==> (Judge(s).Reconstructed? <==> Selection(s).chi2min <= s.cuts.cut3)
    ensures Judge(s).Rejected? ==>
      (Judge(s).good <==> forall j :: 0 <= j < NPlanes ==> HasReal(s.flags[j]))
    ensures Judge(s).Reconstructed? ==> (ValidChoice(s.ys, s.zs, Selection(s).ibest) &&
      (Judge(s).clean <==> forall j :: 0 <= j < NPlanes ==> !s.flags[j][Selection(s).ibest[j]]))
  {
    RealPlanesAll(s.flags, NPlanes);
    var r := Selection(s);
    if Judge(s).Reconstructed? {
      AcceptedIsCandidate(s, [0, 0, 0, 0], Zeros(NParameters, 1), Zeros(NParameters, NParameters));
      CleanIffNoNoise(s.flags, r.ibest, NPlanes);
      forall j | 0 <= j < NPlanes
        ensures NoisyChoice(s.flags, r.ibest, j) == s.flags[j][r.ibest[j]]
      {
      }
    }
  }

  /**
   * The selected track survives its refit unchanged: refitting the chosen
   * hits gives back `chi2min`, `xbest` and `Cbest`.
   */
  lemma RefitAgrees(s: Setup)
    requires s.Valid() && Selection(s).chi2min <= s.cuts.cut3
    ensures ValidChoice(s.ys, s.zs, Selection(s).ibest)
    ensures var r := Selection(s);
      GlobalFit(s.ys, s.zs, r.ibest, s.inv) == FitResult(r.chi2min, r.x, r.C)
  {
    AcceptedIsCandidate(s, [0, 0, 0, 0], Zeros(NParameters, 1), Zeros(NParameters, NParameters));
  }

  /**
   * Tightening `Cut2` or `Cut3` (with `Cut1` kept) never lowers the best
   * chi-square, so an event reconstructed under the tighter cuts is
   * reconstructed under the looser ones too.
   */
  lemma TighterCutsAcceptLess(s: Setup, k: Cuts)
    requires s.Valid() && Tightens(k, s.cuts)
    ensures s.(cuts := k).Valid()
    ensures Selection(s.(cuts := k)).chi2min >= Selection(s).chi2min
    ensures Judge(s.(cuts := k)).Reconstructed? ==> Judge(s).Reconstructed?
  {
    SearchedTighter(s, k);
    var b := Best(NoTrack, [0, 0, 0, 0], Zeros(NParameters, 1), Zeros(NParameters, NParameters));
    FoldBestFewer(b, Searched(s.(cuts := k)).cands, Searched(s).cands);
  }

  /** `ep[ipar * 5 + jpar] = Cbest[ipar][jpar]`: a 5 x 5 matrix packed row by row. */
  function Pack(C: Matrix): (ep: seq<real>)
    ensures |ep| == NParameters * NParameters
  {
    seq(NParameters * NParameters, k => At(C, k / NParameters, k % NParameters))
  }

  /** `p[ipar] = xbest[ipar][0]`: the fitted parameters as a flat list. */
  function Params(x: Matrix): (p: seq<real>)
    ensures |p| == NParameters
  {
    seq(NParameters, i => At(x, i, 0))
  }

  /**
   * `storeTrack`: the fitted (z0, dz/dx), the measured y0 and dy/dx of the
   * chosen plane-0 and plane-1 hits, the fitted 1/p, the true values, and
   * `sqrt` of the diagonal of the packed covariance as errors.
   */
  function TrackRecord(y0: real, y1: real, p: seq<real>, ep: seq<real>, sqrt: real -> real): (t: seq<real>)
    requires |p| == NParameters && |ep| == NParameters * NParameters
    ensures |t| == 15
  {
    [p[0], p[1], y0, (y1 - y0) / D, p[4],
     0.0, ThetaXZ, 0.0, 0.0, 1.0 / BeamMomentum,
     sqrt(ep[0]), sqrt(ep[5 + 1]), sqrt(ep[2 * 5 + 2]), sqrt(ep[3 * 5 + 3]), sqrt(ep[4 * 5 + 4])]
  }

  /**
   * The stored errors are the square roots of the fitted covariance's
   * diagonal, the stored slope is the measured one, and the truth is the
   * beam's straight incidence at the nominal momentum.
   */
  lemma RecordedTrack(y0: real, y1: real, x: Matrix, C: Matrix, sqrt: real -> real)
    ensures var t := TrackRecord(y0, y1, Params(x), Pack(C), sqrt);
      (forall k :: 0 <= k < NParameters ==> t[10 + k] == sqrt(At(C, k, k))) &&
      t[0] == At(x, 0, 0) && t[1] == At(x, 1, 0) && t[4] == At(x, 4, 0) &&
      y0 + D * t[3] == y1 && t[5..10] == [0.0, ThetaXZ, 0.0, 0.0, InvP]
  {
    var ep := Pack(C);
    assert ep[0] == At(C, 0, 0) && ep[6] == At(C, 1, 1) && ep[12] == At(C, 2, 2);
    assert ep[18] == At(C, 3, 3) && ep[24] == At(C, 4, 4);
  }

  /** The record `storeTrack` makes of the selected track of an accepted event. */
  function SelectedRecord(s: Setup, sqrt: real -> real): (t: seq<real>)
    requires s.Valid() && Selection(s).chi2min <= s.cuts.cut3
    ensures |t| == 15
  {
    RefitAgrees(s);
    var r := Selection(s);
    TrackRecord(s.ys[0][r.ibest[0]], s.ys[1][r.ibest[1]], Params(r.x), Pack(r.C), sqrt)
  }

  /** `tracks[j].push_back(t[j])` for each of the fifteen track vectors. */
  function Stored(tracks: seq<seq<real>>, t: seq<real>): (tracks': seq<seq<real>>)
    requires |tracks| == 15 && |t| == 15
    ensures |tracks'| == 15 && forall j :: 0 <= j < 15 ==> tracks'[j] == tracks[j] + [t[j]]
  {
    seq(15, j requires 0 <= j < 15 => tracks[j] + [t[j]])
  }

  /** An event with an empty plane is inefficient. */
  lemma InefficientOutcome(s: Setup)
    requires s.Valid() && AnyEmpty(s.ys, NPlanes)
    ensures Judge(s) == Inefficient
  {
  }

  /** A best track above `Cut3` is rejected; the rejection is good when every plane has a real hit. */
  lemma RejectedOutcome(s: Setup, r: Best, nRealHits: nat)
    requires s.Valid() && !AnyEmpty(s.ys, NPlanes) && r == Selection(s) && r.chi2min > s.cuts.cut3
    requires nRealHits == RealPlanes(s.flags, NPlanes)
    ensures Judge(s) == Rejected(nRealHits > 2 * NumberOfPlanes - 1)
    ensures Judge(s).good <==> forall j :: 0 <= j < NPlanes ==> HasReal(s.flags[j])
  {
    RealPlanesAll(s.flags, NPlanes);
  }

  /**
   * A best track within `Cut3` is reconstructed: its hits are a valid
   * choice, its refit gives it back, and its record is the selected one.
   */
  lemma AcceptedOutcome(s: Setup, r: Best, sqrt: real -> real)
    requires s.Valid() && !AnyEmpty(s.ys, NPlanes) && r == Selection(s) && r.chi2min <= s.cuts.cut3
    ensures ValidChoice(s.ys, s.zs, r.ibest)
    ensures Judge(s) == Reconstructed(NoiseOnTrack(s.flags, r.ibest, NPlanes) == 0, NoiseOnTrack(s.flags, r.ibest, NPlanes))
    ensures GlobalFit(s.ys, s.zs, r.ibest, s.inv) == FitResult(r.chi2min, r.x, r.C)
    ensures SelectedRecord(s, sqrt) == TrackRecord(s.ys[0][r.ibest[0]], s.ys[1][r.ibest[1]], Params(r.x), Pack(r.C), sqrt)
  {
    RefitAgrees(s);
  }

  /**
   * The hit-counting loop of `doall`: per plane, `nRealHits` goes up at the
   * first real hit (then `break`), `nTotalHits` by the plane's hits, and an
   * empty plane sets `reject`.
   */
  method CountHits(ev: Event) returns (nRealHits: nat, nHits: nat, reject: bool)
    requires ev.Valid()
    ensures nRealHits == RealPlanes(ev.isNoise, NPlanes) && nHits == HitCount(ev.yHits, NPlanes)
    ensures reject == AnyEmpty(ev.yHits, NPlanes)
  {
    nRealHits, nHits, reject := 0, 0, false;
    for j := 0 to NPlanes
      invariant nRealHits == RealPlanes(ev.isNoise, j) && nHits == HitCount(ev.yHits, j)
      invariant reject == AnyEmpty(ev.yHits, j)
    {
      var n := |ev.yHits[j]|;
      var k := 0;
      while k < n
        invariant 0 <= k <= n && nRealHits == RealPlanes(ev.isNoise, j)
        invariant forall i :: 0 <= i < k ==> ev.isNoise[j][i]
      {
        if !ev.isNoise[j][k] {
          nRealHits := nRealHits + 1;
          break;
        }
        k := k + 1;
      }
      nHits := nHits + n;
      if n < 1 {
        reject := true;
      }
    }
  }

  /** `allsignal = allsignal && !isNoise[j][ibest[j]]` over the planes. */
  method Signal(ev: Event, ibest: array<int>) returns (allsignal: bool)
    requires ev.Valid() && ValidChoice(ev.yHits, ev.zHits, ibest[..])
    ensures allsignal <==> forall j :: 0 <= j < NPlanes ==> !ev.isNoise[j][ibest[j]]
  {
    allsignal := true;
    for j := 0 to NPlanes
      invariant allsignal <==> forall i :: 0 <= i < j ==> !ev.isNoise[i][ibest[i]]
    {
      allsignal := allsignal && !ev.isNoise[j][ibest[j]];
    }
  }

  /** The packing loops before `storeTrack`: `p` from xbest and `ep` from Cbest, row by row. */
  method PackFit(x: Matrix, C: Matrix) returns (p: array<real>, ep: array<real>)
    ensures fresh(p) && fresh(ep) && p[..] == Params(x) && ep[..] == Pack(C)
  {
    p := new real[NParameters];
    ep := new real[NParameters * NParameters];
    for ipar := 0 to NParameters
      invariant forall i :: 0 <= i < ipar ==> p[i] == At(x, i, 0)
      invariant forall k :: 0 <= k < ipar * NParameters ==> ep[k] == At(C, k / NParameters, k % NParameters)
    {
      p[ipar] := At(x, ipar, 0);
      for jpar := 0 to NParameters
        invariant forall i :: 0 <= i <= ipar ==> p[i] == At(x, i, 0)
        invariant forall k :: 0 <= k < ipar * NParameters + jpar ==>
          ep[k] == At(C, k / NParameters, k % NParameters)
      {
        ep[ipar * NParameters + jpar] := At(C, ipar, jpar);
      }
    }
  }

  /** `ibest` zeroed and `xbest`, `Cbest` freshly constructed, then `reco4`. */
  method SelectTrack(ev: Event, inv: Matrix -> Matrix) returns (chi2min: real, ibest: array<int>, xb: Matrix, Cb: Matrix)
    requires ev.Valid()
    ensures fresh(ibest) && ibest.Length == NPlanes
    ensures Best(chi2min, ibest[..], xb, Cb) == Selection(Configure(Cxx, ev.yHits, ev.zHits, ev.isNoise, inv, SourceCuts))
  {
    var xbest, Cbest := Zeros(NParameters, 1), Zeros(NParameters, NParameters);
    ibest := new int[NPlanes](_ => 0);
    assert ibest[..] == [0, 0, 0, 0];
    var fills;
    chi2min, xb, Cb, fills := Reco4(ev, ibest, xbest, Cbest, inv);
  }

  /**
   * The Python event's search: a four-slot `ibest` (the port's empty list
   * cannot be written), fresh `xbest` and `Cbest`, then the port's `reco4`.
   */
  method SelectTrackPy(ev: Event, inv: Matrix -> Matrix) returns (chi2min: real, ibest: array<int>)
    requires ev.Valid()
    ensures fresh(ibest) && ibest.Length == NPlanes
    ensures var r := Selection(Configure(Python, ev.yHits, ev.zHits, ev.isNoise, inv, SourceCuts));
      chi2min == r.chi2min && ibest[..] == r.ibest
  {
    var xbest, Cbest := Zeros(NParameters, 1), Zeros(NParameters, NParameters);
    ibest := new int[NPlanes](_ => 0);
    assert ibest[..] == [0, 0, 0, 0];
    var fills;
    chi2min, fills := Reco4Py(ev, ibest, xbest, Cbest, inv);
  }

  /** The hit buffers cleared and then filled by `propagateTrack`, plane by plane. */
  method Simulate(ev: Event, draws: seq<PlaneDraws>, atan: real -> real, tan: real -> real)
    returns (ghost ys: seq<seq<real>>, ghost zs: seq<seq<real>>, ghost flags: seq<seq<bool>>)
    requires ev.Valid() && |draws| == NPlanes
    modifies ev
    ensures ev.Valid() && ev.yHits == ys && ev.zHits == zs && ev.isNoise == flags
    ensures forall j :: 0 <= j < NPlanes ==> |ys[j]| == |EventHits(j, draws, atan, tan)|
    ensures forall j, k :: 0 <= j < NPlanes && 0 <= k < |ys[j]| ==>
      Hit(ys[j][k], zs[j][k], flags[j][k]) == EventHits(j, draws, atan, tan)[k]
  {
    ev.Clear();
    ev.PropagateTrack(draws, atan, tan);
    ys, zs, flags := ev.yHits, ev.zHits, ev.isNoise;
    forall j, k | 0 <= j < NPlanes && 0 <= k < |ys[j]|
      ensures Hit(ys[j][k], zs[j][k], flags[j][k]) == EventHits(j, draws, atan, tan)[k]
    {
      assert ev.Hits(j) == EventHits(j, draws, atan, tan);
    }
  }

  /** The global counters and track vectors of the event loop. */
  class Run {
    var inefficient: nat
    var rejected: nat
    var goodRejected: nat
    var reconstructed: nat
    var goodReconstructed: nat
    var totalHits: nat
    var noiseOnTrack: nat
    var tracks: seq<seq<real>>

    function Counters(): Counts
      reads this
    {
      Counts(inefficient, rejected, goodRejected, reconstructed, goodReconstructed, totalHits, noiseOnTrack)
    }

    predicate Valid()
      reads this
    {
      Counters().Consistent() && |tracks| == 15
    }

    /** All counters start at zero and the fifteen track vectors empty. */
    constructor ()
      ensures Valid() && Counters() == Counts(0, 0, 0, 0, 0, 0, 0) && tracks == seq(15, _ => [])
    {
      inefficient, rejected, goodRejected, reconstructed := 0, 0, 0, 0;
      goodReconstructed, totalHits, noiseOnTrack := 0, 0, 0;
      tracks := seq(15, _ => []);
    }

    /** `storeTrack(ibest, p, ep)`: one entry pushed onto each track vector. */
    method StoreTrack(ev: Event, ibest: array<int>, p: array<real>, ep: array<real>, sqrt: real -> real)
      requires |tracks| == 15 && ev.Valid() && ValidChoice(ev.yHits, ev.zHits, ibest[..])
      requires p.Length == NParameters && ep.Length == NParameters * NParameters
      modifies this
      ensures tracks == Stored(old(tracks), TrackRecord(ev.yHits[0][ibest[0]], ev.yHits[1][ibest[1]], p[..], ep[..], sqrt))
      ensures Counters() == old(Counters())
    {
      var y0, y1 := ev.yHits[0][ibest[0]], ev.yHits[1][ibest[1]];
      tracks := Stored(tracks, [p[0], p[1], y0, (y1 - y0) / D, p[4],
        0.0, ThetaXZ, 0.0, 0.0, 1.0 / BeamMomentum,
        sqrt(ep[0]), sqrt(ep[5 + 1]), sqrt(ep[2 * 5 + 2]), sqrt(ep[3 * 5 + 3]), sqrt(ep[4 * 5 + 4])]);
    }

    /** The last loop of an accepted event: count the track's noise hits and flag its hits as used. */
    method FlagTrack(ev: Event, ibest: array<int>)
      requires Valid() && ev.Valid() && ValidChoice(ev.yHits, ev.zHits, ibest[..])
      modifies this, ev
      ensures ev.Valid() && ev.yHits == MarkUsed(old(ev.yHits), ibest[..])
      ensures ev.zHits == old(ev.zHits) && ev.isNoise == old(ev.isNoise)
      ensures Counters() == old(Counters()).(noiseOnTrack := old(noiseOnTrack) + NoiseOnTrack(ev.isNoise, ibest[..], NPlanes))
      ensures tracks == old(tracks)
    {
      var ys, count := ev.yHits, noiseOnTrack;
      for j := 0 to NPlanes
        invariant |ys| == NPlanes
        invariant forall i :: 0 <= i < NPlanes ==>
          ys[i] == if i < j then MarkUsed(ev.yHits, ibest[..])[i] else ev.yHits[i]
        invariant count == noiseOnTrack + NoiseOnTrack(ev.isNoise, ibest[..], j)
      {
        if ev.isNoise[j][ibest[j]] {
          count := count + 1;
        }
        ys := ys[j := ys[j][ibest[j] := YSize(j) + 1.0]];
      }
      ev.yHits, noiseOnTrack := ys, count;
    }
  
    /**
     * The reconstruction part of one event of `doall` in spectrometer6.c,
     * after the event is simulated: the outcome decides the counters; an
     * accepted track is refitted, stored, and its hits flagged as used.
     */
    method Reconstruct(ev: Event, inv: Matrix -> Matrix, sqrt: real -> real) returns (ghost o: Outcome)
      requires Valid() && ev.Valid()
      modifies this, ev
      ensures var s := Configure(Cxx, old(ev.yHits), old(ev.zHits), old(ev.isNoise), inv, SourceCuts);
        s.Valid() && o == Judge(s) &&
        Counters() == Tally(old(Counters()), o, HitCount(old(ev.yHits), NPlanes)) &&
        (o.Reconstructed? ==>
          ev.yHits == MarkUsed(old(ev.yHits), Selection(s).ibest) &&
          tracks == Stored(old(tracks), SelectedRecord(s, sqrt)))
      ensures !o.Reconstructed? ==> ev.yHits == old(ev.yHits) && tracks == old(tracks)
      ensures ev.zHits == old(ev.zHits) && ev.isNoise == old(ev.isNoise) && Valid()
    {
      ghost var s := Configure(Cxx, ev.yHits, ev.zHits, ev.isNoise, inv, SourceCuts);
      var nRealHits, nHits, reject := CountHits(ev);
      if reject {
        InefficientOutcome(s);
        totalHits := totalHits + nHits;
        inefficient := inefficient + 1;
        o := Inefficient;
      } else {
        totalHits := totalHits + nHits;
        o := Analyse(ev, inv, sqrt, nRealHits);
      }
    }

    /** An event with a hit in every plane: the search, then the `Cut3` rejection or the accepted track. */
    method Analyse(ev: Event, inv: Matrix -> Matrix, sqrt: real -> real, nRealHits: nat) returns (ghost o: Outcome)
      requires Valid() && ev.Valid() && !AnyEmpty(ev.yHits, NPlanes) && nRealHits == RealPlanes(ev.isNoise, NPlanes)
      modifies this, ev
      ensures var s := Configure(Cxx, old(ev.yHits), old(ev.zHits), old(ev.isNoise), inv, SourceCuts);
        s.Valid() && o == Judge(s) &&
        Counters() == Tally(old(Counters()), o, 0) &&
        (o.Reconstructed? ==>
          ev.yHits == MarkUsed(old(ev.yHits), Selection(s).ibest) &&
          tracks == Stored(old(tracks), SelectedRecord(s, sqrt)))
      ensures !o.Reconstructed? ==> ev.yHits == old(ev.yHits) && tracks == old(tracks)
      ensures ev.zHits == old(ev.zHits) && ev.isNoise == old(ev.isNoise) && Valid()
    {
      ghost var s := Configure(Cxx, ev.yHits, ev.zHits, ev.isNoise, inv, SourceCuts);
      var chi2min, ibest, xb, Cb := SelectTrack(ev, inv);
      ghost var r := Best(chi2min, ibest[..], xb, Cb);
      if chi2min > Cut3 {
        RejectedOutcome(s, r, nRealHits);
        CountRejected(nRealHits > 2 * NumberOfPlanes - 1);
        o := Rejected(nRealHits > 2 * NumberOfPlanes - 1);
      } else {
        AcceptedOutcome(s, r, sqrt);
        var chi2, xfit, Cfit := GlobalChi2(ev.yHits, ev.zHits, ibest[..], xb, inv);
        Accept(ev, ibest, xfit, Cfit, sqrt);
        o := Reconstructed(NoiseOnTrack(s.flags, r.ibest, NPlanes) == 0, NoiseOnTrack(s.flags, r.ibest, NPlanes));
      }
    }

    /** `nTracksRejected++`, and `nGoodTracksRejected++` when every plane had a real hit. */
    method CountRejected(good: bool)
      requires Valid()
      modifies this
      ensures Valid() && tracks == old(tracks)
      ensures Counters() == old(Counters()).(rejected := old(rejected) + 1,
        goodRejected := old(goodRejected) + if good then 1 else 0)
    {
      rejected := rejected + 1;
      if good {
        goodRejected := goodRejected + 1;
      }
    }

    /** The packing loops and `storeTrack` of an accepted track. */
    method StoreFit(ev: Event, ibest: array<int>, xbest: Matrix, Cbest: Matrix, sqrt: real -> real)
      requires |tracks| == 15 && ev.Valid() && ValidChoice(ev.yHits, ev.zHits, ibest[..])
      modifies this
      ensures tracks == Stored(old(tracks), TrackRecord(ev.yHits[0][ibest[0]], ev.yHits[1][ibest[1]],
                                                        Params(xbest), Pack(Cbest), sqrt))
      ensures Counters() == old(Counters())
    {
      var p, ep := PackFit(xbest, Cbest);
      StoreTrack(ev, ibest, p, ep, sqrt);
    }

    /** `nTracksReconstructed++`, and `nGoodTracksReconstructed++` for a track made only of signal hits. */
    method CountReconstructed(allsignal: bool)
      requires Valid()
      modifies this
      ensures Valid() && tracks == old(tracks)
      ensures Counters() == old(Counters()).(reconstructed := old(reconstructed) + 1,
        goodReconstructed := old(goodReconstructed) + if allsignal then 1 else 0)
    {
      reconstructed := reconstructed + 1;
      if allsignal {
        goodReconstructed := goodReconstructed + 1;
      }
    }

    /**
     * The end of an accepted event: `allsignal`, the reconstructed and
     * noiseless counters, and the loop that counts the noise hits on the
     * track and flags its hits as used.
     */
    method CountTrack(ev: Event, ibest: array<int>)
      requires Valid() && ev.Valid() && ValidChoice(ev.yHits, ev.zHits, ibest[..])
      modifies this, ev
      ensures Valid() && ev.Valid() && tracks == old(tracks)
      ensures var noise := NoiseOnTrack(ev.isNoise, ibest[..], NPlanes);
        Counters() == Tally(old(Counters()), Reconstructed(noise == 0, noise), 0)
      ensures ev.yHits == MarkUsed(old(ev.yHits), ibest[..])
      ensures ev.zHits == old(ev.zHits) && ev.isNoise == old(ev.isNoise)
    {
      var allsignal := Signal(ev, ibest);
      CountReconstructed(allsignal);
      FlagTrack(ev, ibest);
      CleanIffNoNoise(ev.isNoise, ibest[..], NPlanes);
      forall j | 0 <= j < NPlanes
        ensures NoisyChoice(ev.isNoise, ibest[..], j) == ev.isNoise[j][ibest[j]]
      {
      }
    }

    /** An accepted track after its refit: `storeTrack`, then the counters and the flagging loop. */
    method Accept(ev: Event, ibest: array<int>, xbest: Matrix, Cbest: Matrix, sqrt: real -> real)
      requires Valid() && ev.Valid() && ValidChoice(ev.yHits, ev.zHits, ibest[..])
      modifies this, ev
      ensures Valid() && ev.Valid()
      ensures var noise := NoiseOnTrack(ev.isNoise, ibest[..], NPlanes);
        Counters() == Tally(old(Counters()), Reconstructed(noise == 0, noise), 0) &&
        tracks == Stored(old(tracks), TrackRecord(old(ev.yHits)[0][ibest[0]], old(ev.yHits)[1][ibest[1]],
                                                  Params(xbest), Pack(Cbest), sqrt))
      ensures ev.yHits == MarkUsed(old(ev.yHits), ibest[..])
      ensures ev.zHits == old(ev.zHits) && ev.isNoise == old(ev.isNoise)
    {
      StoreFit(ev, ibest, xbest, Cbest, sqrt);
      CountTrack(ev, ibest);
    }

    /**
     * One event of the module-level loop of kalman_testbeam.py after the
     * event is simulated. The outcome is decided as in `doall`, with the
     * search run by the port's `reco4`; an accepted track is counted and its
     * hits flagged, without the refit and `storeTrack`.
     */
    method ReconstructPy(ev: Event, inv: Matrix -> Matrix) returns (ghost o: Outcome)
      requires Valid() && ev.Valid()
      modifies this, ev
      ensures var s := Configure(Python, old(ev.yHits), old(ev.zHits), old(ev.isNoise), inv, SourceCuts);
        s.Valid() && o == Judge(s) &&
        Counters() == Tally(old(Counters()), o, HitCount(old(ev.yHits), NPlanes)) &&
        (o.Reconstructed? ==> ev.yHits == MarkUsed(old(ev.yHits), Selection(s).ibest))
      ensures !o.Reconstructed? ==> ev.yHits == old(ev.yHits)
      ensures ev.zHits == old(ev.zHits) && ev.isNoise == old(ev.isNoise) && tracks == old(tracks) && Valid()
    {
      ghost var s := Configure(Python, ev.yHits, ev.zHits, ev.isNoise, inv, SourceCuts);
      var nRealHits, nHits, reject := CountHits(ev);
      if reject {
        InefficientOutcome(s);
        totalHits := totalHits + nHits;
        inefficient := inefficient + 1;
        o := Inefficient;
      } else {
        totalHits := totalHits + nHits;
        o := AnalysePy(ev, inv, nRealHits);
      }
    }

    /** The Python event after its hit count: `reco4`, then the `Cut3` rejection or the accepted track. */
    method AnalysePy(ev: Event, inv: Matrix -> Matrix, nRealHits: nat) returns (ghost o: Outcome)
      requires Valid() && ev.Valid() && !AnyEmpty(ev.yHits, NPlanes) && nRealHits == RealPlanes(ev.isNoise, NPlanes)
      modifies this, ev
      ensures var s := Configure(Python, old(ev.yHits), old(ev.zHits), old(ev.isNoise), inv, SourceCuts);
        s.Valid() && o == Judge(s) &&
        Counters() == Tally(old(Counters()), o, 0) &&
        (o.Reconstructed? ==> ev.yHits == MarkUsed(old(ev.yHits), Selection(s).ibest))
      ensures !o.Reconstructed? ==> ev.yHits == old(ev.yHits)
      ensures ev.zHits == old(ev.zHits) && ev.isNoise == old(ev.isNoise) && tracks == old(tracks) && Valid()
    {
      ghost var s := Configure(Python, ev.yHits, ev.zHits, ev.isNoise, inv, SourceCuts);
      var chi2min, ibest := SelectTrackPy(ev, inv);
      ghost var r := Selection(s);
      if chi2min > Cut3 {
        RejectedOutcome(s, r, nRealHits);
        CountRejected(nRealHits > 2 * NumberOfPlanes - 1);
        o := Rejected(nRealHits > 2 * NumberOfPlanes - 1);
      } else {
        AcceptedOutcome(s, r, (x: real) => x);
        CountTrack(ev, ibest);
        o := Reconstructed(NoiseOnTrack(s.flags, r.ibest, NPlanes) == 0, NoiseOnTrack(s.flags, r.ibest, NPlanes));
      }
    }

    /** `tracks[j].clear()` for the fifteen track vectors at the start of an event. */
    method NewEvent()
      requires Valid()
      modifies this
      ensures Valid() && Counters() == old(Counters()) && tracks == seq(15, _ => [])
    {
      tracks := seq(15, _ => []);
    }

    /**
     * One pass of the event loop of `doall`: reset the track vectors and hit
     * buffers, simulate the event from its draws, and reconstruct it. The
     * returned buffers are the simulated hits the reconstruction saw.
     */
    method ProcessEvent(ev: Event, draws: seq<PlaneDraws>, atan: real -> real, tan: real -> real,
                        inv: Matrix -> Matrix, sqrt: real -> real)
      returns (ghost ys: seq<seq<real>>, ghost zs: seq<seq<real>>, ghost flags: seq<seq<bool>>, ghost o: Outcome)
      requires Valid() && ev.Valid() && |draws| == NPlanes
      modifies this, ev
      ensures Lockstep(ys, zs, flags) && Valid() && ev.Valid()
      ensures forall j :: 0 <= j < NPlanes ==> |ys[j]| == |EventHits(j, draws, atan, tan)|
      ensures forall j, k :: 0 <= j < NPlanes && 0 <= k < |ys[j]| ==>
        Hit(ys[j][k], zs[j][k], flags[j][k]) == EventHits(j, draws, atan, tan)[k]
      ensures var s := Configure(Cxx, ys, zs, flags, inv, SourceCuts);
        s.Valid() && o == Judge(s) && Counters() == Tally(old(Counters()), o, HitCount(ys, NPlanes))
      ensures o.Reconstructed? <==> forall j :: 0 <= j < 15 ==> |tracks[j]| == 1
    {
      NewEvent();
      ys, zs, flags := Simulate(ev, draws, atan, tan);
      o := Reconstruct(ev, inv, sqrt);
      if !o.Reconstructed? {
        assert |tracks[0]| == 0;
      }
    }
  }
}
