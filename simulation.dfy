/**
 * The event simulation of spectrometer6.c and kalman_testbeam.py:
 * `propagateStraight` steps the true track through one arm of the
 * telescope and fills the per-plane hit buffers; `propagateTrack` runs both
 * arms with the magnet bend in between. Every random draw is an input.
 */
module Simulation {
  import opened Spectrometer

  /** One noise hit's two `Uniform()` draws. */
  datatype NoiseDraw = NoiseDraw(uy: real, uz: real)

  /**
   * The draws `propagateStraight` makes at one plane, in the order it makes
   * them: two `Gaus()` for the scattering, one `Uniform()` for the efficiency,
   * then (for a hit) `Gaus()`, `Uniform()` and tail `Gaus()` for y and the
   * same for z, then the `Poisson()` count of noise hits and their placements.
   */
  datatype PlaneDraws = PlaneDraws(
    scatterY: real, scatterZ: real, efficiency: real,
    smearY: real, tailY: real, tailSmearY: real,
    smearZ: real, tailZ: real, tailSmearZ: real,
    noise: seq<NoiseDraw>)

  /** The true track: `nextY, nextZ, nextdYdX, nextdZdX`. */
  datatype TrackState = TrackState(y: real, z: real, dydx: real, dzdx: real)

  /** One entry of the parallel buffers `yHits[j]`, `zHits[j]`, `isNoise[j]`. */
  datatype Hit = Hit(y: real, z: real, noise: bool)

  /** `fabs`. */
  function Abs(r: real): real
  {
    if r < 0.0 then -r else r
  }

  /** Extrapolation of the true track to the next plane. */
  function Move(s: TrackState): TrackState
  {
    s.(y := s.y + D * s.dydx, z := s.z + D * s.dzdx)
  }

  /** The impact at the k-th plane of the arm: the first plane takes the state as given. */
  function Arrive(s: TrackState, k: nat): TrackState
  {
    if k == 0 then s else Move(s)
  }

  /** Multiple scattering at a plane: `r = Gaus() / beamMomentum`, angle `+= r * multScattAngle`. */
  function Scatter(s: TrackState, dr: PlaneDraws): TrackState
  {
    s.(dydx := s.dydx + dr.scatterY / BeamMomentum * MultScattAngle,
       dzdx := s.dzdx + dr.scatterZ / BeamMomentum * MultScattAngle)
  }

  /** The true track after the planes whose draws are `ds`. */
  function StateAfter(s: TrackState, ds: seq<PlaneDraws>): TrackState
  {
    if ds == [] then s
    else Scatter(Arrive(StateAfter(s, ds[..|ds| - 1]), |ds| - 1), ds[|ds| - 1])
  }

  /** The true impact at the k-th plane of the arm. */
  function Impact(s: TrackState, ds: seq<PlaneDraws>, k: nat): TrackState
    requires k <= |ds|
  {
    Arrive(StateAfter(s, ds[..k]), k)
  }

  /** A real hit: the efficiency draw passes and the impact is strictly inside chip j. */
  predicate Detected(j: nat, at: TrackState, dr: PlaneDraws)
  {
    dr.efficiency < HitEfficiency && Abs(at.y) < YSize(j) && Abs(at.z) < ZSize(j)
  }

  /** Resolution smear, plus the tail smear when the tail draw is below `tailAmplitude`. */
  function Smear(u: real, smear: real, tail: real, tailSmear: real): real
  {
    var v := u + smear * Resolution;
    if tail < TailAmplitude then v + tailSmear * TailWidth else v
  }

  /** The point the noise is placed around: the impact, smeared when there is a real hit. */
  function Centre(j: nat, at: TrackState, dr: PlaneDraws): (real, real)
  {
    if Detected(j, at, dr) then
      (Smear(at.y, dr.smearY, dr.tailY, dr.tailSmearY), Smear(at.z, dr.smearZ, dr.tailZ, dr.tailSmearZ))
    else (at.y, at.z)
  }

  /** A noise hit placed in the 500 x 500 pixel square around (y, z). */
  function NoiseHit(y: real, z: real, n: NoiseDraw): Hit
  {
    Hit(y + (n.uy - 0.5) * NoiseSide, z + (n.uz - 0.5) * NoiseSide, true)
  }

  /** The hits plane j receives: the real hit, if any, first, then the noise hits. */
  function PlaneHits(j: nat, at: TrackState, dr: PlaneDraws): (hs: seq<Hit>)
    ensures |hs| == (if Detected(j, at, dr) then 1 else 0) + |dr.noise|
    ensures forall i :: 0 <= i < |hs| ==> (!hs[i].noise <==> i == 0 && Detected(j, at, dr))
  {
    var c := Centre(j, at, dr);
    (if Detected(j, at, dr) then [Hit(c.0, c.1, false)] else [])
      + seq(|dr.noise|, i requires 0 <= i < |dr.noise| => NoiseHit(c.0, c.1, dr.noise[i]))
  }

  predicate Uniform(u: real)
  {
    0.0 <= u < 1.0
  }

  /** With `Uniform()` draws in [0, 1), every noise hit lies within half a side of the centre. */
  lemma NoiseNearCentre(j: nat, at: TrackState, dr: PlaneDraws)
    requires forall n :: n in dr.noise ==> Uniform(n.uy) && Uniform(n.uz)
    ensures var c := Centre(j, at, dr);
      forall h :: h in PlaneHits(j, at, dr) && h.noise ==>
        c.0 - NoiseSide / 2.0 <= h.y < c.0 + NoiseSide / 2.0 &&
        c.1 - NoiseSide / 2.0 <= h.z < c.1 + NoiseSide / 2.0
  {
    var c := Centre(j, at, dr);
    var hs := PlaneHits(j, at, dr);
    forall h | h in hs && h.noise
      ensures c.0 - NoiseSide / 2.0 <= h.y < c.0 + NoiseSide / 2.0
      ensures c.1 - NoiseSide / 2.0 <= h.z < c.1 + NoiseSide / 2.0
    {
      var i :| 0 <= i < |hs| && hs[i] == h;
      var k := if Detected(j, at, dr) then i - 1 else i;
      assert h == NoiseHit(c.0, c.1, dr.noise[k]);
      assert dr.noise[k] in dr.noise;
    }
  }

  /** A real hit, when there is one, is the smeared impact and is the only real hit. */
  lemma RealHitIsImpact(j: nat, at: TrackState, dr: PlaneDraws)
    ensures var hs := PlaneHits(j, at, dr);
      (exists h :: h in hs && !h.noise) <==> Detected(j, at, dr)
    ensures Detected(j, at, dr) ==>
      PlaneHits(j, at, dr)[0] == Hit(Smear(at.y, dr.smearY, dr.tailY, dr.tailSmearY),
                                     Smear(at.z, dr.smearZ, dr.tailZ, dr.tailSmearZ), false)
  {
    var hs := PlaneHits(j, at, dr);
    if Detected(j, at, dr) {
      assert !hs[0].noise;
    } else {
      forall h | h in hs ensures h.noise {
        var i :| 0 <= i < |hs| && hs[i] == h;
      }
    }
  }

  /** The true track at plane 0: at the origin, flat in y, at angle `thetaxz` in z. */
  function Start(): TrackState
  {
    TrackState(0.0, 0.0, 0.0, ThetaXZ)
  }

  /**
   * The trace through the magnet: half a spacing to the magnet centre, a
   * bend of `dtheta` added to `atan(dy/dx)`, half a spacing on at the new
   * slope, and a full spacing in z.
   */
  function MagnetBend(s: TrackState, atan: real -> real, tan: real -> real): TrackState
  {
    var ang := atan(s.dydx) + DTheta;
    TrackState(s.y + s.dydx * D / 2.0 + tan(ang) * D / 2.0, s.z + D * s.dzdx, tan(ang), s.dzdx)
  }

  /** The hits of plane j in a whole event, given the draws for all four planes. */
  function EventHits(j: nat, draws: seq<PlaneDraws>, atan: real -> real, tan: real -> real): seq<Hit>
    requires j < NPlanes && |draws| == NPlanes
  {
    if j < NumberOfPlanes then PlaneHits(j, Impact(Start(), draws[..NumberOfPlanes], j), draws[j])
    else
      var s := MagnetBend(StateAfter(Start(), draws[..NumberOfPlanes]), atan, tan);
      PlaneHits(j, Impact(s, draws[NumberOfPlanes..], j - NumberOfPlanes), draws[j])
  }

  /** EventHits arm by arm: a front plane takes its draw from the start, a back plane
      from the bent track. */
  lemma ArmHits(j: nat, draws: seq<PlaneDraws>, front: TrackState, atan: real -> real, tan: real -> real)
    requires j < NPlanes && |draws| == NPlanes && front == StateAfter(Start(), draws[..NumberOfPlanes])
    ensures j < NumberOfPlanes ==>
      EventHits(j, draws, atan, tan) ==
      PlaneHits(j, Impact(Start(), draws[..NumberOfPlanes], j - 0), draws[..NumberOfPlanes][j - 0])
    ensures NumberOfPlanes <= j ==>
      EventHits(j, draws, atan, tan) ==
      PlaneHits(j, Impact(MagnetBend(front, atan, tan), draws[NumberOfPlanes..], j - NumberOfPlanes),
                draws[NumberOfPlanes..][j - NumberOfPlanes])
  {
  }

  /** Per-plane buffers of y, z and noise flags that are appended in lockstep. */
  predicate Lockstep(ys: seq<seq<real>>, zs: seq<seq<real>>, flags: seq<seq<bool>>)
  {
    |ys| == NPlanes && |zs| == NPlanes && |flags| == NPlanes &&
    forall j :: 0 <= j < NPlanes ==> |zs[j]| == |ys[j]| && |flags[j]| == |ys[j]|
  }

  /** The per-plane hit buffers of one event. */
  class Event {
    var yHits: seq<seq<real>>
    var zHits: seq<seq<real>>
    var isNoise: seq<seq<bool>>

    /** One buffer per plane, the three appended in lockstep. */
    predicate Valid()
      reads this
    {
      Lockstep(yHits, zHits, isNoise)
    }

    /** The hits of plane j, read across the three buffers. */
    function Hits(j: nat): seq<Hit>
      requires Valid() && j < NPlanes
      reads this
    {
      var ys, zs, flags := yHits[j], zHits[j], isNoise[j];
      seq(|ys|, i requires 0 <= i < |ys| => Hit(ys[i], zs[i], flags[i]))
    }

    /** The buffers cleared at the start of every event. */
    constructor ()
      ensures Valid() && forall j :: 0 <= j < NPlanes ==> Hits(j) == []
    {
      yHits := seq(NPlanes, _ => []);
      zHits := seq(NPlanes, _ => []);
      isNoise := seq(NPlanes, _ => []);
    }

    /** `yHits[j].clear(); zHits[j].clear(); isNoise[j].clear()` for every plane. */
    method Clear()
      requires |yHits| == NPlanes && |zHits| == NPlanes && |isNoise| == NPlanes
      modifies this
      ensures Valid() && forall j :: 0 <= j < NPlanes ==> Hits(j) == []
    {
      for j := 0 to NPlanes
        invariant |yHits| == NPlanes && |zHits| == NPlanes && |isNoise| == NPlanes
        invariant forall i :: 0 <= i < j ==> yHits[i] == [] && zHits[i] == [] && isNoise[i] == []
      {
        yHits := yHits[j := []];
        zHits := zHits[j := []];
        isNoise := isNoise[j := []];
      }
    }

    /** `yHits[j].push_back(y); zHits[j].push_back(z); isNoise[j].push_back(flag)`. */
    method PushHit(j: nat, h: Hit)
      requires Valid() && j < NPlanes
      modifies this
      ensures Valid()
      ensures Hits(j) == old(Hits(j)) + [h]
      ensures forall i :: 0 <= i < NPlanes && i != j ==> Hits(i) == old(Hits(i))
    {
      yHits := yHits[j := yHits[j] + [h.y]];
      zHits := zHits[j := zHits[j] + [h.z]];
      isNoise := isNoise[j := isNoise[j] + [h.noise]];
      assert Hits(j) == old(Hits(j)) + [h];
    }

    /**
     * `propagateStraight(firstplane, ...)`: the planes `firstplane` and
     * `firstplane + 1` receive their hits; the advanced true track is returned
     * (through the reference parameters in C, as a list in Python).
     */
    method PropagateStraight(first: nat, s: TrackState, draws: seq<PlaneDraws>) returns (s': TrackState)
      requires Valid() && first + NumberOfPlanes <= NPlanes && |draws| == NumberOfPlanes
      modifies this
      ensures Valid()
      ensures s' == StateAfter(s, draws)
      ensures forall j :: first <= j < first + NumberOfPlanes ==>
        Hits(j) == old(Hits(j)) + PlaneHits(j, Impact(s, draws, j - first), draws[j - first])
      ensures forall j :: 0 <= j < NPlanes && !(first <= j < first + NumberOfPlanes) ==>
        Hits(j) == old(Hits(j))
    {
      var nextY, nextZ, nextdYdX, nextdZdX := s.y, s.z, s.dydx, s.dzdx;
      var j := first;
      while j < first + NumberOfPlanes
        invariant first <= j <= first + NumberOfPlanes && Valid()
        invariant TrackState(nextY, nextZ, nextdYdX, nextdZdX) == StateAfter(s, draws[..j - first])
        invariant forall i :: 0 <= i < NPlanes ==>
          Hits(i) == old(Hits(i)) +
            (if first <= i < j then PlaneHits(i, Impact(s, draws, i - first), draws[i - first]) else [])
      {
        var dr := draws[j - first];
        if j != first {
          nextY := nextY + D * nextdYdX;
          nextZ := nextZ + D * nextdZdX;
        }
        var at := TrackState(nextY, nextZ, nextdYdX, nextdZdX);
        assert at == Impact(s, draws, j - first);
        var r := dr.scatterY / BeamMomentum;
        nextdYdX := nextdYdX + r * MultScattAngle;
        r := dr.scatterZ / BeamMomentum;
        nextdZdX := nextdZdX + r * MultScattAngle;
        assert draws[..j + 1 - first][..j - first] == draws[..j - first];
        HitPlane(j, at, dr);
        j := j + 1;
      }
      assert draws[..NumberOfPlanes] == draws;
      s' := TrackState(nextY, nextZ, nextdYdX, nextdZdX);
    }

    /** The efficiency draw, the chip acceptance and the smearing of the real hit, then the noise loop. */
    method HitPlane(j: nat, at: TrackState, dr: PlaneDraws)
      requires Valid() && j < NPlanes
      modifies this
      ensures Valid()
      ensures Hits(j) == old(Hits(j)) + PlaneHits(j, at, dr)
      ensures forall i :: 0 <= i < NPlanes && i != j ==> Hits(i) == old(Hits(i))
    {
      var y, z := at.y, at.z;
      var r := dr.efficiency;
      if r < HitEfficiency && Abs(at.y) < YSize(j) && Abs(at.z) < ZSize(j) {
        y := Smear(y, dr.smearY, dr.tailY, dr.tailSmearY);
        z := Smear(z, dr.smearZ, dr.tailZ, dr.tailSmearZ);
        PushHit(j, Hit(y, z, false));
      }
      assert (y, z) == Centre(j, at, dr);
      AddNoise(j, y, z, dr.noise);
    }

    /** The noise loop of one plane: one hit per pair of `Uniform()` draws, around (y, z). */
    method AddNoise(j: nat, y: real, z: real, noise: seq<NoiseDraw>)
      requires Valid() && j < NPlanes
      modifies this
      ensures Valid()
      ensures Hits(j) == old(Hits(j)) + seq(|noise|, i requires 0 <= i < |noise| => NoiseHit(y, z, noise[i]))
      ensures forall i :: 0 <= i < NPlanes && i != j ==> Hits(i) == old(Hits(i))
    {
      var k := 0;
      while k < |noise|
        invariant 0 <= k <= |noise| && Valid()
        invariant Hits(j) == old(Hits(j)) + seq(k, i requires 0 <= i < k => NoiseHit(y, z, noise[i]))
        invariant forall i :: 0 <= i < NPlanes && i != j ==> Hits(i) == old(Hits(i))
      {
        var r := noise[k].uy;
        var ynoise := y + (r - 0.5) * NoiseSide;
        r := noise[k].uz;
        var znoise := z + (r - 0.5) * NoiseSide;
        PushHit(j, Hit(ynoise, znoise, true));
        k := k + 1;
      }
    }
  
    /**
     * `propagateTrack()`: both arms and the magnet, with `atan` and `tan`
     * as parameters. Each plane receives the hits of its own draws.
     */
    method PropagateTrack(draws: seq<PlaneDraws>, atan: real -> real, tan: real -> real)
      requires Valid() && |draws| == NPlanes
      modifies this
      ensures Valid()
      ensures forall j :: 0 <= j < NPlanes ==> Hits(j) == old(Hits(j)) + EventHits(j, draws, atan, tan)
    {
      var s := Start();
      s := PropagateStraight(0, s, draws[..NumberOfPlanes]);
      label Front:
      var nextY := s.y + s.dydx * D / 2.0;
      var ang := atan(s.dydx) + DTheta;
      nextY := nextY + tan(ang) * D / 2.0;
      var nextdYdX := tan(ang);
      var nextZ := s.z + D * s.dzdx;
      ghost var front := s;
      s := TrackState(nextY, nextZ, nextdYdX, s.dzdx);
      assert s == MagnetBend(front, atan, tan);
      s := PropagateStraight(NumberOfPlanes, s, draws[NumberOfPlanes..]);
      forall j | 0 <= j < NPlanes
        ensures Hits(j) == old(Hits(j)) + EventHits(j, draws, atan, tan)
      {
        ArmHits(j, draws, front, atan, tan);
        if j < NumberOfPlanes {
          assert Hits(j) == old@Front(Hits(j));
        } else {
          assert old@Front(Hits(j)) == old(Hits(j));
        }
      }
    }
  }
}
