/**
 * The run configuration and detector description shared by spectrometer6.c
 * and kalman_testbeam.py: two pixel planes on each side of the magnet, ten
 * centimetres apart, measuring (y, z). Derived constants are written out as
 * the values the source computes from them.
 */
module Spectrometer {
  /** Tracking planes on each side of the magnet. */
  const NumberOfPlanes: nat := 2
  /** `2 * numberOfPlanes` pixel planes in all. */
  const NPlanes: nat := 4
  /** `4 * numberOfPlanes`: a z and a y measurement per plane. */
  const NDim: nat := 8
  /** Track parameters (z0, dz/dx, y0, dy/dx, 1/p). */
  const NParameters: nat := 5

  /** Chi-square cut for the first three hits. */
  const Cut1: real := 8.0
  /** Chi-square cut for each further hit. */
  const Cut2: real := 8.0
  /** Cut on the total chi-square, `(4 * numberOfPlanes - 5) * 2.5`. */
  const Cut3: real := 7.5

  /** `distBetweenPlanes = 30 / (2 * numberOfPlanes - 1)` cm. */
  const D: real := 10.0
  const PixelSize: real := 0.002
  /** `resolution * resolution`, with a resolution of 0.0006 cm. */
  const S2: real := 0.00000036
  const Resolution: real := 0.0006
  const TailAmplitude: real := 0.1
  const TailWidth: real := 0.0018
  const HitEfficiency: real := 0.97
  const ThetaXZ: real := 0.0
  const BeamMomentum: real := 0.05
  /** `1 / beamMomentum`. */
  const InvP: real := 20.0
  /** Multiple-scattering angle times momentum per plane. */
  const MultScattAngle: real := 0.0002
  /** `t0 = multScattAngle / beamMomentum` and `t2 = t0 * t0`. */
  const T0: real := 0.004
  const T2: real := 0.000016
  /** `dpdt = 0.003 * integralBdL` with 0.5 T cm. */
  const Dpdt: real := 0.0015
  /** Bend of the magnet, `0.003 * integralBdL / beamMomentum`. */
  const DTheta: real := 0.03
  /** Half-width of the beam profile, `4 * pixelSize`. */
  const BeamProfile: real := 0.008
  /** Side of the square in which noise hits fall, `500 * pixelSize`. */
  const NoiseSide: real := 1.0
  /** The starting value of the best chi-square in the track search. */
  const NoTrack: real := 10000000.0

  /** `ySize[j]`: half height of chip j, 1 cm before the magnet and 2 cm after it. */
  function YSize(j: nat): real
  {
    if j > NumberOfPlanes - 1 then 2.0 else 1.0
  }

  /** `zSize[j]`: half width of every chip. */
  function ZSize(j: nat): real
  {
    1.0
  }
}
