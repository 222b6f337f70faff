# hepstat-tutorial: track finding, Hough accumulators and a Gaussian classifier in Dafny

This project models the three parts of the hepstat-tutorial repository that hold
their own sequential logic, rather than calls into ROOT, RooFit, TMVA or Pythia.

- **The test-beam spectrometer** (`spectrometer6.c` and its Python port
  `kalman_testbeam.py`). It covers the following:
  - the event simulation, which appends hits to the per-plane buffers `yHits`, `zHits` and `isNoise` in lockstep;
  - the 2 x 2 Kalman step in the non-bending projection;
  - the global least-squares fit, with its measurement vector `m`, covariance `V` and projection `H`;
  - the combinatorial search `reco4`: the beam-profile cut, the `Cut1`/`Cut2` pruning, and the selection of the first strict minimum;
  - the per-event bookkeeping of `doall` and of the Python event loop: the inefficient, rejected and reconstructed counters, `storeTrack`, and the flagging of used hits.
- **The Hough demos.** `houghLine` of `demo_hough_lines.py` fills an accumulator from the edge pixels of an image. In `demo_hough_circles.py`, `conformal` is the conformal map and `houghLine` is the two-pass accumulator over a point list.
- **The Gaussian classifier** (`MVA/gaus_classifier.py`). It covers `do_rotation`, the training/testing split of `read_tr`, the mean and covariance of `get_stat`, and the decision rule of `r_gaus`.

**How numbers are modelled.**
- Numbers are Dafny `real`: single- and double-precision rounding is not modelled.
- Random draws are inputs: one `PlaneDraws` record per plane holds the Gaussian, uniform and Poisson draws that `propagateStraight` consumes.
- `atan`, `tan`, `sqrt`, `log`, `cos` and `sin`, the general matrix inverse (`TMatrixD::Invert`) and the determinant are function parameters.
- 2 x 2 matrices are inverted in closed form (module `Matrix2`).
- The search reaches the Kalman step and the global fit through the `Setup` of its event (`Search.Configure`), which holds both as functions.

**Modules.** Modules follow the programs:

| module | program part |
|---|---|
| `Spectrometer` | the constants |
| `Simulation` | `propagateStraight`, `propagateTrack` |
| `Kalman` | `kalmanFilter` |
| `TrackFit` | `globalChi2` |
| `Search` | `reco4` in both languages |
| `Bookkeeping` | `storeTrack` and the event loops |
| `HoughLines`, `HoughCircles` | the two Hough demos |
| `GausClassifier` | the classifier |

`Matrices`, `Matrix2`, `RealAlgebra`, `Votes`, `Numeric` and `Wrappers` hold the shared algebra and counting.

## Model

| member | source | states |
|---|---|---|
| Simulation.PlaneHits | PatternRecognition/KalmanFilter/spectrometer6.c:153-196 | a plane receives one real hit exactly when the efficiency draw is below `hitEfficiency` and the impact is strictly inside the chip, then one noise hit per Poisson count; the only unflagged hit is the first |
| Simulation.RealHitIsImpact | PatternRecognition/KalmanFilter/spectrometer6.c:156-180 | a real hit exists iff the detection condition holds, and it is the impact smeared by the resolution and, when the tail draw fires, by the tail width |
| Simulation.NoiseNearCentre | PatternRecognition/KalmanFilter/spectrometer6.c:183-189 | with uniform draws in [0, 1), every noise hit lies within ±250 pixel sizes of the (possibly smeared) impact |
| Simulation.Event.constructor | PatternRecognition/KalmanFilter/spectrometer6.c:77-90 | the three hit buffers of every plane start empty and in lockstep |
| Simulation.Event.Clear | PatternRecognition/KalmanFilter/spectrometer6.c:633-637 | after the clear loop every plane's `yHits`, `zHits` and `isNoise` are empty |
| Simulation.Event.PushHit | PatternRecognition/KalmanFilter/spectrometer6.c:173-178 | a hit is appended to the three buffers of its plane together; the other planes are unchanged and the buffers stay equally long |
| Simulation.Event.AddNoise | PatternRecognition/KalmanFilter/spectrometer6.c:183-196 | the noise loop appends one flagged hit per uniform pair, at `y + (r - 0.5) * 500 * pixelSize`, to its plane only |
| Simulation.Event.HitPlane | PatternRecognition/KalmanFilter/spectrometer6.c:153-196 | one plane's simulation appends exactly that plane's `PlaneHits`: the smeared hit when the efficiency draw and the chip size allow it, then the noise hits; the other planes are unchanged; the Python plane body (`kalman_testbeam.py:159-204`) appends the same hits |
| Simulation.Event.PropagateStraight | PatternRecognition/KalmanFilter/spectrometer6.c:124-199 | the two planes from `firstplane` receive exactly their `PlaneHits`, other planes keep theirs, and the advanced true track is returned; the Python port (`kalman_testbeam.py:131-206`) does the same and returns `[nextY, nextZ, nextdYdX, nextdZdX]` instead of writing reference parameters, with 0/1 flags as booleans |
| Simulation.Event.PropagateTrack | PatternRecognition/KalmanFilter/spectrometer6.c:201-224 | every plane ends with its old hits followed by the hits of its own draws, through both arms and the magnet bend; the Python `propagateTrack` (`kalman_testbeam.py:209-233`) has the same effect on the buffers |
| Matrix2.InverseIsInverse | PatternRecognition/KalmanFilter/spectrometer6.c:268-269 | the closed-form 2 x 2 inverse used for `Invert()` is a right inverse when the determinant is nonzero |
| Matrix2.InverseInverse | PatternRecognition/KalmanFilter/spectrometer6.c:275-276 | inverting `Cpz` back gives the original matrix; the inverse's determinant is the reciprocal |
| Matrix2.InversePosDef | PatternRecognition/KalmanFilter/spectrometer6.c:268-269 | a positive-definite matrix is invertible and its inverse is positive definite |
| Kalman.Step | PatternRecognition/KalmanFilter/spectrometer6.c:227-283 | one filter step keeps the covariance positive definite and returns a non-negative chi-square |
| Kalman.StepChi2 | PatternRecognition/KalmanFilter/spectrometer6.c:278-282 | the chi-square is `(hit - zpred0)^2 / (s2 + Cpz00)`, taken from the prediction, with `s2 + Cpz00 > 0` |
| Kalman.PredictSymmetric | PatternRecognition/KalmanFilter/spectrometer6.c:255-257 | a symmetric `C` gives a symmetric `Cp = F C Fᵀ + Q` |
| Kalman.PredictedCovEntries | PatternRecognition/KalmanFilter/spectrometer6.c:237-257 | the prediction in closed form, with `Q = t0²·[[d², d], [d, 1]]`, for the C propagator and for the Python one |
| Kalman.PredictPosDef | PatternRecognition/KalmanFilter/spectrometer6.c:255-257 | prediction keeps a positive-definite covariance positive definite, for both propagators |
| Kalman.WeightedPosDef | PatternRecognition/KalmanFilter/spectrometer6.c:264-268 | adding the hit weight `1/s2` to the inverted prediction keeps it positive definite |
| Kalman.PythonPredictsFlat | PatternRecognition/KalmanFilter/kalman_testbeam.py:252-257 | with `Fz[1][1] = 0` the Python prediction `zpred = (z0 + d z1, 0)` always loses the slope; the C one is `(z0 + d z1, z1)` |
| Kalman.SeedCov | PatternRecognition/KalmanFilter/spectrometer6.c:504-508 | the seed covariance `[[s2, s2/d], [s2/d, 2 s2/d²]]` is positive definite |
| Kalman.ZTrack.Seed | PatternRecognition/KalmanFilter/spectrometer6.c:500-508 | the seed state is `(z1, (z1 - z0)/d)` with the seed covariance |
| Kalman.ZTrack.Filter | PatternRecognition/KalmanFilter/spectrometer6.c:227-283 | `z` and `C` are overwritten in place by the information-weighted update and the returned chi-square is the step's; `C` stays positive definite |
| Kalman.KalmanFilterPy | PatternRecognition/KalmanFilter/kalman_testbeam.py:238-331 | the Python step as its commented formulas describe it (`Cpz = Fz C Fzᵀ + Qz`, `zpred = Fz z`): it returns `[chi2, z, C]` equal to the step with the Python propagator, and the caller's matrices are untouched |
| TrackFit.Measurements | PatternRecognition/KalmanFilter/spectrometer6.c:301-306 | the measurement vector has `4 * numberOfPlanes` entries: the z coordinates of the chosen hits, then their y coordinates |
| TrackFit.BuildMeasurements | PatternRecognition/KalmanFilter/spectrometer6.c:301-306 | the loop fills `m` with exactly those measurements |
| TrackFit.VMatrix | PatternRecognition/KalmanFilter/spectrometer6.c:310-327 | V is an `ndim x ndim` matrix |
| TrackFit.VSymmetric | PatternRecognition/KalmanFilter/spectrometer6.c:316-327 | V is symmetric |
| TrackFit.VBlocks | PatternRecognition/KalmanFilter/spectrometer6.c:316-324 | the y block equals the z block, and V is zero outside the two diagonal blocks |
| TrackFit.VFirstRow | PatternRecognition/KalmanFilter/spectrometer6.c:312-314 | `V[0][0] = s2` and `V[0][j] = 0` for `j > 0` |
| TrackFit.VRecurrence | PatternRecognition/KalmanFilter/spectrometer6.c:318 | `V[i][j] = V[i-1][j-1] + i j t2 d2` on and above the diagonal |
| TrackFit.VDiagonal | PatternRecognition/KalmanFilter/spectrometer6.c:310-327 | every measurement variance is at least the resolution squared |
| TrackFit.FillCell | PatternRecognition/KalmanFilter/spectrometer6.c:318-324 | one inner-loop pass writes the cells (i, j) and (j, i) of both blocks and nothing else |
| TrackFit.BuildV | PatternRecognition/KalmanFilter/spectrometer6.c:310-327 | the zeroing, the two corners and the index loops produce exactly V |
| TrackFit.HMatrix | PatternRecognition/KalmanFilter/spectrometer6.c:334-344 | H is an `ndim x 5` matrix |
| TrackFit.ZRowPredicts | PatternRecognition/KalmanFilter/spectrometer6.c:339-341 | a z row of H has 1 in column 0 and `i d` in column 1, so applied to a state it predicts `z0 + i d z'` |
| TrackFit.YRowPredicts | PatternRecognition/KalmanFilter/spectrometer6.c:340-343 | a y row predicts `y0 + i d y'` plus the bend term `dpdt d (0.5 + i - numberOfPlanes)` times 1/p for planes behind the magnet |
| TrackFit.ProjectionPredicts | PatternRecognition/KalmanFilter/spectrometer6.c:334-344 | H applied to any state gives the predicted measurements of every plane |
| TrackFit.BuildH | PatternRecognition/KalmanFilter/spectrometer6.c:334-344 | the zeroing and the plane loop produce exactly H |
| TrackFit.FitChi2 | PatternRecognition/KalmanFilter/spectrometer6.c:349-365 | the fit's chi-square is the quadratic form of the inverted V at the residuals `m - H x`, hence non-negative when that inverse is positive semidefinite |
| TrackFit.GlobalChi2 | PatternRecognition/KalmanFilter/spectrometer6.c:286-366 | the returned chi-square, state and covariance are the global fit of the chosen hits; the state passed in is not read |
| TrackFit.FitRecovers | PatternRecognition/KalmanFilter/spectrometer6.c:286-365 | a noiseless track is recovered: when the chosen hits are exactly the measurements a state x predicts and the 5 x 5 inversion inverts `Hᵀ V⁻¹ H`, the fit returns x, the residuals are zero and the chi-square is 0 |
| TrackFit.ExactFit | PatternRecognition/KalmanFilter/spectrometer6.c:349-362 | for measurements `m = H X` and an exact inverse of `Hᵀ V⁻¹ H`, the fitted state `C Hᵀ V⁻¹ m` is X, `R = m - H x` is zero and `Rᵀ V⁻¹ R` is 0 |
| Matrices.SolveRecovers | PatternRecognition/KalmanFilter/spectrometer6.c:349-355 | `(Hᵀ W H)⁻¹ Hᵀ W (H X) = X` when the inverse is exact, by associativity of the product |
| Search.Configure | PatternRecognition/KalmanFilter/spectrometer6.c:227-367 | the setup of one event holds the port's `kalmanFilter` step and the global fit of the chosen hits, and is valid when the hit buffers are in lockstep and the final cut lies below the `chi2min` start |
| Search.VisitThird | PatternRecognition/KalmanFilter/spectrometer6.c:525-555 | a plane-3 pass keeps the filter covariance positive definite |
| Search.Third | PatternRecognition/KalmanFilter/spectrometer6.c:525-556 | the whole plane-3 loop keeps the covariance positive definite |
| Search.VisitSecond | PatternRecognition/KalmanFilter/spectrometer6.c:513-557 | a plane-2 pass, including its `Cut1` prune and the plane-3 loop under it, keeps the covariance positive definite |
| Search.Second | PatternRecognition/KalmanFilter/spectrometer6.c:513-557 | the whole plane-2 loop keeps the covariance positive definite |
| Search.VisitThirdGrows | PatternRecognition/KalmanFilter/spectrometer6.c:525-555 | a plane-3 pass keeps every earlier candidate and fill, adds only candidates of the current hits that passed the beam cut, `Cut1` and `Cut2` with their own global fit, and fills nothing once `allsignal` is false |
| Search.ThirdGrows | PatternRecognition/KalmanFilter/spectrometer6.c:525-556 | the same for the whole plane-3 loop |
| Search.VisitSecondGrows | PatternRecognition/KalmanFilter/spectrometer6.c:513-557 | the same for a plane-2 pass, including its `Cut1` prune |
| Search.SecondGrows | PatternRecognition/KalmanFilter/spectrometer6.c:513-557 | the same for the whole plane-2 loop |
| Search.VisitFirstGrows | PatternRecognition/KalmanFilter/spectrometer6.c:494-557 | a plane-1 pass seeds the filter and only appends sound candidates, keeping the earlier ones and the fills |
| Search.FirstGrows | PatternRecognition/KalmanFilter/spectrometer6.c:494-558 | the same for the whole plane-1 loop |
| Search.VisitZeroGrows | PatternRecognition/KalmanFilter/spectrometer6.c:486-558 | a plane-0 pass applies the beam cut and only appends sound candidates |
| Search.ZeroGrows | PatternRecognition/KalmanFilter/spectrometer6.c:486-559 | the same for the whole plane-0 loop |
| Search.Searched | PatternRecognition/KalmanFilter/spectrometer6.c:478-561 | the search starts from no candidates and every candidate it yields is sound |
| Search.CandidatesSound | PatternRecognition/KalmanFilter/spectrometer6.c:486-545 | every candidate passed the `|y0| <= 4 pixelSize` beam cut, `Cut1` at plane 2 and `Cut2` at plane 3, and carries its own global fit |
| Search.EmptyPlaneNoCandidate | PatternRecognition/KalmanFilter/spectrometer6.c:486-559 | a plane without hits leaves no candidate |
| Search.FoldBestIsFirstMinimum | PatternRecognition/KalmanFilter/spectrometer6.c:547-555 | the `chi2 < chi2min` update keeps the first candidate of smallest chi-square, and nothing changes when none is below the start |
| Search.FirstMinimumExists | PatternRecognition/KalmanFilter/spectrometer6.c:547-555 | when some candidate is below the starting `chi2min`, a first candidate of smallest chi-square exists |
| Search.Selected | PatternRecognition/KalmanFilter/spectrometer6.c:547-555 | a lowered `chi2min` comes from some candidate, and no candidate is below it |
| Search.FoldBestLower | PatternRecognition/KalmanFilter/spectrometer6.c:547-555 | the selected chi-square is at most the start and at most every candidate's |
| Search.FoldBestFewer | PatternRecognition/KalmanFilter/spectrometer6.c:547-555 | selecting among a subset of the candidates never gives a smaller chi-square than selecting among all |
| Search.VisitThirdTighter | PatternRecognition/KalmanFilter/spectrometer6.c:525-555 | with `Cut2` or `Cut3` tighter and `Cut1` kept, a plane-3 pass reaches the same filter state, the same fills and `allsignal`, and a subset of the candidates |
| Search.ThirdTighter | PatternRecognition/KalmanFilter/spectrometer6.c:525-556 | the same for the whole plane-3 loop |
| Search.VisitSecondTighter | PatternRecognition/KalmanFilter/spectrometer6.c:513-557 | the same for a plane-2 pass |
| Search.SecondTighter | PatternRecognition/KalmanFilter/spectrometer6.c:513-557 | the same for the whole plane-2 loop |
| Search.VisitFirstTighter | PatternRecognition/KalmanFilter/spectrometer6.c:494-557 | the same fills and `allsignal`, and a subset of the candidates, for a plane-1 pass |
| Search.FirstTighter | PatternRecognition/KalmanFilter/spectrometer6.c:494-558 | the same for the whole plane-1 loop |
| Search.VisitZeroTighter | PatternRecognition/KalmanFilter/spectrometer6.c:486-558 | the same for a plane-0 pass |
| Search.ZeroTighter | PatternRecognition/KalmanFilter/spectrometer6.c:486-559 | the same for the whole plane-0 loop |
| Search.SearchedTighter | PatternRecognition/KalmanFilter/spectrometer6.c:478-561 | tighter `Cut2` and `Cut3` with `Cut1` kept make the search find a subset of the candidates, with the same fills |
| Search.AcceptedIsCandidate | PatternRecognition/KalmanFilter/spectrometer6.c:478-561 | a returned chi-square below `1e7` comes from valid hits whose plane-0 hit is inside the beam, with `xbest`/`Cbest` its fit, and no candidate has a smaller chi-square |
| Search.Consider | PatternRecognition/KalmanFilter/spectrometer6.c:541-555 | the global fit of a survivor replaces `chi2min`, `ibest`, `xbest` and `Cbest` only when strictly smaller |
| Search.ThirdHit | PatternRecognition/KalmanFilter/spectrometer6.c:525-555 | one plane-3 pass of the C loop: filter into the shared state, fill h12 while `allsignal`, prune at `Cut2`, keep a strictly better fit |
| Search.ScanThird | PatternRecognition/KalmanFilter/spectrometer6.c:525-556 | the C plane-3 loop computes the specified pass sequence and best-so-far |
| Search.SecondHit | PatternRecognition/KalmanFilter/spectrometer6.c:513-557 | one plane-2 pass of the C loop: filter into the shared state without reset, fill h11, prune at `Cut1`, then plane 3 |
| Search.ScanSecond | PatternRecognition/KalmanFilter/spectrometer6.c:513-557 | the C plane-2 loop computes the specified pass sequence and best-so-far |
| Search.Reco4 | PatternRecognition/KalmanFilter/spectrometer6.c:478-561 | `reco4` returns the selected `chi2min` and writes `ibest`, `xbest` and `Cbest` of the first strict minimum (unchanged when nothing survives), with the histogram fills in order |
| Search.ThirdHitPy | PatternRecognition/KalmanFilter/kalman_testbeam.py:462-488 | one plane-3 pass of the Python loop, which rebinds `z`, `Cz` from the filter result |
| Search.ScanThirdPy | PatternRecognition/KalmanFilter/kalman_testbeam.py:462-488 | the Python plane-3 loop computes the specified pass sequence |
| Search.SecondHitPy | PatternRecognition/KalmanFilter/kalman_testbeam.py:450-488 | one plane-2 pass of the Python loop, continuing from the previous sibling's state |
| Search.ScanSecondPy | PatternRecognition/KalmanFilter/kalman_testbeam.py:450-488 | the Python plane-2 loop computes the specified pass sequence |
| Search.FirstHitPy | PatternRecognition/KalmanFilter/kalman_testbeam.py:437-488 | one Python plane-1 hit seeds the state and covariance from the two hits, and the pass over plane 2 performs the specified plane-1 visit, keeping the running best equal to the fold over the candidates |
| Search.Reco4Py | PatternRecognition/KalmanFilter/kalman_testbeam.py:418-489 | the Python `reco4` returns the same selection's `chi2min` and `ibest`; its `xbest`/`Cbest` stay local |
| Bookkeeping.RealPlanes | PatternRecognition/KalmanFilter/spectrometer6.c:651-659 | `nRealHits` counts planes, at most one per plane |
| Bookkeeping.RealPlanesAll | PatternRecognition/KalmanFilter/spectrometer6.c:689 | `nRealHits > 2 numberOfPlanes - 1` holds exactly when every plane has a real hit |
| Bookkeeping.NoiseOnTrack | PatternRecognition/KalmanFilter/spectrometer6.c:723-724 | a track adds at most one noise hit per plane |
| Bookkeeping.CleanIffNoNoise | PatternRecognition/KalmanFilter/spectrometer6.c:722-724 | a track adds no noise hit exactly when none of its chosen hits is noise |
| Bookkeeping.MarkUsed | PatternRecognition/KalmanFilter/spectrometer6.c:726 | flagging used hits keeps every plane's length |
| Bookkeeping.UsedHitsOffChip | PatternRecognition/KalmanFilter/spectrometer6.c:726 | a used hit is set outside its chip, so a used plane-0 hit fails the beam cut; other hits are untouched |
| Bookkeeping.Judge | PatternRecognition/KalmanFilter/spectrometer6.c:649-692 | a reconstructed outcome counts at most one noise hit per plane |
| Bookkeeping.Tally | PatternRecognition/KalmanFilter/spectrometer6.c:660-722 | each event increments exactly one of inefficient, rejected and reconstructed, adds its hits to `nTotalHits`, and keeps the counters consistent |
| Bookkeeping.JudgeCases | PatternRecognition/KalmanFilter/spectrometer6.c:649-692 | inefficient iff some plane is empty; otherwise reconstructed iff `chi2min <= Cut3`; a good rejection iff every plane has a real hit; a clean track iff no chosen hit is noise |
| Bookkeeping.RefitAgrees | PatternRecognition/KalmanFilter/spectrometer6.c:696 | refitting the selected hits gives back `chi2min`, `xbest` and `Cbest` |
| Bookkeeping.TighterCutsAcceptLess | PatternRecognition/KalmanFilter/spectrometer6.c:678-691 | with `Cut2` or `Cut3` tighter and `Cut1` kept, the selected `chi2min` never falls, and an event reconstructed under the tighter cuts is reconstructed under the looser ones |
| Bookkeeping.Pack | PatternRecognition/KalmanFilter/spectrometer6.c:711-716 | `ep` has 25 entries |
| Bookkeeping.Params | PatternRecognition/KalmanFilter/spectrometer6.c:711-714 | `p` has 5 entries |
| Bookkeeping.TrackRecord | PatternRecognition/KalmanFilter/spectrometer6.c:563-592 | a track record has the fifteen entries of `tracks` |
| Bookkeeping.RecordedTrack | PatternRecognition/KalmanFilter/spectrometer6.c:563-592 | the record holds the fitted z0, dz/dx and 1/p, the measured y slope between planes 0 and 1, the truth `(0, thetaxz, 0, 0, 1/p)`, and `sqrt` of the covariance diagonal as errors |
| Bookkeeping.SelectedRecord | PatternRecognition/KalmanFilter/spectrometer6.c:711-717 | the stored record of an accepted event has fifteen entries |
| Bookkeeping.Stored | PatternRecognition/KalmanFilter/spectrometer6.c:566-591 | `storeTrack` pushes entry j of the record onto `tracks[j]` and nothing else |
| Bookkeeping.InefficientOutcome | PatternRecognition/KalmanFilter/spectrometer6.c:661-668 | an event with an empty plane is inefficient |
| Bookkeeping.RejectedOutcome | PatternRecognition/KalmanFilter/spectrometer6.c:687-692 | a best chi-square above `Cut3` is a rejection, good iff every plane has a real hit |
| Bookkeeping.AcceptedOutcome | PatternRecognition/KalmanFilter/spectrometer6.c:687-717 | a best chi-square within `Cut3` is reconstructed with the track's noise count, its refit agrees and its record is the stored one |
| Bookkeeping.CountHits | PatternRecognition/KalmanFilter/spectrometer6.c:649-663 | the counting loop yields `nRealHits`, the event's hit count, and `reject` iff some plane is empty |
| Bookkeeping.Signal | PatternRecognition/KalmanFilter/spectrometer6.c:699-700 | `allsignal` holds iff no chosen hit is noise |
| Bookkeeping.PackFit | PatternRecognition/KalmanFilter/spectrometer6.c:711-716 | the packing loops copy `xbest` column 0 into `p` and `Cbest` row by row into `ep` |
| Bookkeeping.SelectTrack | PatternRecognition/KalmanFilter/spectrometer6.c:673-684 | with fresh `xbest`, `Cbest` and `ibest`, `reco4` yields the event's selection |
| Bookkeeping.SelectTrackPy | PatternRecognition/KalmanFilter/kalman_testbeam.py:598-609 | the Python event's `reco4` yields the same selection's `chi2min` and `ibest` |
| Bookkeeping.Simulate | PatternRecognition/KalmanFilter/spectrometer6.c:633-640 | after the clear and `propagateTrack`, plane j holds exactly the hits of its draws, in lockstep |
| Bookkeeping.Run.constructor | PatternRecognition/KalmanFilter/spectrometer6.c:97-103 | all counters start at zero and the fifteen track vectors empty |
| Bookkeeping.Run.NewEvent | PatternRecognition/KalmanFilter/spectrometer6.c:632 | the fifteen track vectors are cleared; counters are untouched |
| Bookkeeping.Run.StoreTrack | PatternRecognition/KalmanFilter/spectrometer6.c:563-605 | `storeTrack` pushes the record of the chosen hits and packed fit onto the track vectors, counters untouched |
| Bookkeeping.Run.FlagTrack | PatternRecognition/KalmanFilter/spectrometer6.c:723-727 | the last loop adds the track's noise hits to `nNoiseHitsOnTrack` and moves its y hits off the chips |
| Bookkeeping.Run.CountRejected | PatternRecognition/KalmanFilter/spectrometer6.c:687-689 | a rejection increments the rejected counter, and the good one when every plane had a real hit |
| Bookkeeping.Run.StoreFit | PatternRecognition/KalmanFilter/spectrometer6.c:711-717 | the packing loops and `storeTrack` push the record of the fit |
| Bookkeeping.Run.CountReconstructed | PatternRecognition/KalmanFilter/spectrometer6.c:719-722 | a track increments the reconstructed counter, and the good one when `allsignal` |
| Bookkeeping.Run.CountTrack | PatternRecognition/KalmanFilter/spectrometer6.c:699-727 | an accepted track updates the counters as the reconstructed outcome and flags its hits |
| Bookkeeping.Run.Accept | PatternRecognition/KalmanFilter/spectrometer6.c:711-727 | an accepted track is stored, counted and flagged |
| Bookkeeping.Run.Analyse | PatternRecognition/KalmanFilter/spectrometer6.c:672-727 | with every plane hit, the search's outcome decides the counters; only an accepted track changes `yHits` and the track vectors |
| Bookkeeping.Run.Reconstruct | PatternRecognition/KalmanFilter/spectrometer6.c:649-727 | the reconstruction of one event updates the counters by its outcome and hit count; an accepted track is stored and flagged, otherwise hits and tracks are unchanged |
| Bookkeeping.Run.ReconstructPy | PatternRecognition/KalmanFilter/kalman_testbeam.py:576-649 | the Python event updates the counters by the same outcome as `doall`, with the port's `reco4`, and flags an accepted track's hits |
| Bookkeeping.Run.AnalysePy | PatternRecognition/KalmanFilter/kalman_testbeam.py:596-649 | the Python `Cut3` rejection or accepted track after the hit count |
| Bookkeeping.Run.ProcessEvent | PatternRecognition/KalmanFilter/spectrometer6.c:624-728 | one event of `doall`: the buffers hold the simulated hits of the draws, the counters advance by exactly that event's outcome, and each track vector holds one entry iff the track was reconstructed |
| HoughLines.EdgePixelsInside | PatternRecognition/HoughTransform/demo_hough_lines.py:40-44 | only pixels inside the image with `image[y, x] > 0` vote |
| HoughLines.EdgePixelCount | PatternRecognition/HoughTransform/demo_hough_lines.py:40-44 | conversely, every pixel inside the image with `image[y, x] > 0` votes exactly once, and no other pixel votes, so the column sums count the positive pixels |
| HoughLines.RoundedDiagonalRange | PatternRecognition/HoughTransform/demo_hough_lines.py:29 | `Maxdist`, the rounded diagonal, is between 1 and `Nx + Ny` for a non-empty image |
| HoughLines.DiagonalBound | PatternRecognition/HoughTransform/demo_hough_lines.py:29 | every pixel's distance to the origin is below `Maxdist` |
| HoughLines.VoteRowInRange | PatternRecognition/HoughTransform/demo_hough_lines.py:48-53 | the row `int(r) + Maxdist` lies in `[1, 2 Maxdist - 1]`, inside the accumulator as the comment promises |
| HoughLines.RowInside | PatternRecognition/HoughTransform/demo_hough_lines.py:48-53 | for a pixel inside the image and a unit direction, `int(r)` lies strictly between `-Maxdist` and `Maxdist` when the far corner is closer than `Maxdist` |
| HoughLines.RadiusBelow | PatternRecognition/HoughTransform/demo_hough_lines.py:48 | a point of the box `[0, a] x [0, b]` projected on a unit direction stays strictly within any bound exceeding the box's diagonal |
| HoughLines.VotesStayInAccumulator | PatternRecognition/HoughTransform/demo_hough_lines.py:46-53 | every vote of every edge pixel at every angle stays inside the accumulator |
| HoughLines.HoughLine | PatternRecognition/HoughTransform/demo_hough_lines.py:23-55 | the accumulator has `2 Maxdist` rows and 180 columns, and cell (row, k) counts the edge pixels whose row at angle k is `row` |
| HoughLines.ScanImage | PatternRecognition/HoughTransform/demo_hough_lines.py:40-53 | the two pixel loops leave in cell (row, k) of a zero accumulator the number of edge pixels whose row at angle k is `row` |
| HoughLines.ScanPixel | PatternRecognition/HoughTransform/demo_hough_lines.py:41-53 | one pixel of the row loop adds its votes exactly when it is an edge pixel |
| HoughLines.ScanRow | PatternRecognition/HoughTransform/demo_hough_lines.py:41-53 | the pixel loop of one image row adds that row's edge pixels' votes |
| HoughLines.CastVotes | PatternRecognition/HoughTransform/demo_hough_lines.py:46-53 | one edge pixel adds exactly 1 to one row of every column |
| HoughLines.Vote | PatternRecognition/HoughTransform/demo_hough_lines.py:53 | `accumulator[row, k] += 1` adds `row` to column k's counts and leaves the other columns unchanged |
| HoughLines.ColumnSumIsEdgeCount | PatternRecognition/HoughTransform/demo_hough_lines.py:46-53 | every column sums to the number of edge pixels |
| HoughLines.ColumnInRange | PatternRecognition/HoughTransform/demo_hough_lines.py:51-53 | every row index a column receives is inside the accumulator |
| HoughLines.BlankImageNoEdges | PatternRecognition/HoughTransform/demo_hough_lines.py:40-44 | an image without a positive pixel has no edge pixels, so the accumulator stays zero |
| HoughCircles.Zip | PatternRecognition/HoughTransform/demo_hough_circles.py:57 | `zip` pairs up to the shorter list |
| HoughCircles.Conformed | PatternRecognition/HoughTransform/demo_hough_circles.py:57-65 | the conformal output is no longer than the input |
| HoughCircles.NonOrigin | PatternRecognition/HoughTransform/demo_hough_circles.py:58-60 | only input points other than the origin are kept |
| HoughCircles.Conformal | PatternRecognition/HoughTransform/demo_hough_circles.py:54-67 | both output lists have the same length, and pair i is the i-th mapped point |
| HoughCircles.ConformedIsMapOfNonOrigin | PatternRecognition/HoughTransform/demo_hough_circles.py:57-65 | the output maps `(x, y)` to `(2x/(x²+y²), 2y/(x²+y²))` for exactly the non-origin points, in order |
| HoughCircles.InvertInvolution | PatternRecognition/HoughTransform/demo_hough_circles.py:61-62 | the map sends no point to the origin and undoes itself |
| HoughCircles.ConformalTwice | PatternRecognition/HoughTransform/demo_hough_circles.py:54-67 | mapping the output once more gives back the non-origin input points |
| HoughCircles.PointRadii | PatternRecognition/HoughTransform/demo_hough_circles.py:113-115 | one point has a radius per angle |
| HoughCircles.FoldBounds | PatternRecognition/HoughTransform/demo_hough_circles.py:109-117 | `rmin` is at most and `rmax` at least every radius seen |
| HoughCircles.FoldAttained | PatternRecognition/HoughTransform/demo_hough_circles.py:109-117 | `rmin` and `rmax` are either their start values or radii seen |
| HoughCircles.RadiusRange | PatternRecognition/HoughTransform/demo_hough_circles.py:109-117 | the first pass computes the running extremes from `1e6` and `-1e6` |
| HoughCircles.ScanPoint | PatternRecognition/HoughTransform/demo_hough_circles.py:113-117 | the angle loop of one point extends the running extremes |
| HoughCircles.Step | PatternRecognition/HoughTransform/demo_hough_circles.py:118 | `rstep = (rmax - rmin)/200` is positive for a proper range and zero exactly for a collapsed one |
| HoughCircles.RadiiContains | PatternRecognition/HoughTransform/demo_hough_circles.py:109-117 | every radius of every point at every angle is among the radii the first pass visits |
| HoughCircles.RowIndexRange | PatternRecognition/HoughTransform/demo_hough_circles.py:133-134 | a radius in `[rmin, rmax]` has a non-negative row, below 200 iff below `rmax` |
| HoughCircles.RadiusWithinRange | PatternRecognition/HoughTransform/demo_hough_circles.py:123-133 | every radius of the second pass lies in `[rmin, rmax]` |
| HoughCircles.Vote | PatternRecognition/HoughTransform/demo_hough_circles.py:133-135 | a row index is counted in its column when below 200, and other columns are untouched |
| HoughCircles.AddPoint | PatternRecognition/HoughTransform/demo_hough_circles.py:125-135 | the angle loop of one point adds its votes |
| HoughCircles.HoughLine | PatternRecognition/HoughTransform/demo_hough_circles.py:88-137 | the accumulator is 200 x 180 and cell (row, k) counts the points with that row at angle k; with points and a collapsed range the conversion of the second pass fails |
| HoughCircles.ScanPoints | PatternRecognition/HoughTransform/demo_hough_circles.py:123-135 | the second pass leaves in cell (row, k) of a zero accumulator the number of points whose row index at angle k is `row` |
| HoughCircles.MinBelowMax | PatternRecognition/HoughTransform/demo_hough_circles.py:109-118 | with at least one point, `rmin <= rmax` |
| HoughCircles.ColumnAtMostPoints | PatternRecognition/HoughTransform/demo_hough_circles.py:123-135 | each point adds at most 1 per column |
| HoughCircles.CountedIffBelowMax | PatternRecognition/HoughTransform/demo_hough_circles.py:133-135 | a point is counted in column k exactly when its radius there is below `rmax`; `rmax` itself is never counted |
| GausClassifier.RotationInverse | MVA/gaus_classifier.py:45-50 | with `cos² + sin² = 1`, rotating back by the opposite angle restores the point and the rotation keeps the distance to the origin |
| GausClassifier.Point | MVA/gaus_classifier.py:66-73 | every kept entry is the pair `[x1, x2]` after the rotation |
| GausClassifier.SplitCounts | MVA/gaus_classifier.py:71-76 | every entry lands in exactly one list; one in a thousand trains, and the k-th training point is entry 1000 k |
| GausClassifier.TestingOrder | MVA/gaus_classifier.py:71-76 | the testing list holds the other entries in order: its k-th point is entry `k + k/999 + 1` |
| GausClassifier.ProgressEvery | MVA/gaus_classifier.py:63 | the progress interval `int(ns * 0.1)` is `ns / 10` rounded down |
| GausClassifier.ReadLoop | MVA/gaus_classifier.py:61-78 | the entry loop fails with a division by zero exactly when the interval is 0 and there is an entry; otherwise it returns the split |
| GausClassifier.ReadTr | MVA/gaus_classifier.py:53-78 | `read_tr` as written fails exactly for trees of 1 to 9 entries, and otherwise returns the split |
| GausClassifier.ReadTrFixed | MVA/gaus_classifier.py:53-78 | with the interval at least 1, every tree is split |
| GausClassifier.Mean | MVA/gaus_classifier.py:109-110 | `mean[j] * N` is the column total |
| GausClassifier.MeanCentres | MVA/gaus_classifier.py:101-110 | the deviations from the mean sum to zero in each column |
| GausClassifier.Cov | MVA/gaus_classifier.py:113-128 | the covariance is `nd x nd` |
| GausClassifier.CovProperties | MVA/gaus_classifier.py:113-128 | the covariance is symmetric with a non-negative diagonal |
| GausClassifier.Totals | MVA/gaus_classifier.py:101-107 | the totals loop adds each datum's entries, and fails exactly when a datum is longer than `nd` |
| GausClassifier.MeanLoop | MVA/gaus_classifier.py:109-110 | `l_mean[j] = l_tot[j] / N` |
| GausClassifier.Spreads | MVA/gaus_classifier.py:113-121 | the accumulation loop sums `(x_j - mean_j)(x_k - mean_k)` over the data |
| GausClassifier.AddDatum | MVA/gaus_classifier.py:115-119 | one datum adds its products of deviations to the cells of its own entries |
| GausClassifier.Normalise | MVA/gaus_classifier.py:123-128 | the normaliser divides the cells of the last datum's entries by `N - 1`, failing when `N = 1` |
| GausClassifier.Moments | MVA/gaus_classifier.py:109-128 | from the totals, the loops yield the mean and covariance, failing exactly for a single datum |
| GausClassifier.GetStat | MVA/gaus_classifier.py:87-136 | `get_stat` returns None for no data, raises exactly the input's exception (an empty or one-entry first list, a longer datum, a single datum), and otherwise returns the mean and covariance |
| GausClassifier.Deviation | MVA/gaus_classifier.py:336-338 | the column `x - mean`, failing when the mean is shorter than the point |
| GausClassifier.QuadLoop | MVA/gaus_classifier.py:349-353 | the double loop computes the quadratic form of the inverse covariance, equal to the product `m_x_t * icov * m_x` of the commented formula |
| GausClassifier.RGaus | MVA/gaus_classifier.py:331-380 | `r_gaus` returns 0 or 1, and 1 exactly when `r_s < r_b + 2 log(pi0/pi1) + log(det_b/det_s)`; it raises exactly the index, division and log-domain errors of its input |
| GausClassifier.SwapNegates | MVA/gaus_classifier.py:376-380 | swapping signal and background negates the score, so no point passes both tests |
| Matrices.SandwichIsQuadForm | MVA/gaus_classifier.py:350-353 | the 1 x 1 product `vᵀ A v` is the double-loop quadratic form |

## Left out

- `reco6` (spectrometer6.c:369-476) is not modelled. It runs only when `numberOfPlanes > 2`, and both programs fix `numberOfPlanes = 2`. The Python `numberOfPlanes > 2` branch that skips the event is dead for the same reason.
- Random number generation is replaced by per-plane draw records given as inputs: `TRandom3` `Gaus`, `Uniform` and `Poisson`, and `np.random`. The noise generator `addNoise` of the circles demo and the hit reading `readHits` are not part of this model.
- Trigonometric and transcendental functions are parameters: `atan`, `tan`, `cos`, `sin`, `sqrt` and `log`. So are the general inverse and the determinant of `TMatrixD`, which return whatever the caller supplies.
- `TrackFit.GlobalChi2`: the 8 x 8 and 5 x 5 inversions are an `inv` parameter. The chi-square is non-negative only when `inv(V)` is positive semidefinite. Recovery of a noiseless track (`TrackFit.FitRecovers`) holds only when `inv` inverts `Hᵀ V⁻¹ H` exactly.
- `Kalman.Step`: requires a positive-definite `C`, stronger than semidefinite, because the update inverts `Cpz`. The search keeps this property through every sibling update.
- `Search.SearchedTighter` and `Bookkeeping.TighterCutsAcceptLess` cover tightening `Cut2` and `Cut3` only, not `Cut1`. Tightening `Cut1` skips the plane-3 loop under a plane-2 hit. That loop's `kalmanFilter` calls would have overwritten the shared `z` and `Cz` (spectrometer6.c:513-557). Later plane-2 siblings are then filtered from a different state, so their chi-squares, prunes and candidates are not a subset of the looser search's.
- Float and double rounding, and the `float chi2min` of the C code, are modelled as exact reals. So is `int(ns * 0.1)`.
- `Kalman.KalmanFilterPy` models the step that the commented formulas of kalman_testbeam.py:282, 304 and 315 describe. With ROOT's `TMatrixD` semantics, the port's statements compute something else.
  - `T()` transposes in place and returns the same object. So `FTz = Fz.T()` makes `FTz` an alias of `Fz`, and the following `Fz.T()` transposes both back (kalman_testbeam.py:260-261).
  - So `Cpz = Fz C Fz + Qz` with the untransposed propagator, and its (0, 0) entry is `C00 + d C10 + t0² d²`.
  - `zpred *= z` (kalman_testbeam.py:292) is refused by ROOT's shape check while `z` is the 2 x 1 seed, because an in-place product needs a square operand. So `zpred` stays `Fz`, and the chi-square is `(hit - 1)² / (s2 + Cpz00)`.
  - `Ctmp += znew` (kalman_testbeam.py:321) adds a 2 x 1 matrix to a 2 x 2 one and is refused too. So the returned `z` is the 2 x 2 matrix `C Cpz⁻¹ Fz`. From the second call on, `zpred *= z` multiplies by that square matrix.
  - None of this as-written arithmetic is modelled.
- The Python port's runtime defects are not modelled.
  - What they are:
    - `globalChi2` assigns `R`, so `R.TMatrixD` is an unbound local (kalman_testbeam.py:353 and 402);
    - the `V` loop starts at 0 (kalman_testbeam.py:366);
    - `ibest = []` is indexed (kalman_testbeam.py:600 and 482);
    - `p` and `ep` are empty lists (kalman_testbeam.py:634-638);
    - `sqrt` is not imported (kalman_testbeam.py:516).
  - How the model works around them:
    - `Search.Reco4Py` uses the intended fit and a four-slot `ibest`.
    - `Bookkeeping.Run.ReconstructPy` counts and flags an accepted track without the refit and `storeTrack`, which as written cannot run.
- `Bookkeeping.SelectTrack`: the C `ibest` array is uninitialised before `reco4`. It is modelled as zeros, and it is read only after an accepted selection, which writes every slot.
- Histograms, canvases, printing and debug output are left out: the `Fill` calls, `Print`, and the progress print of `read_tr`. The `h11`/`h12` fills of `reco4` are returned as a list of fills.
- `do_rotation` is modelled with the script's `doRotation = 1`, so the unrotated branch is not modelled.
- `GausClassifier.RGaus`: requires the inverses to be `nd x nd`. ROOT reads NaN outside a matrix, and that behaviour is not modelled. The determinant out-argument of `Invert` is ignored.
- `get_stat` data are lists of numbers (`Sample.Rows`) or plain numbers (`Sample.Scalars`). Mixtures of the two are not modelled.
- Both `houghLine` functions also return `thetas` and `rs` (demo_hough_lines.py:33-35 and 55, demo_hough_circles.py:137). These are the angle grid and the radius axis for plotting. The model fixes the 180 angles as the `cos`/`sin` inputs and does not build `rs`.
- `gaus_2d`, the TMVA, RooFit and RooStats scripts, and the Pythia and FastJet examples are not part of this model.

## Findings

| source | as written | input that shows it | evidently intended | confidence | as-written member | corrected member |
|---|---|---|---|---|---|---|
| MVA/gaus_classifier.py:63 | the progress check `i % int(ns*0.1)` divides by zero when the tree has fewer than 10 entries | a tree with 5 entries: `int(0.5) = 0` at `i = 0` | a progress interval of at least 1, so every tree is split | not executed | GausClassifier.ReadTr | GausClassifier.ReadTrFixed |
