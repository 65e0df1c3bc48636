# Ball-on-a-slope motion analysis: a Dafny model

This project models the measurement core of `script.js`, a browser tool that films a ball
rolling down a slope and estimates its acceleration. It covers the following parts:

- **Colour classification** (`Color`): `rgbToHsv` and the HSV window of the ochre ball. The
  window is hue 28-55 degrees, saturation at least 0.22, value at least 0.45, and a
  channel-sum test against 120.
- **The pixel buffer** (`Pixels`): the canvas's RGBA bytes in row-major order, four per pixel.
- **Detection** (`Detection`): `detectBall` is a strided scan. It averages the coordinates of
  the ball-coloured pixels it visits and reports nothing below 40 pixels.
- **Calibration** (`Calibration`): `estimatePxToMeter` is a full scan that collects the
  ball-coloured pixels. Their bounding box's larger side is taken to span the ball's 0.15 m
  diameter. There is no result below 200 pixels or for a box of at most 2 pixels.
- **Matrix helpers** (`Matrices`): `identity`, `transpose`, `matMul`, `add`, `sub` and
  `inv2x2`. `inv2x2` substitutes 1e12 times the identity when the determinant's magnitude
  is below 1e-12.
- **The Kalman filter** (`Kalman`): `createKalman` tracks the state [x, vx, y, vy] with a
  constant-velocity transition and measures x and y. The filter object is a class with its
  two matrices as fields.
- **The frame loop** (`Tracking`): the state-changing part of `processFrame`. Calibration is
  latched once. Every detection adds a raw sample, in metres once calibrated. Calibrated
  detections seed the filter, or predict and update it, over a step of at least 1 ms. Each
  such detection then records the filtered state.
- **The fit** (`Regression`): the regression in `finalize` fits a line v = a t through the
  origin to the filtered samples' times and speeds.

Numbers are modelled as mathematical reals. A JavaScript `NaN` or `null` is `None` of an
`Option`. The model follows the code wherever the prose description of the tool differs:

- Detection tests the channel sum with `>= 120`, while calibration tests it with `> 120`.
  Both are modelled as written. `Color.TestsAgreeOnBytes` proves that the two tests accept
  exactly the same byte triples, so the difference is harmless.
- The frame loop detects at stride 2, the stride in the code. It does not use a finer
  stride for the offline pass.
- The first calibrated detection already records a filtered sample: the seeded state, with
  the measured position and zero velocity (`Tracking.FirstDetectionSeeds`). The code
  records the filter's state after every calibrated detection, the seeding one included.

## Model

| member | source | states |
|---|---|---|
| Color.HsvRanges | script.js:65-78 | on bytes the value is max/255, the saturation lies in [0, 1] (0 on black and greys), and the hue lies in [0, 360) (0 on greys) |
| Color.RgbToHsv | script.js:65-78 | a grey (r = g = b) has hue 0, saturation 0 and value r/255; the value is never below any scaled channel |
| Color.HueSectors | script.js:71-75 | the hue sector follows the largest channel, with ties resolved red, then green: red gives [0, 60] or [300, 360), green [60, 180], blue [180, 300] |
| Color.RedHue | script.js:72 | red largest: hue in [0, 60] when green is at least blue, else in [300, 360) |
| Color.RedHueAboveBlue | script.js:72 | red largest and blue above green: the +6 wrap puts the hue in [300, 360) |
| Color.GreenHue | script.js:73 | green largest and above red: hue in [60, 180] |
| Color.BlueHue | script.js:74 | blue strictly largest: hue in [180, 300] |
| Color.RedSectorHue | script.js:72-75 | with r >= g >= b and r > b, the hue is 60 (g - b) / (r - b); the /255 scaling cancels |
| Color.IsBallColour | script.js:95-97 | a pixel accepted by detection has a channel sum of at least 120 and is not grey |
| Color.IsBallColourStrict | script.js:118 | a pixel accepted by calibration is accepted by detection too, and its channel sum is not exactly 120 |
| Color.NoMatchAtChannelSumBound | script.js:95-118 | no byte triple whose channels sum to exactly 120 passes the HSV window, so the sum tests at lines 97 and 118 differ on no pixel |
| Color.TestsAgreeOnBytes | script.js:95-118 | detection's `>= 120` test (line 97) and calibration's `> 120` test (line 118) accept exactly the same byte triples (both directions) |
| Pixels.PixelIndexInRange | script.js:91 | the index (y W + x) 4 of every in-frame pixel leaves room for its four bytes |
| Pixels.PixelAt | script.js:92 | the red, green and blue values read for an in-frame pixel are bytes |
| Detection.ScanPixel | script.js:91-97 | the loop body's verdict on pixel (x, y) is exactly the ball-colour test on its bytes |
| Detection.DetectBall | script.js:84-103 | the nested strided loop computes the blob of the grid tally: None below 40 pixels, else the mean coordinates and the count |
| Detection.BlobOf | script.js:101-102 | no blob exactly below 40 pixels; otherwise the blob keeps the count and its centre times the count gives back the coordinate sums, so it is their mean |
| Detection.DetectionInFrame | script.js:101-102 | None exactly when fewer than 40 pixels qualify; a blob has count >= 40 and its centroid inside [0, W-1] x [0, H-1] |
| Detection.RowSumBounds | script.js:98 | over one row, the x sum is at most count (W-1) and the y sum is exactly count y |
| Detection.GridSumBounds | script.js:89-100 | over the scan, the x sum is at most count (W-1) and the y sum at most count (H-1) |
| Detection.DetectionSeesOnlyGrid | script.js:89-91 | two images that agree on every pixel whose coordinates are stride multiples give the same detection |
| Detection.DetectionCountsGridHits | script.js:89-100 | the count equals the number of qualifying pixels on the stride grid: each is visited exactly once |
| Detection.RowCountIsHits | script.js:91-99 | one row's count is the size of the row's set of qualifying grid pixels |
| Detection.GridCountIsHits | script.js:89-100 | the count from row y on is the size of the set of qualifying grid pixels from row y on |
| Calibration.CalibPixel | script.js:116-120 | the first pass's verdict on pixel (x, y) is exactly calibration's colour test on its bytes |
| Calibration.CollectPoints | script.js:112-122 | the row-by-row loop collects exactly the candidate list Points, in scan order |
| Calibration.BoundingBox | script.js:124-130 | the second loop's four bounds are the smallest and largest x and y of the candidates |
| Calibration.EstimatePxToMeter | script.js:109-134 | the result is ScaleOf of the candidates: None below 200 candidates or for a larger box side <= 2, else 0.15 / side |
| Calibration.ScaleOf | script.js:123-133 | a scale exactly when there are at least 200 candidates and the larger box side exceeds 2; the scale times that side is 0.15 m |
| Calibration.LoHiBounds | script.js:124-130 | the low and high bounds bound every candidate's coordinate, and each is attained by some candidate |
| Calibration.CollectedAreCandidates | script.js:113-121 | a point is collected exactly when it is in the frame and passes calibration's colour test |
| Calibration.CollectedInScanOrder | script.js:113-121 | the candidates are in row-major order and no point is collected twice |
| Calibration.CalibMatchesDetection | script.js:95-118 | on every pixel, calibration's test (line 118) and detection's test (lines 95-97) agree |
| Calibration.ScaleSpansBall | script.js:131-133 | a scale s is in (0, 0.05]; at s no two candidates are more than 0.15 m apart along either axis, and some pair is exactly 0.15 m apart along one axis |
| Calibration.PointsInFrame | script.js:113-121 | every collected point lies inside the frame |
| Matrices.Identity | script.js:185-187 | an n x n matrix with `scale` on the diagonal and 0 elsewhere |
| Matrices.Transpose | script.js:188 | the transpose has the swapped shape and entry (i, j) equal to A's entry (j, i) |
| Matrices.Add | script.js:202 | the sum has the shape of A, and subtracting B from each entry gives back A's entry |
| Matrices.Sub | script.js:203 | the difference has the shape of A, and adding B to each entry gives back A's entry |
| Matrices.Inv2x2 | script.js:204-209 | below a determinant magnitude of 1e-12 the result is 1e12 times the identity; otherwise the determinant times the result is the adjugate [[d, -b], [-c, a]] |
| Matrices.TransposeInvolution | script.js:188 | transposing twice gives back the matrix |
| Matrices.SubUndoesAdd | script.js:202-203 | sub(add(A, B), B) == A |
| Matrices.MatMul | script.js:189-201 | the i-k-j accumulation loop computes the mathematical product Product(A, B) |
| Matrices.IdentityLeftUnit | script.js:185-201 | the product of identity(n) with A is A |
| Matrices.Inv2x2Inverts | script.js:204-209 | with a determinant of magnitude at least 1e-12 the result is a two-sided inverse; below that it is 1e12 times the identity |
| Kalman.PredictAdvancesPositions | script.js:154-161 | prediction advances each position by its velocity times dt and keeps the velocities |
| Kalman.ObservationReadsPositions | script.js:151 | H x is the two positions of x |
| Kalman.ZeroInnovationKeepsState | script.js:164-170 | a measurement equal to the predicted position leaves the state unchanged, whatever the gain |
| Kalman.SeededUpdateKeepsMeasurement | script.js:164-177 | updating a filter seeded from z with the same z keeps the measured position and zero velocity |
| Kalman.ReportsPrediction | script.js:154-180 | what getState reports after predict(dt): each position advanced by its velocity times dt, the velocities unchanged |
| Kalman.Filter.constructor | script.js:140-153 | a fresh filter has state 0 and covariance 1000 times the identity |
| Kalman.Filter.Predict | script.js:154-163 | the new state is F x and the new covariance F P F^T + Q; getState then reports each position advanced by its velocity times dt and the velocities unchanged |
| Kalman.Filter.Update | script.js:164-173 | the new state is x + K (z - H x) and the new covariance (I - K H) P, with K = P H^T inv2x2(H P H^T + R) |
| Kalman.Filter.SetFromMeasurement | script.js:174-177 | the state becomes (z0, 0, z1, 0) and the covariance 0.1 times the identity; getState then reports the measured position with zero velocity |
| Tracking.Latch | script.js:311-319 | a set scale is kept; an unset scale is set exactly when the frame's calibration is truthy (not null, not 0) |
| Tracking.StepDt | script.js:338 | the prediction step is at least 1 ms and at least t - prevT, and equal to one of them |
| Tracking.RawOf | script.js:324-328 | a raw sample holds the frame's time and the blob's pixel centre; its metres are absent exactly when no scale is known, and are the pixel coordinates times the scale otherwise |
| Tracking.StepState | script.js:311-345 | one frame latches the scale; a detection appends exactly its raw sample; a filtered sample is appended exactly for a detection with a known scale, earlier ones kept; without one, nothing but the scale and raw samples changes |
| Tracking.ReplayScale | script.js:311-319 | the scale after a run depends only on the frames' calibration results, latched in order |
| Tracking.ScaleStaysLatched | script.js:311-319 | once a scale is known, no later frame changes it |
| Tracking.ScaleIsFirstCalibration | script.js:311-319 | the scale after a run is the first truthy calibration result, and none exactly when no frame had one |
| Tracking.RawSamplePerDetection | script.js:324-328 | the raw samples of a run are the earlier ones followed by one per detection, in frame order: its time, pixel centre, and metres exactly when the scale after that frame is known |
| Tracking.FilteredSamplePerCalibratedDetection | script.js:331-344 | a run adds exactly one filtered sample per detection on a frame after which the scale is known, and keeps the earlier ones |
| Tracking.UncalibratedFramesAddNoFiltered | script.js:311-344 | until a frame has a truthy calibration result the scale stays unset, no filtered sample is added and every new raw sample has no metres |
| Tracking.StepKeepsConsistent | script.js:311-345 | one frame keeps the bookkeeping invariant: the filter is initialised exactly when a filtered sample exists, only with a scale, never more filtered than raw samples, and prevT is the last filtered time |
| Tracking.ReplayKeepsConsistent | script.js:311-345 | every state of the frame loop satisfies that invariant |
| Tracking.InitialStateConsistent | script.js:283-301 | the starting state satisfies it |
| Tracking.FirstDetectionSeeds | script.js:331-344 | the first calibrated detection seeds the filter without prediction and records the measured position with zero velocity |
| Tracking.OnTrackDetectionFollowsPrediction | script.js:337-344 | a later detection exactly at the predicted position records the prediction: positions advanced by velocity times a step of at least 1 ms, velocities kept |
| Tracking.Analysis.constructor | script.js:283-301 | processing starts with no scale, no samples, an uninitialised filter and prevT = 0 |
| Tracking.Analysis.Step | script.js:311-345 | the fields after one frame are StepState of the fields before |
| Tracking.Analysis.Track | script.js:331-344 | the calibrated-detection branch: seed, or predict and update, then record the filtered state |
| Tracking.Analysis.Run | script.js:311-345 | processing a sequence of frames gives Replay of the frames |
| Tracking.Analysis.ProcessFrame | script.js:311-345 | one frame: calibrate while unset, detect at stride 2, stamp with video time times the slow-motion factor |
| Regression.FitOf | script.js:383-401 | no fit below 3 samples; otherwise the estimate is None exactly when sum(t t) is 0, and a sum(t t) = sum(t v) otherwise |
| Regression.Finalize | script.js:383-401 | the loop over the samples with a finite speed computes FitOf |
| Regression.SumTTZeroIff | script.js:394-401 | sum(t t) is never negative and is 0 exactly when every usable sample has time 0, so the estimate is NaN exactly then |
| Regression.SumTTPositiveAt | script.js:394-399 | one usable sample at a non-zero time makes sum(t t) positive |
| Regression.ExactRecovery | script.js:394-401 | at least 3 samples exactly on v = a t, one at a non-zero time, give back exactly a |
| Regression.ResidualExpands | script.js:394-401 | the squared residual of slope b is sum(v v) - 2 b sum(t v) + b^2 sum(t t) |
| Regression.EstimateMinimisesResidual | script.js:394-401 | no slope b fits the usable samples with a smaller sum of squared residuals than the estimate |

## Left out

- Drawing to the canvas, reading pixels back (`getImageData`), the overlay circles and the pixel-per-metre display. Detection and calibration take the RGBA buffer as an `Image`.
- Camera access, recording, video loading, seeking and the event-driven frame loop. `Analysis.Run` takes the frames as a sequence; the frame step `stepSec` and the end-of-video test are not modelled.
- Chart.js plots, CSV export and the alert/exception paths.
- `finalize` after the regression: `Math.hypot`, the slope-angle input and the theoretical acceleration 9.8 sin(alpha). The speeds reach `Regression.Finalize` as given values, with None for a non-finite speed.
- IEEE-754 rounding, infinities and NaN arithmetic. Numbers are exact reals, so a filtered coordinate is always finite and the `Number.isFinite` guards hold trivially.
- The alpha byte of each pixel, which the source never reads.
- The slow-motion toggle: the factor (1 or 0.25) is a parameter of `Analysis.ProcessFrame`.
- The infinite starting bounds of the bounding-box loop are out-of-frame values (width, -1, height, -1). Every in-frame point replaces them exactly as it would an infinity.
- Kalman.Filter.Predict: the covariance is not proved symmetric or positive semidefinite, and the filter is not proved to converge. The contracts state the new matrices exactly, not their numerical quality.
- Regression.ExactRecovery: the speed of a sample comes from the filter's velocity, which is not connected here to the positions through the filter's dynamics.
