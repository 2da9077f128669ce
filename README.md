# Lidar touch pipeline — a verified Dafny model

This project models the scan-to-touch-point pipeline of MiniAreaScan. A
rotating 2-D lidar sweeps a plane just in front of a screen. Each revolution
(a scan) is a list of range/bearing samples. Samples that hit something become
planar points, and nearby points are grouped into axis-aligned clusters
(blobs). Each final blob is mapped to a screen-space touch point: a pixel
position and a radius.

The pipeline exists twice in the repository:

- `ref/nodeProcessDevice.cpp`, the reference DLL. It decodes raw RPLIDAR
  measurement nodes, keeps only points inside the configured crop area, merges
  blobs closer than 0.05 m, and keeps the last touch points for a 1000 ms grace
  period when no scan arrives.
- `LidarDevice/LidarDevice.cpp`, the application copy. It works on samples the
  driver has already decoded, in millimetres. It merges blobs closer than
  50 mm, does not filter by crop area, and clears the touch points as soon as a
  scan is empty.

Both copies share one model. The threshold and the crop-filter flag are
parameters, and each device is a class of its own.

Modules, in dependency order:

- `Wrappers` (`wrappers.dfy`): `Option`.
- `Numeric` (`numeric.dfy`): C++ float-to-int truncation (`Trunc`) and integer
  division by five (`CDiv5`). Both round toward zero.
- `LidarScan` (`lidar_scan.dfy`): measurement nodes, scan samples, and the two
  `processScan` overloads.
- `Blobs` (`blobs.dfy`):
  - `BlobValue`, a blob's box and its points as a value;
  - `blobContains`, the corner-check `blobDistance` (squared), and
    `massCenter`;
  - the mutable `class Blob`, whose `Expand` and `MassCenter` methods are
    proved against those functions.
- `Clustering` (`clustering.dfy`):
  - `MergePass`, one `mergeBlobs` pass as a function on blob values;
  - `Cluster`, the `lookupBlobs` fixpoint;
  - `Seeds`, the seeding step;
  - the imperative `MergeBlobs` and `LookupBlobs` over `Blob` objects, proved
    to compute them.
- `TouchPoints` (`touch_points.dfy`): `physical2screen`, the anchor/radius
  rule, and the whole scan-to-touch-points function.
- `NodeProcess` (`node_process_device.dfy`): the reference device, including
  its staleness rule.
- `AppLidar` (`lidar_device.dfy`): the application device.

Modelling conventions:

- Coordinates are exact `real`s.
- Every float-to-int assignment is an explicit truncation toward zero.
- `blobDistance` is compared through squares. Its `sqrtf` value `d` satisfies
  `d < t` exactly when `d*d < t*t` for `t >= 0`, so `Near(a, b, t)` is
  `BlobDistanceSquared(a, b) < t*t`.
- `polar2cartesian` uses `sin` and `cos` under a configured angle offset. It is
  the function parameter `toPlanar`.
- The clock is the parameter `now`, in milliseconds.
- The grabbed node array is the parameter `grabbed`. It is `None` when grabbing
  fails.

The model follows the code as written in these places:

- The anchor of a touch point is projected from
  `((min_x+max_x)/2, (max_y+max_y)/2)`, so its row is the row of the blob's top
  edge.
- `massCenter` of a blob with no points returns
  `((min_x+min_y)/2, (max_x+max_y)/2)`, which mixes the axes.
- One input blob can be expanded into several output blobs in the same pass,
  which duplicates its points.
- `blobDistance` tests only the corners of its second argument, so it is not
  symmetric.
- The radius uses the x extent only when the width is strictly greater than
  the height.
- The application's `CropArea` is `(-0.75, -0.6, 0.75, 0.6)`, in metres, while
  its samples are in millimetres. The projection is modelled with exactly
  those values.
- `LidarDevice/LidarDevice.h` declares `scanData` as an array of `vec2`, but
  `LidarDevice.cpp` uses it as a `LidarScan`. `s_touchPointList` is used there
  but not declared. The model follows the `.cpp`: `scanData` is a
  `seq<LidarScanPoint>`, and the retained list is a field of the device.

## Model

| member | source | states |
|---|---|---|
| Numeric.Trunc | ref/nodeProcessDevice.cpp:209-210 | float-to-int assignment: the integer toward zero from the value, within 1 of it |
| Numeric.CDiv5 | LidarDevice/LidarDevice.cpp:241 | C integer division by five: quotient rounded toward zero, remainder below five and signed like the dividend |
| LidarScan.DecodeSample | ref/nodeProcessDevice.cpp:45-59 | a sample is valid iff `distance_q2 != 0`; a valid sample has `dist = distance_q2/4000` (so 0 < dist < 16.384 m); an invalid one has dist 100000; angle = `(angle_q6_checkbit >> 1)/64`, in [0, 512) |
| LidarScan.DecodeThenEncode | ref/nodeProcessDevice.cpp:45-59 | round trip: re-quantising a decoded sample gives back the node with only its check bit cleared, so decoding loses nothing else |
| LidarScan.DecodeScan | ref/nodeProcessDevice.cpp:68-71 | one sample per node, in order; every sample is in the quantised range and re-encodes to its node with only the check bit cleared |
| LidarScan.ProcessScan | ref/nodeProcessDevice.cpp:61-72 | the scan has exactly `scanSize` samples, the i-th decoded from the i-th node; its timestamp is the truncated start time `end - size*476.4/1000`, which is never after the end time |
| Blobs.Contains | ref/nodeProcessDevice.cpp:143-146 | `blobContains` is inclusive on all four bounds, so a box contains a point only when it is ordered |
| Blobs.Singleton | ref/nodeProcessDevice.cpp:92-96 | a one-point blob is valid, holds exactly that point, and (containment being inclusive) contains exactly that point |
| Blobs.Blob.constructor | ref/nodeProcessDevice.cpp:92-96 | `Blob(x, y)` has the degenerate box at (x, y) and the single point (x, y) |
| Blobs.Blob.Copy | ref/nodeProcessDevice.cpp:190-191 | the copy pushed into a list has the same box and points as the original |
| Blobs.Blob.Expand | ref/nodeProcessDevice.cpp:98-117 | `expand` leaves the blob equal to the union value `Expanded(old, other)` |
| Blobs.ExpandedIsUnion | ref/nodeProcessDevice.cpp:98-117 | the expanded box is the least box covering both boxes (each bound is one of the two), it contains everything either contains, and the points are this blob's followed by the other's, in order, with no deduplication |
| Blobs.ExpandedValid | ref/nodeProcessDevice.cpp:98-117 | expansion keeps "min <= max and the box contains every member point" |
| Blobs.BlobDistanceSquared | ref/nodeProcessDevice.cpp:148-166 | the distance is never negative, and it is 0 whenever one of `b`'s four corners lies in `a` |
| Blobs.DistanceZeroIffCorner | ref/nodeProcessDevice.cpp:148-166 | for an ordered box `a`, the distance is 0 exactly when a corner of `b` lies in `a` |
| Blobs.DistanceToSelf | ref/nodeProcessDevice.cpp:150-151 | an ordered box is at distance 0 from itself |
| Blobs.SingletonDistance | LidarDevice/LidarDevice.cpp:92-110 | between two one-point blobs the distance is the Euclidean distance of the points (squared), and 0 when they coincide |
| Blobs.DistanceNotSymmetric | ref/nodeProcessDevice.cpp:150-165 | only `b`'s corners are tested: a small box inside a large one is at distance 0 seen from the large one, and at squared distance 200 the other way round |
| Blobs.Blob.MassCenter | LidarDevice/LidarDevice.cpp:63-82 | `massCenter` with its running sums returns `Centroid` of the blob |
| Blobs.CentroidIsMean | LidarDevice/LidarDevice.cpp:68-81 | with one or more points, the centroid is the arithmetic mean of the points (a single point is its own mean) |
| Blobs.CentroidInBox | LidarDevice/LidarDevice.cpp:68-81 | the centroid of a valid blob with points lies inside its box |
| Blobs.EmptyCentroidMixesAxes | LidarDevice/LidarDevice.cpp:65-66 | the fallback for a blob without points equals the box centre only when `max_x == min_y` |
| Clustering.MergePass | ref/nodeProcessDevice.cpp:168-195 | a pass never returns more blobs than it was given, and strictly fewer whenever its merge count is positive |
| Clustering.HitsZeroIffFar | ref/nodeProcessDevice.cpp:177-191 | an input blob is merged nowhere exactly when it is at or beyond the threshold from every output blob |
| Clustering.ZeroMergeIsIdentity | ref/nodeProcessDevice.cpp:168-195 | a pass returns 0 exactly when its output equals its input blob for blob, in order |
| Clustering.SingletonsNear | ref/nodeProcessDevice.cpp:182 | two one-point blobs are near exactly when the squared distance of their points is below the squared threshold |
| Clustering.MergePassSingle | ref/nodeProcessDevice.cpp:173-192 | a pass over one blob keeps it and merges nothing |
| Clustering.MergePassPair | ref/nodeProcessDevice.cpp:173-192 | a pass over two blobs merges the second into the first (count 1) exactly when it is near it, and keeps both otherwise (count 0) |
| Clustering.AbsorbedTwice | ref/nodeProcessDevice.cpp:179-188 | a blob near two output blobs expands both in one pass and counts two merges; its point ends up in both |
| Clustering.MergePassCovers | ref/nodeProcessDevice.cpp:173-192 | every point of every input blob is in some output blob |
| Clustering.MergePassKeepsValid | ref/nodeProcessDevice.cpp:173-192 | a pass over valid blobs yields valid blobs |
| Clustering.ZeroMergeSeparated | ref/nodeProcessDevice.cpp:179-191 | after a pass without merges, every blob is at or beyond the threshold from every earlier blob, measured from the later one |
| Clustering.Cluster | ref/nodeProcessDevice.cpp:236-242 | `lookupBlobs`' `while(true)` loop: passes until one merges nothing; the result never has more blobs than its input |
| Clustering.ClusterIsFixpoint | ref/nodeProcessDevice.cpp:236-242 | the final list is a fixpoint: one more pass merges nothing and changes nothing, so clustering is idempotent |
| Clustering.ClusterSeparated | ref/nodeProcessDevice.cpp:236-242 | in the final list `blobDistance(blobs[j], blobs[i]) >= threshold` for all i < j |
| Clustering.ClusterCovers | ref/nodeProcessDevice.cpp:213-245 | clustering never adds blobs and loses no point |
| Clustering.ClusterKeepsValid | ref/nodeProcessDevice.cpp:213-245 | clustering valid blobs yields valid blobs |
| Clustering.ClusterNonEmpty | ref/nodeProcessDevice.cpp:236-242 | a non-empty seed list never clusters to nothing |
| Clustering.Seeds | ref/nodeProcessDevice.cpp:217-231 | the seed list: never more seeds than samples, and every seed a valid one-point blob |
| Clustering.SeedsInScanOrder | ref/nodeProcessDevice.cpp:217-231 | seeding keeps scan order: the seeds of a concatenation are the concatenated seeds, and one sample seeds its own one-point blob exactly when it is valid and (when filtering) inside the crop area |
| Clustering.SeedsAccepted | ref/nodeProcessDevice.cpp:217-231 | every seed is the one-point blob of a valid sample whose point passes the crop filter |
| Clustering.SeedsComplete | ref/nodeProcessDevice.cpp:217-231 | every valid sample that passes the crop filter has its seed |
| Clustering.UnfilteredSeeds | LidarDevice/LidarDevice.cpp:161-175 | with the crop filter off the crop area plays no part, and every valid sample (and no invalid one) seeds a blob |
| Clustering.AbsorbInto | ref/nodeProcessDevice.cpp:177-188 | the inner loop expands exactly the output blobs the input blob is near, leaves the input blob as it was, and counts them |
| Clustering.MergeInputBlob | ref/nodeProcessDevice.cpp:173-192 | one outer step: every output blob the input blob is near is expanded by it, or a fresh copy of the input blob is appended when it is near none (`Step`); the hits are what the step adds to the merge count, earlier output objects keep their places, and no blob object is repeated |
| Clustering.MergeBlobs | ref/nodeProcessDevice.cpp:168-195 | `mergeBlobs` yields fresh blobs whose values are `MergePass(input)` and returns its merge count |
| Clustering.LookupBlobs | ref/nodeProcessDevice.cpp:213-245 | the loop terminates (a merging pass shrinks the list) and yields `Cluster(Seeds(scan))` |
| TouchPoints.Physical2Screen | ref/nodeProcessDevice.cpp:204-211 | `physical2screen` with truncated coordinates; for a crop area of positive height, a point between its bottom and top edges lands on a row between 0 and the screen height |
| TouchPoints.ProjectionIsAffine | ref/nodeProcessDevice.cpp:204-211 | both axes are scaled by screen height over crop height; the x axis is then shifted to centre the crop area horizontally |
| TouchPoints.CropAreaFillsScreenHeight | ref/nodeProcessDevice.cpp:204-211 | the crop centre projects to the screen centre; its bottom edge is row 0 and its top edge is row `screenHeight` |
| TouchPoints.ProjectionScale | LidarDevice/LidarDevice.cpp:148-155 | equal physical steps give equal pixel steps on both axes, and with a positive crop height the projection keeps order on each axis |
| TouchPoints.TouchPointOf | ref/nodeProcessDevice.cpp:384-407 | the touch point of one blob: anchor and radius as the loop body computes them; an ordered blob under a crop area of positive height gets a non-negative radius |
| TouchPoints.AnchorRowIsTopEdge | ref/nodeProcessDevice.cpp:384-385 | the anchor row is the row of the blob's `max_y`, never below the row of its centre; the anchor column is the centre's |
| TouchPoints.RadiusNonNegative | LidarDevice/LidarDevice.cpp:223-241 | for an ordered blob, a crop area of positive height and a non-negative screen height, the pixel span of the chosen axis is non-negative, and the radius is its fifth rounded toward zero |
| TouchPoints.SingletonTouchPoint | LidarDevice/LidarDevice.cpp:216-243 | a one-point blob touches at the pixel of its point with radius 0 |
| TouchPoints.TouchPointsOf | LidarDevice/LidarDevice.cpp:216-244 | one touch point per blob |
| TouchPoints.SeedsCount | ref/nodeProcessDevice.cpp:217-231 | there are as many seeds as accepted samples, and never more than samples |
| TouchPoints.TouchPointsBounded | LidarDevice/LidarDevice.cpp:211-245 | there are never more touch points than accepted samples, and none exactly when no sample is accepted |
| TouchPoints.BuildTouchPoints | LidarDevice/LidarDevice.cpp:216-244 | the loop builds `TouchPointsOf` the final blobs, in blob order |
| NodeProcess.DefaultCropAreaOnDefaultScreen | ref/nodeProcessDevice.cpp:204-211 | on the default 1920x1080 screen the default crop area spans columns 285 to 1635 and rows 0 to 1080 |
| NodeProcess.StaleStep | ref/nodeProcessDevice.cpp:412-420 | a scan-less cycle either keeps the list or clears it, and the result is empty exactly when the list was empty or more than 1000 ms have passed since the last scan |
| NodeProcess.StaleRunClearsAfterGrace | ref/nodeProcessDevice.cpp:348-422 | after scan-less cycles the list is empty once one of them came more than 1000 ms after the last scan, and is otherwise the last fresh list unchanged |
| NodeProcess.NodeProcessDevice.constructor | ref/nodeProcessDevice.cpp:252-321 | a new device has no touch points; its crop area is the configured touch area |
| NodeProcess.NodeProcessDevice.GetTouchPoints | ref/nodeProcessDevice.cpp:348-422 | with a grabbed scan, `lastTimeHasScan` becomes now and `lastScan` becomes the decoded scan, and the list becomes one touch point per final blob of the in-crop samples (threshold 0.05); without one, the staleness rule applies |
| AppLidar.LidarDevice.constructor | LidarDevice/LidarDevice.cpp:193-205 | a new device has an empty retained list |
| AppLidar.LidarDevice.GetTouchPoints | LidarDevice/LidarDevice.cpp:207-255 | a non-empty scan replaces the list by one touch point per final blob of all valid samples (threshold 50, no crop filter); an empty scan clears it at once |
| AppLidar.ThresholdBoundary | LidarDevice/LidarDevice.cpp:117-136 | two one-point blobs merge into the earlier one (count 1) exactly when they are less than 50 apart, and both stay otherwise (count 0) |
| AppLidar.ThresholdIsStrict | LidarDevice/LidarDevice.cpp:126 | points exactly 50 apart stay two blobs; points 40 apart become one |

## Left out

- Vendor drivers are not part of this model: serial and TCP I/O, `grabScanData`, `createAndStartRPLidar`, `clean`, `setLidarPwm`, and the drivers that fill the application's `scanData`. A grabbed node array, or its absence, is a parameter.
- `polar2cartesian` uses `sin`, `cos` and the configured angle offset. It is the uninterpreted parameter `toPlanar`, so no property depends on its geometry.
- Floating point: coordinates, thresholds and the sample duration are exact reals, and float32 rounding is not modelled. `sqrtf` is replaced by an equivalent comparison of squares.
- NodeProcess.NodeProcessDevice.constructor: requires a crop area of non-zero height, and `Valid()` keeps it so, although `startUp` copies any configured touch area unchecked. The projection divides by the crop height, so a zero-height area would make every in-crop sample a division by zero in float arithmetic; the model does not follow that case, and the projection functions of `TouchPoints` carry the same requirement.
- Numeric.Trunc: does not model the undefined result of converting an out-of-range float, or the conversion of a negative start time to the unsigned 64-bit message timestamp. The model keeps the signed truncated value.
- Clustering.MergeBlobs: the `int` merge counter is unbounded; overflow is not modelled.
- `get_time_in_ms` and `QueryPerformanceCounter` become the parameter `now`. The reference device uses the same `now` as the scan's end time and as the cycle time.
- NodeProcess.NodeProcessDevice.GetTouchPoints: the separate clock reads of `ref/nodeProcessDevice.cpp` (lines 63, 350, 357 and 415) are one parameter `now`, so the model does not capture time passing between them within a cycle. The scan-frequency log at lines 359-363 is not modelled, including its integer division by the difference of two timestamps.
- The 2048-node limit of the grab buffer is not modelled; any number of nodes is decoded.
- `startUp`'s copy of the configured touch area becomes a constructor parameter. JSON configuration and logging are not modelled.
- The application constructor assigns `screenWidth` twice and never sets `screenHeight`. The model takes both sizes as parameters.
- Not modelled: `getScanNodeDrawPoints`, `setScreenSize`/`getScreenSize` (the screen size is a pair of fields), and `CreateObjectofDevice`.
- The four-bound `Blob` constructor is used only for `CropArea`, which is a `BlobValue` without points.
- `blobContains` returns a `float` holding 0 or 1 in the source; it is a predicate here.
- The source lists hold blobs by value and `std::swap` exchanges them. The model allocates a fresh list of blobs on every pass, so no two list entries alias.
- The disabled `#if 0` branches are not modelled: a single pass without merging, and reading the crop area from the configuration in the application.
- Each pipeline instance owns its state. No concurrency is modelled.
