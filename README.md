# Face landmark comparison, modelled in Dafny

This project models the comparison pipeline of a small iOS app. The app decides
whether two face images show the same person. It runs in four steps:

- It takes the bounding box of the first detected face, given in normalised
  coordinates, and scales it to the view (`CGRect.scaled(to:)`).
- It copies the landmark points the detector reports (`convert`) and places
  each normalised point inside that box (`convertPointsForFace`).
- It stores the points in the slot of image 1 or image 2. After every write
  that leaves both slots non-empty, it compares them (`detectLandmarks`).
- The comparison averages the `hypot` distances of corresponding points. It
  answers "Same" when the mean is strictly below 0.13 (`calculateDistance`).

Coordinates (`CGFloat`) are modelled as `real`.

- `Geometry.dfy` holds points, sizes, rectangles and `Scaled`, the model of `CGRect.scaled(to:)`. It also holds `Width` and `Height`, the models of `CGRect.width` and `CGRect.height`, which are never negative. `Scaled` multiplies the signed size, as `scaled(to:)` does. Placing landmarks in a box uses the non-negative `Width` and `Height`, as `convertPointsForFace` does.
- `Landmarks.dfy` holds `Convert`, `ConvertPointsForFace` and the pure map they are specified by (`MapToBox`, `FacePoints`).
- `Scoring.dfy` holds `Score`, the pure specification of `calculateDistance`, with its error cases and its properties. `hypot` is a parameter `h` that must satisfy `IsHypot`: `h(dx, dy)` is non-negative and its square is `dx*dx + dy*dy`. That fixes `hypot` uniquely. Being zero at the origin, unchanged when both arguments are negated, and equal to the absolute value on an axis are lemmas derived from it.
- `Comparator.dfy` holds the slot state:
  - pure transition functions `Write`, `Update`, `Observe` and `ObserveAll`, with lemmas about them;
  - the class `FaceComparator`, with fields `image1Points` and `image2Points` and the methods `CalculateDistance`, `UpdateSlot` and `DetectLandmarks`. `CalculateDistance` is proved equal to `Scoring.Score` of the two slots. `UpdateSlot` is proved equal to `Update`, and `DetectLandmarks` to `ObserveAll`. The constructor requires the distance function to satisfy `IsHypot` and records that it does, so the lemmas about `Score` apply to every report.
- `Wrappers.dfy` holds `Option` and `Result`.

A failing comparison is an explicit error result. When `image1Points` is
empty, the result is `EmptyPointSet`. When `image2Points` is shorter than
`image1Points`, the result is `IndexOutOfRange`, where the Swift code traps.

## Model

| member | source | states |
|---|---|---|
| Geometry.Scaled | Face/Face/CGRect_Scaled.swift:5-12 | `scaled(to:)`: the scaled rectangle's origin and far corner are the original ones scaled point by point to the target size (x by width, y by height), with nothing clamped |
| Geometry.Width | Face/Face/ViewController.swift:148 | `boundingBox.width` is never negative and is the size's width or its negation |
| Geometry.Height | Face/Face/ViewController.swift:149 | `boundingBox.height` is never negative and is the size's height or its negation |
| Geometry.ScaledToUnitIsIdentity | Face/Face/CGRect_Scaled.swift:6-11 | scaling any rectangle (inside the unit square or not) to size (1, 1) returns it unchanged: nothing is clamped |
| Geometry.ScaledComposes | Face/Face/CGRect_Scaled.swift:6-11 | scaling to a and then to b equals scaling once to (a.width*b.width, a.height*b.height) |
| Geometry.ScaledIsInvertible | Face/Face/CGRect_Scaled.swift:6-11 | for a target with non-zero width and height, scaling back to the reciprocal size recovers the rectangle |
| Geometry.ScaledExample | Face/Face/CGRect_Scaled.swift:7-10 | box (0.1, 0.1, 0.5, 0.5) scaled to 750 x 750 is (75, 75, 375, 375) |
| Landmarks.MapToBox | Face/Face/ViewController.swift:147-151 | the map keeps length and order; element i is (p_i.x*width + origin.x, p_i.y*height + origin.y), with the box's non-negative width and height |
| Landmarks.ToBoxCorners | Face/Face/ViewController.swift:148-149 | (0, 0) lands on the box origin and (1, 1) on origin plus (width, height); for a box of non-negative size that is its far corner |
| Landmarks.FromBoxUndoesToBox | Face/Face/ViewController.swift:148-149 | in a box of non-zero width and height, a placed point's relative position can be recovered exactly |
| Landmarks.ToBoxInScaledBox | Face/Face/ViewController.swift:121-125 | for a view of non-negative size, placing a point in the box scaled to the view is the same as placing it in the normalised box and scaling the result |
| Landmarks.ToBox | Face/Face/ViewController.swift:148-150 | one point of the map's closure: a relative position in [0, 1] lands between the box's origin and its origin plus (width, height) |
| Landmarks.FacePoints | Face/Face/ViewController.swift:140-152 | a nil region gives []; otherwise the result has pointCount elements, element i being normalizedPoints[i] placed in the box with its non-negative width and height |
| Landmarks.Convert | Face/Face/ViewController.swift:155-161 | returns exactly count elements, element i equal to points[i] |
| Landmarks.ConvertPointsForFace | Face/Face/ViewController.swift:140-152 | returns FacePoints of the region and box: [] for a nil region, otherwise its first pointCount points placed in the box, in order |
| Scoring.HypotOfZero | Face/Face/ViewController.swift:171 | hypot(0, 0) = 0 |
| Scoring.HypotOfNegation | Face/Face/ViewController.swift:171 | hypot(-dx, -dy) = hypot(dx, dy) |
| Scoring.HypotOnAxis | Face/Face/ViewController.swift:171 | hypot(0, d) = hypot(d, 0) = abs(d) |
| Scoring.Distance | Face/Face/ViewController.swift:171 | when h is hypot, the distance of a point pair is non-negative and its square is the sum of the squared coordinate differences: the Euclidean distance |
| Scoring.SumDistances | Face/Face/ViewController.swift:165-174 | the running total of `hypot` distances over the first n pairs, added left to right, is never negative |
| Scoring.Classify | Face/Face/ViewController.swift:178-183 | the verdict is Same exactly when the mean is strictly below 0.13 |
| Scoring.Score | Face/Face/ViewController.swift:164-184 | fails with EmptyPointSet iff image1Points is empty; fails with IndexOutOfRange iff image1Points is non-empty and image2Points is shorter; otherwise the verdict is Same iff the mean is strictly below 0.13 |
| Scoring.ThresholdIsStrict | Face/Face/ViewController.swift:178-183 | a mean below 0.13 gives Same; a mean of 0.13 or more, including exactly 0.13, gives Different |
| Scoring.SumDistancesSymmetric | Face/Face/ViewController.swift:168-172 | swapping the two point lists leaves every running total unchanged |
| Scoring.SumDistancesToSelf | Face/Face/ViewController.swift:168-172 | a point list's running totals against itself are all 0 |
| Scoring.SumDistancesOfPrefixes | Face/Face/ViewController.swift:168-172 | the total over the first n pairs depends only on the first n candidate points |
| Scoring.ScoreNonNegative | Face/Face/ViewController.swift:164-175 | a successful comparison's mean distance is non-negative |
| Scoring.ScoreSymmetric | Face/Face/ViewController.swift:164-183 | for lists of equal length, comparing a with b and b with a gives the same result |
| Scoring.ScoreOfSelf | Face/Face/ViewController.swift:164-183 | a non-empty list compared with itself has mean 0 and verdict Same |
| Scoring.ScoreIgnoresExtraCandidates | Face/Face/ViewController.swift:168-170 | candidate points beyond the reference list's length do not change the result |
| Scoring.ScoreExample | Face/Face/ViewController.swift:164-183 | reference [(100, 100)] against candidate [(100, 100.5)] gives mean 0.5 and verdict Different |
| Comparator.Write | Face/Face/ViewController.swift:127-131 | index 1 replaces image1Points only, index 2 replaces image2Points only, any other index changes neither |
| Comparator.WriteOverwrites | Face/Face/ViewController.swift:127-131 | of two writes to the same slot, the second alone decides its contents: writes do not accumulate |
| Comparator.Update | Face/Face/ViewController.swift:127-134 | the new slots are those of Write; scoring (the guard at line 132) runs iff both slots are non-empty after the write; it then scores the new slots and never reports EmptyPointSet |
| Comparator.Observe | Face/Face/ViewController.swift:119-136 | one observation appends at most one report; after a trap, without a face box, or without allPoints, it changes nothing |
| Comparator.ObserveAll | Face/Face/ViewController.swift:119-137 | the whole loop: at most one report per observation, only the last report can be a trap (OnlyLastTraps), and with no face box nothing changes and nothing is reported |
| Comparator.FirstFaceBox | Face/Face/ViewController.swift:120-121 | the box is present iff a face was detected, and is then the first face's box scaled to the view |
| Comparator.UpdateIdempotent | Face/Face/ViewController.swift:127-134 | storing the same points twice gives the same slots and the same report as storing them once |
| Comparator.ObserveAllExtends | Face/Face/ViewController.swift:119-137 | later observations only append reports, and nothing is appended after a trap |
| Comparator.HaltedStaysHalted | Face/Face/ViewController.swift:119-137 | once a comparison traps, the remaining observations change neither the slots nor the reports |
| Comparator.LastObservationWins | Face/Face/ViewController.swift:119-131 | unless a comparison traps, the slot of the image ends up holding the last observation with allPoints, placed in the one face box; the other slot is untouched |
| Comparator.SameImageTwice | Face/Face/ViewController.swift:119-134 | detecting the same face as image 1 and then as image 2 reports nothing the first time and exactly one comparison the second time, with mean 0 and verdict Same |
| Comparator.AllPoints | Face/Face/ViewController.swift:123 | `observation.landmarks?.allPoints`: present exactly when the observation has landmarks and they have allPoints, and then that region |
| Comparator.FaceComparator.constructor | Face/Face/ViewController.swift:8-9 | both slots start empty; the distance function is hypot |
| Comparator.FaceComparator.CalculateDistance | Face/Face/ViewController.swift:164-184 | the loop's total and verdict are exactly Score of the two slots, including both error cases |
| Comparator.FaceComparator.UpdateSlot | Face/Face/ViewController.swift:127-134 | the new slots and the report are those of Update on the old slots |
| Comparator.FaceComparator.DetectLandmarks | Face/Face/ViewController.swift:102-137 | the new slots and the reports are those of ObserveAll from the old slots, with every observation placed in the first face's box scaled to the view |

## Left out

- The Vision requests are not modelled: `VNImageRequestHandler.perform`, the face-rectangle and landmark requests, `configureRequests` and compute-device selection. Their results are inputs: the detected face boxes and the landmark observations.
- `detectFace` is not modelled. It hands its results to `detectLandmarks` through the request's `inputFaceObservations`. A failed or empty landmark request makes `detectLandmarks` return early. That equals a run over no observations, so it is modelled as one.
- `viewDidLoad`, `viewDidLayoutSubviews`, the labels and image views, `UIImage.resized(to:)` and all `print` logging are not modelled. They are UI and console output. The printed verdict and average distance are modelled as the returned report (`Comparison.meanDistance` and `Comparison.verdict`). The per-point distances printed at ViewController.swift:173 are not modelled.
- The `DispatchQueue.main.async` scheduling is not modelled. Each `DetectLandmarks` call is one atomic step.
- `CGFloat` is modelled as `real`, so IEEE rounding is not modelled. `hypot` is modelled by what it computes, not by how.
- Scoring.Score: an empty `image1Points` is reported as `Err(EmptyPointSet)`. The Swift code instead divides 0 by 0, gets NaN, and prints "Different Person!". The contract of `Comparator.Update` shows that `detectLandmarks` never scores an empty list, so this case cannot be reached from there.
- Scoring.Score: `image2Points` shorter than `image1Points` is reported as `Err(IndexOutOfRange)`. The Swift code stops the process with an index-out-of-range trap. After that report, `DetectLandmarks` processes no further observations.
- Lists of unequal length are not an error when `image2Points` is the longer one. The code silently compares only the first `image1Points.count` pairs, and the model does the same (`ScoreIgnoresExtraCandidates`). A design that reports every length mismatch as an error would differ here.
- The face box is scaled to `view.bounds.size`, as in the code, and not to the 750 x 750 image size. The view size is a parameter of `DetectLandmarks`.
