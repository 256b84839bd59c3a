/**
 * The two-slot state of the view controller: the landmark points of image 1
 * and of image 2. Each landmark detection overwrites the slot of its image,
 * and scoring runs after every write that leaves both slots non-empty.
 * The pure transition functions below specify the methods of `FaceComparator`.
 */
module Comparator {
  import opened Wrappers
  import opened Geometry
  import opened Landmarks
  import opened Scoring

  /** What one trigger of `calculateDistance` reports. */
  type Report = Result<Comparison, ScoreError>

  /** The contents of the two slots, `image1Points` and `image2Points`. */
  datatype Slots = Slots(image1: seq<Point>, image2: seq<Point>)

  /** No slot holds any point yet. */
  const Empty := Slots([], [])

  /**
   * Stores `points` in the slot of image `imageIndex`, replacing what it held;
   * index 1 touches only image 1's slot, index 2 only image 2's, and any other
   * index changes nothing.
   */
  function Write(s: Slots, imageIndex: int, points: seq<Point>): (r: Slots)
    ensures r.image1 == if imageIndex == 1 then points else s.image1
    ensures r.image2 == if imageIndex == 2 then points else s.image2
  {
    if imageIndex == 1 then s.(image1 := points)
    else if imageIndex == 2 then s.(image2 := points)
    else s
  }

  /**
   * A write followed by the check that triggers scoring: the new slots and the
   * report, if scoring ran. Scoring runs exactly when the write leaves both
   * slots non-empty, and then on the new slots, so never on an empty reference list.
   */
  function Update(h: (real, real) -> real, s: Slots, imageIndex: int, points: seq<Point>): (r: (Slots, Option<Report>))
    ensures r.0 == Write(s, imageIndex, points)
    ensures r.1.Some? <==> r.0.image1 != [] && r.0.image2 != []
    ensures r.1.Some? ==> r.1.value == Score(h, r.0.image1, r.0.image2) && r.1.value != Err(EmptyPointSet)
  {
    var s' := Write(s, imageIndex, points);
    (s', if s'.image1 != [] && s'.image2 != [] then Some(Score(h, s'.image1, s'.image2)) else None)
  }

  /** The last report is an error: the process has trapped and nothing further runs. */
  predicate Halted(reports: seq<Report>) {
    |reports| > 0 && reports[|reports| - 1].Err?
  }

  /** No report but the last is a trap. */
  predicate OnlyLastTraps(reports: seq<Report>) {
    forall i :: 0 <= i < |reports| - 1 ==> reports[i].Ok?
  }

  /**
   * One observation of `detectLandmarks`: without a face box, without landmark
   * points, or after a trap, nothing happens; otherwise the observation's
   * points, placed in the face box, go through `Update`.
   */
  function Observe(h: (real, real) -> real, s: Slots, reports: seq<Report>, imageIndex: int,
                   faceBox: Option<Rect>, region: Option<LandmarkRegion>): (r: (Slots, seq<Report>))
    requires RegionOk(region)
    ensures reports <= r.1 && |r.1| <= |reports| + 1
    ensures Halted(reports) || faceBox.None? || region.None? ==> r == (s, reports)
    ensures OnlyLastTraps(reports) ==> OnlyLastTraps(r.1)
  {
    if Halted(reports) || faceBox.None? || region.None? then (s, reports)
    else
      var u := Update(h, s, imageIndex, FacePoints(region, faceBox.value));
      (u.0, reports + if u.1.Some? then [u.1.value] else [])
  }

  /** All regions have at most as many points as their buffers. */
  predicate RegionsOk(regions: seq<Option<LandmarkRegion>>) {
    forall i :: 0 <= i < |regions| ==> RegionOk(regions[i])
  }

  /**
   * The observations, in order, each through `Observe`, starting with no
   * reports: at most one report per observation, only the last report can be a
   * trap, and without a face box nothing happens at all.
   */
  function ObserveAll(h: (real, real) -> real, s: Slots, imageIndex: int, faceBox: Option<Rect>,
                      regions: seq<Option<LandmarkRegion>>): (r: (Slots, seq<Report>))
    requires RegionsOk(regions)
    ensures |r.1| <= |regions|
    ensures OnlyLastTraps(r.1)
    ensures faceBox.None? ==> r == (s, [])
    decreases |regions|
  {
    if regions == [] then (s, [])
    else
      var n := |regions| - 1;
      var prev := ObserveAll(h, s, imageIndex, faceBox, regions[..n]);
      Observe(h, prev.0, prev.1, imageIndex, faceBox, regions[n])
  }

  /** The last region that is present, if any. */
  function LastRegion(regions: seq<Option<LandmarkRegion>>): (r: Option<LandmarkRegion>)
    ensures r.Some? ==> exists i :: 0 <= i < |regions| && regions[i] == r
  {
    if regions == [] then None
    else if regions[|regions| - 1].Some? then regions[|regions| - 1]
    else LastRegion(regions[..|regions| - 1])
  }

  /** A `VNFaceLandmarks2D`, of which only `allPoints` is read. */
  datatype FaceLandmarks = FaceLandmarks(allPoints: Option<LandmarkRegion>)

  /** A `VNFaceObservation` as the landmark request returns it. */
  datatype FaceObservation = FaceObservation(landmarks: Option<FaceLandmarks>)

  /** `observation.landmarks?.allPoints`. */
  function AllPoints(o: FaceObservation): (r: Option<LandmarkRegion>)
    ensures r.Some? <==> o.landmarks.Some? && o.landmarks.value.allPoints.Some?
    ensures r.Some? ==> r == o.landmarks.value.allPoints
  {
    if o.landmarks.None? then None else o.landmarks.value.allPoints
  }

  /** The `allPoints` region of each observation, in order. */
  function Regions(observations: seq<FaceObservation>): (r: seq<Option<LandmarkRegion>>)
    ensures |r| == |observations|
    ensures forall i :: 0 <= i < |observations| ==> r[i] == AllPoints(observations[i])
  {
    seq(|observations|, i requires 0 <= i < |observations| => AllPoints(observations[i]))
  }

  /** The face box every observation is placed in: the first detected face's box, scaled to the view; none without a face. */
  function FirstFaceBox(inputFaces: seq<Rect>, viewSize: Size): (r: Option<Rect>)
    ensures r.Some? <==> |inputFaces| > 0
    ensures r.Some? ==> r.value == Scaled(inputFaces[0], viewSize)
  {
    if |inputFaces| == 0 then None else Some(Scaled(inputFaces[0], viewSize))
  }

  /** Writes overwrite: the second of two writes to a slot decides its contents. */
  lemma WriteOverwrites(s: Slots, imageIndex: int, first: seq<Point>, second: seq<Point>)
    ensures Write(Write(s, imageIndex, first), imageIndex, second) == Write(s, imageIndex, second)
  {
  }

  /** Storing the same points twice leaves the same slots and reports the same as storing them once. */
  lemma UpdateIdempotent(h: (real, real) -> real, s: Slots, imageIndex: int, points: seq<Point>)
    ensures Update(h, Update(h, s, imageIndex, points).0, imageIndex, points) == Update(h, s, imageIndex, points)
  {
    WriteOverwrites(s, imageIndex, points, points);
  }

  /** Reports only grow, and a trap stays the last thing reported. */
  lemma {:induction false} ObserveAllExtends(h: (real, real) -> real, s: Slots, imageIndex: int, faceBox: Option<Rect>,
                                             regions: seq<Option<LandmarkRegion>>, k: nat)
    requires RegionsOk(regions) && k <= |regions|
    ensures RegionsOk(regions[..k])
    ensures var before := ObserveAll(h, s, imageIndex, faceBox, regions[..k]).1;
            var after := ObserveAll(h, s, imageIndex, faceBox, regions).1;
            before <= after && (Halted(before) ==> after == before)
  {
    assert regions[..|regions|] == regions;
    if k < |regions| {
      var n := |regions| - 1;
      assert regions[..n][..k] == regions[..k];
      ObserveAllExtends(h, s, imageIndex, faceBox, regions[..n], k);
      var before := ObserveAll(h, s, imageIndex, faceBox, regions[..k]).1;
      var mid := ObserveAll(h, s, imageIndex, faceBox, regions[..n]);
      var after := Observe(h, mid.0, mid.1, imageIndex, faceBox, regions[n]);
      assert ObserveAll(h, s, imageIndex, faceBox, regions) == after;
      assert before <= mid.1 <= after.1;
      assert Halted(before) ==> before == mid.1 == after.1;
    }
  }

  /** Once a trap is reported, the remaining observations change neither the slots nor the reports. */
  lemma {:induction false} HaltedStaysHalted(h: (real, real) -> real, s: Slots, imageIndex: int, faceBox: Option<Rect>,
                                             regions: seq<Option<LandmarkRegion>>, k: nat)
    requires RegionsOk(regions) && k <= |regions|
    requires RegionsOk(regions[..k]) && Halted(ObserveAll(h, s, imageIndex, faceBox, regions[..k]).1)
    ensures ObserveAll(h, s, imageIndex, faceBox, regions) == ObserveAll(h, s, imageIndex, faceBox, regions[..k])
  {
    assert regions[..|regions|] == regions;
    if k < |regions| {
      var n := |regions| - 1;
      assert regions[..n][..k] == regions[..k];
      HaltedStaysHalted(h, s, imageIndex, faceBox, regions[..n], k);
    }
  }

  /**
   * Unless a comparison traps, image `imageIndex`'s slot ends up holding the
   * points of the last observation that has landmark points, placed in the
   * one face box; the other slot is never touched.
   */
  lemma {:induction false} LastObservationWins(h: (real, real) -> real, s: Slots, imageIndex: int, faceBox: Rect,
                                               regions: seq<Option<LandmarkRegion>>)
    requires RegionsOk(regions)
    requires !Halted(ObserveAll(h, s, imageIndex, Some(faceBox), regions).1)
    ensures var last := LastRegion(regions);
            var slots := ObserveAll(h, s, imageIndex, Some(faceBox), regions).0;
            && slots.image1 == (if imageIndex == 1 && last.Some? then FacePoints(last, faceBox) else s.image1)
            && slots.image2 == (if imageIndex == 2 && last.Some? then FacePoints(last, faceBox) else s.image2)
  {
    if regions != [] {
      var n := |regions| - 1;
      var prev := ObserveAll(h, s, imageIndex, Some(faceBox), regions[..n]);
      assert !Halted(prev.1);
      LastObservationWins(h, s, imageIndex, faceBox, regions[..n]);
    }
  }

  /**
   * The app's own run: the same image as image 1 and then as image 2. The first
   * detection reports nothing, the second exactly one comparison: distance 0,
   * the same person.
   */
  lemma SameImageTwice(h: (real, real) -> real, faceBox: Rect, region: LandmarkRegion)
    requires IsHypot(h)
    requires WellFormed(region) && region.pointCount > 0
    ensures var first := ObserveAll(h, Empty, 1, Some(faceBox), [Some(region)]);
            var second := ObserveAll(h, first.0, 2, Some(faceBox), [Some(region)]);
            first.1 == [] && second.1 == [Ok(Comparison(0.0, Same))]
  {
    assert [Some(region)][..0] == [];
    var points := FacePoints(Some(region), faceBox);
    ScoreOfSelf(h, points);
  }

  /** The view controller's landmark state and the operations that change it. */
  class FaceComparator {
    /** The `hypot` of the platform's C library. */
    const hypot: (real, real) -> real
    var image1Points: seq<Point>
    var image2Points: seq<Point>

    /** The contents of both slots. */
    function Contents(): Slots
      reads this
    {
      Slots(image1Points, image2Points)
    }

    /** Both slots start empty; the distance function is the C library's `hypot`. */
    constructor (hypot: (real, real) -> real)
      requires IsHypot(hypot)
      ensures this.hypot == hypot && IsHypot(this.hypot)
      ensures Contents() == Empty
    {
      this.hypot := hypot;
      image1Points := [];
      image2Points := [];
    }

    /** `calculateDistance`: the mean distance of the two slots' points and its verdict. */
    method CalculateDistance() returns (r: Report)
      ensures r == Score(hypot, image1Points, image2Points)
    {
      if |image1Points| == 0 {
        return Err(EmptyPointSet);
      }
      var totalDistance := 0.0;
      var i := 0;
      while i < |image1Points|
        invariant 0 <= i <= |image1Points|
        invariant i <= |image2Points|
        invariant totalDistance == SumDistances(hypot, image1Points, image2Points, i)
      {
        if i >= |image2Points| {
          return Err(IndexOutOfRange);
        }
        var point1 := image1Points[i];
        var point2 := image2Points[i];
        var distance := hypot(point1.x - point2.x, point1.y - point2.y);
        totalDistance := totalDistance + distance;
        i := i + 1;
      }
      var averageDistance := totalDistance / (|image1Points| as real);
      if averageDistance < Threshold {
        r := Ok(Comparison(averageDistance, Same));
      } else {
        r := Ok(Comparison(averageDistance, Different));
      }
    }

    /** Stores `points` in the slot of image `imageIndex`, then scores if both slots hold points. */
    method UpdateSlot(imageIndex: int, points: seq<Point>) returns (report: Option<Report>)
      modifies this
      ensures (Contents(), report) == Update(hypot, old(Contents()), imageIndex, points)
    {
      if imageIndex == 1 {
        image1Points := points;
      } else if imageIndex == 2 {
        image2Points := points;
      }
      if image1Points != [] && image2Points != [] {
        var r := CalculateDistance();
        report := Some(r);
      } else {
        report := None;
      }
    }

    /**
     * The loop of `detectLandmarks` over the landmark request's results for
     * image `imageIndex`: each observation with landmark points is placed in
     * the first detected face's box, scaled to the view, and stored; the reports
     * are the comparisons it triggered. A trap ends the run.
     */
    method DetectLandmarks(imageIndex: int, inputFaces: seq<Rect>, viewSize: Size,
                           landmarksResults: seq<FaceObservation>) returns (reports: seq<Report>)
      requires RegionsOk(Regions(landmarksResults))
      modifies this
      ensures (Contents(), reports)
           == ObserveAll(hypot, old(Contents()), imageIndex, FirstFaceBox(inputFaces, viewSize), Regions(landmarksResults))
    {
      ghost var start := Contents();
      ghost var regions := Regions(landmarksResults);
      ghost var faceBox := FirstFaceBox(inputFaces, viewSize);
      reports := [];
      var trapped := false;
      var i := 0;
      while i < |landmarksResults| && !trapped
        invariant 0 <= i <= |landmarksResults|
        invariant RegionsOk(regions[..i])
        invariant (Contents(), reports) == ObserveAll(hypot, start, imageIndex, faceBox, regions[..i])
        invariant trapped == Halted(reports)
      {
        assert regions[..i + 1][..i] == regions[..i];
        ghost var before := (Contents(), reports);
        var observation := landmarksResults[i];
        if |inputFaces| > 0 {
          var faceBoundingBox := Scaled(inputFaces[0], viewSize);
          var allPoints := AllPoints(observation);
          if allPoints.Some? {
            var points := ConvertPointsForFace(allPoints, faceBoundingBox);
            var report := UpdateSlot(imageIndex, points);
            if report.Some? {
              reports := reports + [report.value];
              trapped := report.value.Err?;
            } else {
              assert reports + [] == reports;
            }
          }
        }
        assert (Contents(), reports) == Observe(hypot, before.0, before.1, imageIndex, faceBox, regions[i]);
        i := i + 1;
      }
      assert regions[..|regions|] == regions;
      if trapped {
        HaltedStaysHalted(hypot, start, imageIndex, faceBox, regions, i);
      }
    }
  }
}
