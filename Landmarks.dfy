/**
 * From the landmark region a face detector reports to points in canvas
 * coordinates: `convert` copies the region's raw points, and
 * `convertPointsForFace` places each normalised point inside the face's box.
 */
module Landmarks {
  import opened Wrappers
  import opened Geometry

  /**
   * A `VNFaceLandmarkRegion2D`: a buffer of normalised points and the number of
   * them the region reports.
   */
  datatype LandmarkRegion = LandmarkRegion(normalizedPoints: seq<Point>, pointCount: nat)

  /** The detector reports no more points than its buffer holds. */
  predicate WellFormed(region: LandmarkRegion) {
    region.pointCount <= |region.normalizedPoints|
  }

  /** A region that is absent or well formed. */
  predicate RegionOk(region: Option<LandmarkRegion>) {
    region.Some? ==> WellFormed(region.value)
  }

  /**
   * The point at relative position `p` inside `box`: offsets along the box's
   * (never negative) `width` and `height`, from its `origin`.
   */
  function ToBox(p: Point, box: Rect): (q: Point)
    ensures 0.0 <= p.x <= 1.0 ==> box.origin.x <= q.x <= box.origin.x + Width(box)
    ensures 0.0 <= p.y <= 1.0 ==> box.origin.y <= q.y <= box.origin.y + Height(box)
  {
    Point(p.x * Width(box) + box.origin.x, p.y * Height(box) + box.origin.y)
  }

  /** The relative position inside `box` of the canvas point `q`. */
  function FromBox(q: Point, box: Rect): Point
    requires Width(box) != 0.0 && Height(box) != 0.0
  {
    Point((q.x - box.origin.x) / Width(box), (q.y - box.origin.y) / Height(box))
  }

  /** Every point of `points` placed inside `box`, in the same order (the `map` of `convertPointsForFace`). */
  function MapToBox(points: seq<Point>, box: Rect): (r: seq<Point>)
    ensures |r| == |points|
    ensures forall i :: 0 <= i < |points| ==> r[i] == ToBox(points[i], box)
  {
    if points == [] then [] else [ToBox(points[0], box)] + MapToBox(points[1..], box)
  }

  /**
   * The canvas points `convertPointsForFace` returns for `region` and `box`:
   * none for an absent region, otherwise its first `pointCount` points placed
   * in the box, in order.
   */
  function FacePoints(region: Option<LandmarkRegion>, box: Rect): (r: seq<Point>)
    requires RegionOk(region)
    ensures region.None? ==> r == []
    ensures region.Some? ==> |r| == region.value.pointCount
    ensures region.Some? ==> forall i :: 0 <= i < region.value.pointCount ==>
              r[i] == ToBox(region.value.normalizedPoints[i], box)
  {
    match region
    case None => []
    case Some(r) => MapToBox(r.normalizedPoints[..r.pointCount], box)
  }

  /**
   * (0, 0) lands on the box's origin and (1, 1) on the origin plus `width` and
   * `height`: the box's far corner when its size is not negative.
   */
  lemma ToBoxCorners(box: Rect)
    ensures ToBox(Point(0.0, 0.0), box) == box.origin
    ensures ToBox(Point(1.0, 1.0), box) == Point(box.origin.x + Width(box), box.origin.y + Height(box))
    ensures box.size.width >= 0.0 && box.size.height >= 0.0 ==> ToBox(Point(1.0, 1.0), box) == FarCorner(box)
  {
  }

  /** A product divided by its non-zero factor gives the other factor back. */
  lemma DivideBack(d: real, a: real, w: real)
    requires w != 0.0 && d == a * w
    ensures d / w == a
  {
  }

  /** Placing a point in a non-degenerate box loses nothing: its relative position can be read back. */
  lemma FromBoxUndoesToBox(p: Point, box: Rect)
    requires Width(box) != 0.0 && Height(box) != 0.0
    ensures FromBox(ToBox(p, box), box) == p
  {
    var w, h := Width(box), Height(box);
    var q := ToBox(p, box);
    assert q.x - box.origin.x == p.x * w && q.y - box.origin.y == p.y * h;
    DivideBack(q.x - box.origin.x, p.x, w);
    DivideBack(q.y - box.origin.y, p.y, h);
    assert FromBox(q, box) == Point((q.x - box.origin.x) / w, (q.y - box.origin.y) / h);
  }

  /**
   * Placing a point in a box scaled to a canvas of non-negative size is the
   * same as placing it in the normalised box and then scaling the result to
   * the canvas. (With a negative canvas dimension the standardised `width`
   * or `height` flips sign relative to the scaled origin, and the two differ.)
   */
  lemma ToBoxInScaledBox(p: Point, r: Rect, canvas: Size)
    requires canvas.width >= 0.0 && canvas.height >= 0.0
    ensures ToBox(p, Scaled(r, canvas)) == ScalePoint(ToBox(p, r), canvas)
  {
  }

  /** `convert`: copies the first `count` raw points, in order. */
  method Convert(points: seq<Point>, count: nat) returns (converted: seq<Point>)
    requires count <= |points|
    ensures |converted| == count
    ensures forall i :: 0 <= i < count ==> converted[i] == points[i]
  {
    converted := [];
    var i := 0;
    while i < count
      invariant 0 <= i <= count
      invariant |converted| == i
      invariant forall j :: 0 <= j < i ==> converted[j] == points[j]
    {
      converted := converted + [Point(points[i].x, points[i].y)];
      i := i + 1;
    }
  }

  /** `convertPointsForFace`: an absent region gives no points, otherwise its points placed in `box`. */
  method ConvertPointsForFace(landmark: Option<LandmarkRegion>, box: Rect) returns (r: seq<Point>)
    requires RegionOk(landmark)
    ensures r == FacePoints(landmark, box)
  {
    if landmark.None? {
      return [];
    }
    var region := landmark.value;
    var convertedPoints := Convert(region.normalizedPoints, region.pointCount);
    assert convertedPoints == region.normalizedPoints[..region.pointCount];
    r := MapToBox(convertedPoints, box);
  }
}
