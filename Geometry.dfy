/**
 * Core Graphics geometry over the reals and the `CGRect.scaled(to:)` extension,
 * which converts a rectangle given in normalised coordinates into the
 * coordinates of a canvas of a given size.
 */
module Geometry {

  /** A `CGPoint`, or one of the `(x: CGFloat, y: CGFloat)` tuples the app builds from it. */
  datatype Point = Point(x: real, y: real)

  /** A `CGSize`. */
  datatype Size = Size(width: real, height: real)

  /** A `CGRect`: an origin and a size. */
  datatype Rect = Rect(origin: Point, size: Size)

  /** Multiplies each coordinate of `p` by the matching dimension of `to`. */
  function ScalePoint(p: Point, to: Size): Point {
    Point(p.x * to.width, p.y * to.height)
  }

  /** The corner of `r` opposite its origin. */
  function FarCorner(r: Rect): Point {
    Point(r.origin.x + r.size.width, r.origin.y + r.size.height)
  }

  /** `CGRect.width`: the width of the standardised rectangle, never negative. */
  function Width(r: Rect): (w: real)
    ensures w >= 0.0 && (w == r.size.width || w == -r.size.width)
  {
    if r.size.width < 0.0 then -r.size.width else r.size.width
  }

  /** `CGRect.height`: the height of the standardised rectangle, never negative. */
  function Height(r: Rect): (h: real)
    ensures h >= 0.0 && (h == r.size.height || h == -r.size.height)
  {
    if r.size.height < 0.0 then -r.size.height else r.size.height
  }

  /**
   * `CGRect.scaled(to:)`: horizontal components are multiplied by the target
   * width, vertical ones by the target height. Nothing is clamped, so a rectangle
   * outside the unit square is scaled like any other. Both corners of the
   * rectangle move as points do when scaled.
   */
  function Scaled(r: Rect, to: Size): (s: Rect)
    ensures s.origin == ScalePoint(r.origin, to)
    ensures FarCorner(s) == ScalePoint(FarCorner(r), to)
  {
    Rect(Point(r.origin.x * to.width, r.origin.y * to.height),
         Size(r.size.width * to.width, r.size.height * to.height))
  }

  /** Scaling to a unit canvas changes nothing, whatever the rectangle's range. */
  lemma ScaledToUnitIsIdentity(r: Rect)
    ensures Scaled(r, Size(1.0, 1.0)) == r
  {
  }

  /** Scaling twice is scaling once by the product of the two sizes. */
  lemma ScaledComposes(r: Rect, a: Size, b: Size)
    ensures Scaled(Scaled(r, a), b) == Scaled(r, Size(a.width * b.width, a.height * b.height))
  {
  }

  /** Scaling to a non-degenerate canvas is undone by scaling to its reciprocal. */
  lemma ScaledIsInvertible(r: Rect, to: Size)
    requires to.width != 0.0 && to.height != 0.0
    ensures Scaled(Scaled(r, to), Size(1.0 / to.width, 1.0 / to.height)) == r
  {
  }

  /** A face box of (0.1, 0.1, 0.5, 0.5) on a 750 x 750 canvas. */
  lemma ScaledExample()
    ensures Scaled(Rect(Point(0.1, 0.1), Size(0.5, 0.5)), Size(750.0, 750.0))
         == Rect(Point(75.0, 75.0), Size(375.0, 375.0))
  {
  }
}
