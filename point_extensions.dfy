/**
 * The component's CGPoint extension: translation and the flip between the
 * CoreImage coordinate space (origin bottom-left) and the UIKit one (origin
 * top-left) of an image of a given size.
 */
module PointExtensions {
  import opened Geometry

  /** translate(_:dy:): the point moved by the two offsets. */
  function Translate(p: Point, dx: real, dy: real): (q: Point)
    ensures q.x - p.x == dx && q.y - p.y == dy
  {
    Point(p.x + dx, p.y + dy)
  }

  lemma TranslateZero(p: Point)
    ensures Translate(p, 0.0, 0.0) == p
  {
  }

  /** Two translations compose into one by the summed offsets. */
  lemma TranslateCompose(p: Point, dx1: real, dy1: real, dx2: real, dy2: real)
    ensures Translate(Translate(p, dx1, dy1), dx2, dy2) == Translate(p, dx1 + dx2, dy1 + dy2)
  {
  }

  /** The transform both flips build: scale y by -1 after moving the point by -height. */
  function FlipTransform(s: Size): AffineTransform {
    TranslatedBy(ScaleTransform(1.0, -1.0), 0.0, -s.height)
  }

  /** Its matrix: x kept, y negated, then shifted by the height. */
  lemma FlipTransformEntries(s: Size)
    ensures FlipTransform(s) == AffineTransform(1.0, 0.0, 0.0, -1.0, 0.0, s.height)
  {
  }

  /** cgPointIn(_:): a CoreImage point of an image of size ciSize in UIKit coordinates. */
  function CgPointIn(p: Point, ciSize: Size): (q: Point)
    ensures q == Point(p.x, ciSize.height - p.y)
  {
    FlipTransformEntries(ciSize);
    Apply(FlipTransform(ciSize), p)
  }

  /** ciPointIn(_:): a UIKit point of an image of size cgSize in CoreImage coordinates. */
  function CiPointIn(p: Point, cgSize: Size): (q: Point)
    ensures q == Point(p.x, cgSize.height - p.y)
  {
    FlipTransformEntries(cgSize);
    Apply(FlipTransform(cgSize), p)
  }

  /** Converting to UIKit space and back to CoreImage space gives the point back. */
  lemma FlipRoundTrip(p: Point, s: Size)
    ensures CiPointIn(CgPointIn(p, s), s) == p
    ensures CgPointIn(CiPointIn(p, s), s) == p
  {
  }

  /** Each flip is its own inverse and keeps the x coordinate. */
  lemma FlipSelfInverse(p: Point, s: Size)
    ensures CgPointIn(CgPointIn(p, s), s) == p
    ensures CiPointIn(CiPointIn(p, s), s) == p
    ensures CgPointIn(p, s).x == p.x && CiPointIn(p, s).x == p.x
  {
  }
}
