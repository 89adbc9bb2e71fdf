/**
 * The component's CGRect extension: the four corners, the centre, the
 * zero-origin bounds and the initializer from a centre and a size.
 */
module RectExtensions {
  import opened Geometry
  import PointExtensions

  function TopLeft(r: Rect): (p: Point)
    ensures p == r.origin
  {
    r.origin
  }

  function TopRight(r: Rect): (p: Point)
    ensures p == Point(r.origin.x + r.size.width, r.origin.y)
  {
    PointExtensions.Translate(r.origin, r.size.width, 0.0)
  }

  function BottomLeft(r: Rect): (p: Point)
    ensures p == Point(r.origin.x, r.origin.y + r.size.height)
  {
    PointExtensions.Translate(r.origin, 0.0, r.size.height)
  }

  function BottomRight(r: Rect): (p: Point)
    ensures p == Point(r.origin.x + r.size.width, r.origin.y + r.size.height)
  {
    PointExtensions.Translate(r.origin, r.size.width, r.size.height)
  }

  /** center: the point half-way along both sides. */
  function Center(r: Rect): (p: Point)
    ensures 2.0 * (p.x - r.origin.x) == r.size.width && 2.0 * (p.y - r.origin.y) == r.size.height
  {
    Point(r.origin.x + r.size.width / 2.0, r.origin.y + r.size.height / 2.0)
  }

  /** bounds: the same size at the zero origin. */
  function Bounds(r: Rect): (b: Rect)
    ensures b.origin == ZeroPoint && b.size == r.size
  {
    Rect(ZeroPoint, r.size)
  }

  /** CGRect(center:size:). */
  function RectWithCenter(c: Point, s: Size): (r: Rect)
    ensures r.size == s && Center(r) == c
  {
    MakeRect(c.x - s.width / 2.0, c.y - s.height / 2.0, s.width, s.height)
  }

  /** A rectangle built from a centre and a size has that centre and that size. */
  lemma CenterRoundTrip(c: Point, s: Size)
    ensures Center(RectWithCenter(c, s)) == c
    ensures RectWithCenter(c, s).size == s
  {
  }

  /** Rebuilding a rectangle from its own centre and size gives it back. */
  lemma RectFromOwnCenter(r: Rect)
    ensures RectWithCenter(Center(r), r.size) == r
  {
  }

  /** The corners are the origin moved along the sides; the centre lies half-way. */
  lemma CornerRelations(r: Rect)
    ensures TopLeft(r).y == TopRight(r).y && TopLeft(r).x == BottomLeft(r).x
    ensures BottomRight(r).x - TopLeft(r).x == r.size.width
    ensures BottomRight(r).y - TopLeft(r).y == r.size.height
    ensures Center(r).x - TopLeft(r).x == BottomRight(r).x - Center(r).x
    ensures Center(r).y - TopLeft(r).y == BottomRight(r).y - Center(r).y
  {
  }
}
