/** Option, the usual Some/None wrapper for Swift optionals. */
module Wrappers {
  datatype Option<+T> = None | Some(value: T)
}

/**
 * The CoreGraphics value types the component computes with: points, sizes,
 * rectangles, edge insets and affine transforms, with CGFloat modelled as
 * `real`. The operations here are those of CoreGraphics itself (standardized
 * width and extent, inset, containment, applying a transform); the
 * component's own extensions live in PointExtensions and RectExtensions.
 */
module Geometry {

  datatype Point = Point(x: real, y: real)
  datatype Size = Size(width: real, height: real)
  datatype Rect = Rect(origin: Point, size: Size)
  datatype EdgeInsets = EdgeInsets(top: real, left: real, bottom: real, right: real)

  /** CGAffineTransform: a point (x, y) maps to (a*x + c*y + tx, b*x + d*y + ty). */
  datatype AffineTransform = AffineTransform(a: real, b: real, c: real, d: real, tx: real, ty: real)

  const ZeroPoint: Point := Point(0.0, 0.0)
  const ZeroSize: Size := Size(0.0, 0.0)
  const ZeroRect: Rect := Rect(ZeroPoint, ZeroSize)

  function MakeRect(x: real, y: real, width: real, height: real): Rect {
    Rect(Point(x, y), Size(width, height))
  }

  function Abs(v: real): real { if v < 0.0 then -v else v }
  function Min(u: real, v: real): real { if u <= v then u else v }
  function Max(u: real, v: real): real { if u >= v then u else v }

  /** CGRect.width and CGRect.height are those of the standardized rectangle. */
  function Width(r: Rect): (w: real)
    ensures w >= 0.0
    ensures r.size.width >= 0.0 ==> w == r.size.width
  {
    Abs(r.size.width)
  }

  function Height(r: Rect): (h: real)
    ensures h >= 0.0
    ensures r.size.height >= 0.0 ==> h == r.size.height
  {
    Abs(r.size.height)
  }

  function MinX(r: Rect): real { Min(r.origin.x, r.origin.x + r.size.width) }
  function MaxX(r: Rect): real { Max(r.origin.x, r.origin.x + r.size.width) }
  function MinY(r: Rect): real { Min(r.origin.y, r.origin.y + r.size.height) }
  function MaxY(r: Rect): real { Max(r.origin.y, r.origin.y + r.size.height) }

  lemma ExtentOrdered(r: Rect)
    ensures MinX(r) <= MaxX(r) && MaxX(r) - MinX(r) == Width(r)
    ensures MinY(r) <= MaxY(r) && MaxY(r) - MinY(r) == Height(r)
  {
  }

  /**
   * CGRect.insetBy(dx:dy:) for non-positive insets, that is growing the
   * rectangle: the standardized rectangle moved out by -dx and -dy on every
   * side. (A positive inset that would turn the rectangle inside out yields
   * the null rectangle in CoreGraphics; the component only grows rectangles.)
   */
  function InsetBy(r: Rect, dx: real, dy: real): (g: Rect)
    requires dx <= 0.0 && dy <= 0.0
    ensures MinX(g) == MinX(r) + dx && MaxX(g) == MaxX(r) - dx
    ensures MinY(g) == MinY(r) + dy && MaxY(g) == MaxY(r) - dy
  {
    MakeRect(MinX(r) + dx, MinY(r) + dy, Width(r) - 2.0 * dx, Height(r) - 2.0 * dy)
  }

  /** CGRect.contains(_:) for a point: the half-open standardized extent. */
  predicate Contains(r: Rect, p: Point) {
    MinX(r) <= p.x < MaxX(r) && MinY(r) <= p.y < MaxY(r)
  }

  /** CGPoint.applying(_:). */
  function Apply(t: AffineTransform, p: Point): Point {
    Point(t.a * p.x + t.c * p.y + t.tx, t.b * p.x + t.d * p.y + t.ty)
  }

  /** CGAffineTransform(scaleX:y:). */
  function ScaleTransform(sx: real, sy: real): AffineTransform {
    AffineTransform(sx, 0.0, 0.0, sy, 0.0, 0.0)
  }

  /**
   * CGAffineTransform.translatedBy(x:y:): the translation is applied to the
   * point first and the receiver afterwards.
   */
  function TranslatedBy(t: AffineTransform, x: real, y: real): AffineTransform {
    AffineTransform(t.a, t.b, t.c, t.d, t.a * x + t.c * y + t.tx, t.b * x + t.d * y + t.ty)
  }

  /** Applying the translated transform is applying the receiver to the moved point. */
  lemma TranslatedByApply(t: AffineTransform, x: real, y: real, p: Point)
    ensures Apply(TranslatedBy(t, x, y), p) == Apply(t, Point(p.x + x, p.y + y))
  {
    var lhs, rhs := Apply(TranslatedBy(t, x, y), p), Apply(t, Point(p.x + x, p.y + y));
    var ax, cy, bx, dy := t.a * x, t.c * y, t.b * x, t.d * y;
    var apx, cpy, bpx, dpy := t.a * p.x, t.c * p.y, t.b * p.x, t.d * p.y;
    assert lhs.x == apx + cpy + (ax + cy + t.tx) && lhs.y == bpx + dpy + (bx + dy + t.ty);
    Distribute(t.a, p.x, x);
    Distribute(t.c, p.y, y);
    Distribute(t.b, p.x, x);
    Distribute(t.d, p.y, y);
    assert rhs.x == (apx + ax) + (cpy + cy) + t.tx && rhs.y == (bpx + bx) + (dpy + dy) + t.ty;
  }

  lemma Distribute(k: real, u: real, v: real)
    ensures k * (u + v) == k * u + k * v
  {
  }

  lemma ApplyScale(sx: real, sy: real, p: Point)
    ensures Apply(ScaleTransform(sx, sy), p) == Point(sx * p.x, sy * p.y)
  {
  }
}
