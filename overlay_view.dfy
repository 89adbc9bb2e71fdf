/**
 * The quadrilateral crop editor: four 28-point anchor views whose centres
 * the user drags. A pan that begins within 30 points of an anchor's frame
 * attaches that anchor; while it changes, the anchor follows the finger,
 * clamped to the view's bounds. The anchors can be laid out at the bounds'
 * corners or at the corners of a detected rectangle.
 */
module OverlayView {
  import opened Wrappers
  import opened Geometry
  import opened Platform
  import opened PointExtensions
  import opened RectExtensions

  datatype Corner = TopLeft | TopRight | BottomLeft | BottomRight

  /** The centres of the four anchor views. */
  datatype Anchors = Anchors(topLeft: Point, topRight: Point, bottomLeft: Point, bottomRight: Point)

  function CentreOf(cs: Anchors, k: Corner): Point {
    match k
    case TopLeft => cs.topLeft
    case TopRight => cs.topRight
    case BottomLeft => cs.bottomLeft
    case BottomRight => cs.bottomRight
  }

  function WithCentre(cs: Anchors, k: Corner, p: Point): (r: Anchors)
    ensures CentreOf(r, k) == p
    ensures forall j :: j != k ==> CentreOf(r, j) == CentreOf(cs, j)
  {
    match k
    case TopLeft => cs.(topLeft := p)
    case TopRight => cs.(topRight := p)
    case BottomLeft => cs.(bottomLeft := p)
    case BottomRight => cs.(bottomRight := p)
  }

  /** Side of every anchor view's bounds. */
  const AnchorSide: real := 28.0
  /** How far beyond an anchor's frame a touch still picks it up. */
  const TouchMargin: real := 30.0

  /** The frame of an anchor view centred at c. */
  function AnchorFrame(c: Point): Rect {
    RectWithCenter(c, Size(AnchorSide, AnchorSide))
  }

  /** The anchor's frame grown by the touch margin on every side contains the point. */
  predicate Hit(cs: Anchors, k: Corner, p: Point) {
    Contains(InsetBy(AnchorFrame(CentreOf(cs, k)), -TouchMargin, -TouchMargin), p)
  }

  /** The same test in plain coordinates: within 44 points of the centre, right and bottom edges excluded. */
  lemma HitIsSquareAroundCentre(cs: Anchors, k: Corner, p: Point)
    ensures Hit(cs, k, p) <==>
      var c := CentreOf(cs, k);
      c.x - 44.0 <= p.x < c.x + 44.0 && c.y - 44.0 <= p.y < c.y + 44.0
  {
  }

  /** first(where:) over the anchors in the given order. */
  function FirstHit(order: seq<Corner>, cs: Anchors, p: Point): (r: Option<Corner>)
    ensures r.None? <==> forall i :: 0 <= i < |order| ==> !Hit(cs, order[i], p)
    ensures r.Some? ==> exists i :: 0 <= i < |order| && order[i] == r.value && Hit(cs, r.value, p)
                                    && forall j :: 0 <= j < i ==> !Hit(cs, order[j], p)
  {
    if |order| == 0 then None
    else if Hit(cs, order[0], p) then Some(order[0])
    else
      var rest := FirstHit(order[1..], cs, p);
      assert rest.Some? ==> exists i :: 0 <= i < |order| && order[i] == rest.value && Hit(cs, rest.value, p)
                                        && forall j :: 0 <= j < i ==> !Hit(cs, order[j], p) by {
        if rest.Some? {
          var i :| 0 <= i < |order[1..]| && order[1..][i] == rest.value && Hit(cs, rest.value, p)
                   && forall j :: 0 <= j < i ==> !Hit(cs, order[1..][j], p);
          assert order[i + 1] == rest.value;
          forall j | 0 <= j < i + 1 ensures !Hit(cs, order[j], p) {
            if j > 0 { assert order[j] == order[1..][j - 1]; }
          }
        }
      }
      assert rest.None? <==> forall i :: 0 <= i < |order| ==> !Hit(cs, order[i], p) by {
        if rest.None? {
          forall i | 0 <= i < |order| ensures !Hit(cs, order[i], p) {
            if i > 0 { assert order[i] == order[1..][i - 1]; }
          }
        }
      }
      rest
  }

  /**
   * anchor(_contains:): the first of top-left, top-right, bottom-left and
   * bottom-right whose grown frame contains the point, or nil.
   */
  function Anchor(cs: Anchors, p: Point): (r: Option<Corner>)
    ensures r == Some(TopLeft) <==> Hit(cs, TopLeft, p)
    ensures r == Some(TopRight) <==> !Hit(cs, TopLeft, p) && Hit(cs, TopRight, p)
    ensures r == Some(BottomLeft) <==> !Hit(cs, TopLeft, p) && !Hit(cs, TopRight, p) && Hit(cs, BottomLeft, p)
    ensures r == Some(BottomRight) <==>
      !Hit(cs, TopLeft, p) && !Hit(cs, TopRight, p) && !Hit(cs, BottomLeft, p) && Hit(cs, BottomRight, p)
    ensures r.None? <==> forall k :: !Hit(cs, k, p)
  {
    var order := [TopLeft, TopRight, BottomLeft, BottomRight];
    assert order[1..] == [TopRight, BottomLeft, BottomRight];
    assert order[1..][1..] == [BottomLeft, BottomRight];
    assert order[1..][1..][1..] == [BottomRight];
    assert order[1..][1..][1..][1..] == [];
    var r4 := FirstHit([BottomRight], cs, p);
    assert r4 == if Hit(cs, BottomRight, p) then Some(BottomRight) else None;
    var r3 := FirstHit([BottomLeft, BottomRight], cs, p);
    assert r3 == if Hit(cs, BottomLeft, p) then Some(BottomLeft) else r4;
    var r2 := FirstHit([TopRight, BottomLeft, BottomRight], cs, p);
    assert r2 == if Hit(cs, TopRight, p) then Some(TopRight) else r3;
    var r := FirstHit(order, cs, p);
    assert r == if Hit(cs, TopLeft, p) then Some(TopLeft) else r2;
    r
  }

  /** The location clamped into the bounds, x then y, as parentPan does it. */
  function ClampToBounds(location: Point, b: Rect): (q: Point)
    ensures MinX(b) <= q.x <= MaxX(b) && MinY(b) <= q.y <= MaxY(b)
    ensures MinX(b) <= location.x <= MaxX(b) ==> q.x == location.x
    ensures MinY(b) <= location.y <= MaxY(b) ==> q.y == location.y
  {
    ExtentOrdered(b);
    var x := Max(MinX(b), location.x);
    var x := Min(MaxX(b), x);
    var y := Max(MinY(b), location.y);
    var y := Min(MaxY(b), y);
    Point(x, y)
  }

  /** The insets layoutButtons(_:) takes. */
  function InsetCentres(b: Rect, e: EdgeInsets): (cs: Anchors)
    ensures cs.topLeft == Point(b.origin.x + e.left, b.origin.y + e.top)
    ensures cs.topRight == Point(b.origin.x + b.size.width - e.right, b.origin.y + e.top)
    ensures cs.bottomLeft == Point(b.origin.x + e.left, b.origin.y + b.size.height - e.bottom)
    ensures cs.bottomRight == Point(b.origin.x + b.size.width - e.right, b.origin.y + b.size.height - e.bottom)
  {
    Anchors(Translate(RectExtensions.TopLeft(b), e.left, e.top),
            Translate(RectExtensions.TopRight(b), -e.right, e.top),
            Translate(RectExtensions.BottomLeft(b), e.left, -e.bottom),
            Translate(RectExtensions.BottomRight(b), -e.right, -e.bottom))
  }

  /** With zero insets the anchors sit exactly on the corners of the bounds. */
  lemma ZeroInsetsGiveCorners(b: Rect)
    ensures InsetCentres(b, EdgeInsets(0.0, 0.0, 0.0, 0.0))
            == Anchors(RectExtensions.TopLeft(b), RectExtensions.TopRight(b),
                       RectExtensions.BottomLeft(b), RectExtensions.BottomRight(b))
  {
  }

  /** CIRectangleFeature: four corners in CoreImage coordinates of the image. */
  datatype RectangleFeature = RectangleFeature(topLeft: Point, topRight: Point, bottomLeft: Point, bottomRight: Point)

  /** A detected corner placed in the view: flipped to UIKit space, then scaled from image to view size. */
  function FeaturePoint(p: Point, b: Rect, imageSize: Size): (q: Point)
    requires imageSize.width != 0.0 && imageSize.height != 0.0
    ensures q == Point(b.size.width / imageSize.width * p.x,
                       b.size.height / imageSize.height * (imageSize.height - p.y))
  {
    var sx := b.size.width / imageSize.width;
    var sy := b.size.height / imageSize.height;
    var flipped := CiPointIn(p, imageSize);
    ApplyScale(sx, sy, flipped);
    Apply(ScaleTransform(sx, sy), flipped)
  }

  /** The UIPanGestureRecognizer subclass that remembers the anchor it drags. */
  class PanViewGestureRecognizer {
    var state: GestureState
    var location: Point
    var attachedView: Option<Corner>

    constructor (state: GestureState, location: Point)
      ensures this.state == state && this.location == location && attachedView.None?
    {
      this.state := state;
      this.location := location;
      attachedView := None;
    }
  }

  class OverlayView {
    var bounds: Rect
    var topLeftCentre: Point
    var topRightCentre: Point
    var bottomLeftCentre: Point
    var bottomRightCentre: Point

    function AnchorCentres(): Anchors
      reads this
    {
      Anchors(topLeftCentre, topRightCentre, bottomLeftCentre, bottomRightCentre)
    }

    method SetCentres(cs: Anchors)
      modifies this`topLeftCentre, this`topRightCentre, this`bottomLeftCentre, this`bottomRightCentre
      ensures AnchorCentres() == cs
    {
      topLeftCentre, topRightCentre, bottomLeftCentre, bottomRightCentre :=
        cs.topLeft, cs.topRight, cs.bottomLeft, cs.bottomRight;
    }

    /** init(frame:) and setupButtons(): the anchors start at the corners of the bounds. */
    constructor (bounds: Rect)
      ensures this.bounds == bounds
      ensures AnchorCentres() == InsetCentres(bounds, EdgeInsets(0.0, 0.0, 0.0, 0.0))
    {
      this.bounds := bounds;
      new;
      LayoutButtons(EdgeInsets(0.0, 0.0, 0.0, 0.0));
    }

    /** layoutButtons(_:): each anchor at its corner of the bounds, moved inward by the insets. */
    method LayoutButtons(edgeInset: EdgeInsets)
      modifies this`topLeftCentre, this`topRightCentre, this`bottomLeftCentre, this`bottomRightCentre
      ensures AnchorCentres() == InsetCentres(bounds, edgeInset)
    {
      SetCentres(InsetCentres(bounds, edgeInset));
    }

    /** layoutButtons(_:_:): each anchor at the matching corner of a detected rectangle. */
    method LayoutButtonsToFeature(rectFeature: RectangleFeature, imageSize: Size)
      requires imageSize.width != 0.0 && imageSize.height != 0.0
      modifies this`topLeftCentre, this`topRightCentre, this`bottomLeftCentre, this`bottomRightCentre
      ensures AnchorCentres() == Anchors(
        FeaturePoint(rectFeature.topLeft, bounds, imageSize), FeaturePoint(rectFeature.topRight, bounds, imageSize),
        FeaturePoint(rectFeature.bottomLeft, bounds, imageSize), FeaturePoint(rectFeature.bottomRight, bounds, imageSize))
    {
      topLeftCentre := FeaturePoint(rectFeature.topLeft, bounds, imageSize);
      topRightCentre := FeaturePoint(rectFeature.topRight, bounds, imageSize);
      bottomLeftCentre := FeaturePoint(rectFeature.bottomLeft, bounds, imageSize);
      bottomRightCentre := FeaturePoint(rectFeature.bottomRight, bounds, imageSize);
    }

    /**
     * parentPan(_:): began attaches the anchor under the touch (or none);
     * changed moves the attached anchor's centre to the touch clamped into
     * the bounds, and does nothing without one; every other state detaches.
     */
    method ParentPan(sender: PanViewGestureRecognizer)
      modifies sender`attachedView
      modifies this`topLeftCentre, this`topRightCentre, this`bottomLeftCentre, this`bottomRightCentre
      ensures sender.state == Began ==>
                sender.attachedView == Anchor(old(AnchorCentres()), sender.location) && AnchorCentres() == old(AnchorCentres())
      ensures sender.state == Changed ==> sender.attachedView == old(sender.attachedView)
      ensures sender.state == Changed && sender.attachedView.Some? ==>
                AnchorCentres() == WithCentre(old(AnchorCentres()), sender.attachedView.value,
                                        ClampToBounds(sender.location, bounds))
      ensures sender.state == Changed && sender.attachedView.Some? ==>
                var c := CentreOf(AnchorCentres(), sender.attachedView.value);
                MinX(bounds) <= c.x <= MaxX(bounds) && MinY(bounds) <= c.y <= MaxY(bounds)
      ensures sender.state == Changed && sender.attachedView.None? ==> AnchorCentres() == old(AnchorCentres())
      ensures sender.state != Began && sender.state != Changed ==>
                sender.attachedView.None? && AnchorCentres() == old(AnchorCentres())
    {
      match sender.state {
        case Began =>
          sender.attachedView := Anchor(AnchorCentres(), sender.location);
        case Changed =>
          if sender.attachedView.None? {
            return;
          }
          var location := ClampToBounds(sender.location, bounds);
          SetCentres(WithCentre(AnchorCentres(), sender.attachedView.value, location));
        case _ =>
          sender.attachedView := None;
      }
    }
  }
}
