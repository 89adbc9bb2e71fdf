/**
 * The zoom, inset and centring arithmetic the confirm and crop screens each
 * repeat around their scroll view: the aspect-fit and aspect-fill zoom
 * scales, the content insets that frame a rectangle inside a container, the
 * origin that centres a smaller image, the content offset that centres the
 * image in the crop area after a rotation, and the crop frame expressed as
 * fractions of the image view.
 */
module ScrollLayout {
  import opened Geometry
  import opened Utilities

  /** min of the per-axis ratios: the largest scale at which the image fits inside the bound. */
  function FitScale(bound: Size, image: Size): (s: real)
    requires image.width != 0.0 && image.height != 0.0
    ensures s == bound.width / image.width || s == bound.height / image.height
    ensures s <= bound.width / image.width && s <= bound.height / image.height
  {
    Min(bound.width / image.width, bound.height / image.height)
  }

  /** max of the per-axis ratios: the smallest scale at which the image covers the bound. */
  function FillScale(bound: Size, image: Size): (s: real)
    requires image.width != 0.0 && image.height != 0.0
    ensures s == bound.width / image.width || s == bound.height / image.height
    ensures s >= bound.width / image.width && s >= bound.height / image.height
  {
    Max(bound.width / image.width, bound.height / image.height)
  }

  lemma ScaleBelowRatio(s: real, b: real, i: real)
    requires i > 0.0 && s <= b / i
    ensures s * i <= b
  {
    assert (b / i) * i == b;
    assert (b / i - s) * i >= 0.0;
  }

  lemma ScaleAboveRatio(s: real, b: real, i: real)
    requires i > 0.0 && s >= b / i
    ensures s * i >= b
  {
    assert (b / i) * i == b;
    assert (s - b / i) * i >= 0.0;
  }

  /** At the fit scale the image lies inside the bound on both axes and fills it on one. */
  lemma FitScaleFits(bound: Size, image: Size)
    requires image.width > 0.0 && image.height > 0.0
    ensures FitScale(bound, image) * image.width <= bound.width
    ensures FitScale(bound, image) * image.height <= bound.height
    ensures FitScale(bound, image) * image.width == bound.width
            || FitScale(bound, image) * image.height == bound.height
  {
    var s := FitScale(bound, image);
    ScaleBelowRatio(s, bound.width, image.width);
    ScaleBelowRatio(s, bound.height, image.height);
    assert (bound.width / image.width) * image.width == bound.width;
    assert (bound.height / image.height) * image.height == bound.height;
  }

  /** At the fill scale the image covers the bound on both axes and matches it on one. */
  lemma FillScaleCovers(bound: Size, image: Size)
    requires image.width > 0.0 && image.height > 0.0
    ensures FillScale(bound, image) * image.width >= bound.width
    ensures FillScale(bound, image) * image.height >= bound.height
    ensures FillScale(bound, image) * image.width == bound.width
            || FillScale(bound, image) * image.height == bound.height
  {
    var s := FillScale(bound, image);
    ScaleAboveRatio(s, bound.width, image.width);
    ScaleAboveRatio(s, bound.height, image.height);
    assert (bound.width / image.width) * image.width == bound.width;
    assert (bound.height / image.height) * image.height == bound.height;
  }

  /**
   * calculateScrollViewInsets(_:): top and left are the frame's origin,
   * bottom and right what remains of the container beyond the frame.
   */
  function ScrollViewInsets(origin: Point, frameSize: Size, container: Size): (e: EdgeInsets)
    ensures e.top == origin.y && e.left == origin.x
    ensures e.top + frameSize.height + e.bottom == container.height
    ensures e.left + frameSize.width + e.right == container.width
  {
    var bottom := container.height - (origin.y + frameSize.height);
    var right := container.width - (origin.x + frameSize.width);
    EdgeInsets(origin.y, origin.x, bottom, right)
  }

  /**
   * centerScrollViewContents(): per axis, half the spare room when the image
   * is smaller than the bound, and zero otherwise.
   */
  function CentredOrigin(bound: Size, image: Size): (o: Point)
    ensures o.x >= 0.0 && o.y >= 0.0
    ensures image.width < bound.width ==> o.x + image.width + o.x == bound.width
    ensures image.width >= bound.width ==> o.x == 0.0
    ensures image.height < bound.height ==> o.y + image.height + o.y == bound.height
    ensures image.height >= bound.height ==> o.y == 0.0
  {
    var x := if image.width < bound.width then (bound.width - image.width) / 2.0 else 0.0;
    var y := if image.height < bound.height then (bound.height - image.height) / 2.0 else 0.0;
    Point(x, y)
  }

  /**
   * centerImageViewOnRotate(): the content offset that puts the image's
   * centre at the centre of the crop area, whose top-left corner the insets
   * place at (left, top).
   */
  function RotateContentOffset(bound: Size, insets: EdgeInsets, image: Size): (p: Point)
    ensures image.width / 2.0 - p.x == insets.left + bound.width / 2.0
    ensures image.height / 2.0 - p.y == insets.top + bound.height / 2.0
  {
    var contentOffset := Point(-insets.left, -insets.top);
    var contentOffset := contentOffset.(x := contentOffset.x - (bound.width - image.width) / 2.0);
    var contentOffset := contentOffset.(y := contentOffset.y - (bound.height - image.height) / 2.0);
    contentOffset
  }

  /**
   * The crop frame moved by the scroll view's content offset into image-view
   * coordinates and divided by the image view's width and height: the
   * rectangle confirmPhoto and makeProportionalCropRect build.
   */
  function ProportionalCropRect(cropFrame: Rect, contentOffset: Point, imageViewFrame: Rect): (r: Rect)
    requires Width(imageViewFrame) != 0.0 && Height(imageViewFrame) != 0.0
    ensures r.origin.x * Width(imageViewFrame) == cropFrame.origin.x + contentOffset.x
    ensures r.origin.y * Height(imageViewFrame) == cropFrame.origin.y + contentOffset.y
    ensures r.size.width * Width(imageViewFrame) == Width(cropFrame)
    ensures r.size.height * Height(imageViewFrame) == Height(cropFrame)
  {
    var cropRect := cropFrame;
    var cropRect := cropRect.(origin := cropRect.origin.(x := cropRect.origin.x + contentOffset.x));
    var cropRect := cropRect.(origin := cropRect.origin.(y := cropRect.origin.y + contentOffset.y));
    var w, h := Width(imageViewFrame), Height(imageViewFrame);
    MakeRect(cropRect.origin.x / w, cropRect.origin.y / h, Width(cropRect) / w, Height(cropRect) / h)
  }

  lemma FractionOfWhole(a: real, w: real)
    requires w > 0.0 && 0.0 <= a <= w
    ensures 0.0 <= a / w <= 1.0
  {
    assert (a / w) * w == a;
  }

  /**
   * A crop frame that, once scrolled, lies within the image view gives a
   * rectangle inside the unit square.
   */
  lemma ProportionalCropRectInUnitSquare(cropFrame: Rect, contentOffset: Point, imageViewFrame: Rect)
    requires Width(imageViewFrame) != 0.0 && Height(imageViewFrame) != 0.0
    requires 0.0 <= cropFrame.origin.x + contentOffset.x
    requires cropFrame.origin.x + contentOffset.x + Width(cropFrame) <= Width(imageViewFrame)
    requires 0.0 <= cropFrame.origin.y + contentOffset.y
    requires cropFrame.origin.y + contentOffset.y + Height(cropFrame) <= Height(imageViewFrame)
    ensures InUnitSquare(ProportionalCropRect(cropFrame, contentOffset, imageViewFrame))
  {
    var r := ProportionalCropRect(cropFrame, contentOffset, imageViewFrame);
    var w, h := Width(imageViewFrame), Height(imageViewFrame);
    var x, y := cropFrame.origin.x + contentOffset.x, cropFrame.origin.y + contentOffset.y;
    FractionOfWhole(x, w);
    FractionOfWhole(Width(cropFrame), w);
    FractionOfWhole(x + Width(cropFrame), w);
    FractionOfWhole(y, h);
    FractionOfWhole(Height(cropFrame), h);
    FractionOfWhole(y + Height(cropFrame), h);
    assert r == MakeRect(x / w, y / h, Width(cropFrame) / w, Height(cropFrame) / h);
    QuotientsAdd(x, Width(cropFrame), w);
    QuotientsAdd(y, Height(cropFrame), h);
  }

  lemma QuotientsAdd(a: real, b: real, w: real)
    requires w != 0.0
    ensures a / w + b / w == (a + b) / w
  {
  }
}
