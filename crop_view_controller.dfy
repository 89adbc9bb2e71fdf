/**
 * CropViewController: shows an image (or a library asset, once fetched) in a
 * scroll view under the quadrilateral crop editor. Its border button
 * alternates between finding the borders of a document and selecting the
 * whole image; confirming either hands on the image as it is or, when
 * cropping, pushes a confirmation screen with the perspective-corrected crop.
 *
 * The rectangle detector's first feature and the perspective-corrected image
 * are parameters; the completion and the pushed confirmation screens are
 * recorded as the values handed to them.
 */
module CropViewController {
  import opened Wrappers
  import opened Geometry
  import opened Platform
  import opened ScrollLayout
  import OverlayView

  const FindBordersTitle: string := "Find Borders"
  const SelectAllTitle: string := "Select All"

  /** The closure the border-detection button runs. */
  datatype BorderAction = NoAction | DetectBordersAction | SelectAllBordersAction

  /**
   * UIImage.fixOrientation(): an image already up is returned as it is;
   * otherwise it is redrawn upright in a context of its size and scale, or
   * returned as it is when no context image comes back.
   */
  function FixOrientation(img: Image, contextImageAvailable: bool): (r: Image)
    ensures img.orientation == Up ==> r == img
    ensures img.orientation != Up && contextImageAvailable ==>
              r == Image(Drawn(img, ZeroPoint, 1.0), img.size, img.scale, Up)
    ensures img.orientation != Up && !contextImageAvailable ==> r == img
  {
    if img.orientation == Up then img
    else if contextImageAvailable then Image(Drawn(img, ZeroPoint, 1.0), img.size, img.scale, Up)
    else img
  }

  /** Whenever a context is available the result is upright, so fixing it again returns it unchanged. */
  lemma FixOrientationIdempotent(img: Image, first: bool, second: bool)
    requires first
    ensures FixOrientation(img, first).orientation == Up
    ensures FixOrientation(FixOrientation(img, first), second) == FixOrientation(img, first)
  {
  }

  class CropViewController {
    var allowsCropping: bool
    const asset: Option<Asset>
    /** imageView.image */
    var image: Option<Image>
    var imageViewFrame: Rect
    var scrollViewFrame: Rect
    var cropOverlayFrame: Rect
    var contentInset: EdgeInsets
    var contentOffset: Point
    const cropOverlay: OverlayView.OverlayView
    var borderButtonTitle: string
    var borderAction: BorderAction
    var confirmEnabled: bool
    /** Whether onComplete is set. */
    var hasOnComplete: bool
    /** Image and asset pairs delivered to onComplete, in order. */
    var completions: seq<(Option<Image>, Option<Asset>)>
    /** Images of the confirmation screens pushed by startConfimController, in order. */
    var confirmations: seq<Image>

    constructor (asset: Option<Asset>, allowsCropping: bool, cropOverlay: OverlayView.OverlayView,
                 scrollViewFrame: Rect, cropOverlayFrame: Rect, borderButtonTitle: string)
      ensures this.asset == asset && this.allowsCropping == allowsCropping && this.cropOverlay == cropOverlay
      ensures this.scrollViewFrame == scrollViewFrame && this.cropOverlayFrame == cropOverlayFrame
      ensures this.borderButtonTitle == borderButtonTitle && borderAction == NoAction
      ensures image.None? && imageViewFrame == ZeroRect && !confirmEnabled
      ensures !hasOnComplete && completions == [] && confirmations == []
    {
      this.asset := asset;
      this.allowsCropping := allowsCropping;
      this.cropOverlay := cropOverlay;
      this.scrollViewFrame := scrollViewFrame;
      this.cropOverlayFrame := cropOverlayFrame;
      this.borderButtonTitle := borderButtonTitle;
      borderAction := NoAction;
      image := None;
      imageViewFrame := ZeroRect;
      contentInset := EdgeInsets(0.0, 0.0, 0.0, 0.0);
      contentOffset := ZeroPoint;
      confirmEnabled := false;
      hasOnComplete := false;
      completions := [];
      confirmations := [];
    }

    /**
     * calculateMinimumScale(_:): 1 without an image, and otherwise the
     * aspect-fit scale over the given size whether cropping or not.
     */
    function CalculateMinimumScale(size: Size): (s: real)
      reads this
      requires image.Some? ==> image.value.size.width != 0.0 && image.value.size.height != 0.0
      ensures image.None? ==> s == 1.0
      ensures image.Some? ==> s == FitScale(size, image.value.size)
      ensures image.Some? && image.value.size.width > 0.0 && image.value.size.height > 0.0 ==>
                s * image.value.size.width <= size.width && s * image.value.size.height <= size.height
    {
      if image.None? then 1.0
      else
        var imageSize := image.value.size;
        assert imageSize.width > 0.0 && imageSize.height > 0.0 ==>
          FitScale(size, imageSize) * imageSize.width <= size.width
          && FitScale(size, imageSize) * imageSize.height <= size.height by {
          if imageSize.width > 0.0 && imageSize.height > 0.0 {
            FitScaleFits(size, imageSize);
          }
        }
        FitScale(size, imageSize)
    }

    /** calculateScrollViewInsets(_:): the insets that frame `frame` inside the scroll view. */
    function CalculateScrollViewInsets(frame: Rect): (e: EdgeInsets)
      reads this
      ensures e.top == frame.origin.y && e.left == frame.origin.x
      ensures e.top + Height(frame) + e.bottom == Height(scrollViewFrame)
      ensures e.left + Width(frame) + e.right == Width(scrollViewFrame)
    {
      ScrollViewInsets(frame.origin, Size(Width(frame), Height(frame)),
                       Size(Width(scrollViewFrame), Height(scrollViewFrame)))
    }

    /** centerScrollViewContents(): the image view moves to the origin that centres it in the scroll view. */
    method CenterScrollViewContents()
      modifies this`imageViewFrame
      ensures imageViewFrame == Rect(CentredOrigin(scrollViewFrame.size, old(imageViewFrame).size), old(imageViewFrame).size)
    {
      var imageOrigin := CentredOrigin(scrollViewFrame.size, imageViewFrame.size);
      imageViewFrame := imageViewFrame.(origin := imageOrigin);
    }

    /** centerImageViewOnRotate(): when cropping, scroll the image's centre to the scroll view's centre. */
    method CenterImageViewOnRotate()
      modifies this`contentOffset
      ensures !allowsCropping ==> contentOffset == old(contentOffset)
      ensures allowsCropping ==> contentOffset == RotateContentOffset(scrollViewFrame.size, contentInset, imageViewFrame.size)
    {
      if allowsCropping {
        contentOffset := RotateContentOffset(scrollViewFrame.size, contentInset, imageViewFrame.size);
      }
    }

    /** buttonActions(): the border button starts out finding borders. */
    method ButtonActions()
      modifies this`borderAction
      ensures borderAction == DetectBordersAction
    {
      borderAction := DetectBordersAction;
    }

    /**
     * detectBorders(): the overlay's anchors move to the corners of the
     * detected rectangle if there is one, and the button switches to
     * selecting all.
     */
    method DetectBorders(detected: Option<OverlayView.RectangleFeature>)
      requires image.Some? && image.value.size.width != 0.0 && image.value.size.height != 0.0
      modifies cropOverlay`topLeftCentre, cropOverlay`topRightCentre, cropOverlay`bottomLeftCentre, cropOverlay`bottomRightCentre
      modifies this`borderButtonTitle, this`borderAction
      ensures borderButtonTitle == SelectAllTitle && borderAction == SelectAllBordersAction
      ensures detected.None? ==> cropOverlay.AnchorCentres() == old(cropOverlay.AnchorCentres())
      ensures detected.Some? ==>
        var f := detected.value;
        var b := cropOverlay.bounds;
        var s := image.value.size;
        cropOverlay.AnchorCentres() == OverlayView.Anchors(
          OverlayView.FeaturePoint(f.topLeft, b, s), OverlayView.FeaturePoint(f.topRight, b, s),
          OverlayView.FeaturePoint(f.bottomLeft, b, s), OverlayView.FeaturePoint(f.bottomRight, b, s))
    {
      if detected.Some? {
        cropOverlay.LayoutButtonsToFeature(detected.value, image.value.size);
      }
      borderButtonTitle := SelectAllTitle;
      borderAction := SelectAllBordersAction;
    }

    /** selectAllBorders(): the anchors go back to the overlay's corners and the button to finding borders. */
    method SelectAllBorders()
      modifies cropOverlay`topLeftCentre, cropOverlay`topRightCentre, cropOverlay`bottomLeftCentre, cropOverlay`bottomRightCentre
      modifies this`borderButtonTitle, this`borderAction
      ensures borderButtonTitle == FindBordersTitle && borderAction == DetectBordersAction
      ensures cropOverlay.AnchorCentres() == OverlayView.InsetCentres(cropOverlay.bounds, EdgeInsets(0.0, 0.0, 0.0, 0.0))
    {
      cropOverlay.LayoutButtons(EdgeInsets(0.0, 0.0, 0.0, 0.0));
      borderButtonTitle := FindBordersTitle;
      borderAction := DetectBordersAction;
    }

    /** Pressing the border button runs the action it holds. */
    method PressBorderButton(detected: Option<OverlayView.RectangleFeature>)
      requires image.Some? && image.value.size.width != 0.0 && image.value.size.height != 0.0
      modifies cropOverlay`topLeftCentre, cropOverlay`topRightCentre, cropOverlay`bottomLeftCentre, cropOverlay`bottomRightCentre
      modifies this`borderButtonTitle, this`borderAction
      ensures old(borderAction) == DetectBordersAction ==>
                borderAction == SelectAllBordersAction && borderButtonTitle == SelectAllTitle
      ensures old(borderAction) == SelectAllBordersAction ==>
                borderAction == DetectBordersAction && borderButtonTitle == FindBordersTitle
      ensures old(borderAction) == NoAction ==>
                borderAction == NoAction && borderButtonTitle == old(borderButtonTitle)
                && cropOverlay.AnchorCentres() == old(cropOverlay.AnchorCentres())
      ensures old(borderAction) == SelectAllBordersAction ==>
                cropOverlay.AnchorCentres() == OverlayView.InsetCentres(cropOverlay.bounds, EdgeInsets(0.0, 0.0, 0.0, 0.0))
      ensures old(borderAction) == DetectBordersAction && detected.None? ==>
                cropOverlay.AnchorCentres() == old(cropOverlay.AnchorCentres())
      ensures old(borderAction) == DetectBordersAction && detected.Some? ==>
        var f := detected.value;
        var b := cropOverlay.bounds;
        var s := image.value.size;
        cropOverlay.AnchorCentres() == OverlayView.Anchors(
          OverlayView.FeaturePoint(f.topLeft, b, s), OverlayView.FeaturePoint(f.topRight, b, s),
          OverlayView.FeaturePoint(f.bottomLeft, b, s), OverlayView.FeaturePoint(f.bottomRight, b, s))
    {
      match borderAction {
        case DetectBordersAction => DetectBorders(detected);
        case SelectAllBordersAction => SelectAllBorders();
        case NoAction =>
      }
    }

    /** cancel(): the completion receives nil and nil. */
    method Cancel()
      modifies this`completions
      ensures completions == old(completions) + if hasOnComplete then [(None, None)] else []
    {
      if hasOnComplete {
        completions := completions + [(None, None)];
      }
    }

    /**
     * confirmPhoto(): nothing without an image. Otherwise, when cropping,
     * the overlay's perspective-corrected crop goes to a pushed confirmation
     * screen; when not, the completion receives the image unchanged with the
     * asset. The confirm button is disabled meanwhile and enabled again.
     */
    method ConfirmPhoto(overlayCrop: Image)
      modifies this`confirmEnabled, this`completions, this`confirmations
      ensures old(image).None? ==>
        confirmEnabled == old(confirmEnabled) && completions == old(completions) && confirmations == old(confirmations)
      ensures image.Some? && allowsCropping ==>
        confirmEnabled && confirmations == old(confirmations) + [overlayCrop] && completions == old(completions)
      ensures image.Some? && !allowsCropping ==>
        confirmEnabled && confirmations == old(confirmations)
        && completions == old(completions) + if hasOnComplete then [(image, asset)] else []
    {
      if image.None? {
        return;
      }
      var newImage := image.value;
      confirmEnabled := false;
      if allowsCropping {
        newImage := overlayCrop;
        confirmations := confirmations + [newImage];
      } else if hasOnComplete {
        completions := completions + [(Some(newImage), asset)];
      }
      confirmEnabled := true;
    }

    /**
     * makeProportionalCropRect(): the overlay's frame scrolled into the image
     * view, as fractions of the image view's width and height.
     */
    function MakeProportionalCropRect(): (r: Rect)
      reads this
      requires Width(imageViewFrame) != 0.0 && Height(imageViewFrame) != 0.0
      ensures r.origin.x * Width(imageViewFrame) == cropOverlayFrame.origin.x + contentOffset.x
      ensures r.origin.y * Height(imageViewFrame) == cropOverlayFrame.origin.y + contentOffset.y
      ensures r.size.width * Width(imageViewFrame) == Width(cropOverlayFrame)
      ensures r.size.height * Height(imageViewFrame) == Height(cropOverlayFrame)
    {
      ProportionalCropRect(cropOverlayFrame, contentOffset, imageViewFrame)
    }
  }
}
