/**
 * ConfirmViewController: shows a library asset in a zoomable scroll view,
 * optionally under a crop overlay, and on confirmation fetches the asset
 * again, cropped to the part of the image under the overlay. The view
 * hierarchy is reduced to the frames, insets and offsets the controller reads
 * and writes; the completion is recorded as the values delivered to it.
 */
module ConfirmViewController {
  import opened Wrappers
  import opened Geometry
  import opened Platform
  import opened Utilities
  import opened ScrollLayout
  import SingleImageFetcher

  class ConfirmViewController {
    var allowsCropping: bool
    var asset: Asset
    /** imageView.image */
    var image: Option<Image>
    var imageViewFrame: Rect
    var imageViewHidden: bool
    var spinnerAnimating: bool
    var viewFrame: Rect
    var scrollViewFrame: Rect
    var cropOverlayFrame: Rect
    var contentInset: EdgeInsets
    var contentOffset: Point
    /** Whether onComplete is set. */
    var hasOnComplete: bool
    /** Values delivered to onComplete, in order. */
    var completions: seq<Option<Image>>

    constructor (asset: Asset, allowsCropping: bool, viewFrame: Rect, scrollViewFrame: Rect, cropOverlayFrame: Rect)
      ensures this.asset == asset && this.allowsCropping == allowsCropping
      ensures this.viewFrame == viewFrame && this.scrollViewFrame == scrollViewFrame
      ensures this.cropOverlayFrame == cropOverlayFrame
      ensures image.None? && imageViewFrame == ZeroRect && !imageViewHidden && !spinnerAnimating
      ensures !hasOnComplete && completions == []
    {
      this.asset := asset;
      this.allowsCropping := allowsCropping;
      this.viewFrame := viewFrame;
      this.scrollViewFrame := scrollViewFrame;
      this.cropOverlayFrame := cropOverlayFrame;
      image := None;
      imageViewFrame := ZeroRect;
      imageViewHidden := false;
      spinnerAnimating := false;
      contentInset := EdgeInsets(0.0, 0.0, 0.0, 0.0);
      contentOffset := ZeroPoint;
      hasOnComplete := false;
      completions := [];
    }

    /**
     * calculateMinimumScale(_:): 1 without an image. When cropping, the
     * aspect-fill scale over the crop overlay, so the zoomed image covers
     * it; otherwise the aspect-fit scale over the given size, so it fits.
     */
    function CalculateMinimumScale(size: Size): (s: real)
      reads this
      requires image.Some? ==> image.value.size.width != 0.0 && image.value.size.height != 0.0
      ensures image.None? ==> s == 1.0
      ensures image.Some? && allowsCropping ==> s == FillScale(cropOverlayFrame.size, image.value.size)
      ensures image.Some? && !allowsCropping ==> s == FitScale(size, image.value.size)
      ensures image.Some? && image.value.size.width > 0.0 && image.value.size.height > 0.0 ==>
        if allowsCropping then
          s * image.value.size.width >= cropOverlayFrame.size.width
          && s * image.value.size.height >= cropOverlayFrame.size.height
        else
          s * image.value.size.width <= size.width && s * image.value.size.height <= size.height
    {
      if image.None? then 1.0
      else
        var imageSize := image.value.size;
        var bound := if allowsCropping then cropOverlayFrame.size else size;
        assert imageSize.width > 0.0 && imageSize.height > 0.0 ==>
          FillScale(bound, imageSize) * imageSize.width >= bound.width
          && FillScale(bound, imageSize) * imageSize.height >= bound.height
          && FitScale(bound, imageSize) * imageSize.width <= bound.width
          && FitScale(bound, imageSize) * imageSize.height <= bound.height by {
          if imageSize.width > 0.0 && imageSize.height > 0.0 {
            FillScaleCovers(bound, imageSize);
            FitScaleFits(bound, imageSize);
          }
        }
        if allowsCropping then FillScale(bound, imageSize) else FitScale(bound, imageSize)
    }

    /** calculateScrollViewInsets(_:): the insets that frame `frame` inside the view. */
    function CalculateScrollViewInsets(frame: Rect): (e: EdgeInsets)
      reads this
      ensures e.top == frame.origin.y && e.left == frame.origin.x
      ensures e.top + Height(frame) + e.bottom == Height(viewFrame)
      ensures e.left + Width(frame) + e.right == Width(viewFrame)
    {
      ScrollViewInsets(frame.origin, Size(Width(frame), Height(frame)), Size(Width(viewFrame), Height(viewFrame)))
    }

    /** The area the image is centred in: the crop overlay when cropping, else the scroll view. */
    function CentringSize(): Size
      reads this
    {
      if allowsCropping then cropOverlayFrame.size else scrollViewFrame.size
    }

    /** centerScrollViewContents(): the image view moves to the centred origin and keeps its size. */
    method CenterScrollViewContents()
      modifies this`imageViewFrame
      ensures imageViewFrame == Rect(CentredOrigin(CentringSize(), old(imageViewFrame).size), old(imageViewFrame).size)
    {
      var imageOrigin := CentredOrigin(CentringSize(), imageViewFrame.size);
      imageViewFrame := imageViewFrame.(origin := imageOrigin);
    }

    /**
     * centerImageViewOnRotate(): when cropping, scroll so that the image's
     * centre is at the centre of the crop overlay; otherwise nothing.
     */
    method CenterImageViewOnRotate()
      modifies this`contentOffset
      ensures !allowsCropping ==> contentOffset == old(contentOffset)
      ensures allowsCropping ==> contentOffset == RotateContentOffset(cropOverlayFrame.size, contentInset, imageViewFrame.size)
      ensures allowsCropping ==>
        imageViewFrame.size.width / 2.0 - contentOffset.x == contentInset.left + cropOverlayFrame.size.width / 2.0
        && imageViewFrame.size.height / 2.0 - contentOffset.y == contentInset.top + cropOverlayFrame.size.height / 2.0
    {
      if allowsCropping {
        contentOffset := RotateContentOffset(CentringSize(), contentInset, imageViewFrame.size);
      }
    }

    /** cancel(): the completion receives nil. */
    method Cancel()
      modifies this`completions
      ensures completions == old(completions) + if hasOnComplete then [None] else []
    {
      if hasOnComplete {
        completions := completions + [None];
      }
    }

    /** The overlay, scrolled into the image view, lies within the image view. */
    predicate CropFrameWithinImage()
      reads this
    {
      && 0.0 <= cropOverlayFrame.origin.x + contentOffset.x
      && cropOverlayFrame.origin.x + contentOffset.x + Width(cropOverlayFrame) <= Width(imageViewFrame)
      && 0.0 <= cropOverlayFrame.origin.y + contentOffset.y
      && cropOverlayFrame.origin.y + contentOffset.y + Height(cropOverlayFrame) <= Height(imageViewFrame)
    }

    /**
     * The crop rectangle confirmPhoto asks for: the overlay's frame scrolled
     * into the image view, as fractions of the image view, re-expressed for
     * the image's orientation.
     */
    function ConfirmCropRect(): (r: Rect)
      reads this
      requires image.Some? && Width(imageViewFrame) != 0.0 && Height(imageViewFrame) != 0.0
      ensures r == NormalizedRect(ProportionalCropRect(cropOverlayFrame, contentOffset, imageViewFrame),
                                  image.value.orientation)
      ensures CropFrameWithinImage() ==> InUnitSquare(r)
    {
      var rect := ProportionalCropRect(cropOverlayFrame, contentOffset, imageViewFrame);
      assert CropFrameWithinImage() ==> InUnitSquare(NormalizedRect(rect, image.value.orientation)) by {
        if CropFrameWithinImage() {
          ProportionalCropRectInUnitSquare(cropOverlayFrame, contentOffset, imageViewFrame);
          NormalizedStaysInUnitSquare(rect, image.value.orientation);
        }
      }
      NormalizedRect(rect, image.value.orientation)
    }

    /**
     * confirmPhoto(): hides the image view, starts the spinner and builds a
     * fetcher for the asset with both callbacks set; only when cropping does
     * it carry the crop rectangle. The fetch itself is the fetcher's.
     */
    method ConfirmPhoto() returns (fetcher: SingleImageFetcher.SingleImageFetcher)
      requires allowsCropping ==> image.Some? && Width(imageViewFrame) != 0.0 && Height(imageViewFrame) != 0.0
      modifies this`imageViewHidden, this`spinnerAnimating
      ensures imageViewHidden && spinnerAnimating
      ensures fresh(fetcher)
      ensures fetcher.hasSuccess && fetcher.hasFailure && fetcher.asset == Some(asset)
      ensures fetcher.targetSize == SingleImageFetcher.MaximumSize
      ensures fetcher.successes == [] && fetcher.failures == [] && fetcher.requests == []
      ensures allowsCropping ==> fetcher.cropRect == Some(ConfirmCropRect())
      ensures !allowsCropping ==> fetcher.cropRect.None?
    {
      imageViewHidden := true;
      spinnerAnimating := true;
      fetcher := new SingleImageFetcher.SingleImageFetcher();
      fetcher := fetcher.OnSuccess();
      fetcher := fetcher.OnFailure();
      fetcher := fetcher.SetAsset(asset);
      if allowsCropping {
        var rect := ConfirmCropRect();
        fetcher := fetcher.SetCropRect(rect);
      }
    }
  }
}
