/**
 * ALConfirmViewController: shows a captured image in a zoomable scroll view,
 * optionally under a crop overlay, and on confirmation hands on the image or
 * its crop under the overlay at the current zoom. The view hierarchy is
 * reduced to the frames, insets, offset and zoom the controller reads and
 * writes; the completion is recorded as the values delivered to it.
 */
module ALConfirmViewController {
  import opened Wrappers
  import opened Geometry
  import opened Platform
  import opened ScrollLayout
  import ALImageExtensions

  class ALConfirmViewController {
    var allowsCropping: bool
    var image: Option<Image>
    /** imageView.image */
    var imageViewImage: Option<Image>
    var imageViewFrame: Rect
    var viewFrame: Rect
    var scrollViewFrame: Rect
    var cropOverlayFrame: Rect
    var cropOverlayHidden: bool
    var contentInset: EdgeInsets
    var contentOffset: Point
    var zoomScale: real
    /** Whether onComplete is set. */
    var hasOnComplete: bool
    /** Values delivered to onComplete, in order. */
    var completions: seq<Option<Image>>

    /**
     * init(image:allowsCropping:). Swift runs no property observer for an
     * assignment in the class's own initializer, so the image view stays
     * empty until the view loads.
     */
    constructor (image: Image, allowsCropping: bool, viewFrame: Rect, scrollViewFrame: Rect, cropOverlayFrame: Rect)
      ensures this.image == Some(image) && this.allowsCropping == allowsCropping
      ensures this.viewFrame == viewFrame && this.scrollViewFrame == scrollViewFrame
      ensures this.cropOverlayFrame == cropOverlayFrame
      ensures imageViewImage.None? && imageViewFrame == ZeroRect && zoomScale == 1.0
      ensures !hasOnComplete && completions == []
    {
      this.image := Some(image);
      this.allowsCropping := allowsCropping;
      this.viewFrame := viewFrame;
      this.scrollViewFrame := scrollViewFrame;
      this.cropOverlayFrame := cropOverlayFrame;
      cropOverlayHidden := false;
      imageViewImage := None;
      imageViewFrame := ZeroRect;
      contentInset := EdgeInsets(0.0, 0.0, 0.0, 0.0);
      contentOffset := ZeroPoint;
      zoomScale := 1.0;
      hasOnComplete := false;
      completions := [];
    }

    /** imageView.image = image followed by sizeToFit(). */
    method ShowImage()
      modifies this`imageViewImage, this`imageViewFrame
      ensures imageViewImage == image
      ensures image.Some? ==> imageViewFrame == old(imageViewFrame).(size := image.value.size)
      ensures image.None? ==> imageViewFrame == old(imageViewFrame)
    {
      imageViewImage := image;
      if image.Some? {
        imageViewFrame := imageViewFrame.(size := image.value.size);
      }
    }

    /** The image setter: its didSet puts the new image into the image view, sized to fit. */
    method SetImage(newImage: Option<Image>)
      modifies this`image, this`imageViewImage, this`imageViewFrame
      ensures image == newImage && imageViewImage == newImage
      ensures newImage.Some? ==> imageViewFrame == old(imageViewFrame).(size := newImage.value.size)
      ensures newImage.None? ==> imageViewFrame == old(imageViewFrame)
    {
      image := newImage;
      ShowImage();
    }

    /** viewDidLoad(): the image goes into the image view; the overlay shows only when cropping. */
    method ViewDidLoad()
      modifies this`imageViewImage, this`imageViewFrame, this`cropOverlayHidden
      ensures imageViewImage == image && cropOverlayHidden == !allowsCropping
      ensures image.Some? ==> imageViewFrame == old(imageViewFrame).(size := image.value.size)
      ensures image.None? ==> imageViewFrame == old(imageViewFrame)
    {
      ShowImage();
      cropOverlayHidden := !allowsCropping;
    }

    /**
     * calculateMinimumScale(): the image must be there. When cropping, the
     * aspect-fill scale over the crop overlay, so the zoomed image covers
     * it; otherwise the aspect-fit scale over the view, so it fits.
     */
    function CalculateMinimumScale(): (s: real)
      reads this
      requires image.Some? && image.value.size.width != 0.0 && image.value.size.height != 0.0
      ensures allowsCropping ==> s == FillScale(cropOverlayFrame.size, image.value.size)
      ensures !allowsCropping ==> s == FitScale(viewFrame.size, image.value.size)
      ensures image.value.size.width > 0.0 && image.value.size.height > 0.0 ==>
        if allowsCropping then
          s * image.value.size.width >= cropOverlayFrame.size.width
          && s * image.value.size.height >= cropOverlayFrame.size.height
        else
          s * image.value.size.width <= viewFrame.size.width && s * image.value.size.height <= viewFrame.size.height
    {
      var size := if allowsCropping then cropOverlayFrame.size else viewFrame.size;
      var imageSize := image.value.size;
      assert imageSize.width > 0.0 && imageSize.height > 0.0 ==>
        FillScale(size, imageSize) * imageSize.width >= size.width
        && FillScale(size, imageSize) * imageSize.height >= size.height
        && FitScale(size, imageSize) * imageSize.width <= size.width
        && FitScale(size, imageSize) * imageSize.height <= size.height by {
        if imageSize.width > 0.0 && imageSize.height > 0.0 {
          FillScaleCovers(size, imageSize);
          FitScaleFits(size, imageSize);
        }
      }
      if allowsCropping then FillScale(size, imageSize) else FitScale(size, imageSize)
    }

    /** calculateScrollViewInsets(_:): the insets that frame `frame` inside the view's size. */
    function CalculateScrollViewInsets(frame: Rect): (e: EdgeInsets)
      reads this
      ensures e.top == frame.origin.y && e.left == frame.origin.x
      ensures e.top + frame.size.height + e.bottom == viewFrame.size.height
      ensures e.left + frame.size.width + e.right == viewFrame.size.width
    {
      ScrollViewInsets(frame.origin, frame.size, viewFrame.size)
    }

    /** The area the image is centred in: the crop overlay when cropping, else the scroll view. */
    function CentringSize(): Size
      reads this
    {
      if allowsCropping then cropOverlayFrame.size else scrollViewFrame.size
    }

    /** centerScrollViewContents(): the image view moves to the centred origin and keeps its size. */
    method CenterScrollViewContents()
      modifies this`imageViewFrame
      ensures imageViewFrame == Rect(CentredOrigin(CentringSize(), old(imageViewFrame).size), old(imageViewFrame).size)
    {
      var imageOrigin := CentredOrigin(CentringSize(), imageViewFrame.size);
      imageViewFrame := imageViewFrame.(origin := imageOrigin);
    }

    /** centerImageViewOnRotate(): when cropping, scroll the image's centre to the crop overlay's centre. */
    method CenterImageViewOnRotate()
      modifies this`contentOffset
      ensures !allowsCropping ==> contentOffset == old(contentOffset)
      ensures allowsCropping ==> contentOffset == RotateContentOffset(cropOverlayFrame.size, contentInset, imageViewFrame.size)
    {
      if allowsCropping {
        contentOffset := RotateContentOffset(CentringSize(), contentInset, imageViewFrame.size);
      }
    }

    /** cancel(): the completion receives nil. */
    method Cancel()
      modifies this`completions
      ensures completions == old(completions) + if hasOnComplete then [None] else []
    {
      if hasOnComplete {
        completions := completions + [None];
      }
    }

    /** The overlay's frame scrolled by the content offset: the part of the zoomed image under it. */
    function CropFrame(): (f: Rect)
      reads this
      ensures f.size == cropOverlayFrame.size
      ensures f.origin.x - cropOverlayFrame.origin.x == contentOffset.x
      ensures f.origin.y - cropOverlayFrame.origin.y == contentOffset.y
    {
      var cropFrame := cropOverlayFrame;
      var cropFrame := cropFrame.(origin := cropFrame.origin.(x := cropFrame.origin.x + contentOffset.x));
      var cropFrame := cropFrame.(origin := cropFrame.origin.(y := cropFrame.origin.y + contentOffset.y));
      cropFrame
    }

    /**
     * confirmPhoto(): when cropping, the completion receives the image
     * cropped to the scrolled overlay frame at the current zoom, or nil
     * without an image; otherwise it receives the image as it is.
     */
    method ConfirmPhoto(screenScale: real)
      modifies this`completions
      ensures !allowsCropping ==> completions == old(completions) + if hasOnComplete then [image] else []
      ensures allowsCropping && image.None? ==> completions == old(completions) + if hasOnComplete then [None] else []
      ensures allowsCropping && image.Some? ==>
        completions == old(completions)
          + if hasOnComplete then [Some(ALImageExtensions.Crop(image.value, CropFrame(), zoomScale, screenScale))] else []
    {
      if allowsCropping {
        var cropFrame := CropFrame();
        var croppedImage: Option<Image> := None;
        if image.Some? {
          croppedImage := Some(ALImageExtensions.Crop(image.value, cropFrame, zoomScale, screenScale));
        }
        if hasOnComplete {
          completions := completions + [croppedImage];
        }
      } else if hasOnComplete {
        completions := completions + [image];
      }
    }
  }
}
