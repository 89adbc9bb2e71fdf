/**
 * UIImage extension of ALImageExtensions.swift: cropping a frame given in
 * points by scaling it to pixels with the screen scale, and its own copy of
 * the front-camera orientation fix.
 */
module ALImageExtensions {
  import opened Geometry
  import opened Platform
  import ImageExtensions

  /** The frame with origin and size each multiplied by the screen scale, as crop does field by field. */
  function ScaledCropRect(frame: Rect, screenScale: real): (r: Rect)
    ensures r.origin.x == frame.origin.x * screenScale && r.origin.y == frame.origin.y * screenScale
    ensures r.size.width == frame.size.width * screenScale
    ensures r.size.height == frame.size.height * screenScale
  {
    var mutableRect := frame;
    var mutableRect := mutableRect.(origin := mutableRect.origin.(x := mutableRect.origin.x * screenScale));
    var mutableRect := mutableRect.(origin := mutableRect.origin.(y := mutableRect.origin.y * screenScale));
    var mutableRect := mutableRect.(size := mutableRect.size.(width := mutableRect.size.width * screenScale));
    var mutableRect := mutableRect.(size := mutableRect.size.(height := mutableRect.size.height * screenScale));
    mutableRect
  }

  /** On a screen of scale 1 the frame is used as given. */
  lemma ScaledCropRectUnitScale(frame: Rect)
    ensures ScaledCropRect(frame, 1.0) == frame
  {
  }

  /**
   * crop(frame:scale:): the image drawn into a context of the scaled frame's
   * size at the screen's scale, translated by minus the scaled origin and
   * scaled by scale times the screen scale.
   */
  function Crop(img: Image, frame: Rect, scale: real, screenScale: real): (r: Image)
    ensures r.size == ScaledCropRect(frame, screenScale).size
    ensures r.scale == screenScale && r.orientation == Up
    ensures r.bitmap.Drawn? && r.bitmap.source == img && r.bitmap.ctmScale == scale * screenScale
    ensures r.bitmap.offset == Point(-frame.origin.x * screenScale, -frame.origin.y * screenScale)
  {
    var mutableRect := ScaledCropRect(frame, screenScale);
    Image(Drawn(img, Point(-mutableRect.origin.x, -mutableRect.origin.y), scale * screenScale),
          mutableRect.size, screenScale, Up)
  }

  /** The orientation table of this file's fixFrontCameraOrientation(). */
  function FrontCameraOrientation(o: ImageOrientation): (m: ImageOrientation)
    ensures IsMirrored(m) != IsMirrored(o)
  {
    if o == Up then UpMirrored
    else if o == UpMirrored then Up
    else if o == Down then DownMirrored
    else if o == DownMirrored then Down
    else if o == Left then RightMirrored
    else if o == LeftMirrored then Right
    else if o == Right then LeftMirrored
    else Left
  }

  /** This copy of the table agrees with the one in ImageExtensions on every orientation. */
  lemma SameTableAsImageExtensions(o: ImageOrientation)
    ensures FrontCameraOrientation(o) == ImageExtensions.FrontCameraOrientation(o)
  {
  }

  /** fixFrontCameraOrientation(): same bitmap and scale, mirrored orientation. */
  function FixFrontCameraOrientation(img: Image): (r: Image)
    ensures r.bitmap == img.bitmap && r.scale == img.scale && r.size == img.size
    ensures IsMirrored(r.orientation) != IsMirrored(img.orientation)
  {
    Image(img.bitmap, img.size, img.scale, FrontCameraOrientation(img.orientation))
  }

  /** Fixing the orientation twice gives the original image back. */
  lemma FixFrontCameraOrientationTwice(img: Image)
    ensures FixFrontCameraOrientation(FixFrontCameraOrientation(img)) == img
  {
    SameTableAsImageExtensions(img.orientation);
    SameTableAsImageExtensions(FrontCameraOrientation(img.orientation));
    ImageExtensions.FrontCameraOrientationInvolution(img.orientation);
  }
}
