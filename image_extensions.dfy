/**
 * UIImage extension of ImageExtensions.swift: cropping by drawing into a
 * graphics context (with a shortcut when the frame is the whole image) and
 * the orientation fix for photos taken with the front camera.
 */
module ImageExtensions {
  import opened Geometry
  import opened Platform

  /**
   * crop(frame:scale:). A frame at the zero origin with the image's own size
   * returns the receiver. Otherwise the image is drawn into a context of the
   * frame's size (UIGraphicsBeginImageContext: scale 1, orientation up)
   * translated by minus the frame's origin. The `scale` argument is not used.
   */
  function Crop(img: Image, frame: Rect, scale: real): (r: Image)
    ensures frame.size == img.size && frame.origin == ZeroPoint ==> r == img
    ensures !(frame.size == img.size && frame.origin == ZeroPoint) ==>
              r.size == frame.size && r.scale == 1.0 && r.orientation == Up
              && r.bitmap == Drawn(img, Point(-frame.origin.x, -frame.origin.y), 1.0)
  {
    if frame.size == img.size && frame.origin == ZeroPoint then img
    else Image(Drawn(img, Point(-frame.origin.x, -frame.origin.y), 1.0), frame.size, 1.0, Up)
  }

  /** The orientation table of fixFrontCameraOrientation(). */
  function FrontCameraOrientation(o: ImageOrientation): (m: ImageOrientation)
    ensures IsMirrored(m) != IsMirrored(o)
    ensures IsSideways(m) == IsSideways(o)
  {
    match o
    case Up => UpMirrored
    case UpMirrored => Up
    case Down => DownMirrored
    case DownMirrored => Down
    case Left => RightMirrored
    case LeftMirrored => Right
    case Right => LeftMirrored
    case RightMirrored => Left
  }

  /** The table undoes itself, so it is a bijection on the eight orientations. */
  lemma FrontCameraOrientationInvolution(o: ImageOrientation)
    ensures FrontCameraOrientation(FrontCameraOrientation(o)) == o
  {
  }

  lemma FrontCameraOrientationInjective(o1: ImageOrientation, o2: ImageOrientation)
    ensures FrontCameraOrientation(o1) == FrontCameraOrientation(o2) ==> o1 == o2
  {
    FrontCameraOrientationInvolution(o1);
    FrontCameraOrientationInvolution(o2);
  }

  /**
   * fixFrontCameraOrientation(): the same bitmap at the same scale under the
   * mirrored orientation. Mirroring never changes whether the bitmap is
   * stored sideways, so the displayed size stays the same.
   */
  function FixFrontCameraOrientation(img: Image): (r: Image)
    ensures r.bitmap == img.bitmap && r.scale == img.scale && r.size == img.size
    ensures r.orientation == FrontCameraOrientation(img.orientation)
    ensures IsMirrored(r.orientation) != IsMirrored(img.orientation)
  {
    img.(orientation := FrontCameraOrientation(img.orientation))
  }

  /** Fixing the orientation twice gives the original image back. */
  lemma FixFrontCameraOrientationTwice(img: Image)
    ensures FixFrontCameraOrientation(FixFrontCameraOrientation(img)) == img
  {
    FrontCameraOrientationInvolution(img.orientation);
  }
}
