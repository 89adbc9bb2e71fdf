/**
 * Value types of the platform frameworks the component talks to: UIKit
 * image orientations and images, Photos assets and authorization statuses,
 * NSError, and the states of a gesture recognizer. A bitmap is symbolic: it
 * records where its pixels came from, not the pixels.
 */
module Platform {
  import opened Geometry

  /** UIImageOrientation. */
  datatype ImageOrientation =
    | Up | Down | Left | Right
    | UpMirrored | DownMirrored | LeftMirrored | RightMirrored

  predicate IsMirrored(o: ImageOrientation) {
    o.UpMirrored? || o.DownMirrored? || o.LeftMirrored? || o.RightMirrored?
  }

  /** Orientations whose stored bitmap is turned a quarter turn from the displayed image. */
  predicate IsSideways(o: ImageOrientation) {
    o.Left? || o.Right? || o.LeftMirrored? || o.RightMirrored?
  }

  /** The pixels of an image: a captured or fetched photo, or one drawn into a graphics context. */
  datatype Bitmap =
    | Photo(id: nat)
      /** `source` drawn at the origin of a context whose matrix is translated by `offset` and scaled by `ctmScale`. */
    | Drawn(source: Image, offset: Point, ctmScale: real)

  /** UIImage: its bitmap, display size in points, scale and orientation. */
  datatype Image = Image(bitmap: Bitmap, size: Size, scale: real, orientation: ImageOrientation)

  /** PHAsset, with the pixel dimensions the fetchers read. */
  datatype Asset = Asset(id: nat, pixelWidth: nat, pixelHeight: nat)

  /** NSError; `key` is the localization key whose translation is the description. */
  datatype Error = Error(domain: string, code: int, key: string)

  /** PHAuthorizationStatus. */
  datatype AuthorizationStatus = NotDetermined | Restricted | Denied | Authorized

  /** UIGestureRecognizer.State. */
  datatype GestureState = Possible | Began | Changed | Ended | Cancelled | Failed
}
