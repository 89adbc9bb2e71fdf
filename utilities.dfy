/**
 * Free functions of the component's utilities file: the device-orientation
 * rotation table, NSError construction from a localization key, and the
 * re-expression of a normalized crop rectangle in the coordinates of an
 * image's stored bitmap for each UIImageOrientation.
 */
module Utilities {
  import opened Geometry
  import opened Platform

  /** UIDeviceOrientation, read from the device and passed in here. */
  datatype DeviceOrientation =
    Unknown | Portrait | PortraitUpsideDown | LandscapeLeft | LandscapeRight | FaceUp | FaceDown

  /** currentRotation(): the angle in degrees by which the interface is turned. */
  function CurrentRotation(o: DeviceOrientation): (degrees: real)
    ensures degrees == 90.0 <==> o == LandscapeLeft
    ensures degrees == 270.0 <==> o == LandscapeRight
    ensures degrees == 180.0 <==> o == PortraitUpsideDown
    ensures degrees == 0.0 <==> o !in {LandscapeLeft, LandscapeRight, PortraitUpsideDown}
    ensures degrees in {0.0, 90.0, 180.0, 270.0}
  {
    var rotation :=
      if o == LandscapeLeft then 90.0
      else if o == LandscapeRight then 270.0
      else if o == PortraitUpsideDown then 180.0
      else 0.0;
    rotation
  }

  /** errorWithKey(_:domain:): an error with code 0 in the given domain, described by the key. */
  function ErrorWithKey(key: string, domain: string): (e: Error)
    ensures e.domain == domain && e.code == 0 && e.key == key
  {
    Error(domain, 0, key)
  }

  /** A rectangle lies within the unit square (and has no negative side). */
  predicate InUnitSquare(r: Rect) {
    0.0 <= r.origin.x && 0.0 <= r.origin.y && 0.0 <= r.size.width && 0.0 <= r.size.height
    && r.origin.x + r.size.width <= 1.0 && r.origin.y + r.size.height <= 1.0
  }

  /** The unmirrored orientation with the same rotation. */
  function Unmirrored(o: ImageOrientation): (u: ImageOrientation)
    ensures !IsMirrored(u)
    ensures IsSideways(u) == IsSideways(o)
    ensures !IsMirrored(o) ==> u == o
  {
    match o
    case UpMirrored => Up
    case DownMirrored => Down
    case LeftMirrored => Left
    case RightMirrored => Right
    case _ => o
  }

  /**
   * normalizedRect(_:orientation:): a crop rectangle given in the unit square
   * of the displayed image, expressed in the unit square of the stored bitmap.
   * Origins are read raw, width and height standardized, as CGRect does.
   */
  function NormalizedRect(rect: Rect, orientation: ImageOrientation): (r: Rect)
    ensures !IsSideways(orientation) ==> r.size == Size(Width(rect), Height(rect))
    ensures IsSideways(orientation) ==> r.size == Size(Height(rect), Width(rect))
    ensures r.size.width * r.size.height == Width(rect) * Height(rect)
  {
    var x, y, w, h := rect.origin.x, rect.origin.y, Width(rect), Height(rect);
    match orientation
    case Up | UpMirrored => MakeRect(x, y, w, h)
    case Down | DownMirrored => MakeRect(1.0 - x - w, 1.0 - y - h, w, h)
    case Left | LeftMirrored => MakeRect(1.0 - y - h, x, h, w)
    case Right | RightMirrored => MakeRect(y, 1.0 - x - w, h, w)
  }

  /** Up and UpMirrored leave a rectangle with non-negative sides as it is. */
  lemma NormalizedUpIsIdentity(rect: Rect)
    requires rect.size.width >= 0.0 && rect.size.height >= 0.0
    ensures NormalizedRect(rect, Up) == rect
    ensures NormalizedRect(rect, UpMirrored) == rect
  {
  }

  /** Mirroring does not matter: each mirrored orientation maps like its unmirrored counterpart. */
  lemma NormalizedIgnoresMirroring(rect: Rect, o: ImageOrientation)
    ensures NormalizedRect(rect, o) == NormalizedRect(rect, Unmirrored(o))
  {
  }

  /** The Down mapping undoes itself; the Left and Right mappings undo each other. */
  lemma NormalizedInverses(rect: Rect)
    requires rect.size.width >= 0.0 && rect.size.height >= 0.0
    ensures NormalizedRect(NormalizedRect(rect, Down), Down) == rect
    ensures NormalizedRect(NormalizedRect(rect, Left), Right) == rect
    ensures NormalizedRect(NormalizedRect(rect, Right), Left) == rect
  {
  }

  /** A crop rectangle inside the unit square stays inside it for every orientation. */
  lemma NormalizedStaysInUnitSquare(rect: Rect, o: ImageOrientation)
    requires InUnitSquare(rect)
    ensures InUnitSquare(NormalizedRect(rect, o))
  {
  }
}
