/**
 * SingleImageFetcher: a builder whose setters fix the asset, target size,
 * normalized crop rectangle and callbacks of one PHImageManager request.
 * Fetching first runs the photo-library authorizer; on success it requests
 * the image, with a crop rectangle turning the target size into the cropped
 * part of the asset's pixels.
 *
 * The callbacks are recorded as the outcomes delivered to them; a callback
 * that was never set receives nothing. The authorization statuses and the
 * image manager's reply are parameters.
 */
module SingleImageFetcher {
  import opened Wrappers
  import opened Geometry
  import opened Platform
  import opened Utilities
  import PhotoLibraryAuthorizer

  const ErrorDomain: string := "com.zero.singleImageSaver"
  const CantFetchPhotoKey: string := "error.cant-fetch-photo"

  /** PHImageManagerMaximumSize. */
  const MaximumSize: Size := Size(-1.0, -1.0)

  /** One requestImage(for:targetSize:contentMode:options:) call. */
  datatype ImageRequest = ImageRequest(asset: Asset, targetSize: Size, normalizedCropRect: Option<Rect>, exactResize: bool)

  /** floor(CGFloat(pixels) * fraction). */
  function FloorOfFraction(pixels: nat, fraction: real): (k: int)
    ensures k as real <= pixels as real * fraction < k as real + 1.0
  {
    (pixels as real * fraction).Floor
  }

  /** Rounding down a fraction of a pixel count stays between zero and that count. */
  lemma FloorOfFractionWithin(n: nat, f: real)
    requires 0.0 <= f <= 1.0
    ensures 0 <= FloorOfFraction(n, f) <= n
  {
    var m := n as real;
    var x := m * f;
    assert 0.0 <= x by { MultiplyNonNegative(m, f); }
    assert x <= m by {
      MultiplyNonNegative(m, 1.0 - f);
      assert m * (1.0 - f) == m - x;
    }
  }

  /** The target size for a crop: the asset's pixel size times the crop fraction, rounded down per axis. */
  function CroppedTargetSize(asset: Asset, cropRect: Rect): (s: Size)
    ensures s.width <= asset.pixelWidth as real * Width(cropRect) < s.width + 1.0
    ensures s.height <= asset.pixelHeight as real * Height(cropRect) < s.height + 1.0
  {
    Size(FloorOfFraction(asset.pixelWidth, Width(cropRect)) as real,
         FloorOfFraction(asset.pixelHeight, Height(cropRect)) as real)
  }

  /** A crop inside the unit square asks for no more pixels than the asset has, and never for a negative count. */
  lemma CroppedTargetSizeWithinAsset(asset: Asset, cropRect: Rect)
    requires InUnitSquare(cropRect)
    ensures 0.0 <= CroppedTargetSize(asset, cropRect).width <= asset.pixelWidth as real
    ensures 0.0 <= CroppedTargetSize(asset, cropRect).height <= asset.pixelHeight as real
  {
    FloorOfFractionWithin(asset.pixelWidth, Width(cropRect));
    FloorOfFractionWithin(asset.pixelHeight, Height(cropRect));
  }

  lemma MultiplyNonNegative(a: real, b: real)
    requires 0.0 <= a && 0.0 <= b
    ensures 0.0 <= a * b
  {
  }

  class SingleImageFetcher {
    var hasSuccess: bool
    var hasFailure: bool
    var asset: Option<Asset>
    var targetSize: Size
    var cropRect: Option<Rect>
    /** Images delivered to the success callback, in order. */
    var successes: seq<Image>
    /** Errors delivered to the failure callback, in order. */
    var failures: seq<Error>
    /** Requests made to the image manager, in order. */
    var requests: seq<ImageRequest>

    constructor ()
      ensures !hasSuccess && !hasFailure && asset.None? && cropRect.None?
      ensures targetSize == MaximumSize
      ensures successes == [] && failures == [] && requests == []
    {
      hasSuccess, hasFailure := false, false;
      asset, cropRect := None, None;
      targetSize := MaximumSize;
      successes, failures, requests := [], [], [];
    }

    method OnSuccess() returns (r: SingleImageFetcher)
      modifies this`hasSuccess
      ensures r == this && hasSuccess
    {
      hasSuccess := true;
      r := this;
    }

    method OnFailure() returns (r: SingleImageFetcher)
      modifies this`hasFailure
      ensures r == this && hasFailure
    {
      hasFailure := true;
      r := this;
    }

    method SetAsset(asset: Asset) returns (r: SingleImageFetcher)
      modifies this`asset
      ensures r == this && this.asset == Some(asset)
    {
      this.asset := Some(asset);
      r := this;
    }

    method SetTargetSize(targetSize: Size) returns (r: SingleImageFetcher)
      modifies this`targetSize
      ensures r == this && this.targetSize == targetSize
    {
      this.targetSize := targetSize;
      r := this;
    }

    method SetCropRect(cropRect: Rect) returns (r: SingleImageFetcher)
      modifies this`cropRect
      ensures r == this && this.cropRect == Some(cropRect)
    {
      this.cropRect := Some(cropRect);
      r := this;
    }

    /** failure?(error). */
    method Fail(error: Error)
      modifies this`failures
      ensures failures == old(failures) + if hasFailure then [error] else []
    {
      if hasFailure {
        failures := failures + [error];
      }
    }

    /**
     * fetch(): the authorizer's error goes to the failure callback and
     * nothing is requested; without an answer yet nothing happens; a grant
     * runs _fetch.
     */
    method Fetch(statuses: seq<AuthorizationStatus>, reply: Option<Image>) returns (r: SingleImageFetcher)
      modifies this`targetSize, this`successes, this`failures, this`requests
      ensures r == this
      ensures PhotoLibraryAuthorizer.Authorize(statuses).Refused? ==>
        failures == old(failures) + (if hasFailure then [PhotoLibraryAuthorizer.Authorize(statuses).error] else [])
        && successes == old(successes) && requests == old(requests) && targetSize == old(targetSize)
      ensures PhotoLibraryAuthorizer.Authorize(statuses).Pending? ==>
        failures == old(failures) && successes == old(successes) && requests == old(requests)
        && targetSize == old(targetSize)
      ensures PhotoLibraryAuthorizer.Authorize(statuses).Granted? ==> FetchedAsRequested(reply, old(targetSize), old(successes), old(failures), old(requests))
    {
      var outcome := PhotoLibraryAuthorizer.Authorize(statuses);
      match outcome {
        case Granted => PerformFetch(reply);
        case Refused(error) => Fail(error);
        case Pending =>
      }
      r := this;
    }

    /** The state _fetch leaves when the image manager replies with `reply`. */
    ghost predicate FetchedAsRequested(reply: Option<Image>, oldTargetSize: Size, oldSuccesses: seq<Image>,
                                       oldFailures: seq<Error>, oldRequests: seq<ImageRequest>)
      reads this
    {
      var cantFetch := ErrorWithKey(CantFetchPhotoKey, ErrorDomain);
      if asset.None? then
        && failures == oldFailures + (if hasFailure then [cantFetch] else [])
        && successes == oldSuccesses && requests == oldRequests && targetSize == oldTargetSize
      else
        && targetSize == (if cropRect.Some? then CroppedTargetSize(asset.value, cropRect.value) else oldTargetSize)
        && requests == oldRequests + [ImageRequest(asset.value, targetSize, cropRect, cropRect.Some?)]
        && (reply.Some? ==> successes == oldSuccesses + (if hasSuccess then [reply.value] else [])
                            && failures == oldFailures)
        && (reply.None? ==> failures == oldFailures + (if hasFailure then [cantFetch] else [])
                            && successes == oldSuccesses)
    }

    /**
     * _fetch(): no asset is a failure with the can't-fetch-photo error. With
     * a crop rectangle the request asks for that part of the image at
     * exactly the cropped pixel size; without one the target size is left
     * as set. A nil image from the manager is the same failure; an image is
     * a success.
     */
    method PerformFetch(reply: Option<Image>)
      modifies this`targetSize, this`successes, this`failures, this`requests
      ensures FetchedAsRequested(reply, old(targetSize), old(successes), old(failures), old(requests))
    {
      if asset.None? {
        Fail(ErrorWithKey(CantFetchPhotoKey, ErrorDomain));
        return;
      }
      var asset := this.asset.value;
      if cropRect.Some? {
        targetSize := CroppedTargetSize(asset, cropRect.value);
      }
      requests := requests + [ImageRequest(asset, targetSize, cropRect, cropRect.Some?)];
      if reply.Some? {
        if hasSuccess {
          successes := successes + [reply.value];
        }
      } else {
        Fail(ErrorWithKey(CantFetchPhotoKey, ErrorDomain));
      }
    }
  }
}
