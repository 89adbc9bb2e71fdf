/**
 * ALImageFetchingInteractor: fetches every image asset of the photo library
 * once access is granted. An undetermined status makes it ask for access,
 * but only once per interactor: undetermined again afterwards counts as a
 * refusal.
 *
 * The library's assets in fetch order, the status at each fetch and the
 * user's answer to a request are parameters; callbacks are recorded as the
 * outcomes delivered to them, synchronously.
 */
module ALImageFetchingInteractor {
  import opened Platform

  const ErrorDomain: string := "com.zero.imageFetcher"
  const AccessDeniedKey: string := "error.access-denied"

  /** The error onDeniedOrRestricted builds. */
  function AccessDeniedError(): (e: Error)
    ensures e.domain == ErrorDomain && e.code == 0 && e.key == AccessDeniedKey
  {
    Error(ErrorDomain, 0, AccessDeniedKey)
  }

  /** The copy loop of onAuthorized: every fetched asset appended, in fetch order. */
  method CopyAssets(assets: seq<Asset>) returns (imageAssets: seq<Asset>)
    ensures |imageAssets| == |assets|
    ensures forall i :: 0 <= i < |assets| ==> imageAssets[i] == assets[i]
  {
    imageAssets := [];
    var k := 0;
    while k < |assets|
      invariant 0 <= k <= |assets|
      invariant imageAssets == assets[..k]
    {
      imageAssets := imageAssets + [assets[k]];
      k := k + 1;
    }
  }

  class ALImageFetchingInteractor {
    var hasSuccess: bool
    var hasFailure: bool
    var authRequested: bool
    /** The number of times access was requested from the user. */
    var requests: nat
    /** Asset lists delivered to the success callback, in order. */
    var successes: seq<seq<Asset>>
    /** Errors delivered to the failure callback, in order. */
    var failures: seq<Error>

    /** The flag is set exactly when the one request was made; there is never a second. */
    ghost predicate Valid()
      reads this
    {
      requests == if authRequested then 1 else 0
    }

    constructor ()
      ensures Valid()
      ensures !hasSuccess && !hasFailure && !authRequested && requests == 0
      ensures successes == [] && failures == []
    {
      hasSuccess, hasFailure, authRequested := false, false, false;
      requests := 0;
      successes, failures := [], [];
    }

    method OnSuccess() returns (r: ALImageFetchingInteractor)
      modifies this`hasSuccess
      ensures r == this && hasSuccess
    {
      hasSuccess := true;
      r := this;
    }

    method OnFailure() returns (r: ALImageFetchingInteractor)
      modifies this`hasFailure
      ensures r == this && hasFailure
    {
      hasFailure := true;
      r := this;
    }

    /** onAuthorized(): the fetched assets, copied, go to the success callback. */
    method OnAuthorized(library: seq<Asset>)
      modifies this`successes
      ensures successes == old(successes) + if hasSuccess then [library] else []
    {
      var imageAssets := CopyAssets(library);
      assert imageAssets == library;
      if hasSuccess {
        successes := successes + [imageAssets];
      }
    }

    /** onDeniedOrRestricted(): the access-denied error goes to the failure callback. */
    method OnDeniedOrRestricted()
      modifies this`failures
      ensures failures == old(failures) + if hasFailure then [AccessDeniedError()] else []
    {
      if hasFailure {
        failures := failures + [AccessDeniedError()];
      }
    }

    /**
     * handleAuthorization(_:): undetermined asks once, and the answer is
     * handled the same way; undetermined once a request was made, denied and
     * restricted are a refusal; authorized fetches.
     */
    method HandleAuthorization(status: AuthorizationStatus, answer: AuthorizationStatus, library: seq<Asset>)
      requires Valid()
      modifies this`authRequested, this`requests, this`successes, this`failures
      ensures Valid()
      ensures requests == old(requests) + (if status == NotDetermined && !old(authRequested) then 1 else 0)
      ensures old(authRequested) ==> authRequested
      ensures requests <= 1
      ensures Decided(if status == NotDetermined && !old(authRequested) then answer else status) == Granted ==>
                successes == old(successes) + (if hasSuccess then [library] else []) && failures == old(failures)
      ensures Decided(if status == NotDetermined && !old(authRequested) then answer else status) == Refused ==>
                failures == old(failures) + (if hasFailure then [AccessDeniedError()] else [])
                && successes == old(successes)
      decreases if authRequested then 0 else 1
    {
      match status {
        case NotDetermined =>
          if !authRequested {
            authRequested := true;
            requests := requests + 1;
            HandleAuthorization(answer, answer, library);
          } else {
            OnDeniedOrRestricted();
          }
        case Authorized =>
          OnAuthorized(library);
        case _ =>
          OnDeniedOrRestricted();
      }
    }

    /** fetch(): handle the current status. */
    method Fetch(status: AuthorizationStatus, answer: AuthorizationStatus, library: seq<Asset>)
      returns (r: ALImageFetchingInteractor)
      requires Valid()
      modifies this`authRequested, this`requests, this`successes, this`failures
      ensures r == this && Valid() && requests <= 1
      ensures Decided(if status == NotDetermined && !old(authRequested) then answer else status) == Granted ==>
                successes == old(successes) + (if hasSuccess then [library] else []) && failures == old(failures)
      ensures Decided(if status == NotDetermined && !old(authRequested) then answer else status) == Refused ==>
                failures == old(failures) + (if hasFailure then [AccessDeniedError()] else [])
                && successes == old(successes)
    {
      HandleAuthorization(status, answer, library);
      r := this;
    }
  }

  /** What the interactor makes of the status it ends up handling (the request is already spent then). */
  datatype Decision = Granted | Refused

  function Decided(status: AuthorizationStatus): (d: Decision)
    ensures d == Granted <==> status == Authorized
  {
    if status == Authorized then Granted else Refused
  }
}
