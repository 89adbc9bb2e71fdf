/**
 * PhotoLibraryAuthorizer: on construction the current authorization status
 * is handled; an undetermined status asks the user and handles the answer
 * the same way, with no limit on how often; authorized completes with no
 * error; denied and restricted complete with an access-denied error.
 *
 * The statuses the Photos framework reports are a parameter: `statuses[0]` is
 * the status at construction and `statuses[i + 1]` the answer to the i-th
 * request. When the answers run out the completion has not been called.
 */
module PhotoLibraryAuthorizer {
  import opened Platform
  import opened Utilities

  const ErrorDomain: string := "com.zero.imageFetcher"
  const AccessDeniedKey: string := "error.access-denied"

  /** What the completion received: nothing yet, nil, or an error. */
  datatype Outcome = Pending | Granted | Refused(error: Error)

  /** onDeniedOrRestricted(completion:): the access-denied error. */
  function DeniedError(): (e: Error)
    ensures e.domain == ErrorDomain && e.code == 0 && e.key == AccessDeniedKey
  {
    ErrorWithKey(AccessDeniedKey, ErrorDomain)
  }

  /** handleAuthorization(status:) over the status and the answers to the requests it makes. */
  function Authorize(statuses: seq<AuthorizationStatus>): (r: Outcome)
    ensures r.Granted? <==>
      exists i :: 0 <= i < |statuses| && statuses[i] == Authorized
                  && forall j :: 0 <= j < i ==> statuses[j] == NotDetermined
    ensures r.Refused? ==> r.error == DeniedError()
    ensures r.Pending? <==> forall i :: 0 <= i < |statuses| ==> statuses[i] == NotDetermined
  {
    if |statuses| == 0 then Pending
    else match statuses[0]
      case NotDetermined =>
        var r := Authorize(statuses[1..]);
        assert forall i :: 1 <= i < |statuses| ==> statuses[i] == statuses[1..][i - 1];
        assert r.Granted? ==>
          exists i :: 0 <= i < |statuses| && statuses[i] == Authorized
                      && forall j :: 0 <= j < i ==> statuses[j] == NotDetermined by {
          if r.Granted? {
            var i :| 0 <= i < |statuses[1..]| && statuses[1..][i] == Authorized
                     && forall j :: 0 <= j < i ==> statuses[1..][j] == NotDetermined;
            assert statuses[i + 1] == Authorized;
          }
        }
        assert (exists i :: 0 <= i < |statuses| && statuses[i] == Authorized
                            && forall j :: 0 <= j < i ==> statuses[j] == NotDetermined) ==> r.Granted? by {
          if i :| 0 <= i < |statuses| && statuses[i] == Authorized
                  && forall j :: 0 <= j < i ==> statuses[j] == NotDetermined {
            assert i >= 1;
            assert statuses[1..][i - 1] == Authorized;
          }
        }
        r
      case Authorized => Granted
      case _ => Refused(DeniedError())
  }

  /** The completion receives nil exactly when the first determined status is authorized. */
  lemma GrantedIffFirstDeterminedIsAuthorized(statuses: seq<AuthorizationStatus>, k: nat)
    requires k < |statuses| && statuses[k] != NotDetermined
    requires forall j :: 0 <= j < k ==> statuses[j] == NotDetermined
    ensures Authorize(statuses).Granted? <==> statuses[k] == Authorized
    ensures Authorize(statuses).Refused? <==> statuses[k] != Authorized
  {
    assert !Authorize(statuses).Pending?;
    if Authorize(statuses).Granted? {
      var i :| 0 <= i < |statuses| && statuses[i] == Authorized
               && forall j :: 0 <= j < i ==> statuses[j] == NotDetermined;
      assert i == k;
    }
  }

  /** There is no request counter: any number of undetermined answers before a grant still ends in a grant. */
  lemma {:induction false} NoRequestLimit(n: nat)
    ensures Authorize(seq(n, _ => NotDetermined) + [Authorized]) == Granted
  {
    if n > 0 {
      var s := seq(n, _ => NotDetermined) + [Authorized];
      assert s[1..] == seq(n - 1, _ => NotDetermined) + [Authorized];
      NoRequestLimit(n - 1);
    }
  }
}
