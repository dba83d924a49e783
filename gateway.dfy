/**
 * The response interceptor of the shared HTTP client. A success passes
 * through untouched; a failure is classified into at most one notice and a
 * decision to end the session, and is then rejected to the caller unchanged.
 */
module Gateway {
  import opened Wrappers
  import opened Ui
  import opened Http
  import opened Session

  const SessionExpiredText := "Session expired. Redirecting to login page..."
  const ServerTroubleText := "Something went wrong. Please try again later..."
  const NetworkTroubleText := "Network error. Please check your internet connection."
  /** The body with which the server marks a 500 that should not raise the generic notice. */
  const AccessDenied := "Access Denied"

  /**
   * What the interceptor does with one failure: the toasts it shows at once,
   * and whether it sets the one-second timer that deletes the cookie, clears
   * local storage and goes to "/".
   */
  datatype Verdict = Verdict(notices: seq<Toast>, expire: bool)

  predicate IsForbidden(f: Failure) {
    f.HttpError? && f.status == 403
  }

  predicate IsServerFault(f: Failure) {
    f.HttpError? && f.status == 500 && f.body != TextBody(AccessDenied)
  }

  /** The error branch of the interceptor: two independent status tests, or the no-response notice. */
  function Classify(f: Failure): (v: Verdict)
    ensures |v.notices| <= 1
    ensures v.expire <==> IsForbidden(f)
    ensures v.notices == [ErrorToast(SessionExpiredText)] <==> IsForbidden(f)
    ensures v.notices == [ErrorToast(ServerTroubleText)] <==> IsServerFault(f)
    ensures v.notices == [ErrorToast(NetworkTroubleText)] <==> f.NoResponse?
    ensures v.notices == [] <==> f.HttpError? && !IsForbidden(f) && !IsServerFault(f)
  {
    match f
    case HttpError(status, body) =>
      var expired := if status == 403 then [ErrorToast(SessionExpiredText)] else [];
      var fault := if status == 500 && body != TextBody(AccessDenied) then [ErrorToast(ServerTroubleText)] else [];
      assert |SessionExpiredText| != |ServerTroubleText|;
      assert expired + fault == if status == 403 then expired else fault;
      Verdict(expired + fault, status == 403)
    case NoResponse =>
      Verdict([ErrorToast(NetworkTroubleText)], false)
  }

  /** 401, 404 and every other status besides 403 and 500 pass silently: no notice, no session change. */
  lemma OtherStatusesAreSilent(status: int, body: Body)
    requires status != 403 && status != 500
    ensures Classify(HttpError(status, body)) == Verdict([], false)
  {
  }

  /** The outcome the caller sees, and the verdict when there was a failure. */
  datatype Interception<T> = Interception(outcome: Response<T>, verdict: Option<Verdict>)

  /** Both interceptor callbacks: nothing is swallowed and nothing is altered. */
  function Intercept<T>(r: Response<T>): (i: Interception<T>)
    ensures i.outcome == r
    ensures i.verdict.None? <==> r.Ok?
    ensures r.Failed? ==> i.verdict == Some(Classify(r.failure))
  {
    match r
    case Ok(_) => Interception(r, None)
    case Failed(f) => Interception(r, Some(Classify(f)))
  }

  /** The expiry timer, once it fires: both stores are cleared and the page goes to "/". */
  method FireExpiryTimer(v: Verdict, store: CredentialStore) returns (nav: Option<Route>)
    modifies store
    ensures v.expire ==> store.local == None && store.cookie == None && nav == Some(Root)
    ensures !v.expire ==> store.local == old(store.local) && store.cookie == old(store.cookie) && nav == None
  {
    nav := None;
    if v.expire {
      store.ClearAll();
      nav := Some(Root);
    }
  }
}
