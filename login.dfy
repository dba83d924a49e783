/**
 * The login page: its submit handler, split at the `await` of the login
 * request, and the loading flag it keeps while the request is outstanding.
 * The request goes through the plain HTTP client, not the intercepted one,
 * so a failure here raises only the page's own notice.
 */
module Login {
  import opened Wrappers
  import opened Text
  import opened Ui
  import opened Http
  import opened Session

  const LoginSuccessText := "Login Successful!"
  const LoginFailedText := "Login failed"

  /** The part of the login response the page reads: `res.data?.token`. */
  datatype LoginPayload = LoginPayload(token: Option<string>)

  /**
   * The text of the failure notice: the server's `error` field when the body
   * is an object whose `error` is a non-empty string, and the fallback text
   * otherwise (no answer, a plain-text body, no body, an empty `error`).
   */
  function FailureMessage(f: Failure): (m: string)
    ensures m != ""
    ensures f.HttpError? && f.body.ObjectBody? && Truthy(f.body.error) ==> m == f.body.error.value
    ensures !(f.HttpError? && f.body.ObjectBody? && Truthy(f.body.error)) ==> m == LoginFailedText
  {
    match f
    case HttpError(_, ObjectBody(error)) => if Truthy(error) then error.value else LoginFailedText
    case _ => LoginFailedText
  }

  class LoginPage {
    const store: CredentialStore
    var loading: bool

    constructor (store: CredentialStore)
      ensures this.store == store && !loading
    {
      this.store := store;
      loading := false;
    }

    /** `onSubmit` up to its `await`: the flag goes up and the credentials are posted. */
    method BeginSubmit(email: string, password: string) returns (sent: Request)
      modifies this
      ensures loading && sent == Login(email, password)
    {
      loading := true;
      sent := Login(email, password);
    }

    /**
     * `onSubmit` after its `await`. A response carrying a non-empty token
     * stores it in both places, raises the success notice and schedules the
     * move to the notes screen; a response without one does nothing at all;
     * a failure raises one notice and touches neither store. The flag comes
     * down on every path.
     */
    method FinishSubmit(resp: Response<LoginPayload>) returns (notices: seq<Toast>, scheduled: Option<Route>)
      modifies this, store
      ensures !loading
      ensures resp.Ok? && Truthy(resp.payload.token) ==>
                && store.local == resp.payload.token && store.cookie == resp.payload.token
                && notices == [SuccessToast(LoginSuccessText)] && scheduled == Some(HomeScreen)
      ensures resp.Ok? && !Truthy(resp.payload.token) ==>
                && store.local == old(store.local) && store.cookie == old(store.cookie)
                && notices == [] && scheduled == None
      ensures resp.Failed? ==>
                && store.local == old(store.local) && store.cookie == old(store.cookie)
                && notices == [ErrorToast(FailureMessage(resp.failure))] && scheduled == None
    {
      notices, scheduled := [], None;
      if resp.Failed? {
        notices := [ErrorToast(FailureMessage(resp.failure))];
      } else if Truthy(resp.payload.token) {
        store.Save(resp.payload.token.value);
        notices, scheduled := [SuccessToast(LoginSuccessText)], Some(HomeScreen);
      }
      loading := false;
    }
  }
}
