/**
 * The two places the browser keeps the credential: the local-storage entry
 * "token" and the cookie "jwtToken". The login page writes both, logging out
 * and the interceptor's expiry timer clear both, the header's profile 403
 * removes only the local entry, and the routing on load reads only the cookie.
 */
module Session {
  import opened Wrappers
  import opened Text
  import opened Ui

  /** Where the login page's mount effect sends the user, given the cookie alone. */
  function RouteOnLoad(cookie: Option<string>): (r: Route)
    ensures r == HomeScreen <==> Truthy(cookie)
    ensures r == LoginScreen <==> !Truthy(cookie)
  {
    if Truthy(cookie) then HomeScreen else LoginScreen
  }

  class CredentialStore {
    /** `localStorage.getItem("token")`; the only local-storage entry this model tracks. */
    var local: Option<string>
    /** `getCookie("jwtToken")`. */
    var cookie: Option<string>

    constructor (local: Option<string>, cookie: Option<string>)
      ensures this.local == local && this.cookie == cookie
    {
      this.local := local;
      this.cookie := cookie;
    }

    /** A successful login: the same token goes to both stores. */
    method Save(token: string)
      modifies this
      ensures local == Some(token) && cookie == Some(token)
    {
      local := Some(token);
      cookie := Some(token);
    }

    /** `deleteCookie("jwtToken"); localStorage.clear()`. */
    method ClearAll()
      modifies this
      ensures local == None && cookie == None
    {
      local := None;
      cookie := None;
    }

    /** `localStorage.removeItem("token")`: the cookie stays. */
    method RemoveLocal()
      modifies this
      ensures local == None && cookie == old(cookie)
    {
      local := None;
    }
  }
}
