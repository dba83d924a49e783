/**
 * The page header: the profile it loads on mount through the intercepted
 * HTTP client, the logout button, the profile dialog and the theme toggle.
 * The interceptor's own notices for the profile request are those of
 * `Gateway.Intercept`; the ones here are the header's.
 */
module Header {
  import opened Wrappers
  import opened Text
  import opened Ui
  import opened Http
  import opened Session
  import opened Gateway

  const ProfileExpiredText := "Session expired, please log in again"
  const LoggedOutText := "Logged out successfully"

  datatype UserProfile = UserProfile(name: string, email: string, createdAt: string)

  /** The part of the profile response the header reads: `res.data.user`, which may be missing. */
  datatype ProfilePayload = ProfilePayload(user: Option<UserProfile>)

  /** The theme button: light becomes dark, and anything else (dark, system, not yet known) becomes light. */
  function ToggleTheme(theme: Option<string>): (t: string)
    ensures t == "dark" <==> theme == Some("light")
    ensures t == "light" <==> theme != Some("light")
  {
    if theme == Some("light") then "dark" else "light"
  }

  /** Between light and dark the button is an involution; from any other theme two presses land on light. */
  lemma ToggleTwice(theme: Option<string>)
    ensures theme == Some("light") || theme == Some("dark") ==> ToggleTheme(Some(ToggleTheme(theme))) == theme.value
    ensures theme != Some("light") && theme != Some("dark") ==> ToggleTheme(Some(ToggleTheme(theme))) == "dark"
  {
  }

  class HeaderBar {
    const store: CredentialStore
    var user: Option<UserProfile>
    var loading: bool
    var modalOpen: bool

    constructor (store: CredentialStore)
      ensures this.store == store && user == None && !loading && !modalOpen
    {
      this.store := store;
      user, loading, modalOpen := None, false, false;
    }

    /**
     * `fetchUserProfile` up to its `await`: without a local token it returns
     * at once and sends nothing; otherwise the flag goes up and the profile
     * is requested with that token. The cookie is not consulted.
     */
    method BeginFetchProfile() returns (sent: Option<Request>)
      modifies this
      ensures !Truthy(store.local) ==> sent == None && user == old(user) && loading == old(loading)
      ensures Truthy(store.local) ==> sent == Some(GetProfile(store.local.value)) && user == old(user) && loading
      ensures modalOpen == old(modalOpen)
    {
      sent := None;
      var token := store.local;
      if Truthy(token) {
        loading := true;
        sent := Some(GetProfile(token.value));
      }
    }

    /**
     * `fetchUserProfile` after its `await`. Success adopts the returned user;
     * a 403 raises the header's notice, removes the local token only and
     * goes to the login screen; any other failure is only logged. The flag
     * comes down on every path.
     */
    method FinishFetchProfile(resp: Response<ProfilePayload>) returns (notices: seq<Toast>, nav: Option<Route>)
      modifies this, store
      ensures !loading && modalOpen == old(modalOpen) && store.cookie == old(store.cookie)
      ensures resp.Ok? ==>
                user == resp.payload.user && store.local == old(store.local) && notices == [] && nav == None
      ensures resp.Failed? && IsForbidden(resp.failure) ==>
                && user == old(user) && store.local == None
                && notices == [ErrorToast(ProfileExpiredText)] && nav == Some(LoginScreen)
      ensures resp.Failed? && !IsForbidden(resp.failure) ==>
                user == old(user) && store.local == old(store.local) && notices == [] && nav == None
    {
      notices, nav := [], None;
      if resp.Ok? {
        user := resp.payload.user;
      } else if IsForbidden(resp.failure) {
        store.RemoveLocal();
        notices, nav := [ErrorToast(ProfileExpiredText)], Some(LoginScreen);
      }
      loading := false;
    }

    /** `handleLogout`: both stores are cleared, the dialog closes and the login screen follows. */
    method HandleLogout() returns (notices: seq<Toast>, nav: Route)
      modifies this, store
      ensures store.local == None && store.cookie == None
      ensures !modalOpen && user == old(user) && loading == old(loading)
      ensures notices == [SuccessToast(LoggedOutText)] && nav == LoginScreen
    {
      store.ClearAll();
      modalOpen := false;
      notices, nav := [SuccessToast(LoggedOutText)], LoginScreen;
    }

    /** The profile button opens the dialog; the dialog's own close reports `false`. */
    method SetModalOpen(open: bool)
      modifies this
      ensures modalOpen == open && user == old(user) && loading == old(loading)
    {
      modalOpen := open;
    }
  }
}
