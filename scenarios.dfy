/**
 * Runs of several handlers in a row, over fresh component instances that
 * share one credential store, showing how the components interact.
 */
module Scenarios {
  import opened Wrappers
  import opened Text
  import opened Ui
  import opened Http
  import opened Session
  import opened Gateway
  import opened Notes
  import opened Home
  import opened Login
  import opened Header

  /**
   * After a login, a 403 on the profile request sends the header to the login
   * screen but removes only the local token: the load routing still reads
   * the cookie and goes to the notes screen, until the interceptor's expiry
   * timer for the same 403 clears both stores.
   */
  method ProfileExpiryKeepsCookie(email: string, password: string, token: string)
    returns (headerNav: Option<Route>, beforeTimer: Route, afterTimer: Route)
    requires token != ""
    ensures headerNav == Some(LoginScreen) && beforeTimer == HomeScreen && afterTimer == LoginScreen
  {
    var store := new CredentialStore(None, None);
    var login := new LoginPage(store);
    var posted := login.BeginSubmit(email, password);
    var loginNotices, scheduled := login.FinishSubmit(Ok(LoginPayload(Some(token))));
    var header := new HeaderBar(store);
    var sent := header.BeginFetchProfile();
    assert sent == Some(GetProfile(token));
    var forbidden: Response<ProfilePayload> := Failed(HttpError(403, EmptyBody));
    var headerNotices;
    headerNotices, headerNav := header.FinishFetchProfile(forbidden);
    beforeTimer := RouteOnLoad(store.cookie);
    var verdict := Intercept(forbidden).verdict.value;
    var timerNav := FireExpiryTimer(verdict, store);
    afterTimer := RouteOnLoad(store.cookie);
  }

  /** After logging out, the load routing goes to the login screen and the header requests no profile. */
  method LogoutEndsSession(email: string, password: string, token: string)
    returns (route: Route, sent: Option<Request>)
    requires token != ""
    ensures route == LoginScreen && sent == None
  {
    var store := new CredentialStore(None, None);
    var login := new LoginPage(store);
    var posted := login.BeginSubmit(email, password);
    var loginNotices, scheduled := login.FinishSubmit(Ok(LoginPayload(Some(token))));
    var header := new HeaderBar(store);
    var notices, nav := header.HandleLogout();
    route := RouteOnLoad(store.cookie);
    sent := header.BeginFetchProfile();
  }

  /**
   * The AI merge puts back the copy taken when the request was sent: a title
   * that a refresh changed in the meantime is overwritten by the old one.
   */
  method AiMergeUsesSnapshot(note: Note, renamed: string, summary: string) returns (shown: seq<Note>)
    requires note.id != "" && !IsBlank(note.content) && summary != ""
    ensures shown == [note.(aiSummary := Some(summary))]
  {
    var store := new CredentialStore(None, None);
    var page := new NotesPage(store);
    page.HandleNoteClick(note);
    var enrich, startNotices := page.StartAIAction(Summary);
    var fetch, fetchNotices := page.FetchNotes(page.token, Ok([note.(title := renamed)]));
    var doneNotices := page.FinishAIAction(Ok(AiPayload(Some(summary), None, None)));
    shown := page.Displayed("");
  }

  /**
   * The remembered id is never cleared: after a failed delete the dialog
   * stays open, and confirming again sends the same delete request again.
   */
  method DeleteRetryResends(token: string, id: string, remaining: seq<Note>)
    returns (first: seq<Request>, dialogOpen: bool, second: seq<Request>)
    requires token != "" && id != ""
    ensures first == [DeleteNote(token, id)] && dialogOpen
    ensures second == [DeleteNote(token, id), GetNotes(token)]
  {
    var store := new CredentialStore(None, Some(token));
    var page := new NotesPage(store);
    var mounted, mountNotices := page.MountWithCookie(Ok([]));
    page.ConfirmDelete(id);
    var notices;
    first, notices := page.HandleDelete(Failed(HttpError(500, EmptyBody)), Ok(remaining));
    dialogOpen := page.isDialogOpen;
    second, notices := page.HandleDelete(Ok(()), Ok(remaining));
  }

  /**
   * A 403 on the notes page's own fetch ends the session: the page raises
   * its notice and keeps its list, the interceptor raises the expiry notice,
   * and its timer clears both stores and goes to "/"; when the login page's
   * routing effect next runs, it goes to the login screen.
   */
  method FetchExpiryEndsSession(token: string, cached: seq<Note>)
    returns (pageNotices: seq<Toast>, verdict: Verdict, timerPath: string, route: Route)
    requires token != ""
    ensures pageNotices == [ErrorToast(FetchFailedText)]
    ensures verdict == Verdict([ErrorToast(SessionExpiredText)], true)
    ensures timerPath == "/" && route == LoginScreen
  {
    var store := new CredentialStore(Some(token), Some(token));
    var page := new NotesPage(store);
    var forbidden: Response<seq<Note>> := Failed(HttpError(403, EmptyBody));
    var sent;
    sent, pageNotices := page.FetchNotes(token, forbidden);
    verdict := Intercept(forbidden).verdict.value;
    var nav := FireExpiryTimer(verdict, store);
    timerPath := Path(nav.value);
    route := RouteOnLoad(store.cookie);
  }

  /**
   * The AI dialog can be closed while a request is outstanding; when the
   * answer arrives the note is selected again, which reopens the dialog.
   */
  method CloseDuringRequestReopens(note: Note, payload: AiPayload) returns (reopened: Option<Note>, busy: bool)
    requires note.id != "" && !IsBlank(note.content)
    ensures reopened == Some(ApplyAi(note, Improve, payload)) && !busy
  {
    var store := new CredentialStore(None, None);
    var page := new NotesPage(store);
    page.HandleNoteClick(note);
    var enrich, startNotices := page.StartAIAction(Improve);
    page.CloseAIModal();
    assert page.selectedNote == None && page.aiLoading;
    var doneNotices := page.FinishAIAction(Ok(payload));
    reopened, busy := page.selectedNote, page.aiLoading;
  }
}
