# Peacock AI Notes client, modelled in Dafny

The Peacock AI Notes client is a Next.js front end. A user logs in, keeps
notes, searches them and asks a server-side AI for a summary, an improved
text or tags. This project models the client's behaviour:

- the notes page and its handlers (fetch, save, edit, delete, AI enrichment);
- the search projection that decides which notes are shown;
- the response interceptor of the shared HTTP client;
- the login page's submit handler and its routing on load;
- the header's profile loading, logout and theme toggle;
- the reusable note form.

Every component whose state the source updates in place is a Dafny `class`:
`NotesPage`, `LoginPage`, `HeaderBar`, `NoteForm` and `CredentialStore`. The
credential store holds the local-storage entry `token` and the cookie
`jwtToken`, and its methods read and write both. The pure expressions are
functions with lemmas:

- the search filter;
- the AI merge;
- the interceptor's classification;
- `trim`, lower-casing and `includes`.

The network is not modelled:

- A handler returns the requests it sends.
- A handler takes the server's answer (`Http.Response`) as a parameter.
- A handler returns the toasts it raises and the route it navigates to.

Handlers with a busy flag are split at their `await` into a start and a
finish. This applies to the AI action, login submit, profile fetch and
note-form save. The state while the request is outstanding is then
observable. The notes page's AI request remembers the
note it was sent for in `inFlight`, as the source's closure does.

Files:

- `wrappers.dfy`: `Option`.
- `text.dfy`: JavaScript truthiness, `trim` with the ECMAScript whitespace set, ASCII lower-casing, `includes`.
- `notes.dfy`: the `Note` record, the AI merge and the replace-by-id map.
- `ui.dfy`: toasts and routes.
- `http.dfy`: requests, responses and failures.
- `session.dfy`: the credential store and the routing on load.
- `gateway.dfy`: the response interceptor.
- `search.dfy`: the search projection.
- `home.dfy`: the notes page.
- `login.dfy`: the login page.
- `header.dfy`: the header.
- `draft_card.dfy`: the reusable note form.
- `scenarios.dfy`: runs of several handlers over shared objects.

Behaviour of the code that one might not expect, and that the model keeps:

- Only status 403 ends the session. A 401 passes the interceptor silently (`Gateway.OtherStatusesAreSilent`).
- The notes page has no "busy" error for a second AI request. The dialog's three buttons are disabled while `aiLoading` holds. This is the requires of `Home.NotesPage.StartAIAction`.
- The AI merge writes back the copy of the note taken when the request was sent. A title refreshed in the meantime is overwritten (`Scenarios.AiMergeUsesSnapshot`).
- The remembered delete id is never cleared, not even after a successful delete (the `deleteId == old(deleteId)` ensures of `Home.NotesPage.HandleDelete`). As one would expect, after a failed delete the dialog stays open and confirming again re-sends the same request (`Scenarios.DeleteRetryResends`).
- The header's 403 handling removes only the local token. The cookie stays, so the routing on load still goes to the notes screen until the interceptor's timer fires (`Scenarios.ProfileExpiryKeepsCookie`).
- The login request uses the plain HTTP client, so it is not intercepted.
- Every request of the notes page and of the header goes through the intercepted client. The `NotesPage` and `HeaderBar` methods return only the component's own notices. For the same failure, `Gateway.Intercept` gives the interceptor's notice, and on a 403 `Gateway.FireExpiryTimer` ends the session (`Scenarios.FetchExpiryEndsSession`).
- The search term is lower-cased but not trimmed. Its blankness is tested on the trimmed term.

`IsBlank` is stated as "every character is whitespace". `Text.BlankIffTrimEmpty`
proves that this is the source's `!s.trim()`.

A few functions carry no contract of their own, so they have no row below. Their meaning is stated by the members that use them:

- `Text.Trim` (`String.prototype.trim`): by `Text.TrimIsSlice`, `Text.BlankIffTrimEmpty` and `Text.TrimIdempotent`.
- `Search.Matches` (the filter test at frontend/app/Home/page.tsx lines 67-69): by `Search.Filter` and `Search.Project`.
- `Home.SaveRequest` (the update-or-create choice at lines 104-113 of the same file): by `Home.NotesPage.HandleSave`.
- `Home.NotesPage.Displayed` (`filteredNotes`, shown as `notesToDisplay` at lines 40 and 224 of the same file): by `Search.Project`, `Search.ProjectAppend` and `Search.ProjectIgnoresCase`.

## Model

| member | source | states |
|---|---|---|
| Text.SkipLeading | frontend/app/Home/page.tsx:61 | the position where leading whitespace ends: everything before it is whitespace, the character at it is not |
| Text.SkipTrailing | frontend/app/Home/page.tsx:61 | the position where trailing whitespace starts: everything from it on is whitespace, the character before it is not |
| Text.BlankIffTrimEmpty | frontend/app/Home/page.tsx:61 | `s.trim()` is empty exactly when every character of `s` is whitespace, in both directions |
| Text.TrimIsSlice | frontend/components/HomePageComponents/CreateNoteCard.tsx:33 | `trim` keeps one contiguous piece of the input, drops only whitespace, and what it keeps neither starts nor ends with whitespace |
| Text.TrimIdempotent | frontend/components/HomePageComponents/CreateNoteCard.tsx:33 | trimming an already trimmed string changes nothing |
| Text.Lower | frontend/app/Home/page.tsx:64 | lower-casing keeps the length and maps every character by the ASCII case rule |
| Text.LowerIdempotent | frontend/app/Home/page.tsx:64 | lower-casing a lower-cased string changes nothing |
| Text.Includes | frontend/app/Home/page.tsx:68-69 | `s.includes(t)` holds exactly when `t` occurs in `s` at some position |
| Notes.ApplyAi | frontend/app/Home/page.tsx:195-205 | the copy differs from the note at most in the kind's field; that field takes the payload's value when it is truthy, and otherwise the copy is the note |
| Notes.ApplyAiIdempotent | frontend/app/Home/page.tsx:195-205 | applying the same AI result twice equals applying it once |
| Notes.ApplyAiCommutes | frontend/app/Home/page.tsx:195-205 | results of two different kinds commute: neither overwrites the other |
| Notes.ReplaceById | frontend/app/Home/page.tsx:212-214 | the mapped list has the same length, and each entry is the updated note if its id matches and unchanged otherwise |
| Notes.Ids | frontend/app/Home/page.tsx:19 | the list of ids, position by position |
| Notes.ReplaceByIdKeepsIds | frontend/app/Home/page.tsx:212-214 | the merge keeps the ids in order, and so keeps their uniqueness |
| Notes.ReplaceByIdUnique | frontend/app/Home/page.tsx:212-214 | with unique ids, the merge replaces exactly the one entry with the matching id |
| Notes.ReplaceByIdAbsent | frontend/app/Home/page.tsx:212-214 | an id that is not in the list leaves the list unchanged |
| Search.Filter | frontend/app/Home/page.tsx:66-70 | the result is no longer than the input, every kept note matches, and a note is kept exactly when it is in the input and matches |
| Search.Project | frontend/app/Home/page.tsx:60-73 | a term that trims to nothing shows every note in the same order; any other term shows exactly the notes whose lower-cased title or content includes the lower-cased term |
| Search.LowerKeepsBlankness | frontend/app/Home/page.tsx:61-64 | lower-casing a term never changes whether it is blank |
| Search.ProjectIgnoresCase | frontend/app/Home/page.tsx:64-69 | two terms that lower-case alike show the same notes: matching ignores ASCII case |
| Search.ProjectAppend | frontend/app/Home/page.tsx:60-73 | the projection distributes over concatenation, so the shown list keeps the notes' order |
| Search.FilterAppend | frontend/app/Home/page.tsx:66-70 | the filter distributes over concatenation, so it keeps the notes' order |
| Search.FilterOne | frontend/app/Home/page.tsx:66-70 | a single note passes exactly when it matches |
| Search.FilterKeepsAllIff | frontend/app/Home/page.tsx:66-70 | the filter leaves a list unchanged exactly when every note in it matches |
| Search.NotIncludedWhenCharMissing | frontend/app/Home/page.tsx:68-69 | a term with a character that the text lacks is not included in it |
| Search.FilterPair | frontend/app/Home/page.tsx:66-70 | two matching notes pass the filter together |
| Search.ProjectMatchesTitleOrContent | frontend/app/Home/page.tsx:63-70 | "shop" finds one note by its title "Shopping" and another by the upper-case "SHOPPING" in its content |
| Search.ProjectTermNotTrimmed | frontend/app/Home/page.tsx:63-70 | the term is not trimmed before matching: " milk" misses a note whose content is "milk" |
| Session.RouteOnLoad | frontend/app/Auth/Login/page.tsx:26-33 | the load routing goes to the notes screen exactly when the cookie token is non-empty, and to the login screen otherwise |
| Session.CredentialStore.Save | frontend/app/Auth/Login/page.tsx:41-42 | a login writes the same token to local storage and to the cookie |
| Session.CredentialStore.ClearAll | frontend/components/layout/Header.tsx:95-96 | both stores are emptied |
| Session.CredentialStore.RemoveLocal | frontend/components/layout/Header.tsx:82 | the local token goes and the cookie stays |
| Gateway.Classify | frontend/envfile/axiosSetup.tsx:12-38 | at most one notice; session expiry exactly on 403; the generic server notice exactly on a 500 whose body is not "Access Denied"; the network notice exactly when no answer arrived; silence exactly for the other statuses |
| Gateway.OtherStatusesAreSilent | frontend/envfile/axiosSetup.tsx:13-33 | 401, 404 and every status other than 403 and 500 give no notice and do not end the session |
| Gateway.Intercept | frontend/envfile/axiosSetup.tsx:10-42 | success and failure both reach the caller unchanged; only a failure is classified |
| Gateway.FireExpiryTimer | frontend/envfile/axiosSetup.tsx:22-26 | a 403's timer empties both stores and goes to "/"; without a 403 nothing changes |
| Home.AiResultFor | frontend/app/Home/page.tsx:197-208 | the result shown is the kind's payload field when that field is truthy, and the no-output warning exactly when it is not |
| Home.NotesPage.constructor | frontend/app/Home/page.tsx:29-40 | the page starts with no notes, an empty draft, no token, nothing selected and nothing outstanding |
| Home.NotesPage.FetchNotes | frontend/app/Home/page.tsx:83-92 | one fetch with the given token; the list is replaced on success, kept on failure with the page's one notice, and nothing else changes |
| Home.NotesPage.MountWithLocalToken | frontend/app/Home/page.tsx:42-58 | without a local token nothing is sent; otherwise one fetch, and a failure is only logged |
| Home.NotesPage.MountWithCookie | frontend/app/Home/page.tsx:75-81 | without a cookie nothing happens; otherwise the cookie becomes the page's token and is used for one fetch |
| Home.NotesPage.TypeTitle | frontend/app/Home/page.tsx:241 | only the title changes |
| Home.NotesPage.TypeContent | frontend/app/Home/page.tsx:247 | only the content changes |
| Home.NotesPage.HandleSave | frontend/app/Home/page.tsx:94-124 | a blank field sends nothing and changes nothing; otherwise the untrimmed draft goes out as an update or a create; only success clears the draft, ends editing and refreshes with the page token |
| Home.NotesPage.HandleEdit | frontend/app/Home/page.tsx:126-130 | the note becomes the one being edited and fills the draft |
| Home.NotesPage.ConfirmDelete | frontend/app/Home/page.tsx:132-135 | the id is remembered and the dialog opens |
| Home.NotesPage.CloseDeleteDialog | frontend/app/Home/page.tsx:324 | the dialog closes and the remembered id stays |
| Home.NotesPage.HandleDelete | frontend/app/Home/page.tsx:137-150 | no request without a non-empty remembered id; success closes the dialog and refreshes; failure changes nothing; the remembered id is never cleared |
| Home.NotesPage.HandleNoteClick | frontend/app/Home/page.tsx:152-155 | the note is selected and the shown result is cleared |
| Home.NotesPage.CloseAIModal | frontend/app/Home/page.tsx:157-160 | the selection and the shown result are cleared, even while a request is outstanding |
| Home.NotesPage.StartAIAction | frontend/app/Home/page.tsx:162-193 | the three guards (no note, empty id, blank content) each give their notice and change nothing; otherwise the flag goes up, the result is cleared and one request goes out for the selected note's id; the requires is the disabled dialog buttons (frontend/components/modal/AiModal.tsx lines 56, 63 and 70) |
| Home.NotesPage.FinishAIAction | frontend/app/Home/page.tsx:195-222 | success selects the snapshot with the AI field merged in, replaces every list entry with its id and shows the result; failure only gives its notice; the flag always comes down |
| Login.FailureMessage | frontend/app/Auth/Login/page.tsx:48 | the notice text is never empty: the server's non-empty `error` field when there is one, "Login failed" otherwise |
| Login.LoginPage.BeginSubmit | frontend/app/Auth/Login/page.tsx:35-38 | the flag goes up and the credentials are posted |
| Login.LoginPage.FinishSubmit | frontend/app/Auth/Login/page.tsx:38-52 | a non-empty token is saved to both stores with the success notice and the move to the notes screen; a response without a token does nothing; a failure gives one notice and leaves both stores; the flag always comes down |
| Login.LoginPage.constructor | frontend/app/Auth/Login/page.tsx:24 | the page starts not loading, with the given store |
| Header.ToggleTheme | frontend/components/layout/Header.tsx:141 | the button gives dark exactly from light, and light from anything else |
| Header.ToggleTwice | frontend/components/layout/Header.tsx:141 | two presses return to light or dark from either one, and land on dark from any other theme |
| Header.HeaderBar.constructor | frontend/components/layout/Header.tsx:61-66 | no user, not loading, dialog closed |
| Header.HeaderBar.BeginFetchProfile | frontend/components/layout/Header.tsx:68-76 | without a local token nothing is sent and nothing changes; otherwise the flag goes up and the profile is requested with that token |
| Header.HeaderBar.FinishFetchProfile | frontend/components/layout/Header.tsx:77-87 | success adopts the returned user; a 403 gives the notice, removes only the local token and goes to login; other failures change nothing; the cookie stays and the flag comes down |
| Header.HeaderBar.HandleLogout | frontend/components/layout/Header.tsx:94-100 | both stores are cleared, the dialog closes, the notice is raised and login follows |
| Header.HeaderBar.SetModalOpen | frontend/components/layout/Header.tsx:155-161 | the profile button opens the dialog and its close reports false; nothing else changes |
| DraftCard.SentDraftIsClean | frontend/components/HomePageComponents/CreateNoteCard.tsx:26-33 | a draft that passes the guard is handed on non-empty, with no whitespace at either end, and already trimmed |
| DraftCard.NoteForm.constructor | frontend/components/HomePageComponents/CreateNoteCard.tsx:15-23 | missing props default to empty fields and not editing; the form is not saving |
| DraftCard.NoteForm.TypeTitle | frontend/components/HomePageComponents/CreateNoteCard.tsx:56 | only the title changes |
| DraftCard.NoteForm.TypeContent | frontend/components/HomePageComponents/CreateNoteCard.tsx:63 | only the content changes |
| DraftCard.NoteForm.BeginSave | frontend/components/HomePageComponents/CreateNoteCard.tsx:25-33 | a blank field gives the notice and nothing else; otherwise the flag goes up and the trimmed fields are handed on while the fields themselves stay; the requires is the disabled button (line 68) |
| DraftCard.NoteForm.FinishSave | frontend/components/HomePageComponents/CreateNoteCard.tsx:33-42 | when `onSave` resolves, the notice depends on the editing prop and both fields clear; when it rejects, the fields stay; the flag always comes down |
| Scenarios.ProfileExpiryKeepsCookie | frontend/components/layout/Header.tsx:80-84 | after a login, a profile 403 sends the header to login, but the load routing still goes to the notes screen until the interceptor's timer clears the cookie |
| Scenarios.LogoutEndsSession | frontend/components/layout/Header.tsx:94-100 | after logging out, the load routing goes to login and the header requests no profile |
| Scenarios.AiMergeUsesSnapshot | frontend/app/Home/page.tsx:195-214 | a title refreshed while the AI request is outstanding is overwritten by the snapshot's in the list shown for an empty search |
| Scenarios.DeleteRetryResends | frontend/app/Home/page.tsx:137-150 | after a failed delete the dialog stays open, and confirming again sends the same delete request again |
| Scenarios.FetchExpiryEndsSession | frontend/envfile/axiosSetup.tsx:17-26 | a 403 on the notes fetch gives the page's notice and the interceptor's expiry notice; the timer goes to "/", and when the login page's routing effect next runs it goes to login |
| Scenarios.CloseDuringRequestReopens | frontend/app/Home/page.tsx:157-160 | closing the AI dialog during a request does not stop it: the answer selects the note again and clears the flag |

## Left out

- HTTP transport, base URL, timeout and headers other than the bearer token: requests are values and answers are parameters.
- Toast rendering, styles and timing: a toast is its kind and text.
- The delays of `setTimeout`: the interceptor's timer is the separate step `Gateway.FireExpiryTimer`, and the login page's delayed move is returned as a scheduled route.
- Interleaving of concurrent requests: each handler's finish runs as one step. The un-awaited refresh inside save and delete is read as completing before the handler returns.
- `Text.Lower`: lower-cases the ASCII letters only. It does not model Unicode case mapping.
- Server payloads are typed records (`LoginPayload`, `ProfilePayload`, `AiPayload`, `seq<Note>`). A malformed body that makes the page throw and fall into its `catch` is not modelled.
- The text of `aiResult` (emoji prefixes, the tags joined with ", ") is modelled as the `Home.AiOutput` datatype, not as a string.
- The header's search box and its setter, and the search context provider, are not part of this model. The projection takes the term as a parameter.
- `Home.NotesPage.MountWithLocalToken`: the source also writes a second list state, which the search projection recomputes anyway, so the model keeps only `notes`.
- The login page's button is not disabled while loading, and a second submit during a pending one is interleaving, which is left out.
- The register page, the layout, JSX rendering, the theme provider and date formatting are not part of this model.
