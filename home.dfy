/**
 * The notes page: its component state, the handlers that change it, and the
 * list it shows. Each handler runs to completion; the server's answers are
 * parameters, the requests sent and the toasts shown are results. The AI
 * handler is split at its `await` into a start and a finish, so that the
 * state while the enrichment request is outstanding can be observed.
 * Every request of this page goes through the intercepted HTTP client: the
 * toasts here are the page's own, and the interceptor's notice and session
 * end for the same failure are those of `Gateway.Intercept` and
 * `Gateway.FireExpiryTimer`.
 */
module Home {
  import opened Wrappers
  import opened Text
  import opened Notes
  import opened Search
  import opened Ui
  import opened Http
  import opened Session

  const RequiredText := "Title and content are required"
  const UpdatedText := "Note updated successfully!"
  const CreatedText := "Note created successfully!"
  const SaveFailedText := "Failed to save note"
  const FetchFailedText := "Failed to fetch notes"
  const DeletedText := "Note deleted!"
  const DeleteFailedText := "Failed to delete note"
  const NoNoteText := "No note selected"
  const InvalidIdText := "Invalid note ID"
  const EmptyContentText := "Note content is empty"

  /** `AI ${type} generated successfully!`. */
  function AiDoneText(kind: AiKind): string {
    "AI " + KindName(kind) + " generated successfully!"
  }

  /** `Failed to generate AI ${type}`. */
  function AiFailedText(kind: AiKind): string {
    "Failed to generate AI " + KindName(kind)
  }

  /**
   * `aiResult`, by what it displays: nothing yet (the empty string), the
   * summary, the improved text, the tag list, or the no-output warning.
   */
  datatype AiOutput = NoOutputYet | SummaryOut(summary: string) | ImprovedOut(improved: string)
                    | TagsOut(tags: seq<string>) | NoAiOutput

  /** The text `handleAIAction` puts into `aiResult` after a successful response. */
  function AiResultFor(kind: AiKind, p: AiPayload): (o: AiOutput)
    ensures o == NoAiOutput <==> !HasOutput(kind, p)
    ensures kind == Summary && HasOutput(kind, p) ==> o == SummaryOut(p.summary.value)
    ensures kind == Improve && HasOutput(kind, p) ==> o == ImprovedOut(p.improved.value)
    ensures kind == Tags && HasOutput(kind, p) ==> o == TagsOut(p.tags.value)
  {
    match kind
    case Summary => if Truthy(p.summary) then SummaryOut(p.summary.value) else NoAiOutput
    case Improve => if Truthy(p.improved) then ImprovedOut(p.improved.value) else NoAiOutput
    case Tags => if TruthyList(p.tags) then TagsOut(p.tags.value) else NoAiOutput
  }

  /** The enrichment request outstanding: its kind and the selected note as it was when it was sent. */
  datatype AiCall = AiCall(kind: AiKind, note: Note)

  /** Every state variable of the page, as one value. */
  datatype PageState = PageState(
    notes: seq<Note>,
    title: string,
    content: string,
    editingNote: Option<Note>,
    token: string,
    deleteId: Option<string>,
    isDialogOpen: bool,
    selectedNote: Option<Note>,
    aiLoading: bool,
    aiResult: AiOutput,
    inFlight: Option<AiCall>)

  /** Is the draft acceptable to `handleSave`? Both fields must be non-blank after trimming. */
  predicate DraftFilled(s: PageState) {
    !IsBlank(s.title) && !IsBlank(s.content)
  }

  /** The request `handleSave` sends: an update of the note being edited, or a create; the body is not trimmed. */
  function SaveRequest(s: PageState): Request {
    match s.editingNote
    case Some(n) => UpdateNote(s.token, n.id, s.title, s.content)
    case None => CreateNote(s.token, s.title, s.content)
  }

  /** `notes` once a refresh has answered `r`: the server's list, or the old list if the fetch failed. */
  function Refreshed(notes: seq<Note>, r: Response<seq<Note>>): seq<Note> {
    if r.Ok? then r.payload else notes
  }

  /** The toasts of a refresh: one if it failed. */
  function RefreshToasts(r: Response<seq<Note>>): seq<Toast> {
    if r.Ok? then [] else [ErrorToast(FetchFailedText)]
  }

  class NotesPage {
    const store: CredentialStore

    var notes: seq<Note>
    var title: string
    var content: string
    var editingNote: Option<Note>
    var token: string
    var deleteId: Option<string>
    var isDialogOpen: bool
    var selectedNote: Option<Note>
    var aiLoading: bool
    var aiResult: AiOutput
    var inFlight: Option<AiCall>

    function State(): PageState
      reads this
    {
      PageState(notes, title, content, editingNote, token, deleteId, isDialogOpen,
                selectedNote, aiLoading, aiResult, inFlight)
    }

    /**
     * The busy flag is set exactly while an enrichment request is outstanding,
     * and only a request that passed the handler's guards is ever outstanding.
     */
    ghost predicate Valid()
      reads this
    {
      && (aiLoading <==> inFlight.Some?)
      && (inFlight.Some? ==> inFlight.value.note.id != "" && !IsBlank(inFlight.value.note.content))
    }

    constructor (store: CredentialStore)
      ensures Valid() && this.store == store
      ensures State() == PageState([], "", "", None, "", None, false, None, false, NoOutputYet, None)
    {
      this.store := store;
      notes, title, content, editingNote, token := [], "", "", None, "";
      deleteId, isDialogOpen, selectedNote := None, false, None;
      aiLoading, aiResult, inFlight := false, NoOutputYet, None;
    }

    /** `filteredNotes` for the header's current search term. */
    function Displayed(search: string): seq<Note>
      reads this
    {
      Project(notes, search)
    }

    /** `fetchNotes`: a full fetch that replaces the list on success and keeps it on failure. */
    method FetchNotes(jwt: string, resp: Response<seq<Note>>) returns (sent: Request, notices: seq<Toast>)
      requires Valid()
      modifies this
      ensures Valid()
      ensures sent == GetNotes(jwt)
      ensures State() == old(State()).(notes := Refreshed(old(notes), resp))
      ensures notices == RefreshToasts(resp)
    {
      sent := GetNotes(jwt);
      notices := [];
      match resp
      case Ok(list) =>
        notes := list;
      case Failed(_) =>
        notices := [ErrorToast(FetchFailedText)];
    }

    /** The first mount effect: fetch with the local-storage token, if there is one; a failure is only logged. */
    method MountWithLocalToken(resp: Response<seq<Note>>) returns (sent: seq<Request>)
      requires Valid()
      modifies this
      ensures Valid()
      ensures !Truthy(store.local) ==> sent == [] && State() == old(State())
      ensures Truthy(store.local) ==>
                && sent == [GetNotes(store.local.value)]
                && State() == old(State()).(notes := Refreshed(old(notes), resp))
    {
      sent := [];
      var local := store.local;
      if Truthy(local) {
        sent := [GetNotes(local.value)];
        if resp.Ok? {
          notes := resp.payload;
        }
      }
    }

    /** The second mount effect: adopt the cookie token as `token` and fetch with it. */
    method MountWithCookie(resp: Response<seq<Note>>) returns (sent: seq<Request>, notices: seq<Toast>)
      requires Valid()
      modifies this
      ensures Valid()
      ensures !Truthy(store.cookie) ==> sent == [] && notices == [] && State() == old(State())
      ensures Truthy(store.cookie) ==>
                && sent == [GetNotes(store.cookie.value)] && notices == RefreshToasts(resp)
                && State() == old(State()).(token := store.cookie.value, notes := Refreshed(old(notes), resp))
    {
      sent, notices := [], [];
      var cookie := store.cookie;
      if Truthy(cookie) {
        token := cookie.value;
        var req;
        req, notices := FetchNotes(cookie.value, resp);
        sent := [req];
      }
    }

    /** Typing into the title field. */
    method TypeTitle(s: string)
      requires Valid()
      modifies this
      ensures Valid() && State() == old(State()).(title := s)
    {
      title := s;
    }

    /** Typing into the content field. */
    method TypeContent(s: string)
      requires Valid()
      modifies this
      ensures Valid() && State() == old(State()).(content := s)
    {
      content := s;
    }

    /**
     * `handleSave`: a blank draft is refused without a request; otherwise the
     * draft is sent as it stands, and only a successful save clears the
     * draft, ends editing and refreshes the list.
     */
    method HandleSave(saveResp: Response<()>, refresh: Response<seq<Note>>) returns (sent: seq<Request>, notices: seq<Toast>)
      requires Valid()
      modifies this
      ensures Valid()
      ensures !DraftFilled(old(State())) ==>
                sent == [] && notices == [ErrorToast(RequiredText)] && State() == old(State())
      ensures DraftFilled(old(State())) && saveResp.Failed? ==>
                && sent == [SaveRequest(old(State()))] && notices == [ErrorToast(SaveFailedText)]
                && State() == old(State())
      ensures DraftFilled(old(State())) && saveResp.Ok? ==>
                && sent == [SaveRequest(old(State())), GetNotes(old(token))]
                && notices == [SuccessToast(if old(editingNote).Some? then UpdatedText else CreatedText)]
                              + RefreshToasts(refresh)
                && State() == old(State()).(title := "", content := "", editingNote := None,
                                             notes := Refreshed(old(notes), refresh))
    {
      if IsBlank(title) || IsBlank(content) {
        sent, notices := [], [ErrorToast(RequiredText)];
        return;
      }
      var req := SaveRequest(State());
      sent := [req];
      if saveResp.Failed? {
        notices := [ErrorToast(SaveFailedText)];
        return;
      }
      notices := [SuccessToast(if editingNote.Some? then UpdatedText else CreatedText)];
      title, content, editingNote := "", "", None;
      ghost var cleared := State();
      assert cleared == old(State()).(title := "", content := "", editingNote := None);
      var fetch, fetchNotices := FetchNotes(token, refresh);
      assert State() == cleared.(notes := Refreshed(cleared.notes, refresh));
      sent := [req, fetch];
      notices := notices + fetchNotices;
    }

    /** `handleEdit`: load a note into the draft and remember it as the one being edited. */
    method HandleEdit(note: Note)
      requires Valid()
      modifies this
      ensures Valid()
      ensures State() == old(State()).(editingNote := Some(note), title := note.title, content := note.content)
    {
      editingNote, title, content := Some(note), note.title, note.content;
    }

    /** `confirmDelete`: remember the id and open the confirmation dialog. */
    method ConfirmDelete(id: string)
      requires Valid()
      modifies this
      ensures Valid() && State() == old(State()).(deleteId := Some(id), isDialogOpen := true)
    {
      deleteId, isDialogOpen := Some(id), true;
    }

    /** The dialog's cancel: close it; the remembered id stays. */
    method CloseDeleteDialog()
      requires Valid()
      modifies this
      ensures Valid() && State() == old(State()).(isDialogOpen := false)
    {
      isDialogOpen := false;
    }

    /**
     * `handleDelete`: nothing without a (non-empty) remembered id; otherwise a
     * delete request, and on success the dialog closes and the list is
     * refreshed. The remembered id is never cleared.
     */
    method HandleDelete(resp: Response<()>, refresh: Response<seq<Note>>) returns (sent: seq<Request>, notices: seq<Toast>)
      requires Valid()
      modifies this
      ensures Valid()
      ensures deleteId == old(deleteId)
      ensures !Truthy(old(deleteId)) ==> sent == [] && notices == [] && State() == old(State())
      ensures Truthy(old(deleteId)) && resp.Failed? ==>
                && sent == [DeleteNote(old(token), old(deleteId).value)]
                && notices == [ErrorToast(DeleteFailedText)] && State() == old(State())
      ensures Truthy(old(deleteId)) && resp.Ok? ==>
                && sent == [DeleteNote(old(token), old(deleteId).value), GetNotes(old(token))]
                && notices == [SuccessToast(DeletedText)] + RefreshToasts(refresh)
                && State() == old(State()).(isDialogOpen := false, notes := Refreshed(old(notes), refresh))
    {
      sent, notices := [], [];
      if !Truthy(deleteId) {
        return;
      }
      sent := [DeleteNote(token, deleteId.value)];
      if resp.Failed? {
        notices := [ErrorToast(DeleteFailedText)];
        return;
      }
      notices := [SuccessToast(DeletedText)];
      isDialogOpen := false;
      var fetch, fetchNotices := FetchNotes(token, refresh);
      sent := sent + [fetch];
      notices := notices + fetchNotices;
    }

    /** `handleNoteClick`: open the AI dialog on a note, with no result shown. */
    method HandleNoteClick(note: Note)
      requires Valid()
      modifies this
      ensures Valid() && State() == old(State()).(selectedNote := Some(note), aiResult := NoOutputYet)
    {
      selectedNote, aiResult := Some(note), NoOutputYet;
    }

    /** `closeAIModal`. */
    method CloseAIModal()
      requires Valid()
      modifies this
      ensures Valid() && State() == old(State()).(selectedNote := None, aiResult := NoOutputYet)
    {
      selectedNote, aiResult := None, NoOutputYet;
    }

    /**
     * `handleAIAction` up to its `await`. Three guards return before anything
     * else happens: no selected note, an empty id, blank content. Otherwise
     * the busy flag goes up, the result is cleared and the request is sent.
     * The dialog's buttons are disabled while busy, which is the requires.
     */
    method StartAIAction(kind: AiKind) returns (sent: seq<Request>, notices: seq<Toast>)
      requires Valid() && !aiLoading
      modifies this
      ensures Valid()
      ensures old(selectedNote).None? ==>
                sent == [] && notices == [ErrorToast(NoNoteText)] && State() == old(State())
      ensures old(selectedNote).Some? && old(selectedNote).value.id == "" ==>
                sent == [] && notices == [ErrorToast(InvalidIdText)] && State() == old(State())
      ensures old(selectedNote).Some? && old(selectedNote).value.id != "" && IsBlank(old(selectedNote).value.content) ==>
                sent == [] && notices == [ErrorToast(EmptyContentText)] && State() == old(State())
      ensures old(selectedNote).Some? && old(selectedNote).value.id != "" && !IsBlank(old(selectedNote).value.content) ==>
                && sent == [Enrich(old(token), kind, old(selectedNote).value.id)] && notices == []
                && State() == old(State()).(aiLoading := true, aiResult := NoOutputYet,
                                             inFlight := Some(AiCall(kind, old(selectedNote).value)))
    {
      sent, notices := [], [];
      if selectedNote.None? {
        notices := [ErrorToast(NoNoteText)];
        return;
      }
      var note := selectedNote.value;
      if note.id == "" {
        notices := [ErrorToast(InvalidIdText)];
        return;
      }
      if note.content == "" || IsBlank(note.content) {
        notices := [ErrorToast(EmptyContentText)];
        return;
      }
      aiLoading, aiResult := true, NoOutputYet;
      inFlight := Some(AiCall(kind, note));
      sent := [Enrich(token, kind, note.id)];
    }

    /**
     * `handleAIAction` after its `await`. On success the copy of the note
     * taken at the start, with the kind's field filled in when the payload
     * has it, becomes the selected note and replaces every list entry with
     * its id. On any outcome the busy flag comes down.
     */
    method FinishAIAction(resp: Response<AiPayload>) returns (notices: seq<Toast>)
      requires Valid() && inFlight.Some?
      modifies this
      ensures Valid() && !aiLoading && inFlight.None?
      ensures resp.Failed? ==>
                && notices == [ErrorToast(AiFailedText(old(inFlight).value.kind))]
                && State() == old(State()).(aiLoading := false, inFlight := None)
      ensures resp.Ok? ==>
                var call := old(inFlight).value;
                var updated := ApplyAi(call.note, call.kind, resp.payload);
                && notices == [SuccessToast(AiDoneText(call.kind))]
                && State() == old(State()).(aiLoading := false, inFlight := None,
                                             aiResult := AiResultFor(call.kind, resp.payload),
                                             selectedNote := Some(updated),
                                             notes := ReplaceById(old(notes), updated))
    {
      var call := inFlight.value;
      ghost var before := State();
      if resp.Ok? {
        var updated := ApplyAi(call.note, call.kind, resp.payload);
        notes, selectedNote, aiResult, aiLoading, inFlight :=
          ReplaceById(notes, updated), Some(updated), AiResultFor(call.kind, resp.payload), false, None;
        assert State() == before.(aiLoading := false, inFlight := None,
                                  aiResult := AiResultFor(call.kind, resp.payload),
                                  selectedNote := Some(updated), notes := ReplaceById(before.notes, updated));
        notices := [SuccessToast(AiDoneText(call.kind))];
      } else {
        aiLoading, inFlight := false, None;
        notices := [ErrorToast(AiFailedText(call.kind))];
      }
    }
  }
}
