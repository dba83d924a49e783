/**
 * The reusable note form: a title and a content field, and a save button
 * that hands the trimmed draft to the caller's `onSave` and is disabled
 * while that call is outstanding. The save handler is split at its `await`.
 */
module DraftCard {
  import opened Wrappers
  import opened Text
  import opened Ui

  const EmptyDraftText := "Title and content cannot be empty!"
  const AddedText := "Note added!"
  const UpdatedText := "Note updated!"
  const SaveFailedText := "Failed to save note."

  /** The argument of `onSave`. */
  datatype Draft = Draft(title: string, content: string)

  /** What leaves the form is non-empty, has no whitespace at either end, and is its own trimming. */
  lemma SentDraftIsClean(title: string, content: string)
    requires !IsBlank(title) && !IsBlank(content)
    ensures var d := Draft(Trim(title), Trim(content));
            && d.title != "" && d.content != ""
            && !IsWhitespace(d.title[0]) && !IsWhitespace(d.title[|d.title| - 1])
            && !IsWhitespace(d.content[0]) && !IsWhitespace(d.content[|d.content| - 1])
            && Trim(d.title) == d.title && Trim(d.content) == d.content
  {
    BlankIffTrimEmpty(title);
    BlankIffTrimEmpty(content);
    TrimIsSlice(title);
    TrimIsSlice(content);
    TrimIdempotent(title);
    TrimIdempotent(content);
  }

  class NoteForm {
    var title: string
    var content: string
    var saving: bool
    /** Only chooses the texts shown; saving goes through `onSave` either way. */
    const editing: bool

    /** Missing props take their defaults: empty fields, not editing. */
    constructor (initialTitle: Option<string>, initialContent: Option<string>, editingNote: Option<bool>)
      ensures title == initialTitle.GetOr("") && content == initialContent.GetOr("")
      ensures editing == editingNote.GetOr(false) && !saving
    {
      title := initialTitle.GetOr("");
      content := initialContent.GetOr("");
      editing := editingNote.GetOr(false);
      saving := false;
    }

    method TypeTitle(s: string)
      modifies this
      ensures title == s && content == old(content) && saving == old(saving)
    {
      title := s;
    }

    method TypeContent(s: string)
      modifies this
      ensures content == s && title == old(title) && saving == old(saving)
    {
      content := s;
    }

    /**
     * `handleSave` up to its `await`: a draft with a blank field is refused
     * with a notice and nothing else; otherwise the flag goes up and the
     * trimmed fields are handed to `onSave`. The fields themselves are not
     * trimmed. The button is disabled while saving, which is the requires.
     */
    method BeginSave() returns (call: Option<Draft>, notices: seq<Toast>)
      requires !saving
      modifies this
      ensures title == old(title) && content == old(content)
      ensures IsBlank(title) || IsBlank(content) ==>
                call == None && notices == [ErrorToast(EmptyDraftText)] && !saving
      ensures !IsBlank(title) && !IsBlank(content) ==>
                call == Some(Draft(Trim(title), Trim(content))) && notices == [] && saving
    {
      if IsBlank(title) || IsBlank(content) {
        call, notices := None, [ErrorToast(EmptyDraftText)];
        return;
      }
      saving := true;
      call, notices := Some(Draft(Trim(title), Trim(content))), [];
    }

    /**
     * `handleSave` after its `await`: when `onSave` resolved, a notice that
     * depends on the editing prop and both fields cleared; when it rejected,
     * the failure notice and the fields kept. The flag comes down either way.
     */
    method FinishSave(resolved: bool) returns (notices: seq<Toast>)
      modifies this
      ensures !saving
      ensures resolved ==>
                title == "" && content == "" && notices == [SuccessToast(if editing then UpdatedText else AddedText)]
      ensures !resolved ==>
                title == old(title) && content == old(content) && notices == [ErrorToast(SaveFailedText)]
    {
      if resolved {
        notices := [SuccessToast(if editing then UpdatedText else AddedText)];
        title, content := "", "";
      } else {
        notices := [ErrorToast(SaveFailedText)];
      }
      saving := false;
    }
  }
}
