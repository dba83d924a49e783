/**
 * The `Note` record of the notes page and the two pure expressions of the AI
 * enrichment path: copying the selected note with one AI field filled in, and
 * the `map` that puts that copy back into the list by id.
 */
module Notes {
  import opened Wrappers
  import opened Text

  /** A note as the server returns it; `_id` is the server-assigned identifier. */
  datatype Note = Note(
    id: string,
    title: string,
    content: string,
    createdAt: Option<string>,
    aiSummary: Option<string>,
    aiImprovedContent: Option<string>,
    tags: Option<seq<string>>)

  /** The `type` argument of `handleAIAction`. */
  datatype AiKind = Summary | Improve | Tags

  /** The path segment and message word for each kind. */
  function KindName(k: AiKind): string {
    match k
    case Summary => "summary"
    case Improve => "improve"
    case Tags => "tags"
  }

  /**
   * The fields of the enrichment response the page looks at: `summary`,
   * `improved` and `tags`; an absent field is `None`.
   */
  datatype AiPayload = AiPayload(summary: Option<string>, improved: Option<string>, tags: Option<seq<string>>)

  /** Truthiness of an optional array: any array, even an empty one, is truthy. */
  predicate TruthyList(s: Option<seq<string>>) {
    s.Some?
  }

  /** Does the payload carry a usable result for `kind`? */
  predicate HasOutput(kind: AiKind, p: AiPayload) {
    match kind
    case Summary => Truthy(p.summary)
    case Improve => Truthy(p.improved)
    case Tags => TruthyList(p.tags)
  }

  /** `a` and `b` agree on every field except, possibly, the one that `kind` fills. */
  predicate SameExcept(a: Note, b: Note, kind: AiKind) {
    && a.id == b.id && a.title == b.title && a.content == b.content && a.createdAt == b.createdAt
    && (kind != Summary ==> a.aiSummary == b.aiSummary)
    && (kind != Improve ==> a.aiImprovedContent == b.aiImprovedContent)
    && (kind != Tags ==> a.tags == b.tags)
  }

  /**
   * `updatedNote` of `handleAIAction`: a copy of the selected note in which the
   * field for `kind` takes the payload's value when that value is truthy.
   */
  function ApplyAi(note: Note, kind: AiKind, p: AiPayload): (r: Note)
    ensures SameExcept(note, r, kind)
    ensures !HasOutput(kind, p) ==> r == note
    ensures kind == Summary && HasOutput(kind, p) ==> r.aiSummary == p.summary
    ensures kind == Improve && HasOutput(kind, p) ==> r.aiImprovedContent == p.improved
    ensures kind == Tags && HasOutput(kind, p) ==> r.tags == p.tags
  {
    match kind
    case Summary => if Truthy(p.summary) then note.(aiSummary := p.summary) else note
    case Improve => if Truthy(p.improved) then note.(aiImprovedContent := p.improved) else note
    case Tags => if TruthyList(p.tags) then note.(tags := p.tags) else note
  }

  /** Applying the same result twice is the same as applying it once. */
  lemma ApplyAiIdempotent(note: Note, kind: AiKind, p: AiPayload)
    ensures ApplyAi(ApplyAi(note, kind, p), kind, p) == ApplyAi(note, kind, p)
  {
  }

  /** Results of two different kinds never overwrite each other: their order does not matter. */
  lemma ApplyAiCommutes(note: Note, k1: AiKind, p1: AiPayload, k2: AiKind, p2: AiPayload)
    requires k1 != k2
    ensures ApplyAi(ApplyAi(note, k1, p1), k2, p2) == ApplyAi(ApplyAi(note, k2, p2), k1, p1)
  {
  }

  /** `notes.map(n => n._id === u._id ? u : n)`. */
  function ReplaceById(notes: seq<Note>, u: Note): (r: seq<Note>)
    ensures |r| == |notes|
    ensures forall i :: 0 <= i < |notes| ==> r[i] == (if notes[i].id == u.id then u else notes[i])
  {
    if notes == [] then [] else [if notes[0].id == u.id then u else notes[0]] + ReplaceById(notes[1..], u)
  }

  /** No two notes of the list share an id. */
  predicate DistinctIds(notes: seq<Note>) {
    forall i, j :: 0 <= i < j < |notes| ==> notes[i].id != notes[j].id
  }

  /** The ids of the list, in order. */
  function Ids(notes: seq<Note>): (r: seq<string>)
    ensures |r| == |notes| && forall i :: 0 <= i < |notes| ==> r[i] == notes[i].id
  {
    if notes == [] then [] else [notes[0].id] + Ids(notes[1..])
  }

  /** The merge keeps the list's ids, in order, and so its uniqueness of ids. */
  lemma ReplaceByIdKeepsIds(notes: seq<Note>, u: Note)
    ensures Ids(ReplaceById(notes, u)) == Ids(notes)
    ensures DistinctIds(notes) ==> DistinctIds(ReplaceById(notes, u))
  {
    var r := ReplaceById(notes, u);
    assert forall i :: 0 <= i < |notes| ==> r[i].id == notes[i].id;
  }

  /** With unique ids, the merge replaces exactly the one entry whose id matches. */
  lemma ReplaceByIdUnique(notes: seq<Note>, u: Note, k: nat)
    requires DistinctIds(notes) && k < |notes| && notes[k].id == u.id
    ensures ReplaceById(notes, u) == notes[k := u]
  {
    var r := ReplaceById(notes, u);
    forall i | 0 <= i < |notes| ensures r[i] == notes[k := u][i] {
      if i != k {
        if i < k { assert notes[i].id != notes[k].id; } else { assert notes[k].id != notes[i].id; }
      }
    }
  }

  /** A note whose id is not in the list leaves the list as it is. */
  lemma ReplaceByIdAbsent(notes: seq<Note>, u: Note)
    requires forall i :: 0 <= i < |notes| ==> notes[i].id != u.id
    ensures ReplaceById(notes, u) == notes
  {
  }
}
