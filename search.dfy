/**
 * The list the notes page shows: all notes when the header's search term is
 * blank, otherwise the notes whose lower-cased title or content contains the
 * lower-cased (untrimmed) term, in their original order.
 */
module Search {
  import opened Text
  import opened Notes

  /** The filter's test, for a term that is already lower-cased. */
  predicate Matches(n: Note, lowerTerm: string) {
    Includes(Lower(n.title), lowerTerm) || Includes(Lower(n.content), lowerTerm)
  }

  /** `notes.filter(...)`: the notes that match, in their order. */
  function Filter(notes: seq<Note>, lowerTerm: string): (r: seq<Note>)
    ensures |r| <= |notes|
    ensures forall i :: 0 <= i < |r| ==> Matches(r[i], lowerTerm)
    ensures forall n :: n in r <==> n in notes && Matches(n, lowerTerm)
  {
    if notes == [] then []
    else if Matches(notes[0], lowerTerm) then [notes[0]] + Filter(notes[1..], lowerTerm)
    else Filter(notes[1..], lowerTerm)
  }

  /** The effect that sets `filteredNotes` from `search` and `notes`. */
  function Project(notes: seq<Note>, search: string): (r: seq<Note>)
    ensures Trim(search) == "" ==> r == notes
    ensures Trim(search) != "" ==> forall n :: n in r <==> n in notes && Matches(n, Lower(search))
  {
    BlankIffTrimEmpty(search);
    if IsBlank(search) then notes else Filter(notes, Lower(search))
  }

  /** Lower-casing touches only letters, so it never changes whether a term is blank. */
  lemma LowerKeepsBlankness(s: string)
    ensures IsBlank(Lower(s)) == IsBlank(s)
  {
  }

  /** Matching ignores ASCII case: two terms that lower-case alike show the same notes. */
  lemma ProjectIgnoresCase(notes: seq<Note>, a: string, b: string)
    requires Lower(a) == Lower(b)
    ensures Project(notes, a) == Project(notes, b)
  {
    LowerKeepsBlankness(a);
    LowerKeepsBlankness(b);
  }

  /** The projection distributes over concatenation, so the shown list keeps the notes' order. */
  lemma ProjectAppend(a: seq<Note>, b: seq<Note>, search: string)
    ensures Project(a + b, search) == Project(a, search) + Project(b, search)
  {
    if !IsBlank(search) {
      FilterAppend(a, b, Lower(search));
    }
  }

  /**
   * The filter commutes with concatenation; with `FilterOne` this fixes the
   * result completely: it is the order-preserving subsequence of matching notes.
   */
  lemma {:induction false} FilterAppend(a: seq<Note>, b: seq<Note>, t: string)
    ensures Filter(a + b, t) == Filter(a, t) + Filter(b, t)
  {
    if a == [] {
      assert a + b == b;
    } else {
      assert (a + b)[0] == a[0];
      assert (a + b)[1..] == a[1..] + b;
      FilterAppend(a[1..], b, t);
    }
  }

  /** A single note passes the filter exactly when it matches. */
  lemma FilterOne(n: Note, t: string)
    ensures Filter([n], t) == if Matches(n, t) then [n] else []
  {
  }

  /** The filter keeps a list unchanged exactly when every note of it matches. */
  lemma {:induction false} FilterKeepsAllIff(notes: seq<Note>, t: string)
    ensures Filter(notes, t) == notes <==> forall i :: 0 <= i < |notes| ==> Matches(notes[i], t)
  {
    if notes != [] {
      FilterKeepsAllIff(notes[1..], t);
      if !Matches(notes[0], t) {
        assert |Filter(notes, t)| < |notes|;
      }
    }
  }

  /** A term that holds a character the text lacks is not included in it. */
  lemma NotIncludedWhenCharMissing(s: string, t: string, k: nat)
    requires k < |t| && t[k] !in s
    ensures !Includes(s, t)
  {
    forall i ensures !OccursAt(s, t, i) {
      if 0 <= i && i + |t| <= |s| {
        assert s[i..i + |t|][k] == s[i + k];
      }
    }
  }

  /** A list of two matching notes passes the filter whole. */
  lemma FilterPair(a: Note, b: Note, t: string)
    requires Matches(a, t) && Matches(b, t)
    ensures Filter([a, b], t) == [a, b]
  {
    assert [a, b][1..] == [b];
    assert Filter([b], t) == [b];
  }

  /** "shop" is not blank and has no capitals, so the filter runs with it as it is. */
  lemma ShopIsPlain()
    ensures !IsBlank("shop") && Lower("shop") == "shop"
  {
    NotBlank("shop", 0);
    LowerNoCapitals("shop");
  }

  /** "Shopping", lower-cased, begins with "shop". */
  lemma TitleMatchesShop(n: Note)
    requires n.title == "Shopping"
    ensures Matches(n, "shop")
  {
    assert Lower(n.title)[0..4] == "shop";
    assert OccursAt(Lower(n.title), "shop", 0);
  }

  /** "deploy SHOPPING bug", lower-cased, holds "shop" at position 7. */
  lemma ContentMatchesShop(n: Note)
    requires n.content == "deploy SHOPPING bug"
    ensures Matches(n, "shop")
  {
    assert Lower(n.content)[7..11] == "shop";
    assert OccursAt(Lower(n.content), "shop", 7);
  }

  /**
   * The term is lower-cased, so matching ignores ASCII case, and either field
   * may match: "shop" finds the first note by its title and the second by its
   * content.
   */
  lemma ProjectMatchesTitleOrContent(shopping: Note, work: Note)
    requires shopping.title == "Shopping" && shopping.content == "milk"
    requires work.title == "Work" && work.content == "deploy SHOPPING bug"
    ensures Project([shopping, work], "shop") == [shopping, work]
  {
    ShopIsPlain();
    TitleMatchesShop(shopping);
    ContentMatchesShop(work);
    FilterPair(shopping, work, "shop");
  }

  /** " milk" is not blank and has no capitals. */
  lemma SpaceMilkIsPlain()
    ensures !IsBlank(" milk") && Lower(" milk") == " milk"
  {
    NotBlank(" milk", 1);
    LowerNoCapitals(" milk");
  }

  /** Lower-casing never introduces a space. */
  lemma LowerKeepsSpaceOut(s: string)
    requires ' ' !in s
    ensures ' ' !in Lower(s)
  {
  }

  /** Neither "Shopping" nor "milk" holds a space, so neither includes " milk". */
  lemma MilkNoteMissesSpaceMilk(n: Note)
    requires n.title == "Shopping" && n.content == "milk"
    ensures !Matches(n, " milk")
  {
    LowerKeepsSpaceOut(n.title);
    LowerKeepsSpaceOut(n.content);
    NotIncludedWhenCharMissing(Lower(n.title), " milk", 0);
    NotIncludedWhenCharMissing(Lower(n.content), " milk", 0);
  }

  /** The term is not trimmed: " milk" does not find a note whose title is "Shopping" and content "milk". */
  lemma ProjectTermNotTrimmed(shopping: Note)
    requires shopping.title == "Shopping" && shopping.content == "milk"
    ensures Project([shopping], " milk") == []
  {
    SpaceMilkIsPlain();
    MilkNoteMissesSpaceMilk(shopping);
  }
}
