/**
 * The string primitives the notes client relies on: `String.prototype.trim`,
 * a lower-casing function and `String.prototype.includes`, over `seq<char>`.
 */
module Text {
  import opened Wrappers

  /** JavaScript truthiness of an optional string: present and not empty. */
  predicate Truthy(s: Option<string>) {
    s.Some? && s.value != ""
  }

  /**
   * The characters `trim()` removes: ECMAScript's WhiteSpace and
   * LineTerminator productions (tab, line feed, vertical tab, form feed,
   * carriage return, space, no-break space, the Unicode space separators,
   * line and paragraph separators and the byte-order mark).
   */
  predicate IsWhitespace(c: char) {
    || c == '\t' || c == '\n' || c == '\U{B}' || c == '\U{C}' || c == '\r'
    || c == ' ' || c == '\U{A0}' || c == '\U{1680}'
    || ('\U{2000}' <= c <= '\U{200A}')
    || c == '\U{2028}' || c == '\U{2029}' || c == '\U{202F}' || c == '\U{205F}'
    || c == '\U{3000}' || c == '\U{FEFF}'
  }

  /** Every character of `s` is whitespace: `!s.trim()` holds (see `BlankIffTrimEmpty`). */
  predicate IsBlank(s: string) {
    forall i :: 0 <= i < |s| ==> IsWhitespace(s[i])
  }

  /** Where the leading whitespace of `s[i..]` ends: the first non-blank position from `i`, or `|s|`. */
  function SkipLeading(s: string, i: nat): (k: nat)
    requires i <= |s|
    decreases |s| - i
    ensures i <= k <= |s|
    ensures forall m :: i <= m < k ==> IsWhitespace(s[m])
    ensures k < |s| ==> !IsWhitespace(s[k])
  {
    if i < |s| && IsWhitespace(s[i]) then SkipLeading(s, i + 1) else i
  }

  /** Where the trailing whitespace of `s[lo..j]` starts: just after its last non-blank position, or `lo`. */
  function SkipTrailing(s: string, lo: nat, j: nat): (k: nat)
    requires lo <= j <= |s|
    decreases j
    ensures lo <= k <= j
    ensures forall m :: k <= m < j ==> IsWhitespace(s[m])
    ensures lo < k ==> !IsWhitespace(s[k - 1])
  {
    if lo < j && IsWhitespace(s[j - 1]) then SkipTrailing(s, lo, j - 1) else j
  }

  /** `s.trim()`: `s` without its leading and trailing whitespace. */
  function Trim(s: string): string {
    var i := SkipLeading(s, 0);
    s[i..SkipTrailing(s, i, |s|)]
  }

  /** `s.trim()` is empty exactly when every character of `s` is whitespace. */
  lemma BlankIffTrimEmpty(s: string)
    ensures Trim(s) == "" <==> IsBlank(s)
  {
    var i := SkipLeading(s, 0);
    var j := SkipTrailing(s, i, |s|);
    if Trim(s) == "" {
      assert j == i by { assert |s[i..j]| == 0; }
    }
    if IsBlank(s) {
      assert i == |s|;
    }
  }

  /** A string holding a character that is not whitespace is not blank. */
  lemma NotBlank(s: string, k: nat)
    requires k < |s| && !IsWhitespace(s[k])
    ensures !IsBlank(s)
  {
  }

  /** Every character of `s` before `i` and from `j` on is whitespace. */
  predicate WhitespaceOutside(s: string, i: nat, j: nat)
    requires i <= j <= |s|
  {
    && (forall k :: 0 <= k < i ==> IsWhitespace(s[k]))
    && (forall k :: j <= k < |s| ==> IsWhitespace(s[k]))
  }

  /**
   * What `trim()` keeps is a contiguous piece of the input, all it drops is
   * whitespace, and what it keeps neither starts nor ends with whitespace.
   */
  lemma TrimIsSlice(s: string)
    ensures exists i: nat, j: nat :: i <= j <= |s| && Trim(s) == s[i..j] && WhitespaceOutside(s, i, j)
    ensures Trim(s) != "" ==> !IsWhitespace(Trim(s)[0]) && !IsWhitespace(Trim(s)[|Trim(s)| - 1])
  {
    var i := SkipLeading(s, 0);
    var j := SkipTrailing(s, i, |s|);
    assert WhitespaceOutside(s, i, j);
  }

  /** Trimming a trimmed string changes nothing. */
  lemma TrimIdempotent(s: string)
    ensures Trim(Trim(s)) == Trim(s)
  {
    var r := Trim(s);
    TrimIsSlice(s);
    if r != "" {
      assert SkipLeading(r, 0) == 0;
      assert SkipTrailing(r, 0, |r|) == |r|;
      assert r[0..|r|] == r;
    }
  }

  /** ASCII upper-case letters to lower case; every other character is left as it is. */
  function LowerChar(c: char): char {
    if 'A' <= c <= 'Z' then (c as int + 32) as char else c
  }

  /** `s.toLowerCase()`, restricted to the ASCII letters. */
  function Lower(s: string): (r: string)
    ensures |r| == |s|
    ensures forall i :: 0 <= i < |s| ==> r[i] == LowerChar(s[i])
  {
    seq(|s|, i requires 0 <= i < |s| => LowerChar(s[i]))
  }

  /** Lower-casing a lower-cased string changes nothing. */
  lemma LowerIdempotent(s: string)
    ensures Lower(Lower(s)) == Lower(s)
  {
  }

  /** Lower-casing leaves a string without ASCII capitals unchanged. */
  lemma LowerNoCapitals(s: string)
    requires forall i :: 0 <= i < |s| ==> !('A' <= s[i] <= 'Z')
    ensures Lower(s) == s
  {
  }

  /** `t` sits in `s` starting at position `i`. */
  predicate OccursAt(s: string, t: string, i: int) {
    0 <= i && i + |t| <= |s| && s[i..i + |t|] == t
  }

  /** `s.includes(t)`: is `t` a substring of `s`? */
  function Includes(s: string, t: string): (b: bool)
    decreases |s|
    ensures b <==> exists i :: OccursAt(s, t, i)
  {
    if |t| > |s| then
      false
    else if s[..|t|] == t then
      assert OccursAt(s, t, 0);
      true
    else
      var b := Includes(s[1..], t);
      if b then
        var i :| OccursAt(s[1..], t, i);
        assert s[i + 1..i + 1 + |t|] == s[1..][i..i + |t|];
        assert OccursAt(s, t, i + 1);
        b
      else
        forall i | 1 <= i && i + |t| <= |s| ensures !OccursAt(s, t, i) {
          var shifted, here := s[1..][i - 1..i - 1 + |t|], s[i..i + |t|];
          forall k | 0 <= k < |t| ensures shifted[k] == here[k] {
            assert s[1..][i - 1 + k] == s[i + k];
          }
          assert shifted == here;
          assert !OccursAt(s[1..], t, i - 1);
        }
        b
  }
}
