/** The three `java.lang.String` operations the configuration code relies on:
    `isBlank`, `trim` and `toLowerCase`. They disagree on what counts as
    space: `isBlank` asks `Character.isWhitespace` of every character, while
    `trim` strips every character whose code is at most U+0020. */
module Text {

  /** `Character.isWhitespace` for a character of the Basic Multilingual
      Plane: the ASCII controls TAB..CR and FS..US, SPACE, and the Unicode
      space, line and paragraph separators other than the no-break spaces. */
  function IsWhitespace(c: char): (b: bool)
    // among the characters `trim` removes, only the controls outside
    // TAB..CR and FS..US are not whitespace
    ensures c <= ' ' ==> (b <==> !(c < '\t' || ('\r' < c < '\U{1C}')))
    // above SPACE, only non-ASCII separators count, and never a no-break space
    ensures b && c > ' ' ==> c >= '\U{1680}'
    ensures b ==> c != '\U{A0}' && c != '\U{2007}' && c != '\U{202F}'
  {
    || ('\t' <= c <= '\r')
    || ('\U{1C}' <= c <= ' ')
    || c == '\U{1680}'
    || ('\U{2000}' <= c <= '\U{2006}')
    || ('\U{2008}' <= c <= '\U{200A}')
    || c == '\U{2028}' || c == '\U{2029}'
    || c == '\U{205F}' || c == '\U{3000}'
  }

  /** The scan behind `isBlank`: from `i`, the index of the first
      non-whitespace character, or `|s|`. */
  function NonWhitespaceIndex(s: string, i: nat): (k: nat)
    requires i <= |s|
    ensures i <= k <= |s|
    ensures forall j :: i <= j < k ==> IsWhitespace(s[j])
    ensures k < |s| ==> !IsWhitespace(s[k])
    decreases |s| - i
  {
    if i < |s| && IsWhitespace(s[i]) then NonWhitespaceIndex(s, i + 1) else i
  }

  /** `String.isBlank`: the scan finds no non-whitespace character, so the
      string is empty or whitespace only. */
  function IsBlank(s: string): (b: bool)
    ensures b <==> forall i :: 0 <= i < |s| ==> IsWhitespace(s[i])
  {
    NonWhitespaceIndex(s, 0) == |s|
  }

  /** The characters `String.trim` removes from either end. */
  predicate IsTrimmed(c: char) {
    c <= ' '
  }

  /** `trim`'s first loop: from `i`, skip trimmable characters; the index
      of the first one kept, or `|s|`. */
  function TrimStartIndex(s: string, i: nat): (st: nat)
    requires i <= |s|
    ensures i <= st <= |s|
    ensures forall j :: i <= j < st ==> IsTrimmed(s[j])
    ensures st < |s| ==> !IsTrimmed(s[st])
    decreases |s| - i
  {
    if i < |s| && IsTrimmed(s[i]) then TrimStartIndex(s, i + 1) else i
  }

  /** `trim`'s second loop: shrink the end `len` past trimmable characters,
      never below `st`. */
  function TrimEndIndex(s: string, st: nat, len: nat): (e: nat)
    requires st <= len <= |s|
    ensures st <= e <= len
    ensures forall j :: e <= j < len ==> IsTrimmed(s[j])
    ensures e > st ==> !IsTrimmed(s[e - 1])
    decreases len
  {
    if st < len && IsTrimmed(s[len - 1]) then TrimEndIndex(s, st, len - 1) else len
  }

  /** `String.trim`: `s[st..e]`, where every character cut away on either
      side is at most U+0020 and the kept part neither starts nor ends with
      one. */
  function Trim(s: string): (r: string)
    ensures var st := TrimStartIndex(s, 0);
      var e := TrimEndIndex(s, st, |s|);
      && r == s[st..e]
      && (forall j :: 0 <= j < st ==> IsTrimmed(s[j]))
      && (forall j :: e <= j < |s| ==> IsTrimmed(s[j]))
    ensures |r| > 0 ==> !IsTrimmed(r[0]) && !IsTrimmed(r[|r| - 1])
  {
    var st := TrimStartIndex(s, 0);
    s[st..TrimEndIndex(s, st, |s|)]
  }

  /** Every character is one `trim` removes. */
  predicate AllTrimmed(s: string) {
    forall i :: 0 <= i < |s| ==> IsTrimmed(s[i])
  }

  /** `trim` yields the empty string exactly for text made of trimmable
      characters only. */
  lemma TrimEmpty(s: string)
    ensures |Trim(s)| == 0 <==> AllTrimmed(s)
  {
    var st := TrimStartIndex(s, 0);
    var e := TrimEndIndex(s, st, |s|);
    if |Trim(s)| > 0 {
      assert !IsTrimmed(s[st]);
    }
  }

  /** Locale-independent ASCII lower-casing of one character. */
  function LowerChar(c: char): char {
    if 'A' <= c <= 'Z' then (c as int + 32) as char else c
  }

  /** `String.toLowerCase`, restricted to ASCII letters: no upper-case
      letter survives, and every other character stays where it was. */
  function ToLower(s: string): (r: string)
    ensures |r| == |s|
    ensures forall i :: 0 <= i < |s| ==> r[i] == LowerChar(s[i])
    ensures forall i :: 0 <= i < |r| ==> !('A' <= r[i] <= 'Z')
    ensures forall i :: 0 <= i < |s| && !('A' <= s[i] <= 'Z') ==> r[i] == s[i]
  {
    seq(|s|, i requires 0 <= i < |s| => LowerChar(s[i]))
  }

  /** Lower-casing twice is lower-casing once. */
  lemma ToLowerIdempotent(s: string)
    ensures ToLower(ToLower(s)) == ToLower(s)
  {
  }

  /** A string that does not start or end with a trimmable character is
      left alone by `trim`. */
  lemma TrimUnpadded(s: string)
    requires |s| > 0 ==> !IsTrimmed(s[0]) && !IsTrimmed(s[|s| - 1])
    ensures Trim(s) == s
  {
  }

  /** Trimming twice is trimming once. */
  lemma TrimIdempotent(s: string)
    ensures Trim(Trim(s)) == Trim(s)
  {
    TrimUnpadded(Trim(s));
  }

  /** Every blank character is one `trim` removes or a non-ASCII separator,
      so a blank string stays blank once trimmed. */
  lemma TrimKeepsBlank(s: string)
    requires IsBlank(s)
    ensures IsBlank(Trim(s))
  {
    var r := Trim(s);
    var st := TrimStartIndex(s, 0);
    forall i | 0 <= i < |r|
      ensures IsWhitespace(r[i])
    {
      assert r[i] == s[st + i];
    }
  }

  /** When every trimmable character of `s` is whitespace (no NUL or other
      low control characters), trimming preserves blankness both ways. */
  lemma TrimPreservesBlank(s: string)
    requires forall i :: 0 <= i < |s| && IsTrimmed(s[i]) ==> IsWhitespace(s[i])
    ensures IsBlank(Trim(s)) <==> IsBlank(s)
  {
    if IsBlank(s) {
      TrimKeepsBlank(s);
    } else {
      var k :| 0 <= k < |s| && !IsWhitespace(s[k]);
      var st := TrimStartIndex(s, 0);
      assert Trim(s)[k - st] == s[k];
    }
  }

  /** ASCII lower-casing leaves every non-letter in place, so a string
      that lower-cases to letters only contains no trimmable or blank
      character. */
  lemma LowerLettersUnpadded(s: string)
    requires forall i :: 0 <= i < |ToLower(s)| ==> 'a' <= ToLower(s)[i] <= 'z'
    ensures forall i :: 0 <= i < |s| ==> !IsTrimmed(s[i]) && !IsWhitespace(s[i])
  {
    forall i | 0 <= i < |s|
      ensures !IsTrimmed(s[i]) && !IsWhitespace(s[i])
    {
      assert 'a' <= ToLower(s)[i] <= 'z';
    }
  }
}
