/** String helpers the organizer relies on: the standard `trim` applied to a new
    note's text before it is stored, and the truncation of long note texts when a
    sticky is drawn on the quadrant map. */
module Text {

  /** The characters `String.prototype.trim` strips (ECMAScript WhiteSpace and
      LineTerminator): tab, vertical tab, form feed, space, no-break space, byte
      order mark, the space separators of category Zs, and the four line
      terminators. */
  predicate IsWhitespace(c: char) {
    || c == '\t' || c == '\U{000B}' || c == '\U{000C}' || c == ' '
    || c == '\U{00A0}' || c == '\U{FEFF}' || c == '\U{1680}'
    || ('\U{2000}' <= c <= '\U{200A}')
    || c == '\U{202F}' || c == '\U{205F}' || c == '\U{3000}'
    || c == '\n' || c == '\r' || c == '\U{2028}' || c == '\U{2029}'
  }

  /** The 25 characters of the ECMAScript WhiteSpace and LineTerminator
      productions, written out one by one. */
  const WhitespaceChars: set<char> := {
    '\t', '\U{000B}', '\U{000C}', ' ', '\U{00A0}', '\U{FEFF}', '\U{1680}',
    '\U{2000}', '\U{2001}', '\U{2002}', '\U{2003}', '\U{2004}', '\U{2005}',
    '\U{2006}', '\U{2007}', '\U{2008}', '\U{2009}', '\U{200A}',
    '\U{202F}', '\U{205F}', '\U{3000}',
    '\n', '\r', '\U{2028}', '\U{2029}'
  }

  /** `IsWhitespace` holds of exactly the 25 characters listed. */
  lemma WhitespaceListed(c: char)
    ensures IsWhitespace(c) <==> c in WhitespaceChars
  {
  }

  /** A string made of whitespace only (the empty string included). */
  predicate IsBlank(s: string) {
    forall i :: 0 <= i < |s| ==> IsWhitespace(s[i])
  }

  /** Drops the leading whitespace: the result is the suffix of `s` that starts at
      its first non-whitespace character. */
  function TrimStart(s: string): (r: string)
    ensures |r| <= |s| && r == s[|s| - |r|..]
    ensures forall i :: 0 <= i < |s| - |r| ==> IsWhitespace(s[i])
    ensures r != [] ==> !IsWhitespace(r[0])
    decreases |s|
  {
    if s != [] && IsWhitespace(s[0]) then TrimStart(s[1..]) else s
  }

  /** Drops the trailing whitespace: the result is the prefix of `s` that ends at
      its last non-whitespace character. */
  function TrimEnd(s: string): (r: string)
    ensures |r| <= |s| && r == s[..|r|]
    ensures forall i :: |r| <= i < |s| ==> IsWhitespace(s[i])
    ensures r != [] ==> !IsWhitespace(r[|r| - 1])
    decreases |s|
  {
    if s != [] && IsWhitespace(s[|s| - 1]) then TrimEnd(s[..|s| - 1]) else s
  }

  /** The standard `trim`: leading and trailing whitespace removed. The result is
      no longer than the input and a non-empty result starts and ends with a
      non-whitespace character. */
  function Trim(s: string): (r: string)
    ensures |r| <= |s|
    ensures r != [] ==> !IsWhitespace(r[0]) && !IsWhitespace(r[|r| - 1])
  {
    var t := TrimStart(s);
    var r := TrimEnd(t);
    assert r != [] ==> r[0] == t[0];
    r
  }

  /** `Trim(s)` is the slice of `s` between its leading and its trailing run of
      whitespace. */
  lemma TrimIsSlice(s: string)
    ensures |s| - |TrimStart(s)| + |Trim(s)| <= |s|
    ensures Trim(s) == s[|s| - |TrimStart(s)|..|s| - |TrimStart(s)| + |Trim(s)|]
    ensures forall k :: 0 <= k < |s| - |TrimStart(s)| ==> IsWhitespace(s[k])
    ensures forall k :: |s| - |TrimStart(s)| + |Trim(s)| <= k < |s| ==> IsWhitespace(s[k])
  {
  }

  /** The input box's `newNote.trim()` is falsy exactly when the input is blank. */
  lemma TrimEmptyIffBlank(s: string)
    ensures Trim(s) == [] <==> IsBlank(s)
  {
  }

  /** Trimming twice is trimming once. */
  lemma TrimIdempotent(s: string)
    ensures Trim(Trim(s)) == Trim(s)
  {
    var r := Trim(s);
    TrimIsSlice(s);
    if r != [] {
      assert TrimStart(r) == r;
      assert TrimEnd(r) == r;
    } else {
      assert TrimStart(r) == r;
    }
  }

  /** Longest text drawn unshortened on a sticky. */
  const MaxLabelLength := 20
  /** Characters kept in front of the ellipsis when a text is shortened. */
  const KeptLength := 17
  const Ellipsis := "..."

  /** The text drawn on a sticky: a text longer than 20 characters is cut to its
      first 17, followed by an ellipsis of three dots; a shorter one is drawn as is. */
  function Truncate(text: string): (r: string)
    ensures |r| <= MaxLabelLength
    ensures |text| <= MaxLabelLength ==> r == text
    ensures |text| > MaxLabelLength ==>
      |r| == MaxLabelLength && r[..KeptLength] == text[..KeptLength] && r[KeptLength..] == Ellipsis
  {
    if |text| > MaxLabelLength then text[..KeptLength] + Ellipsis else text
  }
}
