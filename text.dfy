/**
  String helpers shared by the front end and the back end: the whitespace
  classes of JavaScript's `String.prototype.trim` and Python's `str.strip`,
  trimming, ASCII lower-casing and substring search.
 */
module Text {

  /** WhiteSpace or LineTerminator in ECMAScript: what `trim()` removes. */
  predicate IsJsSpace(c: char) {
    c == '\t' || c == '\n' || c == '\U{000B}' || c == '\U{000C}' || c == '\r' || c == ' '
    || c == '\U{00A0}' || c == '\U{1680}' || ('\U{2000}' <= c <= '\U{200A}')
    || c == '\U{2028}' || c == '\U{2029}' || c == '\U{202F}' || c == '\U{205F}'
    || c == '\U{3000}' || c == '\U{FEFF}'
  }

  /** Python's `str.isspace` for one character: what `strip()` removes. */
  predicate IsPySpace(c: char) {
    ('\t' <= c <= '\r') || ('\U{001C}' <= c <= '\U{001F}') || c == ' '
    || c == '\U{0085}' || c == '\U{00A0}' || c == '\U{1680}' || ('\U{2000}' <= c <= '\U{200A}')
    || c == '\U{2028}' || c == '\U{2029}' || c == '\U{202F}' || c == '\U{205F}' || c == '\U{3000}'
  }

  /** Drops the leading characters that satisfy `space`. */
  function TrimStart(s: string, space: char -> bool): (r: string)
    ensures |r| <= |s| && r == s[|s| - |r|..]
    ensures r != [] ==> !space(r[0])
    ensures forall i :: 0 <= i < |s| - |r| ==> space(s[i])
  {
    if s != [] && space(s[0]) then TrimStart(s[1..], space) else s
  }

  /** Drops the trailing characters that satisfy `space`. */
  function TrimEnd(s: string, space: char -> bool): (r: string)
    ensures |r| <= |s| && r == s[..|r|]
    ensures r != [] ==> !space(r[|r| - 1])
    ensures forall i :: |r| <= i < |s| ==> space(s[i])
  {
    if s != [] && space(s[|s| - 1]) then TrimEnd(s[..|s| - 1], space) else s
  }

  function Trim(s: string, space: char -> bool): string {
    TrimEnd(TrimStart(s, space), space)
  }

  /** A trimmed string is empty exactly when every character of the original is a space. */
  lemma TrimEmptyIffAllSpace(s: string, space: char -> bool)
    ensures Trim(s, space) == [] <==> forall i :: 0 <= i < |s| ==> space(s[i])
  {
    var t := TrimStart(s, space);
    if Trim(s, space) == [] {
      forall i | 0 <= i < |s| ensures space(s[i]) {
        if i >= |s| - |t| {
          assert s[i] == t[i - (|s| - |t|)];
        }
      }
    }
  }

  /** JavaScript's `!s.trim()`: the input holds nothing but whitespace. */
  predicate JsBlank(s: string) {
    forall i :: 0 <= i < |s| ==> IsJsSpace(s[i])
  }

  /** Python's `not s.strip()`: the text holds nothing but whitespace. */
  predicate PyBlank(s: string) {
    forall i :: 0 <= i < |s| ==> IsPySpace(s[i])
  }

  /** Blank in JavaScript's sense is exactly `trim()` giving the empty string. */
  lemma JsBlankIsEmptyTrim(s: string)
    ensures JsBlank(s) <==> Trim(s, IsJsSpace) == []
  {
    TrimEmptyIffAllSpace(s, IsJsSpace);
  }

  /** Blank in Python's sense is exactly `strip()` giving the empty string. */
  lemma PyBlankIsEmptyStrip(s: string)
    ensures PyBlank(s) <==> Trim(s, IsPySpace) == []
  {
    TrimEmptyIffAllSpace(s, IsPySpace);
  }

  /** Python's `str.lower()` on ASCII letters; other characters are kept. */
  function LowerChar(c: char): char {
    if 'A' <= c <= 'Z' then (c as int + 32) as char else c
  }

  function Lower(s: string): (r: string)
    ensures |r| == |s| && forall i :: 0 <= i < |s| ==> r[i] == LowerChar(s[i])
  {
    if s == [] then [] else [LowerChar(s[0])] + Lower(s[1..])
  }

  /** `sub` occurs in `s` starting at index `i`. */
  predicate MatchAt(s: string, sub: string, i: int) {
    0 <= i <= |s| - |sub| && s[i..i + |sub|] == sub
  }

  /** Python's `sub in s`. */
  predicate Contains(s: string, sub: string) {
    exists i :: 0 <= i <= |s| - |sub| && MatchAt(s, sub, i)
  }

  /** Lower-casing the haystack and the needle keeps a match a match. */
  lemma {:induction false} LowerKeepsContains(s: string, sub: string)
    requires Contains(s, sub)
    ensures Contains(Lower(s), Lower(sub))
  {
    var i :| 0 <= i <= |s| - |sub| && MatchAt(s, sub, i);
    assert s[i..i + |sub|] == sub;
    assert Lower(s)[i..i + |sub|] == Lower(sub);
    assert MatchAt(Lower(s), Lower(sub), i);
  }

  /** Lower-casing twice is lower-casing once. */
  lemma LowerIdempotent(s: string)
    ensures Lower(Lower(s)) == Lower(s)
  {
  }
}
