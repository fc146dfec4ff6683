/** Character-level helpers: case folding and the whitespace sets the sources trim. */
module Text {

  /** Lower-cases the ASCII letters A-Z and leaves every other character alone. */
  function AsciiLowerChar(c: char): (r: char)
  {
    if 'A' <= c <= 'Z' then (c as int - 'A' as int + 'a' as int) as char else c
  }

  /** Lower-cases every ASCII letter of s, character by character. */
  function AsciiLower(s: string): (r: string)
    ensures |r| == |s|
  {
    if s == [] then [] else AsciiLower(s[..|s| - 1]) + [AsciiLowerChar(s[|s| - 1])]
  }

  /** Each character of the result is the lower-cased character at the same place. */
  lemma {:induction false} AsciiLowerPointwise(s: string)
    ensures forall i :: 0 <= i < |s| ==> AsciiLower(s)[i] == AsciiLowerChar(s[i])
  {
    if s != [] {
      AsciiLowerPointwise(s[..|s| - 1]);
    }
  }

  /** The characters Python's `str.isspace` accepts, which `str.strip()` removes. */
  predicate IsPyWhitespace(c: char)
  {
    ('\t' <= c <= '\r') || ('\U{1c}' <= c <= ' ') || c == '\U{85}' || c == '\U{a0}'
    || c == '\U{1680}' || ('\U{2000}' <= c <= '\U{200a}') || c == '\U{2028}' || c == '\U{2029}'
    || c == '\U{202f}' || c == '\U{205f}' || c == '\U{3000}'
  }

  /** `len(s.strip()) > 0` in Python: s has a character that is not whitespace. */
  predicate PyHasText(s: string)
  {
    exists i :: 0 <= i < |s| && !IsPyWhitespace(s[i])
  }

  /** The characters PHP's `trim` removes by default. */
  predicate IsPhpTrimmed(c: char)
  {
    c == ' ' || c == '\t' || c == '\n' || c == '\r' || c == '\0' || c == '\U{0b}'
  }

  /** `trim(s) === ''` in PHP. */
  predicate PhpTrimsToEmpty(s: string)
  {
    forall i :: 0 <= i < |s| ==> IsPhpTrimmed(s[i])
  }
}
