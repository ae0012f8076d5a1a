/**
 * The string primitives the heuristics are built from, stated over `seq<char>`:
 * ASCII lower-casing, `String.prototype.includes`, the regular-expression word
 * boundary `\b` and the whitespace class `\s`.
 */
module Text {

  /** ASCII lower-casing of one character (`toLowerCase` restricted to ASCII). */
  function LowerChar(c: char): (l: char)
  {
    if 'A' <= c <= 'Z' then (c as int - 'A' as int + 'a' as int) as char else c
  }

  /** ASCII lower-casing of a string, character by character. */
  function Lower(s: string): (l: string)
  {
    seq(|s|, i requires 0 <= i < |s| => LowerChar(s[i]))
  }

  /** Lower-casing leaves a string without upper-case ASCII letters unchanged. */
  lemma LowerKeepsLowerCase(s: string)
    requires forall i | 0 <= i < |s| :: !('A' <= s[i] <= 'Z')
    ensures Lower(s) == s
  {
  }

  /** `p` occurs in `s` starting at index `i`. */
  predicate MatchesAt(s: string, p: string, i: int)
  {
    0 <= i && i + |p| <= |s| && s[i..i + |p|] == p
  }

  /** `s.includes(p)`: some index of `s` starts an occurrence of `p`. */
  predicate Includes(s: string, p: string)
  {
    exists i | 0 <= i <= |s| - |p| :: MatchesAt(s, p, i)
  }

  /** Case-insensitive containment, as `s.toLowerCase().includes(p.toLowerCase())` or `/p/i.test(s)`. */
  predicate IncludesIgnoringCase(s: string, p: string)
  {
    Includes(Lower(s), Lower(p))
  }

  /** Characters of the regular-expression class `\w`. */
  predicate IsWordChar(c: char)
  {
    'a' <= c <= 'z' || 'A' <= c <= 'Z' || '0' <= c <= '9' || c == '_'
  }

  predicate IsDigit(c: char)
  {
    '0' <= c <= '9'
  }

  /** Index `i` of `s` holds a `\w` character; positions outside `s` do not. */
  predicate WordCharAt(s: string, i: int)
  {
    0 <= i < |s| && IsWordChar(s[i])
  }

  /** `\b` holds at position `i`: exactly one of the neighbouring characters is a word character. */
  predicate BoundaryAt(s: string, i: int)
  {
    WordCharAt(s, i - 1) != WordCharAt(s, i)
  }

  /** `/\bp\b/i` matches `s` at index `i`. */
  predicate WholeWordAt(s: string, p: string, i: int)
  {
    MatchesAt(Lower(s), Lower(p), i) && BoundaryAt(s, i) && BoundaryAt(s, i + |p|)
  }

  /** `/\bp\b/i.test(s)`, with `p` read as literal text. */
  predicate WholeWordIn(s: string, p: string)
  {
    exists i | 0 <= i <= |s| - |p| :: WholeWordAt(s, p, i)
  }

  /** Characters of the JavaScript regular-expression class `\s`. */
  predicate IsSpace(c: char)
  {
    c == ' ' || c == '\t' || c == '\n' || c == '\r' || c == '\U{0B}' || c == '\U{0C}'
    || c == '\U{A0}' || c == '\U{1680}' || '\U{2000}' <= c <= '\U{200A}'
    || c == '\U{2028}' || c == '\U{2029}' || c == '\U{202F}' || c == '\U{205F}'
    || c == '\U{3000}' || c == '\U{FEFF}'
  }

  /** Every character of `s[from..to]` is whitespace. */
  predicate AllSpace(s: string, from: int, to: int)
  {
    0 <= from <= to <= |s| && forall j | from <= j < to :: IsSpace(s[j])
  }

  /** `/first\s+second/` matches `s` at index `i`. */
  predicate PhraseAt(s: string, first: string, second: string, i: int)
  {
    MatchesAt(s, first, i)
    && exists e | i + |first| < e <= |s| - |second| :: AllSpace(s, i + |first|, e) && MatchesAt(s, second, e)
  }

  /** `/first\s+second/.test(s)`. */
  predicate PhraseIn(s: string, first: string, second: string)
  {
    exists i | 0 <= i <= |s| :: PhraseAt(s, first, second, i)
  }
}
