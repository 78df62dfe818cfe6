/**
 * The two Swift standard-library string services the region code parser
 * relies on, `String.uppercased()` and `String ==`, as far as they can
 * produce or match ASCII letters.
 */
module Strings {

  /**
   * The upper-case form of one character, restricted to the characters
   * whose upper-case form is an ASCII letter: the ASCII lower-case letters,
   * dotless i (U+0131, upper-cases to I) and long s (U+017F, upper-cases
   * to S). Every other character is kept as it is.
   */
  function UppercaseChar(c: char): char
  {
    if 'a' <= c <= 'z' then (c as int - 32) as char
    else if c == '\U{0131}' then 'I'
    else if c == '\U{017F}' then 'S'
    else c
  }

  /** The ASCII lower-case form of an ASCII upper-case letter. */
  function LowercaseAscii(c: char): char
  {
    if 'A' <= c <= 'Z' then (c as int + 32) as char else c
  }

  /**
   * `s.uppercased()`, restricted to the mappings of one character to one
   * character that `UppercaseChar` covers: the modelled upper-casing keeps
   * the length, leaves no ASCII lower-case letter, and keeps ASCII
   * upper-case letters.
   */
  function Uppercased(s: string): (u: string)
    ensures |u| == |s|
    ensures forall i :: 0 <= i < |u| ==> !('a' <= u[i] <= 'z')
    ensures forall i :: 0 <= i < |s| && 'A' <= s[i] <= 'Z' ==> u[i] == s[i]
  {
    seq(|s|, i requires 0 <= i < |s| => UppercaseChar(s[i]))
  }

  /**
   * The canonical decomposition of one character, as far as it can give an
   * ASCII letter: the Kelvin sign (U+212A) is canonically equivalent to K.
   * Every other character is kept as it is.
   */
  function DecomposeChar(c: char): char
  {
    if c == '\U{212A}' then 'K' else c
  }

  /** The canonical decomposition of a string, character by character. */
  function Decomposed(s: string): string
  {
    seq(|s|, i requires 0 <= i < |s| => DecomposeChar(s[i]))
  }

  /**
   * Swift's `==` on strings: the two are canonically equivalent, that is,
   * they have the same canonical decomposition. Equivalent strings have the
   * same length, and without a Kelvin sign in either, equivalence is plain
   * equality.
   */
  predicate CanonicallyEqual(s: string, t: string): (b: bool)
    ensures b ==> |s| == |t|
    ensures (forall i :: 0 <= i < |s| ==> s[i] != '\U{212A}') && (forall i :: 0 <= i < |t| ==> t[i] != '\U{212A}')
      ==> (b <==> s == t)
  {
    assert (forall i :: 0 <= i < |s| ==> s[i] != '\U{212A}') ==> Decomposed(s) == s;
    assert (forall i :: 0 <= i < |t| ==> t[i] != '\U{212A}') ==> Decomposed(t) == t;
    Decomposed(s) == Decomposed(t)
  }

  lemma UppercaseCharIdempotent(c: char)
    ensures UppercaseChar(UppercaseChar(c)) == UppercaseChar(c)
  {
  }

  /** Upper-casing twice is upper-casing once. */
  lemma UppercasedIdempotent(s: string)
    ensures Uppercased(Uppercased(s)) == Uppercased(s)
  {
    forall i | 0 <= i < |s|
      ensures Uppercased(Uppercased(s))[i] == Uppercased(s)[i]
    {
      UppercaseCharIdempotent(s[i]);
    }
  }

  /** Lower-casing an ASCII letter and upper-casing it again gives it back. */
  lemma UppercaseOfLowercase(c: char)
    requires 'A' <= c <= 'Z'
    ensures UppercaseChar(LowercaseAscii(c)) == c
  {
  }
}
