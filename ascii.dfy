/**
 * The two Python string methods the order builder relies on, `str.upper()`
 * and `str.capitalize()`, restricted to ASCII letters: every other character
 * is left as it is.
 */
module Ascii {

  predicate IsLowerLetter(c: char) { 'a' <= c <= 'z' }

  predicate IsUpperLetter(c: char) { 'A' <= c <= 'Z' }

  /** Upper case of one character. */
  function UpperChar(c: char): (u: char)
    ensures !IsLowerLetter(u)
    ensures IsLowerLetter(c) ==> IsUpperLetter(u) && u as int == c as int - 32
    ensures !IsLowerLetter(c) ==> u == c
  {
    if IsLowerLetter(c) then (c as int - 32) as char else c
  }

  /** Lower case of one character. */
  function LowerChar(c: char): (l: char)
    ensures !IsUpperLetter(l)
    ensures IsUpperLetter(c) ==> IsLowerLetter(l) && l as int == c as int + 32
    ensures !IsUpperLetter(c) ==> l == c
  {
    if IsUpperLetter(c) then (c as int + 32) as char else c
  }

  /** `s.upper()`: every character upper-cased, the length unchanged. */
  function Upper(s: string): (r: string)
    ensures |r| == |s|
  {
    seq(|s|, i requires 0 <= i < |s| => UpperChar(s[i]))
  }

  /** `s.lower()`: every character lower-cased, the length unchanged. */
  function Lower(s: string): (r: string)
    ensures |r| == |s|
  {
    seq(|s|, i requires 0 <= i < |s| => LowerChar(s[i]))
  }

  /** `s.capitalize()`: the first character upper-cased, all the others lower-cased. */
  function Capitalize(s: string): (r: string)
    ensures |r| == |s|
    ensures s != [] ==> r[0] == UpperChar(s[0]) && r[1..] == Lower(s[1..])
  {
    if s == [] then [] else [UpperChar(s[0])] + Lower(s[1..])
  }

  /** Upper-casing twice changes nothing more. */
  lemma UpperIdempotent(s: string)
    ensures Upper(Upper(s)) == Upper(s)
  {
  }

  /**
   * `capitalize()` only depends on the letters of its input, not on their
   * case: capitalizing `s` and capitalizing `s.upper()` give the same text.
   */
  lemma CapitalizeOfUpper(s: string)
    ensures Capitalize(Upper(s)) == Capitalize(s)
  {
  }

  /** Two spellings that agree once upper-cased capitalize alike. */
  lemma CapitalizeCaseInsensitive(s: string, t: string)
    requires Upper(s) == Upper(t)
    ensures Capitalize(s) == Capitalize(t)
  {
    CapitalizeOfUpper(s);
    CapitalizeOfUpper(t);
  }

  /** Text with no lower-case letter is its own upper case. */
  lemma UpperOfUpperText(s: string)
    requires forall i :: 0 <= i < |s| ==> !IsLowerLetter(s[i])
    ensures Upper(s) == s
  {
  }
}
