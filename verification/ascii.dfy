/**
 * Case folding as the classifiers use it: `status.toLowerCase()` restricted to
 * ASCII. Only the letters 'A'..'Z' change; every other character, including
 * non-ASCII letters, is left as it is.
 */
module Ascii {

  predicate IsUpper(c: char) {
    'A' <= c <= 'Z'
  }

  /** A string with no upper-case ASCII letter in it. */
  predicate IsLowerCase(s: string) {
    forall i :: 0 <= i < |s| ==> !IsUpper(s[i])
  }

  /** One character of `toLowerCase`. */
  function Lower(c: char): (r: char)
    ensures !IsUpper(r)
    ensures r == c <==> !IsUpper(c)
    ensures IsUpper(c) ==> 'a' <= r <= 'z' && r as int - 'a' as int == c as int - 'A' as int
  {
    if IsUpper(c) then (c as int + ('a' as int - 'A' as int)) as char else c
  }

  /** `toLowerCase`: a character-by-character map that keeps the length. */
  function ToLower(s: string): (r: string)
    ensures |r| == |s|
    ensures forall i :: 0 <= i < |s| ==> r[i] == Lower(s[i])
    ensures IsLowerCase(r)
  {
    if s == [] then [] else [Lower(s[0])] + ToLower(s[1..])
  }

  /**
   * Reference definition of a case-insensitive match against a lower-case
   * word: `s` spells `word` letter by letter, each letter either as written
   * in the word or as its upper-case form.
   */
  predicate MatchesIgnoringCase(s: string, word: string) {
    && |s| == |word|
    && forall i :: 0 <= i < |s| ==> s[i] == word[i] || (IsUpper(s[i]) && Lower(s[i]) == word[i])
  }

  /** Lower-casing and comparing is the same as matching ignoring case. */
  lemma ToLowerMatches(s: string, word: string)
    requires IsLowerCase(word)
    ensures ToLower(s) == word <==> MatchesIgnoringCase(s, word)
  {
    if MatchesIgnoringCase(s, word) {
      forall i | 0 <= i < |s| ensures ToLower(s)[i] == word[i] {
        assert !IsUpper(word[i]);
      }
    }
  }

  /** Lower-casing twice is lower-casing once. */
  lemma ToLowerIdempotent(s: string)
    ensures ToLower(ToLower(s)) == ToLower(s)
  {
  }
}
