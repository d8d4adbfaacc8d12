/** ASCII letter case, as `eq_ignore_ascii_case` and `to_ascii_lowercase` see it. */
module Ascii {

  function Lower(c: char): char {
    if 'A' <= c <= 'Z' then (c as int + 32) as char else c
  }

  /** `s` in lower case is `word`. */
  predicate LowersTo(s: string, word: string) {
    |s| == |word| && forall i :: 0 <= i < |s| ==> Lower(s[i]) == word[i]
  }

  predicate SameIgnoringCase(a: string, b: string) {
    |a| == |b| && forall i :: 0 <= i < |a| ==> Lower(a[i]) == Lower(b[i])
  }

  /** `c` is the capital of the letter `d`: its code is 32 less. */
  predicate IsCapitalOf(c: char, d: char) {
    'a' <= d <= 'z' && c as int + 32 == d as int
  }

  /** Each character of `s` is that of `word`, or its capital. */
  predicate SpelledAs(s: string, word: string) {
    |s| == |word| && forall i :: 0 <= i < |s| ==> s[i] == word[i] || IsCapitalOf(s[i], word[i])
  }

  /** Each character of `a` is that of `b`, or one is the capital of the other. */
  predicate SameLetters(a: string, b: string) {
    |a| == |b| && forall i :: 0 <= i < |a| ==> a[i] == b[i] || IsCapitalOf(a[i], b[i]) || IsCapitalOf(b[i], a[i])
  }

  lemma SameLettersIgnoringCase(a: string, b: string)
    ensures SameIgnoringCase(a, b) <==> SameLetters(a, b)
  {}

  /** What lowers to a word without capitals is that word, in any letter case. */
  lemma LoweredIsSpelled(s: string, word: string)
    requires forall i :: 0 <= i < |word| ==> !('A' <= word[i] <= 'Z')
    ensures LowersTo(s, word) <==> SpelledAs(s, word)
  {}
}
