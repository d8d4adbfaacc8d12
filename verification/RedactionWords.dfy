/**
 Whole words. The comment on the names says that only whole words are taken
 out; the search takes out every occurrence. What the comment promises is
 written here as a pass of its own, and the two agree exactly on the texts in
 which every name stands as a word.
 */
module RedactionWords {
  import opened Wrappers
  import opened Ascii
  import opened Redaction

  /** A character that does not end a word. */
  predicate InWord(c: char) {
    'a' <= Lower(c) <= 'z' || '0' <= c <= '9' || c == '_'
  }

  /** What comes before `i` runs on into it; `l` says whether what stands before the text does. */
  predicate JoinedBefore(s: string, i: nat, l: bool)
    requires i <= |s|
  {
    if i == 0 then l else InWord(s[i - 1])
  }

  /** What comes at `j` runs on from what is before it; `r` says whether what stands after the text does. */
  predicate JoinedAfter(s: string, j: nat, r: bool)
    requires j <= |s|
  {
    if j == |s| then r else InWord(s[j])
  }

  /** `name` stands at `i` of `s`, and nothing runs into it or on from it. */
  predicate WordAt(s: string, name: string, i: int, l: bool, r: bool) {
    MatchAt(s, name, i) && !JoinedBefore(s, i, l) && !JoinedAfter(s, i + |name|, r)
  }

  /** Every name of the stack that stands in `s` stands there as a word. */
  ghost predicate OnlyWords(s: string, l: bool, r: bool) {
    forall n, i :: 0 <= n < |STACK_NAMES| && MatchAt(s, STACK_NAMES[n], i) ==> WordAt(s, STACK_NAMES[n], i, l, r)
  }

  /** One pass from left to right that replaces whole words and nothing else. */
  function ReplaceWords(s: string, name: string, l: bool, r: bool): string
    requires name != []
    decreases |s|
  {
    if s == [] then []
    else if WordAt(s, name, 0, l, r) then REDACTED + ReplaceWords(s[|name|..], name, InWord(s[|name| - 1]), r)
    else [s[0]] + ReplaceWords(s[1..], name, InWord(s[0]), r)
  }

  function WordsRedactedBy(raw: string, n: nat): string
    requires n <= |STACK_NAMES|
  {
    if n == 0 then raw
    else
      NamesAreWords(n - 1);
      ReplaceWords(WordsRedactedBy(raw, n - 1), STACK_NAMES[n - 1], false, false)
  }

  /** What redacting whole words would make of a text. */
  function WordsRedacted(raw: string): string {
    WordsRedactedBy(raw, |STACK_NAMES|)
  }

  // -------------------------------------------------------- names among names

  /** The only character of a name that ends a word. */
  lemma Letters(n: nat, k: nat)
    requires n < |STACK_NAMES| && k < |STACK_NAMES[n]|
    ensures InWord(STACK_NAMES[n][k]) || (n == 1 && k == 7)
    ensures Lower(STACK_NAMES[n][k]) == STACK_NAMES[n][k]
  {}

  /** No name ends in the letter before the dot of another, and none begins with the one after it. */
  lemma EndsOfNames(n: nat)
    requires n < |STACK_NAMES|
    ensures STACK_NAMES[n][|STACK_NAMES[n]| - 1] != 'l'
    ensures STACK_NAMES[n][0] == 'r' ==> STACK_NAMES[n][1] == 'u'
  {}

  /** Where one name lies within another, it is that name. */
  lemma Within(m: nat, n: nat, k: nat)
    requires m < |STACK_NAMES| && n < |STACK_NAMES| && k + |STACK_NAMES[n]| <= |STACK_NAMES[m]|
    requires forall i :: 0 <= i < |STACK_NAMES[n]| ==> STACK_NAMES[m][k + i] == STACK_NAMES[n][i]
    ensures m == n && k == 0
  {
    var x, y := STACK_NAMES[m], STACK_NAMES[n];
    assert x[k] == y[0] && x[k + 1] == y[1] && x[k + 2] == y[2] && x[k + 3] == y[3];
    assert |y| > 7 ==> x[k + 7] == y[7];
  }

  lemma Spelled(s: string, n: nat, i: int, k: nat)
    requires n < |STACK_NAMES| && MatchAt(s, STACK_NAMES[n], i) && k < |STACK_NAMES[n]|
    ensures Lower(s[i + k]) == STACK_NAMES[n][k]
    ensures InWord(s[i + k]) || (n == 1 && k == 7)
  {
    var found := s[i..i + |STACK_NAMES[n]|];
    assert found[k] == s[i + k];
    Letters(n, k);
  }

  lemma SpelledOut(s: string, n: nat, i: int)
    requires n < |STACK_NAMES| && MatchAt(s, STACK_NAMES[n], i)
    ensures forall p :: i <= p < i + |STACK_NAMES[n]| ==>
      Lower(s[p]) == STACK_NAMES[n][p - i] && (InWord(s[p]) || (n == 1 && p == i + 7))
  {
    forall p | i <= p < i + |STACK_NAMES[n]|
      ensures Lower(s[p]) == STACK_NAMES[n][p - i] && (InWord(s[p]) || (n == 1 && p == i + 7)) {
      Spelled(s, n, i, p - i);
    }
  }

  lemma NoneRunsInto(s: string, l: bool, r: bool, n: nat, i: int, m: nat, j: int)
    requires n < |STACK_NAMES| && m < |STACK_NAMES|
    requires WordAt(s, STACK_NAMES[n], i, l, r) && MatchAt(s, STACK_NAMES[m], j)
    ensures !(j < i < j + |STACK_NAMES[m]|)
  {
    EndsOfNames(n);
    NamesAreWords(n);
    SpelledOut(s, n, i);
    SpelledOut(s, m, j);
    assert Lower(s[i]) == STACK_NAMES[n][0] && Lower(s[i + 1]) == STACK_NAMES[n][1];
  }

  lemma NoneRunsOn(s: string, l: bool, r: bool, n: nat, i: int, m: nat, j: int)
    requires n < |STACK_NAMES| && m < |STACK_NAMES|
    requires WordAt(s, STACK_NAMES[n], i, l, r) && MatchAt(s, STACK_NAMES[m], j)
    ensures !(i <= j < i + |STACK_NAMES[n]| < j + |STACK_NAMES[m]|)
  {
    EndsOfNames(n);
    NamesAreWords(n);
    SpelledOut(s, n, i);
    SpelledOut(s, m, j);
    assert Lower(s[i + |STACK_NAMES[n]| - 1]) != 'l';
  }

  /** A name that stands as a word lies over no other. */
  lemma WordsLieApart(s: string, l: bool, r: bool, n: nat, i: int, m: nat, j: int)
    requires n < |STACK_NAMES| && m < |STACK_NAMES|
    requires WordAt(s, STACK_NAMES[n], i, l, r) && MatchAt(s, STACK_NAMES[m], j)
    requires j < i + |STACK_NAMES[n]| && i < j + |STACK_NAMES[m]|
    ensures m == n && j == i
  {
    var x, y := STACK_NAMES[n], STACK_NAMES[m];
    NoneRunsInto(s, l, r, n, i, m, j);
    NoneRunsOn(s, l, r, n, i, m, j);
    forall k | 0 <= k < |y| ensures x[j - i + k] == y[k] {
      Spelled(s, m, j, k);
      Spelled(s, n, i, j - i + k);
    }
    Within(n, m, j - i);
  }

  // ---------------------------------------------------------- around a word

  /** Cut out of a text at a place where a word runs, either side has the words it had. */
  lemma WordsBeside(s: string, name: string, l: bool, r: bool, i: nat, j: nat, k: int)
    requires i < j <= |s| && name != [] && InWord(s[i]) && InWord(s[j - 1])
    ensures k + |name| <= i ==>
      && (MatchAt(s[..i], name, k) <==> MatchAt(s, name, k))
      && (WordAt(s[..i], name, k, l, true) <==> WordAt(s, name, k, l, r))
    ensures k >= 0 ==>
      && (MatchAt(s[j..], name, k) <==> MatchAt(s, name, j + k))
      && (WordAt(s[j..], name, k, true, r) <==> WordAt(s, name, j + k, l, r))
  {
    assert s[0..i] == s[..i] && s[j..|s|] == s[j..];
    InPart(s, 0, i, name, k);
    InPart(s, j, |s|, name, k);
  }

  lemma SidesOfWords(s: string, l: bool, r: bool, i: nat, j: nat)
    requires i < j <= |s| && InWord(s[i]) && InWord(s[j - 1]) && OnlyWords(s, l, r)
    ensures OnlyWords(s[..i], l, true) && OnlyWords(s[j..], true, r)
  {
    forall n, k | 0 <= n < |STACK_NAMES| && MatchAt(s[..i], STACK_NAMES[n], k)
      ensures WordAt(s[..i], STACK_NAMES[n], k, l, true) {
      NamesAreWords(n);
      WordsBeside(s, STACK_NAMES[n], l, r, i, j, k);
    }
    forall n, k | 0 <= n < |STACK_NAMES| && MatchAt(s[j..], STACK_NAMES[n], k)
      ensures WordAt(s[j..], STACK_NAMES[n], k, true, r) {
      NamesAreWords(n);
      WordsBeside(s, STACK_NAMES[n], l, r, i, j, k);
    }
  }

  /** What lies over a cut is none but words. */
  ghost predicate CutAtWords(s: string, l: bool, r: bool, i: nat, j: nat) {
    forall n, k :: 0 <= n < |STACK_NAMES| && MatchAt(s, STACK_NAMES[n], k) ==>
      k + |STACK_NAMES[n]| <= i || j <= k || WordAt(s, STACK_NAMES[n], k, l, r)
  }

  /** Then a text has only words exactly when both sides have. */
  lemma OnlyWordsBeside(s: string, l: bool, r: bool, i: nat, j: nat)
    requires i < j <= |s| && InWord(s[i]) && InWord(s[j - 1]) && CutAtWords(s, l, r, i, j)
    ensures OnlyWords(s, l, r) <==> OnlyWords(s[..i], l, true) && OnlyWords(s[j..], true, r)
  {
    if OnlyWords(s, l, r) { SidesOfWords(s, l, r, i, j); }
    if OnlyWords(s[..i], l, true) && OnlyWords(s[j..], true, r) {
      forall n, k | 0 <= n < |STACK_NAMES| && MatchAt(s, STACK_NAMES[n], k) ensures WordAt(s, STACK_NAMES[n], k, l, r) {
        NamesAreWords(n);
        WordsBeside(s, STACK_NAMES[n], l, r, i, j, k);
        WordsBeside(s, STACK_NAMES[n], l, r, i, j, k - j);
      }
    }
  }

  lemma NoWordInFront(s: string, name: string, l: bool, r: bool)
    requires name != [] && s != [] && !WordAt(s, name, 0, l, r)
    ensures ReplaceWords(s, name, l, r) == [s[0]] + ReplaceWords(s[1..], name, InWord(s[0]), r)
  {}

  lemma WordInFront(s: string, name: string, l: bool, r: bool)
    requires name != [] && WordAt(s, name, 0, l, r)
    ensures ReplaceWords(s, name, l, r) == REDACTED + ReplaceWords(s[|name|..], name, InWord(s[|name| - 1]), r)
  {}

  lemma InRest(s: string, name: string, l: bool, r: bool, j: nat)
    requires j <= |s| && name != []
    ensures WordAt(s[j..], name, 0, JoinedBefore(s, j, l), r) <==> WordAt(s, name, j, l, r)
  {
    assert s[j..|s|] == s[j..];
    InPart(s, j, |s|, name, 0);
  }

  lemma OneOver(s: string, at: nat, done: string)
    requires 0 < at <= |s|
    ensures s[at - 1..] != [] && s[at - 1..][0] == s[at - 1] && s[at - 1..][1..] == s[at..]
    ensures s[..at - 1] + ([s[at - 1]] + done) == s[..at] + done
  {}

  /** The pass goes over what no word begins in. */
  lemma {:induction false} SkipTo(s: string, name: string, l: bool, r: bool, at: nat)
    requires name != [] && at <= |s| && forall i :: 0 <= i < at ==> !WordAt(s, name, i, l, r)
    ensures ReplaceWords(s, name, l, r) == s[..at] + ReplaceWords(s[at..], name, JoinedBefore(s, at, l), r)
  {
    if at == 0 {
      assert s[0..] == s;
    } else {
      SkipTo(s, name, l, r, at - 1);
      InRest(s, name, l, r, at - 1);
      OneOver(s, at, ReplaceWords(s[at..], name, JoinedBefore(s, at, l), r));
      NoWordInFront(s[at - 1..], name, JoinedBefore(s, at - 1, l), r);
    }
  }

  /** The pass jumps to the first place the word stands. */
  lemma FirstWordReplaced(s: string, name: string, l: bool, r: bool, at: nat, end: nat)
    requires name != [] && end == at + |name| && WordAt(s, name, at, l, r)
    requires forall i :: 0 <= i < at ==> !WordAt(s, name, i, l, r)
    ensures ReplaceWords(s, name, l, r) == s[..at] + REDACTED + ReplaceWords(s[end..], name, InWord(s[end - 1]), r)
  {
    SkipTo(s, name, l, r, at);
    InRest(s, name, l, r, at);
    WordInFront(s[at..], name, JoinedBefore(s, at, l), r);
    assert s[at..][|name|..] == s[end..] && s[at..][|name| - 1] == s[end - 1];
  }

  /** A text without the word passes unchanged. */
  lemma NoWordReplaced(s: string, name: string, l: bool, r: bool)
    requires name != [] && forall i :: !WordAt(s, name, i, l, r)
    ensures ReplaceWords(s, name, l, r) == s
  {
    SkipTo(s, name, l, r, |s|);
  }

  /** Where a word first stands, if it does. */
  lemma {:induction false} FirstWord(s: string, name: string, l: bool, r: bool, end: nat) returns (at: Option<nat>)
    ensures at.Some? ==> at.value < end && WordAt(s, name, at.value, l, r)
    ensures at.Some? ==> forall i :: i < at.value ==> !WordAt(s, name, i, l, r)
    ensures at.None? ==> forall i :: i < end ==> !WordAt(s, name, i, l, r)
  {
    at := None;
    if end > 0 {
      at := FirstWord(s, name, l, r, end - 1);
      if at.None? && WordAt(s, name, end - 1, l, r) { at := Some(end - 1); }
    }
  }

  // ---------------------------------------------------------------- one pass

  /** The parts of a text around the first word, and what the pass makes of it. */
  lemma Parts(s: string, n: nat, l: bool, r: bool, at: nat) returns (j: nat, done: string)
    requires n < |STACK_NAMES| && WordAt(s, STACK_NAMES[n], at, l, r)
    requires forall i :: i < at ==> !WordAt(s, STACK_NAMES[n], i, l, r)
    ensures j == at + |STACK_NAMES[n]| <= |s| && at < j && InWord(s[at]) && InWord(s[j - 1])
    ensures STACK_NAMES[n] != [] && done == ReplaceWords(s[j..], STACK_NAMES[n], true, r)
    ensures ReplaceWords(s, STACK_NAMES[n], l, r) == s[..at] + REDACTED + done
  {
    NamesAreWords(n);
    var name := STACK_NAMES[n];
    j := at + |name|;
    Spelled(s, n, at, 0);
    Spelled(s, n, at, |name| - 1);
    FirstWordReplaced(s, name, l, r, at, j);
    done := ReplaceWords(s[j..], name, true, r);
  }

  lemma CutAtTheWord(s: string, n: nat, l: bool, r: bool, at: nat)
    requires n < |STACK_NAMES| && WordAt(s, STACK_NAMES[n], at, l, r)
    ensures CutAtWords(s, l, r, at, at + |STACK_NAMES[n]|)
  {
    forall m, k | 0 <= m < |STACK_NAMES| && MatchAt(s, STACK_NAMES[m], k)
      ensures k + |STACK_NAMES[m]| <= at || at + |STACK_NAMES[n]| <= k || WordAt(s, STACK_NAMES[m], k, l, r) {
      if at < k + |STACK_NAMES[m]| && k < at + |STACK_NAMES[n]| { WordsLieApart(s, l, r, n, at, m, k); }
    }
  }

  /** Around a replacement, the names stand as words where they did on either side. */
  lemma OnlyWordsAside(a: string, b: string, l: bool, r: bool)
    ensures OnlyWords(a + REDACTED + b, l, r) <==> OnlyWords(a, l, true) && OnlyWords(b, true, r)
  {
    var s, i, j := a + REDACTED + b, |a|, |a| + |REDACTED|;
    assert s[..i] == a && s[j..] == b && s[i] == 't' && s[j - 1] == 'e';
    forall n, k | 0 <= n < |STACK_NAMES| && MatchAt(s, STACK_NAMES[n], k)
      ensures k + |STACK_NAMES[n]| <= i || j <= k {
      NamesAreApart(n);
      MatchesStayAside(a, b, STACK_NAMES[n], k);
    }
    OnlyWordsBeside(s, l, r, i, j);
  }

  /** Replacing whole words makes no word of what was none, and none of what was one. */
  lemma {:induction false} PassKeepsWords(s: string, n: nat, l: bool, r: bool)
    requires n < |STACK_NAMES|
    ensures STACK_NAMES[n] != []
    ensures OnlyWords(s, l, r) <==> OnlyWords(ReplaceWords(s, STACK_NAMES[n], l, r), l, r)
    decreases |s|
  {
    NamesAreWords(n);
    var first := FirstWord(s, STACK_NAMES[n], l, r, |s|);
    match first
    case None =>
      NoWordReplaced(s, STACK_NAMES[n], l, r);
    case Some(at) =>
      var j, done := Parts(s, n, l, r, at);
      CutAtTheWord(s, n, l, r, at);
      OnlyWordsBeside(s, l, r, at, j);
      PassKeepsWords(s[j..], n, true, r);
      OnlyWordsAside(s[..at], done, l, r);
  }

  lemma FirstIsWord(s: string, n: nat, l: bool, r: bool, at: nat)
    requires n < |STACK_NAMES| && OnlyWords(s, l, r)
    requires forall i :: i < at ==> !WordAt(s, STACK_NAMES[n], i, l, r)
    ensures NoneBefore(s, STACK_NAMES[n], at)
  {}

  /** On a text with only words a pass over whole words is a pass. */
  lemma {:induction false} PassOfWords(s: string, n: nat, l: bool, r: bool)
    requires n < |STACK_NAMES| && OnlyWords(s, l, r)
    ensures STACK_NAMES[n] != [] && ReplaceWords(s, STACK_NAMES[n], l, r) == ReplaceAll(s, STACK_NAMES[n])
    decreases |s|
  {
    NamesAreWords(n);
    var first := FirstWord(s, STACK_NAMES[n], l, r, |s|);
    match first
    case None =>
      NoWordReplaced(s, STACK_NAMES[n], l, r);
      NothingReplaced(s, STACK_NAMES[n]);
    case Some(at) =>
      var j, done := Parts(s, n, l, r, at);
      SidesOfWords(s, l, r, at, j);
      PassOfWords(s[j..], n, true, r);
      FirstIsWord(s, n, l, r, at);
      FirstReplacedAs(s, STACK_NAMES[n], at, s[..at], s[j..]);
  }

  /** No name of the first `n` stands in `s` as a word. */
  ghost predicate NoWords(s: string, n: nat, l: bool, r: bool) {
    forall m, k :: 0 <= m < n && m < |STACK_NAMES| ==> !WordAt(s, STACK_NAMES[m], k, l, r)
  }

  /** A word around a replacement was a word on its side. */
  lemma WordAside(a: string, b: string, name: string, l: bool, r: bool, k: int)
    requires Apart(name) && WordAt(a + REDACTED + b, name, k, l, r)
    ensures WordAt(a, name, k, l, true) || WordAt(b, name, k - |a| - |REDACTED|, true, r)
  {
    var s, i, j := a + REDACTED + b, |a|, |a| + |REDACTED|;
    assert s[..i] == a && s[j..] == b && s[i] == 't' && s[j - 1] == 'e';
    MatchesStayAside(a, b, name, k);
    if MatchAt(a, name, k) {
      WordsBeside(s, name, l, r, i, j, k);
    } else {
      WordsBeside(s, name, l, r, i, j, k - j);
    }
  }

  lemma NoWordsAside(a: string, b: string, n: nat, l: bool, r: bool)
    requires NoWords(a, n, l, true) && NoWords(b, n, true, r)
    ensures NoWords(a + REDACTED + b, n, l, r)
  {
    forall m, k | 0 <= m < n && m < |STACK_NAMES| ensures !WordAt(a + REDACTED + b, STACK_NAMES[m], k, l, r) {
      NamesAreApart(m);
      if WordAt(a + REDACTED + b, STACK_NAMES[m], k, l, r) { WordAside(a, b, STACK_NAMES[m], l, r, k); }
    }
  }

  lemma NoWordsBeside(s: string, n: nat, l: bool, r: bool, i: nat, j: nat)
    requires i < j <= |s| && InWord(s[i]) && InWord(s[j - 1]) && NoWords(s, n, l, r)
    ensures NoWords(s[..i], n, l, true) && NoWords(s[j..], n, true, r)
  {
    forall m, k | 0 <= m < n && m < |STACK_NAMES|
      ensures !WordAt(s[..i], STACK_NAMES[m], k, l, true) && !WordAt(s[j..], STACK_NAMES[m], k, true, r) {
      NamesAreWords(m);
      WordsBeside(s, STACK_NAMES[m], l, r, i, j, k);
    }
  }

  /** A pass leaves its name nowhere as a word, and brings back none of those before it. */
  lemma {:induction false} PassTakesWords(s: string, n: nat, l: bool, r: bool)
    requires n < |STACK_NAMES| && NoWords(s, n, l, r)
    ensures STACK_NAMES[n] != [] && NoWords(ReplaceWords(s, STACK_NAMES[n], l, r), n + 1, l, r)
    decreases |s|
  {
    NamesAreWords(n);
    var first := FirstWord(s, STACK_NAMES[n], l, r, |s|);
    match first
    case None =>
      NoWordReplaced(s, STACK_NAMES[n], l, r);
    case Some(at) =>
      var j, done := Parts(s, n, l, r, at);
      NoWordsBeside(s, n, l, r, at, j);
      FirstHasNone(s, n, l, r, at, j);
      PassTakesWords(s[j..], n, true, r);
      NoWordsAside(s[..at], done, n + 1, l, r);
  }

  lemma FirstHasNone(s: string, n: nat, l: bool, r: bool, at: nat, j: nat)
    requires n < |STACK_NAMES| && at < j <= |s| && InWord(s[at]) && InWord(s[j - 1])
    requires forall i :: i < at ==> !WordAt(s, STACK_NAMES[n], i, l, r)
    ensures forall k :: !WordAt(s[..at], STACK_NAMES[n], k, l, true)
  {
    NamesAreWords(n);
    forall k ensures !WordAt(s[..at], STACK_NAMES[n], k, l, true) {
      WordsBeside(s, STACK_NAMES[n], l, r, at, j, k);
    }
  }

  // ------------------------------------------------------------ the whole text

  lemma {:induction false} WordsGoneUpTo(raw: string, n: nat)
    requires n <= |STACK_NAMES|
    ensures NoWords(WordsRedactedBy(raw, n), n, false, false)
    ensures NoWords(raw, |STACK_NAMES|, false, false) ==> WordsRedactedBy(raw, n) == raw
  {
    if n > 0 {
      WordsGoneUpTo(raw, n - 1);
      PassTakesWords(WordsRedactedBy(raw, n - 1), n - 1, false, false);
      if NoWords(raw, |STACK_NAMES|, false, false) {
        NoWordReplaced(raw, STACK_NAMES[n - 1], false, false);
      }
    }
  }

  /** Redacting whole words leaves no name standing as a word, and leaves alone exactly the texts that have none. */
  lemma WordsAreGone(raw: string)
    ensures NoWords(WordsRedacted(raw), |STACK_NAMES|, false, false)
    ensures WordsRedacted(raw) == raw <==> NoWords(raw, |STACK_NAMES|, false, false)
  {
    WordsGoneUpTo(raw, |STACK_NAMES|);
  }

  lemma {:induction false} WordsStandUpTo(raw: string, n: nat)
    requires n <= |STACK_NAMES|
    ensures OnlyWords(raw, false, false) <==> OnlyWords(WordsRedactedBy(raw, n), false, false)
  {
    if n > 0 {
      WordsStandUpTo(raw, n - 1);
      PassKeepsWords(WordsRedactedBy(raw, n - 1), n - 1, false, false);
    }
  }

  lemma {:induction false} WordsAgreeUpTo(raw: string, n: nat)
    requires n <= |STACK_NAMES| && OnlyWords(raw, false, false)
    ensures WordsRedactedBy(raw, n) == RedactedBy(raw, n)
  {
    if n > 0 {
      WordsAgreeUpTo(raw, n - 1);
      WordsStandUpTo(raw, n - 1);
      PassOfWords(WordsRedactedBy(raw, n - 1), n - 1, false, false);
    }
  }

  /** Redacting is redacting whole words on exactly the texts in which every name stands as a word. */
  lemma WordsExactly(raw: string)
    ensures Redacted(raw) == WordsRedacted(raw) <==> OnlyWords(raw, false, false)
  {
    WordsStandUpTo(raw, |STACK_NAMES|);
    if OnlyWords(raw, false, false) { WordsAgreeUpTo(raw, |STACK_NAMES|); }
    RedactedIsClean(raw);
  }

  lemma OnlyCargoInCargoes(n: nat)
    requires n < |STACK_NAMES| && n != 5
    ensures Absent("cargoes", STACK_NAMES[n])
  {
    forall i ensures !MatchAt("cargoes", STACK_NAMES[n], i) {
      if MatchAt("cargoes", STACK_NAMES[n], i) {
        Spelled("cargoes", n, i, 0);
        Spelled("cargoes", n, i, 1);
        Spelled("cargoes", n, i, 2);
      }
    }
  }

  lemma NoNameInEnginees(n: nat)
    requires n < |STACK_NAMES| && n != 5
    ensures Absent("the enginees", STACK_NAMES[n])
  {
    forall i ensures !MatchAt("the enginees", STACK_NAMES[n], i) {
      if MatchAt("the enginees", STACK_NAMES[n], i) {
        Spelled("the enginees", n, i, 0);
        Spelled("the enginees", n, i, 1);
      }
    }
  }

  lemma CargoesPass()
    ensures ReplaceAll("cargoes", "cargo") == "the enginees"
    ensures ReplaceWords("cargoes", "cargo", false, false) == "cargoes"
  {
    var s := "cargoes";
    assert MatchAt(s, "cargo", 0) && s[..0] == [] && s[5..] == "es";
    FirstReplacedAs(s, "cargo", 0, [], "es");
    NothingReplaced("es", "cargo");
    assert [] + REDACTED + "es" == "the enginees";
    forall i ensures !WordAt(s, "cargo", i, false, false) {
      if MatchAt(s, "cargo", i) { Spelled(s, 5, i, 0); }
    }
    NoWordReplaced(s, "cargo", false, false);
  }

  lemma {:induction false} CargoesUpTo(n: nat)
    requires n <= |STACK_NAMES|
    ensures RedactedBy("cargoes", n) == (if n <= 5 then "cargoes" else "the enginees")
    ensures WordsRedactedBy("cargoes", n) == "cargoes"
  {
    if n > 0 {
      CargoesUpTo(n - 1);
      if n == 6 {
        CargoesPass();
      } else {
        NamesAreWords(n - 1);
        OnlyCargoInCargoes(n - 1);
        NoNameInEnginees(n - 1);
        NothingReplaced(RedactedBy("cargoes", n - 1), STACK_NAMES[n - 1]);
        NoWordReplaced("cargoes", STACK_NAMES[n - 1], false, false);
      }
    }
  }

  /** And there are others: "cargoes" is changed, though no name stands in it as a word. */
  lemma CargoesIsChanged()
    ensures Redacted("cargoes") == "the enginees" && WordsRedacted("cargoes") == "cargoes"
  {
    CargoesUpTo(|STACK_NAMES|);
  }
}
