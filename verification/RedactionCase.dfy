/**
 Letter case: what the search for a name of the stack finds is the name with any
 of its letters in capitals, and nothing else.
 */
module RedactionCase {
  import opened Ascii
  import opened Redaction
  import opened RedactionWords

  /** A stretch of `raw` from `i` on is the `n`-th name, any of its letters in capitals. */
  ghost predicate NamedAt(raw: string, n: nat, i: nat)
    requires n < |STACK_NAMES|
  {
    i + |STACK_NAMES[n]| <= |raw| && SpelledAs(raw[i..i + |STACK_NAMES[n]|], STACK_NAMES[n])
  }

  lemma NamesAreLower(n: nat)
    requires n < |STACK_NAMES|
    ensures forall i :: 0 <= i < |STACK_NAMES[n]| ==> !('A' <= STACK_NAMES[n][i] <= 'Z')
  {}

  lemma MatchIsSpelled(raw: string, n: nat, i: nat)
    requires n < |STACK_NAMES|
    ensures MatchAt(raw, STACK_NAMES[n], i) <==> NamedAt(raw, n, i)
  {
    NamesAreLower(n);
    if i + |STACK_NAMES[n]| <= |raw| { LoweredIsSpelled(raw[i..i + |STACK_NAMES[n]|], STACK_NAMES[n]); }
  }

  /** Whatever the text, no spelling of a name is left; and a text without one, and no other, is left alone. */
  lemma NoSpellingIsLeft(raw: string)
    ensures forall n, i :: 0 <= n < |STACK_NAMES| && 0 <= i ==> !NamedAt(Redacted(raw), n, i)
    ensures Redacted(raw) == raw <==> forall n, i :: 0 <= n < |STACK_NAMES| && 0 <= i ==> !NamedAt(raw, n, i)
  {
    RedactedIsClean(raw);
    forall n, i | 0 <= n < |STACK_NAMES| && 0 <= i
      ensures MatchAt(raw, STACK_NAMES[n], i) <==> NamedAt(raw, n, i)
      ensures MatchAt(Redacted(raw), STACK_NAMES[n], i) <==> NamedAt(Redacted(raw), n, i)
    {
      MatchIsSpelled(raw, n, i);
      MatchIsSpelled(Redacted(raw), n, i);
    }
    if forall n, i :: 0 <= n < |STACK_NAMES| && 0 <= i ==> !NamedAt(raw, n, i) {
      forall n | 0 <= n < |STACK_NAMES| ensures Absent(raw, STACK_NAMES[n]) {
        forall i ensures !MatchAt(raw, STACK_NAMES[n], i) {}
      }
    }
  }

  /** In a spelling of one name no other name stands. */
  lemma OneNameStands(s: string, n: nat, m: nat)
    requires n < |STACK_NAMES| && m < |STACK_NAMES| && SpelledAs(s, STACK_NAMES[n]) && m != n
    ensures Absent(s, STACK_NAMES[m])
  {
    assert s[0..|s|] == s;
    MatchIsSpelled(s, n, 0);
    forall i ensures !MatchAt(s, STACK_NAMES[m], i) {
      if MatchAt(s, STACK_NAMES[m], i) {
        forall k | 0 <= k < |STACK_NAMES[m]| ensures STACK_NAMES[n][i + k] == STACK_NAMES[m][k] {
          Spelled(s, m, i, k);
          Spelled(s, n, 0, i + k);
        }
        Within(n, m, i);
      }
    }
  }

  /** In `a + s + b` the only stretch that spells a name is `s`, and it spells the `n`-th. */
  ghost predicate OnlyName(a: string, s: string, b: string, n: nat) {
    && n < |STACK_NAMES| && SpelledAs(s, STACK_NAMES[n])
    && forall m, i :: 0 <= m < |STACK_NAMES| && 0 <= i && NamedAt(a + s + b, m, i) ==> m == n && i == |a|
  }

  lemma OnlyThere(a: string, s: string, b: string, n: nat, m: nat, i: int)
    requires OnlyName(a, s, b, n) && m < |STACK_NAMES|
    ensures MatchAt(a + s + b, STACK_NAMES[m], i) ==> m == n && i == |a|
  {
    if i >= 0 { MatchIsSpelled(a + s + b, m, i); }
  }

  lemma OnASide(a: string, s: string, b: string, name: string, i: int)
    ensures MatchAt(a, name, i) ==> MatchAt(a + s + b, name, i) && 0 <= i <= |a| - |name|
    ensures MatchAt(b, name, i) ==> MatchAt(a + s + b, name, |a| + |s| + i) && i >= 0
  {
    var raw, end := a + s + b, |a| + |s|;
    assert raw[0..|a|] == a && raw[end..|raw|] == b;
    InPart(raw, 0, |a|, name, i);
    InPart(raw, end, |raw|, name, i);
  }

  /** Neither side has a name. */
  lemma SidesHaveNone(a: string, s: string, b: string, n: nat, m: nat)
    requires OnlyName(a, s, b, n) && m < |STACK_NAMES|
    ensures Absent(a, STACK_NAMES[m]) && Absent(b, STACK_NAMES[m])
  {
    NamesAreWords(m);
    forall i ensures !MatchAt(a, STACK_NAMES[m], i) && !MatchAt(b, STACK_NAMES[m], i) {
      OnlyThere(a, s, b, n, m, i);
      OnlyThere(a, s, b, n, m, |a| + |s| + i);
      OnASide(a, s, b, STACK_NAMES[m], i);
    }
  }

  /** The whole has one, where it stands. */
  lemma TheNameStands(a: string, s: string, b: string, n: nat)
    requires OnlyName(a, s, b, n)
    ensures MatchAt(a + s + b, STACK_NAMES[n], |a|) && NoneBefore(a + s + b, STACK_NAMES[n], |a|)
  {
    assert (a + s + b)[|a|..|a| + |s|] == s;
    MatchIsSpelled(a + s + b, n, |a|);
    forall i | i < |a| ensures !MatchAt(a + s + b, STACK_NAMES[n], i) { OnlyThere(a, s, b, n, n, i); }
  }

  lemma PassBeforeIt(a: string, s: string, b: string, n: nat, m: nat)
    requires OnlyName(a, s, b, n) && m < n
    ensures STACK_NAMES[m] != [] && ReplaceAll(a + s + b, STACK_NAMES[m]) == a + s + b
  {
    NamesAreWords(m);
    forall i ensures !MatchAt(a + s + b, STACK_NAMES[m], i) { OnlyThere(a, s, b, n, m, i); }
    NothingReplaced(a + s + b, STACK_NAMES[m]);
  }

  lemma PassOfIt(a: string, s: string, b: string, n: nat)
    requires OnlyName(a, s, b, n)
    ensures STACK_NAMES[n] != [] && ReplaceAll(a + s + b, STACK_NAMES[n]) == a + REDACTED + b
  {
    TheNameStands(a, s, b, n);
    SidesHaveNone(a, s, b, n, n);
    NamesAreWords(n);
    var raw := a + s + b;
    assert raw[..|a|] == a && raw[|a| + |STACK_NAMES[n]|..] == b;
    FirstReplacedAs(raw, STACK_NAMES[n], |a|, a, b);
    NothingReplaced(b, STACK_NAMES[n]);
  }

  lemma PassAfterIt(a: string, s: string, b: string, n: nat, m: nat)
    requires OnlyName(a, s, b, n) && m < |STACK_NAMES|
    ensures STACK_NAMES[m] != [] && ReplaceAll(a + REDACTED + b, STACK_NAMES[m]) == a + REDACTED + b
  {
    SidesHaveNone(a, s, b, n, m);
    NamesAreApart(m);
    SpliceIsClean(a, b, STACK_NAMES[m]);
    NothingReplaced(a + REDACTED + b, STACK_NAMES[m]);
  }

  lemma {:induction false} OneNameUpTo(a: string, s: string, b: string, n: nat, k: nat)
    requires OnlyName(a, s, b, n) && k <= |STACK_NAMES|
    ensures RedactedBy(a + s + b, k) == if k <= n then a + s + b else a + REDACTED + b
  {
    if k > 0 {
      OneNameUpTo(a, s, b, n, k - 1);
      if k <= n {
        PassBeforeIt(a, s, b, n, k - 1);
      } else if k == n + 1 {
        PassOfIt(a, s, b, n);
      } else {
        PassAfterIt(a, s, b, n, k - 1);
      }
    }
  }

  /** A name in any letter case is replaced, and what stands around it is kept. */
  lemma NameIsReplaced(a: string, s: string, b: string, n: nat)
    requires OnlyName(a, s, b, n)
    ensures Redacted(a + s + b) == a + REDACTED + b
  {
    OneNameUpTo(a, s, b, n, |STACK_NAMES|);
  }

  /** In particular of a name alone. */
  lemma NameAloneIsReplaced(s: string, n: nat)
    requires n < |STACK_NAMES| && SpelledAs(s, STACK_NAMES[n])
    ensures Redacted(s) == REDACTED
  {
    assert [] + s + [] == s && [] + REDACTED + [] == REDACTED && s[0..|s|] == s;
    forall m, i | 0 <= m < |STACK_NAMES| && 0 <= i && NamedAt([] + s + [], m, i) ensures m == n && i == 0 {
      MatchIsSpelled(s, m, i);
      if m != n { OneNameStands(s, n, m); }
    }
    NameIsReplaced([], s, [], n);
  }
}
