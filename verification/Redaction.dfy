/**
 Removing the names of the stack from what a person reads. The rewrite searches
 from the start after every replacement; what it computes is one pass from left
 to right for each name in turn, because a name can neither lie in nor straddle
 an edge of the words that replace it.
 */
module Redaction {
  import opened Wrappers
  import opened Ascii

  const STACK_NAMES := ["mistralrs", "mistral.rs", "candle", "tokio", "axum", "cargo", "rustc"]
  const REDACTED := "the engine"

  /** `name` stands at `i` of `s`, in any letter case. */
  predicate MatchAt(s: string, name: string, i: int) {
    0 <= i <= |s| - |name| && LowersTo(s[i..i + |name|], name)
  }

  /** It does not stand before `end`. */
  ghost predicate NoneBefore(s: string, name: string, end: int) {
    forall i :: i < end ==> !MatchAt(s, name, i)
  }

  ghost predicate Absent(s: string, name: string) {
    forall i :: !MatchAt(s, name, i)
  }

  /** No name of the stack, in any letter case. */
  ghost predicate Clean(s: string) {
    forall n :: 0 <= n < |STACK_NAMES| ==> Absent(s, STACK_NAMES[n])
  }

  /** Where `name` first stands in `s`, from `i` on. */
  function Find(s: string, name: string, i: nat): (at: Option<nat>)
    requires i <= |s|
    ensures at.Some? ==> i <= at.value && MatchAt(s, name, at.value)
    ensures at.Some? && NoneBefore(s, name, i) ==> NoneBefore(s, name, at.value)
    ensures at.None? ==> (NoneBefore(s, name, i) ==> Absent(s, name))
    decreases |s| - i
  {
    if MatchAt(s, name, i) then Some(i) else if i == |s| then None else Find(s, name, i + 1)
  }

  /** One pass from left to right. */
  function ReplaceAll(s: string, name: string): string
    requires name != []
    decreases |s|
  {
    if s == [] then []
    else if MatchAt(s, name, 0) then REDACTED + ReplaceAll(s[|name|..], name)
    else [s[0]] + ReplaceAll(s[1..], name)
  }

  lemma NamesAreWords(n: nat)
    requires n < |STACK_NAMES|
    ensures 2 <= |STACK_NAMES[n]| <= 10
  {}

  /** The result after the first `n` names. */
  function RedactedBy(raw: string, n: nat): string
    requires n <= |STACK_NAMES|
  {
    if n == 0 then raw
    else
      NamesAreWords(n - 1);
      ReplaceAll(RedactedBy(raw, n - 1), STACK_NAMES[n - 1])
  }

  function Redacted(raw: string): string {
    RedactedBy(raw, |STACK_NAMES|)
  }

  // ------------------------------------------------------------------ borders

  /** Laid `r` characters into the replacement, `name` agrees with it wherever the two overlap. */
  predicate Fits(name: string, r: int) {
    forall k :: 0 <= k < |name| && 0 <= r + k < |REDACTED| ==> name[k] == REDACTED[r + k]
  }

  /** A word that can neither straddle an edge of the replacement nor lie in it. */
  ghost predicate Apart(name: string) {
    name != [] && forall r :: -|name| < r < |REDACTED| ==> !Fits(name, r)
  }

  lemma NoBorder(n: nat, r: int)
    requires n < |STACK_NAMES|
    ensures -|STACK_NAMES[n]| < r < |REDACTED| ==> !Fits(STACK_NAMES[n], r)
  {
    var name := STACK_NAMES[n];
    NamesAreWords(n);
    if 0 <= r < |REDACTED| {
      assert name[0] != REDACTED[r + 0] || (r == 0 && name[1] != REDACTED[r + 1]);
    } else if -|name| < r < 0 {
      var k := -r;
      assert name[k] != REDACTED[r + k] || (k + 1 < |name| && name[k + 1] != REDACTED[r + (k + 1)]);
    }
  }

  lemma NamesAreApart(n: nat)
    requires n < |STACK_NAMES|
    ensures Apart(STACK_NAMES[n])
  {
    NamesAreWords(n);
    forall r | -|STACK_NAMES[n]| < r < |REDACTED| ensures !Fits(STACK_NAMES[n], r) { NoBorder(n, r); }
  }

  lemma MatchesFit(a: string, b: string, name: string, i: int)
    requires MatchAt(a + REDACTED + b, name, i)
    ensures Fits(name, i - |a|)
  {}

  /** A name stands in a stretch of a text where it stands in the text, within that stretch. */
  lemma InPart(s: string, i: nat, j: nat, name: string, k: int)
    requires i <= j <= |s|
    ensures MatchAt(s[i..j], name, k) <==> 0 <= k <= j - i - |name| && MatchAt(s, name, i + k)
  {
    if 0 <= k <= j - i - |name| {
      var here, there := s[i..j][k..k + |name|], s[i + k..i + k + |name|];
      assert forall m :: 0 <= m < |name| ==> here[m] == there[m];
    }
  }

  lemma PartsAreFree(s: string, name: string, i: nat, j: nat)
    requires name != [] && i <= j <= |s| && NoneBefore(s, name, j)
    ensures Absent(s[i..j], name)
  {
    forall k ensures !MatchAt(s[i..j], name, k) { InPart(s, i, j, name, k); }
  }

  /** Around a replacement, a name stands wholly on one side. */
  lemma MatchesStayAside(a: string, b: string, name: string, i: int)
    requires Apart(name)
    ensures MatchAt(a + REDACTED + b, name, i) <==> MatchAt(a, name, i) || MatchAt(b, name, i - |a| - |REDACTED|)
  {
    var s, seam := a + REDACTED + b, |a| + |REDACTED|;
    if MatchAt(s, name, i) { MatchesFit(a, b, name, i); }
    InPart(s, 0, |a|, name, i);
    InPart(s, seam, |s|, name, i - seam);
    assert s[0..|a|] == a && s[seam..|s|] == b;
  }

  // ------------------------------------------------------- one name, one pass

  /** The pass jumps to the first place the name stands. */
  lemma {:induction false} FirstReplaced(s: string, name: string, at: nat)
    requires name != [] && MatchAt(s, name, at) && NoneBefore(s, name, at)
    ensures ReplaceAll(s, name) == s[..at] + REDACTED + ReplaceAll(s[at + |name|..], name)
  {
    if at > 0 {
      Shifted(s, name, at);
      FirstReplaced(s[1..], name, at - 1);
      TailSlices(s, at, at + |name|);
      Prepended(s[0], s[1..][..at - 1], REDACTED, ReplaceAll(s[at + |name|..], name));
    }
  }

  lemma TailSlices(s: string, i: nat, j: nat)
    requires 0 < i <= j <= |s|
    ensures [s[0]] + s[1..][..i - 1] == s[..i] && s[1..][j - 1..] == s[j..]
  {}

  lemma Prepended(c: char, a: string, b: string, d: string)
    ensures [c] + (a + b + d) == ([c] + a) + b + d
  {}

  lemma FirstReplacedAs(s: string, name: string, at: nat, left: string, right: string)
    requires name != [] && MatchAt(s, name, at) && NoneBefore(s, name, at)
    requires s[..at] == left && s[at + |name|..] == right
    ensures ReplaceAll(s, name) == left + REDACTED + ReplaceAll(right, name)
  {
    FirstReplaced(s, name, at);
  }

  lemma Shifted(s: string, name: string, at: nat)
    requires 0 < at <= |s| && NoneBefore(s, name, at)
    ensures NoneBefore(s[1..], name, at - 1)
    ensures MatchAt(s[1..], name, at - 1) <==> MatchAt(s, name, at)
  {
    assert s[1..|s|] == s[1..];
    InPart(s, 1, |s|, name, at - 1);
    forall i | i < at - 1 ensures !MatchAt(s[1..], name, i) { InPart(s, 1, |s|, name, i); }
  }

  /** A text without the name passes unchanged. */
  lemma {:induction false} NothingReplaced(s: string, name: string)
    requires name != [] && Absent(s, name)
    ensures ReplaceAll(s, name) == s
  {
    if s != [] {
      assert s[1..|s|] == s[1..];
      PartsAreFree(s, name, 1, |s|);
      NothingReplaced(s[1..], name);
    }
  }

  /** Replacing one occurrence brings no name back. */
  lemma SpliceIsClean(a: string, b: string, name: string)
    requires Apart(name) && Absent(a, name) && Absent(b, name)
    ensures Absent(a + REDACTED + b, name)
  {
    forall i ensures !MatchAt(a + REDACTED + b, name, i) {
      MatchesStayAside(a, b, name, i);
    }
  }

  /** A pass removes its name, and brings back no other that was already gone. */
  lemma {:induction false} PassCleans(s: string, name: string, other: string)
    requires Apart(name) && Apart(other) && (other == name || Absent(s, other))
    ensures Absent(ReplaceAll(s, name), other)
    decreases |s|
  {
    match Find(s, name, 0)
    case None =>
      NothingReplaced(s, name);
    case Some(at) =>
      FirstReplaced(s, name, at);
      var rest := s[at + |name|..];
      assert s[0..at] == s[..at] && s[at + |name|..|s|] == rest;
      PartsAreFree(s, other, 0, at);
      if other != name { PartsAreFree(s, other, at + |name|, |s|); }
      PassCleans(rest, name, other);
      SpliceIsClean(s[..at], ReplaceAll(rest, name), other);
  }

  // ------------------------------------------------------------ the whole text

  lemma {:induction false} CleanUpTo(raw: string, n: nat, m: nat)
    requires m < n <= |STACK_NAMES|
    ensures Absent(RedactedBy(raw, n), STACK_NAMES[m])
  {
    NamesAreApart(n - 1);
    NamesAreApart(m);
    if m < n - 1 { CleanUpTo(raw, n - 1, m); }
    PassCleans(RedactedBy(raw, n - 1), STACK_NAMES[n - 1], STACK_NAMES[m]);
  }

  lemma {:induction false} CleanPasses(raw: string, n: nat)
    requires Clean(raw) && n <= |STACK_NAMES|
    ensures RedactedBy(raw, n) == raw
  {
    if n > 0 {
      CleanPasses(raw, n - 1);
      NamesAreWords(n - 1);
      NothingReplaced(raw, STACK_NAMES[n - 1]);
    }
  }

  /** What comes out has no name of the stack in it; what goes in clean comes out unchanged, and nothing else does. */
  lemma RedactedIsClean(raw: string)
    ensures Clean(Redacted(raw))
    ensures Redacted(Redacted(raw)) == Redacted(raw)
    ensures Redacted(raw) == raw <==> Clean(raw)
  {
    forall m | 0 <= m < |STACK_NAMES| ensures Absent(Redacted(raw), STACK_NAMES[m]) {
      CleanUpTo(raw, |STACK_NAMES|, m);
    }
    CleanPasses(Redacted(raw), |STACK_NAMES|);
    if Clean(raw) { CleanPasses(raw, |STACK_NAMES|); }
  }

  /**
   The first place a name stands around a replacement: in the part before it if there is one, and else
   in the part after.
   */
  lemma FirstAside(a: string, b: string, name: string, at: nat)
    requires Apart(name)
    ensures
      var s, seam := a + REDACTED + b, |a| + |REDACTED|;
      && (NoneBefore(a, name, at) && MatchAt(a, name, at) ==> NoneBefore(s, name, at) && MatchAt(s, name, at))
      && (Absent(a, name) && NoneBefore(b, name, at) ==>
            NoneBefore(s, name, seam + at) && (MatchAt(b, name, at) <==> MatchAt(s, name, seam + at)))
  {
    var s := a + REDACTED + b;
    forall i ensures MatchAt(s, name, i) <==> MatchAt(a, name, i) || MatchAt(b, name, i - |a| - |REDACTED|) {
      MatchesStayAside(a, b, name, i);
    }
  }

  /** A slice of a join that begins or ends in the last part. */
  lemma JoinSlices(a: string, m: string, b: string, i: nat, j: nat)
    requires i <= j <= |b|
    ensures (a + m + b)[..|a| + |m| + i] == a + m + b[..i]
    ensures (a + m + b)[|a| + |m| + j..] == b[j..]
  {}

  lemma PassSplitsAfter(a: string, b: string, name: string, s: string)
    requires Apart(name) && Absent(a, name) && s == a + REDACTED + b
    ensures ReplaceAll(s, name) == a + REDACTED + ReplaceAll(b, name)
  {
    match Find(b, name, 0)
    case None =>
      NothingReplaced(b, name);
      SpliceIsClean(a, b, name);
      NothingReplaced(s, name);
    case Some(at) =>
      var rest := b[at + |name|..];
      FirstAside(a, b, name, at);
      JoinSlices(a, REDACTED, b, at, at + |name|);
      FirstReplacedAs(s, name, |a| + |REDACTED| + at, a + REDACTED + b[..at], rest);
      FirstReplacedAs(b, name, at, b[..at], rest);
      Regroup(a + REDACTED, b[..at], REDACTED, ReplaceAll(rest, name));
  }

  lemma Regroup(a: string, b: string, c: string, d: string)
    ensures a + b + c + d == a + (b + c + d)
  {}

  lemma FrontSlices(a: string, m: string, b: string, i: nat, j: nat)
    requires i <= j <= |a|
    ensures (a + m + b)[..i] == a[..i]
    ensures (a + m + b)[j..] == a[j..] + m + b
  {}

  /** A pass treats the texts on either side of a replacement each on its own. */
  lemma {:induction false} PassSplits(a: string, b: string, name: string)
    requires Apart(name)
    ensures ReplaceAll(a + REDACTED + b, name) == ReplaceAll(a, name) + REDACTED + ReplaceAll(b, name)
    decreases |a|
  {
    match Find(a, name, 0)
    case None =>
      NothingReplaced(a, name);
      PassSplitsAfter(a, b, name, a + REDACTED + b);
    case Some(at) =>
      FirstAside(a, b, name, at);
      FirstReplaced(a + REDACTED + b, name, at);
      FirstReplaced(a, name, at);
      FrontSlices(a, REDACTED, b, at, at + |name|);
      var rest := a[at + |name|..];
      PassSplits(rest, b, name);
      Regroup(a[..at] + REDACTED, ReplaceAll(rest, name), REDACTED, ReplaceAll(b, name));
  }

  lemma {:induction false} NamesSplit(a: string, b: string, n: nat)
    requires n <= |STACK_NAMES|
    ensures RedactedBy(a + REDACTED + b, n) == RedactedBy(a, n) + REDACTED + RedactedBy(b, n)
  {
    if n > 0 {
      NamesAreApart(n - 1);
      NamesSplit(a, b, n - 1);
      PassSplits(RedactedBy(a, n - 1), RedactedBy(b, n - 1), STACK_NAMES[n - 1]);
    }
  }

  /**
   The words "the engine" are a seam: what is redacted before them cannot depend on what comes after,
   nor the other way.
   */
  lemma RedactedSplits(a: string, b: string)
    ensures Redacted(a + REDACTED + b) == Redacted(a) + REDACTED + Redacted(b)
  {
    NamesSplit(a, b, |STACK_NAMES|);
  }

  // ---------------------------------------------------------------- the rewrite

  /** One turn of the rewrite leaves nothing to find before the end of the replacement. */
  lemma TurnIsFree(out: string, name: string, at: nat)
    requires Apart(name) && MatchAt(out, name, at) && NoneBefore(out, name, at)
    ensures NoneBefore(out[..at] + REDACTED + out[at + |name|..], name, at + |REDACTED|)
  {
    assert out[..at] == out[0..at];
    PartsAreFree(out, name, 0, at);
    FirstAside(out[..at], out[at + |name|..], name, 0);
  }

  /** Where a name stands first in a text, it stands first in what is left of it. */
  lemma FirstInTail(out: string, name: string, settled: nat, at: nat, s: string)
    requires settled <= at && MatchAt(out, name, at) && NoneBefore(out, name, at) && s == out[settled..|out|]
    ensures MatchAt(s, name, at - settled) && NoneBefore(s, name, at - settled)
  {
    InPart(out, settled, |out|, name, at - settled);
    forall i | i < at - settled ensures !MatchAt(s, name, i) { InPart(out, settled, |out|, name, i); }
  }

  /** What was not settled is passed over in the same way. */
  lemma TailReplaced(out: string, name: string, settled: nat, at: nat, s: string)
    requires name != [] && settled <= at && MatchAt(out, name, at) && NoneBefore(out, name, at)
    requires s == out[settled..|out|]
    ensures ReplaceAll(s, name) == out[settled..at] + REDACTED + ReplaceAll(out[at + |name|..], name)
  {
    FirstInTail(out, name, settled, at, s);
    FirstReplacedAs(s, name, at - settled, out[settled..at], out[at + |name|..]);
  }

  /** What is before the search's last replacement is settled: `whole` is what one pass makes of the text. */
  ghost predicate Settled(out: string, name: string, settled: nat, whole: string)
    requires name != []
  {
    settled <= |out| && NoneBefore(out, name, settled) && out[..settled] + ReplaceAll(out[settled..], name) == whole
  }

  lemma SettledGrows(out: string, name: string, settled: nat, at: nat, whole: string)
    requires Apart(name) && Settled(out, name, settled, whole) && MatchAt(out, name, at) && NoneBefore(out, name, at)
    ensures settled <= at
    ensures Settled(out[..at] + REDACTED + out[at + |name|..], name, at + |REDACTED|, whole)
  {
    TurnIsFree(out, name, at);
    assert out[settled..] == out[settled..|out|];
    TailReplaced(out, name, settled, at, out[settled..]);
    SeamSlices(out, settled, at, at + |name|);
  }

  lemma SeamSlices(out: string, settled: nat, at: nat, rest: nat)
    requires settled <= at <= rest <= |out|
    ensures
      var next := out[..at] + REDACTED + out[rest..];
      && next[at + |REDACTED|..] == out[rest..] && next[..at + |REDACTED|] == out[..at] + REDACTED
      && out[..settled] + out[settled..at] == out[..at]
  {}

  lemma NothingSettled(out: string, name: string)
    requires name != []
    ensures Settled(out, name, 0, ReplaceAll(out, name))
  {}

  lemma AllSettled(out: string, name: string, settled: nat, whole: string)
    requires name != [] && Settled(out, name, settled, whole) && Absent(out, name)
    ensures out == whole
  {
    Rejoined(out, settled);
    PartsAreFree(out, name, settled, |out|);
    NothingReplaced(out[settled..], name);
  }

  lemma Rejoined(out: string, settled: nat)
    requires settled <= |out|
    ensures out[settled..] == out[settled..|out|] && out[..settled] + out[settled..] == out
  {}

  /** Rewrite until no name is left, searching from the start each time: and it ends, whatever the text. */
  method Redact(raw: string) returns (out: string)
    ensures out == Redacted(raw) && Clean(out)
  {
    out := raw;
    for n := 0 to |STACK_NAMES|
      invariant out == RedactedBy(raw, n)
    {
      NamesAreApart(n);
      out := Rewrite(out, STACK_NAMES[n]);
    }
    RedactedIsClean(raw);
  }

  /** The inner loop, for one name. */
  method Rewrite(raw: string, name: string) returns (out: string)
    requires Apart(name)
    ensures out == ReplaceAll(raw, name)
  {
    out := raw;
    ghost var settled: nat := 0;
    ghost var whole := ReplaceAll(raw, name);
    NothingSettled(out, name);
    while true
      invariant Settled(out, name, settled, whole)
      decreases |out| - settled
    {
      var at := Find(out, name, 0);
      if at.None? {
        AllSettled(out, name, settled, whole);
        break;
      }
      SettledGrows(out, name, settled, at.value, whole);
      out := out[..at.value] + REDACTED + out[at.value + |name|..];
      settled := at.value + |REDACTED|;
    }
  }
}
