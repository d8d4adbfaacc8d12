/** The handle a model is addressed by: minted from a repository's own name, and suffixed until it is free. */
module Handles {

  const LONGEST_BASE := 96
  const SUFFIX_LIMIT := 1000

  predicate Safe(c: char) {
    'a' <= c <= 'z' || 'A' <= c <= 'Z' || '0' <= c <= '9' || c == '-' || c == '_' || c == '.'
  }

  predicate AllSafe(s: string) {
    forall i :: 0 <= i < |s| ==> Safe(s[i])
  }

  predicate Edge(c: char) {
    c == '-' || c == '.'
  }

  function Cleaned(from: string): string {
    seq(|from|, i requires 0 <= i < |from| => if Safe(from[i]) then from[i] else '-')
  }

  function TrimStart(s: string): string {
    if s != [] && Edge(s[0]) then TrimStart(s[1..]) else s
  }

  function TrimEnd(s: string): string {
    if s != [] && Edge(s[|s| - 1]) then TrimEnd(s[..|s| - 1]) else s
  }

  function Trimmed(s: string): string {
    TrimEnd(TrimStart(s))
  }

  function Base(from: string): string {
    var trimmed := Trimmed(Cleaned(from));
    if trimmed == [] then "model" else if |trimmed| <= LONGEST_BASE then trimmed else trimmed[..LONGEST_BASE]
  }

  lemma {:induction false} TrimStartIs(s: string)
    ensures |TrimStart(s)| <= |s| && TrimStart(s) == s[|s| - |TrimStart(s)|..]
    ensures TrimStart(s) != [] ==> !Edge(TrimStart(s)[0])
    ensures forall k :: 0 <= k < |s| - |TrimStart(s)| ==> Edge(s[k])
  {
    if s != [] && Edge(s[0]) {
      TrimStartIs(s[1..]);
      assert forall i :: 1 <= i < |s| ==> s[i] == s[1..][i - 1];
    }
  }

  lemma {:induction false} TrimEndIs(s: string)
    ensures |TrimEnd(s)| <= |s| && TrimEnd(s) == s[..|TrimEnd(s)|]
    ensures TrimEnd(s) != [] ==> !Edge(TrimEnd(s)[|TrimEnd(s)| - 1])
    ensures forall k :: |TrimEnd(s)| <= k < |s| ==> Edge(s[k])
  {
    if s != [] && Edge(s[|s| - 1]) {
      TrimEndIs(s[..|s| - 1]);
    }
  }

  /** What trimming leaves is the stretch between the first and the last character that is not an edge. */
  lemma TrimmedIs(s: string) returns (from: nat, to: nat)
    ensures from <= to <= |s| && Trimmed(s) == s[from..to]
    ensures forall k :: 0 <= k < from || to <= k < |s| ==> Edge(s[k])
    ensures from < to ==> !Edge(s[from]) && !Edge(s[to - 1])
  {
    TrimStartIs(s);
    var rest := TrimStart(s);
    TrimEndIs(rest);
    from := |s| - |rest|;
    to := from + |Trimmed(s)|;
    assert forall k :: from <= k < |s| ==> s[k] == rest[k - from];
  }

  /**
   A base is never empty and only ever safe, and never starts with an edge
   character. It is what is left of the name, or the word "model" when the name
   has nothing else to offer.
   */
  lemma BaseIsUsable(from: string)
    ensures 0 < |Base(from)| <= LONGEST_BASE && AllSafe(Base(from)) && !Edge(Base(from)[0])
    ensures (forall i :: 0 <= i < |from| ==> !Safe(from[i]) || Edge(from[i])) ==> Base(from) == "model"
  {
    var cleaned := Cleaned(from);
    var i, j := TrimmedIs(cleaned);
    assert forall k :: 0 <= k < |cleaned| ==> Safe(cleaned[k]);
    assert forall k :: i <= k < j ==> cleaned[i..j][k - i] == cleaned[k];
  }

  /** What a handle keeps of a character: itself if it is safe, and a dash otherwise. */
  predicate KeptAs(c: char, d: char) {
    if 'a' <= c <= 'z' || 'A' <= c <= 'Z' || '0' <= c <= '9' || c in {'-', '_', '.'} then d == c else d == '-'
  }

  /** Nothing but dashes and dots is left of a character. */
  predicate NothingToKeep(c: char) {
    !('a' <= c <= 'z' || 'A' <= c <= 'Z' || '0' <= c <= '9' || c == '_')
  }

  lemma CleanedIs(from: string)
    ensures |Cleaned(from)| == |from|
    ensures forall k :: 0 <= k < |from| ==> KeptAs(from[k], Cleaned(from)[k])
    ensures forall k :: 0 <= k < |from| ==> (Edge(Cleaned(from)[k]) <==> NothingToKeep(from[k]))
  {}

  /**
   A base is the name, character by character, from its first that is more than
   a dash or a dot to its last, or to the 96th from there; and "model" if there
   is none.
   */
  lemma BaseIsTheName(from: string) returns (i: nat, j: nat)
    ensures i <= j <= |from| && forall k :: 0 <= k < i || j <= k < |from| ==> NothingToKeep(from[k])
    ensures i == j ==> Base(from) == "model"
    ensures i < j ==> !NothingToKeep(from[i]) && !NothingToKeep(from[j - 1])
    ensures i < j ==> |Base(from)| == if j - i <= 96 then j - i else 96
    ensures i < j ==> forall k :: 0 <= k < |Base(from)| ==> KeptAs(from[i + k], Base(from)[k])
  {
    CleanedIs(from);
    var cleaned := Cleaned(from);
    i, j := TrimmedIs(cleaned);
    if i < j {
      var base := Base(from);
      forall k | 0 <= k < |base| ensures base[k] == cleaned[i + k] { assert cleaned[i..j][k] == cleaned[i + k]; }
    }
  }

  /** A name that is already a usable handle is its own. */
  lemma UsableNamesAreKept(from: string)
    requires 0 < |from| <= LONGEST_BASE && AllSafe(from) && !Edge(from[0]) && !Edge(from[|from| - 1])
    ensures Base(from) == from
  {}

  // ------------------------------------------------------------ decimal print

  function Digit(n: nat): char
    requires n < 10
  {
    ('0' as int + n) as char
  }

  function Decimal(n: nat): string {
    if n < 10 then [Digit(n)] else Decimal(n / 10) + [Digit(n % 10)]
  }

  lemma {:induction false} DecimalIsInjective(a: nat, b: nat)
    requires Decimal(a) == Decimal(b)
    ensures a == b
  {
    DecimalIsSafe(a / 10);
    DecimalIsSafe(b / 10);
    var last := |Decimal(a)| - 1;
    assert Decimal(a)[last] == Decimal(b)[last];
    if a >= 10 && b >= 10 {
      assert Decimal(a)[..last] == Decimal(a / 10) && Decimal(b)[..last] == Decimal(b / 10);
      DecimalIsInjective(a / 10, b / 10);
    }
  }

  lemma {:induction false} DecimalIsSafe(n: nat)
    ensures Decimal(n) != [] && AllSafe(Decimal(n))
  {
    if n >= 10 { DecimalIsSafe(n / 10); }
  }

  /** The number a row of digits spells. */
  function NumberOf(digits: string): int {
    if digits == [] then 0
    else 10 * NumberOf(digits[..|digits| - 1]) + (digits[|digits| - 1] as int - '0' as int)
  }

  /** A number is printed in digits that spell it, and without a leading zero. */
  lemma {:induction false} DecimalSpellsIt(n: nat)
    ensures NumberOf(Decimal(n)) == n && forall i :: 0 <= i < |Decimal(n)| ==> '0' <= Decimal(n)[i] <= '9'
    ensures Decimal(n) != [] && (n > 0 ==> Decimal(n)[0] != '0')
  {
    if n >= 10 {
      DecimalSpellsIt(n / 10);
      assert Decimal(n)[..|Decimal(n)| - 1] == Decimal(n / 10);
    } else {
      assert Decimal(n)[..0] == [];
    }
  }

  // ------------------------------------------------------------------ minting

  function Candidate(base: string, n: nat): string {
    base + "-" + Decimal(n)
  }

  /** The `n`-th candidate is the base, a dash and `n` in digits. */
  lemma CandidateIs(base: string, n: nat)
    ensures exists digits :: Candidate(base, n) == base + "-" + digits && NumberOf(digits) == n
                          && (forall i :: 0 <= i < |digits| ==> '0' <= digits[i] <= '9') && (n > 0 ==> digits[0] != '0')
  {
    DecimalSpellsIt(n);
    assert Candidate(base, n) == base + "-" + Decimal(n);
  }

  lemma CandidatesDiffer(base: string, m: nat, n: nat)
    requires Candidate(base, m) == Candidate(base, n)
    ensures m == n
  {
    assert Candidate(base, m)[|base| + 1..] == Decimal(m);
    assert Candidate(base, n)[|base| + 1..] == Decimal(n);
    DecimalIsInjective(m, n);
  }

  /** The base and its suffixes below `k`. */
  function Family(base: string, k: nat): set<string>
    requires k >= 2
  {
    if k == 2 then {base} else Family(base, k - 1) + {Candidate(base, k - 1)}
  }

  lemma {:induction false} FamilyMembers(base: string, k: nat, name: string)
    requires k >= 2
    ensures name in Family(base, k) <==> name == base || exists n :: 2 <= n < k && name == Candidate(base, n)
  {
    if k > 2 { FamilyMembers(base, k - 1, name); }
  }

  /** No two of a family are the same name, so it has as many members as it looks to have. */
  lemma {:induction false} FamilySize(base: string, k: nat)
    requires k >= 2
    ensures |Family(base, k)| == k - 1
  {
    if k > 2 {
      FamilySize(base, k - 1);
      var last := Candidate(base, k - 1);
      FamilyMembers(base, k - 1, last);
      assert |last| > |base|;
      forall n | 2 <= n < k - 1 ensures Candidate(base, n) != last {
        if Candidate(base, n) == last { CandidatesDiffer(base, n, k - 1); }
      }
    }
  }

  lemma SubsetIsNoLarger(a: set<string>, b: set<string>)
    requires a <= b
    ensures |a| <= |b|
  {
    assert b == a + (b - a);
  }

  ghost predicate AllTaken(base: string, taken: set<string>, k: nat) {
    base in taken && forall n :: 2 <= n < k ==> Candidate(base, n) in taken
  }

  /** With fewer than 999 handles taken, one of a base and its suffixes is free; with 999 there may be none. */
  lemma RoomBelowTheLimit(base: string)
    ensures forall taken :: AllTaken(base, taken, 1000) ==> |taken| >= 999
    ensures exists taken :: AllTaken(base, taken, 1000) && |taken| == 999
  {
    var family := Family(base, SUFFIX_LIMIT);
    FamilySize(base, SUFFIX_LIMIT);
    forall taken | AllTaken(base, taken, SUFFIX_LIMIT) ensures |taken| >= SUFFIX_LIMIT - 1 {
      forall name | name in family ensures name in taken {
        FamilyMembers(base, SUFFIX_LIMIT, name);
      }
      SubsetIsNoLarger(family, taken);
    }
    FamilyMembers(base, SUFFIX_LIMIT, base);
    forall n | 2 <= n < SUFFIX_LIMIT ensures Candidate(base, n) in family {
      FamilyMembers(base, SUFFIX_LIMIT, Candidate(base, n));
    }
    assert AllTaken(base, family, SUFFIX_LIMIT);
  }

  lemma CandidateIsSafe(base: string, n: nat)
    requires AllSafe(base)
    ensures AllSafe(Candidate(base, n))
  {
    DecimalIsSafe(n);
  }

  /** `unique` is the fallback suffix: thirty-two hexadecimal digits nothing else has. */
  method MintHandle(from: string, taken: set<string>, unique: string) returns (handle: string)
    requires AllSafe(unique)
    ensures handle != [] && AllSafe(handle)
    ensures Base(from) !in taken ==> handle == Base(from)
    ensures forall n ::
      2 <= n < 1000 && AllTaken(Base(from), taken, n) && Candidate(Base(from), n) !in taken ==>
      handle == Candidate(Base(from), n)
    ensures AllTaken(Base(from), taken, 1000) ==> handle == Base(from) + "-" + unique
    ensures |taken| < 999 ==> handle !in taken
  {
    var base := Base(from);
    BaseIsUsable(from);
    if base !in taken {
      return base;
    }
    for n := 2 to SUFFIX_LIMIT
      invariant AllTaken(base, taken, n)
    {
      var candidate := Candidate(base, n);
      if candidate !in taken {
        CandidateIsSafe(base, n);
        return candidate;
      }
    }
    RoomBelowTheLimit(base);
    handle := base + "-" + unique;
  }
}
