/**
 What the counters never exceed, when the library continues every part it is
 asked to continue: over whole runs, for the attempt and for the record a
 poller reads.
 */
module PipelineBytes {
  import opened Wrappers
  import opened Library
  import opened Records
  import opened Pipeline
  import opened PipelineInvariant
  import opened PipelineTheorems

  /** If this is an answer to a ranged request of attempt `n`, it is a partial one. */
  predicate HonouredAt(s: Node, a: Action, n: nat) {
    a.Answer? && a.n == n && n in s.tasks && s.tasks[n].phase.Asking? && s.tasks[n].phase.have > 0 ==> a.partial
  }

  /** Every range attempt `n` has asked for so far was honoured. */
  ghost predicate Honoured(states: seq<Node>, actions: seq<Action>, i: nat, n: nat)
    requires i <= |actions| < |states|
  {
    forall k :: 0 <= k < i ==> HonouredAt(states[k], actions[k], n)
  }

  /** The most an attempt can have counted by now, if nothing was counted twice. */
  function Countable(t: Task): nat {
    var files := t.plan.files;
    match t.phase
    case Spawned => 0
    case Preparing => 0
    case Looking(i) => if i <= |files| then SumSizes(files, i) else 0
    case Asking(i, have) => if i < |files| then SumSizes(files, i) + have else 0
    case Opening(i, have, _) => if i < |files| then SumSizes(files, i) + have else 0
    case Writing(i, pos, _) => if i < |files| then SumSizes(files, i) + pos else 0
    case Marking(i) => if i < |files| then SumSizes(files, i + 1) else 0
    case _ => SumSizes(files, |files|)
  }

  /** Nothing was discarded, nor is about to be, and nothing counted twice. */
  predicate NothingLost(t: Task) {
    && t.discarded == 0 && t.counter <= Countable(t)
    && (t.phase.Opening? && !t.phase.continuing ==> t.phase.have == 0)
  }

  /** Whatever a phase allows to be counted is within the whole. */
  lemma CountableIsBounded(lib: Remote, n: nat, p: Place, home: Option<Home>)
    requires PhaseOk(lib, n, p, home)
    ensures Countable(p.task) <= SumSizes(p.task.plan.files, |p.task.plan.files|)
  {
    var files := p.task.plan.files;
    match p.task.phase
    case Looking(i) => SumSizesMonotone(files, i, |files|);
    case Asking(i, _) => SumSizesMonotone(files, i + 1, |files|);
    case Opening(i, _, _) => SumSizesMonotone(files, i + 1, |files|);
    case Writing(i, _, _) => SumSizesMonotone(files, i + 1, |files|);
    case Marking(i) => SumSizesMonotone(files, i + 1, |files|);
    case _ =>
  }

  lemma FetchLosesNothing(lib: Remote, n: nat, p: Place, home: Option<Home>, cancelled: set<Token>, a: Action)
    requires a.Look? || a.Answer? || a.Open? || a.Chunk? || a.CloseFile? || a.Mark?
    requires CanAct(lib, p, cancelled, a) && PhaseOk(lib, n, p, home) && NothingLost(p.task)
    requires a.Answer? && p.task.phase.have > 0 ==> a.partial
    ensures NothingLost(Act(lib, p, cancelled, a).task)
  {}

  /** No step of an attempt's own loses anything, as long as its ranges are honoured. */
  lemma ActLosesNothing(lib: Remote, n: nat, p: Place, home: Option<Home>, cancelled: set<Token>, a: Action)
    requires OwnAction(a) && CanAct(lib, p, cancelled, a) && PhaseOk(lib, n, p, home) && NothingLost(p.task)
    requires a.Answer? && p.task.phase.have > 0 ==> a.partial
    ensures NothingLost(Act(lib, p, cancelled, a).task)
  {
    CountableIsBounded(lib, n, p, home);
    if a.Look? || a.Answer? || a.Open? || a.Chunk? || a.CloseFile? || a.Mark? {
      FetchLosesNothing(lib, n, p, home, cancelled, a);
    }
  }

  lemma WipedLosesNothing(s: Node, id: Id, n: nat)
    requires n in s.tasks && NothingLost(s.tasks[n])
    ensures n in ForgetWiped(s, id).tasks && NothingLost(ForgetWiped(s, id).tasks[n])
  {
    assert ForgetWiped(s, id).tasks[n] == Orphan(s.tasks[n], id);
  }

  lemma RecordingLosesNothing(s: Node, a: Action, n: nat)
    requires a.WriteEntry? || a.CommitEntry? || a.Remember?
    requires FilingEnabled(s, a) && n in s.tasks && n in FilingStep(s, a).tasks && NothingLost(s.tasks[n])
    ensures NothingLost(FilingStep(s, a).tasks[n])
  {}

  lemma FilingLosesNothing(s: Node, a: Action, n: nat)
    requires IsFiling(a) && FilingEnabled(s, a) && n in s.tasks && n in FilingStep(s, a).tasks
    requires NothingLost(s.tasks[n])
    ensures NothingLost(FilingStep(s, a).tasks[n])
  {
    if a.WriteEntry? || a.CommitEntry? || a.Remember? { RecordingLosesNothing(s, a, n); }
  }

  /** Nor does anything the rest of the machine does to an attempt, or with it. */
  lemma OthersLoseNothing(lib: Remote, s: Node, a: Action, n: nat)
    requires Enabled(lib, s, a) && !OwnAction(a) && n in s.tasks && n in Step(lib, s, a).tasks
    requires NothingLost(s.tasks[n])
    ensures NothingLost(Step(lib, s, a).tasks[n])
  {
    if a.ForgetWipe? {
      WipedLosesNothing(s, a.id, n);
    } else if IsFiling(a) {
      FilingLosesNothing(s, a, n);
    }
  }

  lemma StepLosesNothing(lib: Remote, s: Node, a: Action, n: nat)
    requires Enabled(lib, s, a) && HonouredAt(s, a, n) && n in s.tasks && n in Step(lib, s, a).tasks
    requires TaskAt(lib, s, n) && NothingLost(s.tasks[n])
    ensures NothingLost(Step(lib, s, a).tasks[n])
  {
    if !OwnAction(a) {
      OthersLoseNothing(lib, s, a, n);
    } else if a.n == n {
      ActLosesNothing(lib, n, PlaceOf(s, n), HomeOf(s, s.tasks[n]), s.book.cancelled, a);
    }
  }

  lemma SpawnedHasNothing(lib: Remote, s: Node, a: Action, n: nat)
    requires Enabled(lib, s, a) && n !in s.tasks && n in Step(lib, s, a).tasks
    ensures NothingLost(Step(lib, s, a).tasks[n])
  {
    if OwnAction(a) { OwnActionKeepsPlans(lib, s, a); }
  }

  lemma {:induction false} NothingLostOnRun(lib: Remote, states: seq<Node>, actions: seq<Action>, i: nat, n: nat)
    requires Runs(lib, states, actions) && i < |states| && n in states[i].tasks && Honoured(states, actions, i, n)
    ensures NothingLost(states[i].tasks[n])
  {
    if i > 0 {
      InvOnRun(lib, states, actions, i - 1);
      assert StepAt(lib, states, actions, i - 1);
      if n in states[i - 1].tasks {
        NothingLostOnRun(lib, states, actions, i - 1, n);
        assert TaskAt(lib, states[i - 1], n);
        StepLosesNothing(lib, states[i - 1], actions[i - 1], n);
      } else {
        SpawnedHasNothing(lib, states[i - 1], actions[i - 1], n);
      }
    }
  }

  /**
   An attempt whose every ranged request was answered in part has discarded
   nothing, and has never counted more than the size of its download: not even
   one whose directory was taken from it.
   */
  lemma NeverPastTheTotal(lib: Remote, states: seq<Node>, actions: seq<Action>, i: nat, n: nat)
    requires Runs(lib, states, actions) && i < |states| && n in states[i].tasks && Honoured(states, actions, i, n)
    ensures states[i].tasks[n].discarded == 0
    ensures states[i].tasks[n].counter <= states[i].tasks[n].plan.sizeBytes
  {
    NothingLostOnRun(lib, states, actions, i, n);
    InvOnRun(lib, states, actions, i);
    assert TaskAt(lib, states[i], n);
    CountableIsBounded(lib, n, PlaceOf(states[i], n), HomeOf(states[i], states[i].tasks[n]));
  }

  // ------------------------------------------------- what exactly was discarded

  /** What this step throws away of what attempt `n` held: the part it opens afresh instead of continuing. */
  function DiscardedAt(s: Node, a: Action, n: nat): nat {
    if a.Open? && a.n == n && n in s.tasks && s.tasks[n].phase.Opening? && !s.tasks[n].phase.continuing
    then s.tasks[n].phase.have else 0
  }

  function DiscardedSoFar(states: seq<Node>, actions: seq<Action>, i: nat, n: nat): nat
    requires i <= |actions| < |states|
  {
    if i == 0 then 0 else DiscardedSoFar(states, actions, i - 1, n) + DiscardedAt(states[i - 1], actions[i - 1], n)
  }

  lemma OwnStepDiscards(lib: Remote, s: Node, a: Action, n: nat)
    requires OwnAction(a) && Enabled(lib, s, a) && n in s.tasks
    ensures n in Step(lib, s, a).tasks
    ensures Step(lib, s, a).tasks[n].discarded == s.tasks[n].discarded + DiscardedAt(s, a, n)
  {
    OwnActionKeepsTokens(lib, s, a, n);
    if a.n == n { DiscardedOnlyWhenNotContinued(lib, PlaceOf(s, n), s.book.cancelled, a); }
  }

  lemma OthersDiscardNothing(lib: Remote, s: Node, a: Action, n: nat)
    requires !OwnAction(a) && Enabled(lib, s, a) && n in s.tasks && n in Step(lib, s, a).tasks && n < s.book.next
    ensures Step(lib, s, a).tasks[n].discarded == s.tasks[n].discarded
  {
    if a.ForgetWipe? { assert Step(lib, s, a).tasks[n] == Orphan(s.tasks[n], a.id); }
  }

  lemma StepDiscards(lib: Remote, s: Node, a: Action, n: nat)
    requires Enabled(lib, s, a) && n in s.tasks && n in Step(lib, s, a).tasks && n < s.book.next
    ensures Step(lib, s, a).tasks[n].discarded == s.tasks[n].discarded + DiscardedAt(s, a, n)
  {
    if OwnAction(a) { OwnStepDiscards(lib, s, a, n); } else { OthersDiscardNothing(lib, s, a, n); }
  }

  /** Before an attempt is spawned nothing is thrown away on its behalf. */
  lemma {:induction false} NothingBeforeSpawning(lib: Remote, states: seq<Node>, actions: seq<Action>, i: nat, n: nat)
    requires Runs(lib, states, actions) && i < |states| && states[i].book.next <= n
    ensures DiscardedSoFar(states, actions, i, n) == 0
  {
    if i > 0 {
      InvOnRun(lib, states, actions, i - 1);
      TokensGrowOnRun(lib, states, actions, i - 1, i);
      NothingBeforeSpawning(lib, states, actions, i - 1, n);
    }
  }

  /** What an attempt has discarded is exactly the parts it opened afresh, over the whole run. */
  lemma {:induction false} DiscardsAreCounted(lib: Remote, states: seq<Node>, actions: seq<Action>, i: nat, n: nat)
    requires Runs(lib, states, actions) && i < |states| && n in states[i].tasks
    ensures states[i].tasks[n].discarded == DiscardedSoFar(states, actions, i, n)
  {
    if i > 0 {
      var s, a := states[i - 1], actions[i - 1];
      InvOnRun(lib, states, actions, i - 1);
      assert StepAt(lib, states, actions, i - 1);
      if n in s.tasks {
        DiscardsAreCounted(lib, states, actions, i - 1, n);
        StepDiscards(lib, s, a, n);
      } else {
        SpawnedIsNext(lib, s, a, n);
        SpawnedHasNothing(lib, s, a, n);
        NothingBeforeSpawning(lib, states, actions, i - 1, n);
      }
    }
  }

  // ------------------------------------------------------- what a poller reads

  /** Every range asked for on behalf of download `id` so far was honoured. */
  ghost predicate HonouredFor(states: seq<Node>, actions: seq<Action>, i: nat, id: Id)
    requires i <= |actions| < |states|
  {
    forall k, n :: 0 <= k < i && n in states[k].tasks && states[k].tasks[n].id == id ==>
      HonouredAt(states[k], actions[k], n)
  }

  lemma TokensGrow(lib: Remote, s: Node, a: Action)
    requires Enabled(lib, s, a)
    ensures s.book.next <= Step(lib, s, a).book.next
  {}

  lemma {:induction false} TokensGrowOnRun(lib: Remote, states: seq<Node>, actions: seq<Action>, k: nat, i: nat)
    requires Runs(lib, states, actions) && k <= i < |states|
    ensures states[k].book.next <= states[i].book.next
    decreases i
  {
    if k < i {
      TokensGrowOnRun(lib, states, actions, k, i - 1);
      assert StepAt(lib, states, actions, i - 1);
      TokensGrow(lib, states[i - 1], actions[i - 1]);
    }
  }

  lemma WasThereBefore(lib: Remote, states: seq<Node>, actions: seq<Action>, k: nat, i: nat, n: nat)
    requires Runs(lib, states, actions) && k <= i < |actions| && n in states[k].tasks && n in states[i + 1].tasks
    ensures n in states[i].tasks && states[i].tasks[n].id == states[i + 1].tasks[n].id
  {
    InvOnRun(lib, states, actions, i);
    InvOnRun(lib, states, actions, k);
    TokensGrowOnRun(lib, states, actions, k, i);
    assert StepAt(lib, states, actions, i);
    if n !in states[i].tasks { SpawnedIsNext(lib, states[i], actions[i], n); }
    SameDownload(lib, states[i], actions[i], n);
  }

  /** An attempt works on one download as long as it lives, and does not come back. */
  lemma {:induction false} AttemptKeepsItsDownload(lib: Remote, states: seq<Node>, actions: seq<Action>, k: nat,
                                                   i: nat, n: nat)
    requires Runs(lib, states, actions) && k <= i < |states| && n in states[k].tasks && n in states[i].tasks
    ensures states[k].tasks[n].id == states[i].tasks[n].id
    decreases i
  {
    if k < i {
      WasThereBefore(lib, states, actions, k, i - 1, n);
      AttemptKeepsItsDownload(lib, states, actions, k, i - 1, n);
    }
  }

  lemma SpawnedIsNext(lib: Remote, s: Node, a: Action, n: nat)
    requires Enabled(lib, s, a) && n !in s.tasks && n in Step(lib, s, a).tasks
    ensures n == s.book.next
  {
    if OwnAction(a) { OwnActionKeepsPlans(lib, s, a); } else { AttemptsCarried(lib, s, a, n); }
  }

  /** The published count of a record is its attempt's, or the total, or what it was. */
  ghost predicate PublishedFrom(s: Node, a: Action, pull: Pull, id: Id) {
    || pull.bytesDone == 0
    || (id in s.book.inner && (pull.bytesDone == s.book.inner[id].pull.bytesDone
                               || pull.bytesDone == s.book.inner[id].pull.bytesTotal))
    || (a.Tick? && a.n in s.tasks && s.tasks[a.n].id == id && id in s.book.inner
        && pull.bytesDone == s.tasks[a.n].counter)
  }

  lemma PublishedByAttempt(lib: Remote, s: Node, a: Action, id: Id)
    requires OwnAction(a) && Enabled(lib, s, a) && id in Step(lib, s, a).book.inner
    ensures PublishedFrom(s, a, Step(lib, s, a).book.inner[id].pull, id)
  {
    StepsAreLockSections(lib, s, a);
  }

  lemma PublishedByCall(lib: Remote, s: Node, a: Action, id: Id)
    requires !OwnAction(a) && !LeavesBook(a) && Enabled(lib, s, a) && id in Step(lib, s, a).book.inner
    ensures PublishedFrom(s, a, Step(lib, s, a).book.inner[id].pull, id)
  {}

  lemma Published(lib: Remote, s: Node, a: Action, id: Id)
    requires Enabled(lib, s, a) && id in Step(lib, s, a).book.inner
    ensures PublishedFrom(s, a, Step(lib, s, a).book.inner[id].pull, id)
  {
    if OwnAction(a) {
      PublishedByAttempt(lib, s, a, id);
    } else if LeavesBook(a) {
      BookLeftAlone(lib, s, a);
    } else {
      PublishedByCall(lib, s, a, id);
    }
  }

  /** What is said of a download's ranges is said of each of its attempts'. */
  lemma HonouredByEach(lib: Remote, states: seq<Node>, actions: seq<Action>, i: nat, id: Id, n: nat)
    requires Runs(lib, states, actions) && i < |states| && HonouredFor(states, actions, i, id)
    requires n in states[i].tasks && states[i].tasks[n].id == id
    ensures Honoured(states, actions, i, n)
  {
    forall k | 0 <= k < i ensures HonouredAt(states[k], actions[k], n) {
      if n in states[k].tasks { AttemptKeepsItsDownload(lib, states, actions, k, i, n); }
    }
  }

  /** A record's total does not change while it is tracked. */
  lemma SameTotal(lib: Remote, s: Node, a: Action, id: Id)
    requires Enabled(lib, s, a) && id in s.book.inner && id in Step(lib, s, a).book.inner
    requires RecordAt(lib, s, id) && RecordAt(lib, Step(lib, s, a), id) && s.book.inner.Keys <= s.minted
    ensures Step(lib, s, a).book.inner[id].pull.bytesTotal == s.book.inner[id].pull.bytesTotal
  {
    if OwnAction(a) {
      OwnActionKeepsPlans(lib, s, a);
    } else {
      RecordsCarried(lib, s, a, id);
    }
  }

  /** What a tick publishes is within the record's total. */
  lemma TickIsWithin(lib: Remote, states: seq<Node>, actions: seq<Action>, i: nat, id: Id)
    requires Runs(lib, states, actions) && i < |actions| && HonouredFor(states, actions, i, id)
    requires actions[i].Tick? && actions[i].n in states[i].tasks && states[i].tasks[actions[i].n].id == id
    requires id in states[i].book.inner
    ensures states[i].tasks[actions[i].n].counter <= states[i].book.inner[id].pull.bytesTotal
  {
    var n := actions[i].n;
    HonouredByEach(lib, states, actions, i, id, n);
    NeverPastTheTotal(lib, states, actions, i, n);
    InvOnRun(lib, states, actions, i);
    assert TaskAt(lib, states[i], n) && RecordAt(lib, states[i], id);
    assert RecordAgrees(n, PlaceOf(states[i], n));
  }

  lemma TotalStays(lib: Remote, states: seq<Node>, actions: seq<Action>, i: nat, id: Id)
    requires Runs(lib, states, actions) && i < |actions| && id in states[i].book.inner && id in states[i + 1].book.inner
    ensures states[i + 1].book.inner[id].pull.bytesTotal == states[i].book.inner[id].pull.bytesTotal
  {
    InvOnRun(lib, states, actions, i);
    InvOnRun(lib, states, actions, i + 1);
    assert StepAt(lib, states, actions, i);
    assert RecordAt(lib, states[i], id) && RecordAt(lib, states[i + 1], id);
    SameTotal(lib, states[i], actions[i], id);
  }

  lemma PublishedOnRun(lib: Remote, states: seq<Node>, actions: seq<Action>, i: nat, id: Id)
    requires Runs(lib, states, actions) && i < |actions| && id in states[i + 1].book.inner
    ensures PublishedFrom(states[i], actions[i], states[i + 1].book.inner[id].pull, id)
  {
    assert StepAt(lib, states, actions, i);
    Published(lib, states[i], actions[i], id);
  }

  /** A poller never reads more bytes than there are, if every range asked for on the download's behalf was honoured. */
  lemma {:induction false} RecordNeverPastTheTotal(lib: Remote, states: seq<Node>, actions: seq<Action>, i: nat, id: Id)
    requires Runs(lib, states, actions) && i < |states| && id in states[i].book.inner
    requires HonouredFor(states, actions, i, id)
    ensures states[i].book.inner[id].pull.bytesDone <= states[i].book.inner[id].pull.bytesTotal
  {
    if i > 0 {
      var s, a := states[i - 1], actions[i - 1];
      PublishedOnRun(lib, states, actions, i - 1, id);
      if id in s.book.inner {
        RecordNeverPastTheTotal(lib, states, actions, i - 1, id);
        TotalStays(lib, states, actions, i - 1, id);
        if a.Tick? && a.n in s.tasks && s.tasks[a.n].id == id { TickIsWithin(lib, states, actions, i - 1, id); }
      }
    }
  }
}
