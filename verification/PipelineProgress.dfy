/** What keeps an attempt moving: the promises of the pipeline are not kept by standing still. */
module PipelineProgress {
  import opened Wrappers
  import opened Library
  import opened Models
  import opened Pipeline
  import opened PipelineInvariant
  import opened PipelineTheorems

  /** A text longer than any of these is none of them: there is always an identifier left to mint. */
  lemma {:induction false} SomethingUnused(used: set<string>) returns (name: string)
    ensures forall x :: x in used ==> |x| < |name|
    ensures name !in used
    decreases used
  {
    if used == {} {
      name := "a";
    } else {
      var x :| x in used;
      var other := SomethingUnused(used - {x});
      name := if |x| < |other| then other else x + "a";
    }
  }

  /** Attempt `n` has written all of the file it is writing. */
  predicate FileWritten(s: Node, n: nat) {
    && n in s.tasks && s.tasks[n].phase.Writing? && s.tasks[n].phase.i < |s.tasks[n].plan.files|
    && s.tasks[n].phase.pos == s.tasks[n].plan.files[s.tasks[n].phase.i].size
  }

  /**
   A step that takes attempt `n` forward: its own, neither a failure nor the obeying of a cancel, and
   no file closed short.
   */
  predicate Forward(s: Node, a: Action, n: nat) {
    match a
    case Begin(m) => m == n
    case Prepare(m) => m == n
    case Look(m, _) => m == n
    case Answer(m, _) => m == n
    case Open(m) => m == n
    case Chunk(m, len) => m == n && len > 0
    case CloseFile(m) => m == n && FileWritten(s, n)
    case Mark(m, _) => m == n
    case StartChecking(m, _) => m == n
    case CheckFile(m) => m == n
    case MintUid(m, _) => m == n
    case PutInPlace(m) => m == n
    case Compose(m, _) => m == n
    case WriteEntry(m) => m == n
    case CommitEntry(m) => m == n
    case Remember(m) => m == n
    case Settle(m, _) => m == n
    case _ => false
  }

  /** What an attempt that is fetching or checking can do next. */
  lemma FetchingGoesOn(lib: Remote, s: Node, n: nat) returns (a: Action)
    requires n in s.tasks && TaskAt(lib, s, n) && !s.tasks[n].wiped
    requires UidOf(s.tasks[n].phase).None? && !s.tasks[n].phase.Done?
    ensures Forward(s, a, n) && Enabled(lib, s, a)
  {
    match s.tasks[n].phase
    case Spawned => a := Begin(n);
    case Preparing => a := Prepare(n);
    case Looking(_) => a := Look(n, true);
    case Asking(_, _) => a := Answer(n, true);
    case Opening(_, _, _) => a := Open(n);
    case Writing(i, pos, attached) =>
      var size := s.tasks[n].plan.files[i].size;
      a := if pos < size then Chunk(n, size - pos) else CloseFile(n);
    case Marking(_) => a := Mark(n, 0);
    case Fetched => a := StartChecking(n, 0);
    case Checking(k) =>
      if k < |s.tasks[n].plan.files| {
        a := CheckFile(n);
      } else {
        var uid := SomethingUnused(s.minted);
        a := MintUid(n, uid);
      }
  }

  /** What an attempt that is placing or recording its model can do next. */
  lemma PlacingGoesOn(lib: Remote, s: Node, n: nat) returns (a: Action)
    requires n in s.tasks && TaskAt(lib, s, n) && !s.tasks[n].wiped
    requires UidOf(s.tasks[n].phase).Some? || s.tasks[n].phase.Done?
    requires s.tasks[n].phase.Remembering? ==> s.saving.None?
    ensures Forward(s, a, n) && Enabled(lib, s, a)
  {
    match s.tasks[n].phase
    case Placing(_) => a := PutInPlace(n);
    case Placed(uid) =>
      var plan := s.tasks[n].plan;
      a := Compose(n, ModelEntry(uid, plan.repo, plan.revision, plan.name, plan.name,
                                 Facts(None, None, None, |plan.files|, plan.sizeBytes), map[], false, 0));
    case Recording(_) => a := WriteEntry(n);
    case Committing(_) => a := CommitEntry(n);
    case Remembering(_) => a := Remember(n);
    case Done(_) => a := Settle(n, 0);
  }

  ghost predicate GoesOn(lib: Remote, s: Node, n: nat) {
    exists a :: Forward(s, a, n) && Enabled(lib, s, a)
  }

  lemma AttemptGoesOn(lib: Remote, s: Node, n: nat)
    requires n in s.tasks && TaskAt(lib, s, n) && !s.tasks[n].wiped
    requires s.tasks[n].phase.Remembering? ==> s.saving.None?
    ensures GoesOn(lib, s, n)
  {
    if UidOf(s.tasks[n].phase).None? && !s.tasks[n].phase.Done? {
      var a := FetchingGoesOn(lib, s, n);
    } else {
      var a := PlacingGoesOn(lib, s, n);
    }
  }

  lemma UpdateGoesOn(lib: Remote, s: Node)
    requires SavingAt(s) && s.saving.Some?
    ensures Enabled(lib, s, UpdateCommit) || Enabled(lib, s, UpdateRemember)
  {}

  /**
   No attempt is ever stuck. In every state of every run, an attempt whose
   directory no `forget` has taken has a step forward that is open to it;
   except that listing its model waits for an update in progress, which can go
   on itself.
   */
  lemma NeverStuck(lib: Remote, states: seq<Node>, actions: seq<Action>, i: nat, n: nat)
    requires Runs(lib, states, actions) && i < |states| && n in states[i].tasks && !states[i].tasks[n].wiped
    ensures || GoesOn(lib, states[i], n)
            || (states[i].tasks[n].phase.Remembering? && states[i].saving.Some?
                && (Enabled(lib, states[i], UpdateCommit) || Enabled(lib, states[i], UpdateRemember)))
  {
    InvOnRun(lib, states, actions, i);
    assert TaskAt(lib, states[i], n);
    if states[i].tasks[n].phase.Remembering? && states[i].saving.Some? {
      UpdateGoesOn(lib, states[i]);
    } else {
      AttemptGoesOn(lib, states[i], n);
    }
  }
}
