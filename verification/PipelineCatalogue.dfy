/**
 The catalogue under interleaving: what a boot would find after any step, and
 how that and what is listed in memory go together.
 */
module PipelineCatalogue {
  import opened Library
  import opened Models
  import opened Records
  import opened Pipeline
  import opened PipelineInvariant
  import opened PipelineTheorems

  // ------------------------------------------------------- memory and disk

  /** The map a boot would read, after a step that commits an entry, deletes a directory, or does neither. */
  ghost function Seen(lib: Remote, s: Node, a: Action): map<Uid, ModelEntry>
    requires Enabled(lib, s, a)
  {
    match a
    case CommitEntry(n) => Reopen(s.shelf)[s.tasks[n].phase.entry.uid := s.tasks[n].phase.entry]
    case UpdateCommit => Reopen(s.shelf)[s.saving.value.uid := s.saving.value.entry]
    case RemoveDirectory(uid) => Reopen(s.shelf) - {uid}
    case _ => Reopen(s.shelf)
  }

  lemma EntryCommitSeen(lib: Remote, s: Node, n: nat)
    requires n in s.tasks && TaskAt(lib, s, n) && Filed(s.shelf) && s.tasks[n].phase.Committing?
    requires s.tasks[n].phase.entry.uid in s.shelf && s.shelf[s.tasks[n].phase.entry.uid].temp.Some?
    ensures Reopen(EntryCommitted(s, n).shelf) == Reopen(s.shelf)[s.tasks[n].phase.entry.uid := s.tasks[n].phase.entry]
  {}

  lemma UpdateCommitSeen(s: Node)
    requires SavingAt(s) && Filed(s.shelf) && s.saving.Some? && !s.saving.value.committed
    requires s.saving.value.uid in s.shelf && s.shelf[s.saving.value.uid].temp.Some?
    ensures Reopen(UpdateCommitted(s).shelf) == Reopen(s.shelf)[s.saving.value.uid := s.saving.value.entry]
  {}

  lemma MoveUnseen(s: Node, n: nat)
    requires n in s.tasks && s.tasks[n].phase.Placing? && s.tasks[n].id in s.incoming && s.tasks[n].phase.uid in s.shelf
    ensures Reopen(Moved(s, n).shelf) == Reopen(s.shelf)
  {}

  predicate LeavesShelf(a: Action) {
    && !a.MintUid? && !a.PutInPlace? && !a.WriteEntry? && !a.CommitEntry?
    && !a.UpdateWrite? && !a.UpdateCommit? && !a.RemoveDirectory?
  }

  lemma OwnActionLeavesShelf(lib: Remote, s: Node, a: Action)
    requires OwnAction(a) && Enabled(lib, s, a)
    ensures Step(lib, s, a).shelf == s.shelf
  {}

  lemma ShelfLeftAlone(lib: Remote, s: Node, a: Action)
    requires Enabled(lib, s, a) && LeavesShelf(a) && !OwnAction(a)
    ensures Step(lib, s, a).shelf == s.shelf
  {}

  lemma WriteSeen(lib: Remote, s: Node, a: Action)
    requires Enabled(lib, s, a) && Filed(s.shelf) && !OwnAction(a) && !LeavesShelf(a)
    requires a.CommitEntry? ==> TaskAt(lib, s, a.n)
    requires a.UpdateCommit? ==> SavingAt(s)
    ensures Reopen(Step(lib, s, a).shelf) == Seen(lib, s, a)
  {
    match a
    case MintUid(_, uid) => StepsSeenByABoot(s.shelf, uid);
    case PutInPlace(n) => MoveUnseen(s, n);
    case WriteEntry(n) => StepsSeenByABoot(s.shelf, s.tasks[n].phase.entry.uid);
    case CommitEntry(n) => EntryCommitSeen(lib, s, n);
    case UpdateWrite(uid, _) => StepsSeenByABoot(s.shelf, uid);
    case UpdateCommit => UpdateCommitSeen(s);
    case RemoveDirectory(uid) => StepsSeenByABoot(s.shelf, uid);
  }

  lemma StepSeen(lib: Remote, s: Node, a: Action)
    requires Enabled(lib, s, a) && Filed(s.shelf)
    requires a.CommitEntry? ==> TaskAt(lib, s, a.n)
    requires a.UpdateCommit? ==> SavingAt(s)
    ensures Reopen(Step(lib, s, a).shelf) == Seen(lib, s, a)
  {
    if OwnAction(a) {
      OwnActionLeavesShelf(lib, s, a);
    } else if LeavesShelf(a) {
      ShelfLeftAlone(lib, s, a);
    } else {
      WriteSeen(lib, s, a);
    }
  }

  // ------------------------------------------------- what is on the disk is listed

  /** An attempt has renamed the entry of `u` into place and is about to list it. */
  ghost predicate OnItsWay(s: Node, u: Uid) {
    exists n :: n in s.tasks && s.tasks[n].phase.Remembering? && s.tasks[n].phase.entry.uid == u
  }

  /** What a boot would list of the disk is listed; or it is being removed, or about to be listed. */
  ghost predicate DiskListed(s: Node) {
    forall u :: u in Reopen(s.shelf) ==> u in s.entries || u in s.removing || OnItsWay(s, u)
  }

  lemma ActsLeaveItThere(lib: Remote, s: Node, a: Action, n: nat)
    requires OwnAction(a) && Enabled(lib, s, a) && n in s.tasks && s.tasks[n].phase.Remembering?
    ensures n in Step(lib, s, a).tasks && Step(lib, s, a).tasks[n].phase == s.tasks[n].phase
  {
    assert a.n != n;
  }

  /** Only being listed, or a restart, takes an attempt out of this phase. */
  lemma StaysOnItsWay(lib: Remote, s: Node, a: Action, n: nat)
    requires IdsOk(s) && Enabled(lib, s, a) && !a.Restart? && n in s.tasks && s.tasks[n].phase.Remembering?
    ensures a == Remember(n) || (n in Step(lib, s, a).tasks && Step(lib, s, a).tasks[n].phase == s.tasks[n].phase)
  {
    if OwnAction(a) {
      ActsLeaveItThere(lib, s, a, n);
    } else if a.ForgetWipe? {
      assert Step(lib, s, a).tasks[n] == Orphan(s.tasks[n], a.id);
    }
  }

  lemma EntriesStay(lib: Remote, s: Node, a: Action, u: Uid)
    requires Enabled(lib, s, a) && !a.Restart?
    ensures u in s.entries ==> u in Step(lib, s, a).entries || u in Step(lib, s, a).removing
    ensures u in s.removing ==> u in Step(lib, s, a).removing
  {}

  lemma ListedStays(lib: Remote, s: Node, a: Action, u: Uid)
    requires IdsOk(s) && Enabled(lib, s, a) && !a.Restart?
    requires u in s.entries || u in s.removing || OnItsWay(s, u)
    ensures
      var s' := Step(lib, s, a);
      u in s'.entries || u in s'.removing || OnItsWay(s', u)
  {
    EntriesStay(lib, s, a, u);
    if n :| n in s.tasks && s.tasks[n].phase.Remembering? && s.tasks[n].phase.entry.uid == u {
      StaysOnItsWay(lib, s, a, n);
    }
  }

  lemma NewlyOnItsWay(lib: Remote, s: Node, n: nat)
    requires Enabled(lib, s, CommitEntry(n))
    ensures OnItsWay(Step(lib, s, CommitEntry(n)), s.tasks[n].phase.entry.uid)
  {
    assert Step(lib, s, CommitEntry(n)).tasks[n].phase == Remembering(s.tasks[n].phase.entry);
  }

  /** What a step makes a boot see was seen before, or is an attempt's own entry, or an update's. */
  lemma SeenBefore(lib: Remote, s: Node, a: Action, u: Uid)
    requires Inv(lib, s) && Enabled(lib, s, a) && u in Seen(lib, s, a)
    ensures u in Reopen(s.shelf) || (a.CommitEntry? && u == s.tasks[a.n].phase.entry.uid) || u in s.entries
  {}

  lemma DiskListedStep(lib: Remote, s: Node, a: Action)
    requires Inv(lib, s) && Filed(s.shelf) && Enabled(lib, s, a) && DiskListed(s) && !a.Restart?
    ensures DiskListed(Step(lib, s, a))
  {
    if a.CommitEntry? { assert TaskAt(lib, s, a.n); }
    StepSeen(lib, s, a);
    var s' := Step(lib, s, a);
    forall u | u in Reopen(s'.shelf) ensures u in s'.entries || u in s'.removing || OnItsWay(s', u) {
      SeenBefore(lib, s, a, u);
      if a.CommitEntry? && u == s.tasks[a.n].phase.entry.uid {
        NewlyOnItsWay(lib, s, a.n);
      } else {
        ListedStays(lib, s, a, u);
      }
    }
  }

  lemma DiskListedNext(lib: Remote, states: seq<Node>, actions: seq<Action>, k: nat)
    requires Runs(lib, states, actions) && k < |actions| && DiskListed(states[k])
    ensures DiskListed(states[k + 1])
  {
    InvOnRun(lib, states, actions, k);
    NeverHalfLoadable(lib, states, actions, k);
    assert StepAt(lib, states, actions, k);
    if !actions[k].Restart? { DiskListedStep(lib, states[k], actions[k]); }
  }

  lemma {:induction false} DiskListedOnRun(lib: Remote, states: seq<Node>, actions: seq<Action>, i: nat)
    requires Runs(lib, states, actions) && i < |states|
    ensures DiskListed(states[i])
  {
    if i > 0 {
      DiskListedOnRun(lib, states, actions, i - 1);
      DiskListedNext(lib, states, actions, i - 1);
    }
  }

  /**
   The disk is the plain map at every instant: kill the process after any step
   of any interleaving, and the next boot lists the map with exactly the inserts
   and updates that were renamed and the removals that were carried out. What is
   listed is on the disk word for word, but for an update just renamed; and what
   is on the disk is listed, but for a removal under way and an entry just
   renamed.
   */
  lemma DiskIsTheMap(lib: Remote, states: seq<Node>, actions: seq<Action>, i: nat, survivors: set<Id>)
    requires Runs(lib, states, actions) && i < |actions|
    ensures StepAt(lib, states, actions, i)
    ensures Reboot(states[i + 1], survivors).entries == Seen(lib, states[i], actions[i])
    ensures forall u :: u in states[i].entries && !CommittedFor(u, states[i].saving) ==>
      u in Reopen(states[i].shelf) && Reopen(states[i].shelf)[u] == states[i].entries[u]
    ensures forall u :: u in Reopen(states[i].shelf) ==>
      u in states[i].entries || u in states[i].removing || OnItsWay(states[i], u)
  {
    NeverHalfLoadable(lib, states, actions, i);
    InvOnRun(lib, states, actions, i);
    DiskListedOnRun(lib, states, actions, i);
    assert StepAt(lib, states, actions, i);
    StepSeen(lib, states[i], actions[i]);
    forall u | u in states[i].entries ensures EntryAt(states[i], u) {}
  }
}
