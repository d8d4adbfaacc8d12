/**
 What the listed models are known by: a handle, and the commit they were fetched
 at. Either is looked up among the models listed at that moment, and the model
 is listed later: so two models can come to share one, and this says exactly
 when.
 */
module PipelineListing {
  import opened Wrappers
  import opened Library
  import opened Models
  import opened Records
  import opened Pipeline
  import opened PipelineInvariant
  import opened PipelineTheorems

  /** What a model is looked up by. */
  datatype Key = Handle(handle: string) | Commit(repo: string, revision: string)

  predicate Bears(e: ModelEntry, key: Key) {
    match key
    case Handle(handle) => e.handle == handle
    case Commit(repo, revision) => e.repo == repo && e.revision == revision
  }

  /** Some listed model bears this key. */
  ghost predicate Taken(s: Node, key: Key) {
    exists u :: u in s.entries && Bears(s.entries[u], key)
  }

  /** No two models go by one handle. */
  ghost predicate Distinct(entries: map<Uid, ModelEntry>) {
    forall u, v :: u in entries && v in entries && entries[u].handle == entries[v].handle ==> u == v
  }

  /** The entry an attempt has composed and not yet listed. */
  function Composed(p: Phase): Option<ModelEntry> {
    match p
    case Recording(e) => Some(e)
    case Committing(e) => Some(e)
    case Remembering(e) => Some(e)
    case _ => None
  }

  /** The entry attempt `n` has composed and not yet listed, if it has. */
  function Unlisted(s: Node, n: nat): Option<ModelEntry> {
    if n in s.tasks then Composed(s.tasks[n].phase) else None
  }

  // ------------------------------------------------------ composed, then listed

  lemma ActComposes(lib: Remote, p: Place, cancelled: set<Token>, a: Action)
    requires OwnAction(a) && CanAct(lib, p, cancelled, a)
    ensures
      var e := Composed(Act(lib, p, cancelled, a).task.phase);
      e.Some? ==> (a.Compose? && e == Some(a.entry)) || e == Composed(p.task.phase)
  {}

  /** An attempt with an entry to list composed it now, or had it before. */
  lemma ComposedByStep(lib: Remote, s: Node, a: Action, n: nat)
    requires Enabled(lib, s, a) && Unlisted(Step(lib, s, a), n).Some?
    ensures a == Compose(n, Unlisted(Step(lib, s, a), n).value) || Unlisted(s, n) == Unlisted(Step(lib, s, a), n)
  {
    if OwnAction(a) {
      ActComposes(lib, PlaceOf(s, a.n), s.book.cancelled, a);
    } else if a.ForgetWipe? {
      assert Step(lib, s, a).tasks[n] == Orphan(s.tasks[n], a.id);
    }
  }

  /** Where an attempt composed the entry it has to list; since when it had it. */
  lemma {:induction false} ComposedAt(lib: Remote, states: seq<Node>, actions: seq<Action>, j: nat, n: nat)
    returns (c: nat)
    requires Runs(lib, states, actions) && j < |states| && Unlisted(states[j], n).Some?
    ensures c < j && actions[c] == Compose(n, Unlisted(states[j], n).value)
    ensures forall k :: c < k <= j ==> Unlisted(states[k], n) == Unlisted(states[j], n)
  {
    assert j > 0;
    assert StepAt(lib, states, actions, j - 1);
    ComposedByStep(lib, states[j - 1], actions[j - 1], n);
    if actions[j - 1] == Compose(n, Unlisted(states[j], n).value) {
      c := j - 1;
    } else {
      c := ComposedAt(lib, states, actions, j - 1, n);
    }
  }

  // ------------------------------------------------------- how entries come and go

  predicate ChangesEntries(a: Action) {
    a.Remember? || a.UpdateRemember? || a.RemoveEntry? || a.Restart?
  }

  lemma CallsListNothing(s: Node, a: Action)
    requires IsCall(a)
    ensures CallStep(s, a).entries == s.entries
  {}

  lemma ActsListNothing(lib: Remote, s: Node, a: Action)
    requires OwnAction(a) && Enabled(lib, s, a)
    ensures Step(lib, s, a).entries == s.entries
  {}

  lemma CatalogueLeavesEntries(s: Node, a: Action)
    requires !OwnAction(a) && !IsCall(a) && !IsFiling(a) && CatalogueEnabled(s, a) && !ChangesEntries(a)
    ensures CatalogueStep(s, a).entries == s.entries
  {}

  lemma FilingListsNothing(s: Node, a: Action)
    requires IsFiling(a) && FilingEnabled(s, a) && !a.Remember?
    ensures FilingStep(s, a).entries == s.entries
  {}

  lemma EntriesLeftAlone(lib: Remote, s: Node, a: Action)
    requires Enabled(lib, s, a) && !ChangesEntries(a)
    ensures Step(lib, s, a).entries == s.entries
  {
    if OwnAction(a) {
      ActsListNothing(lib, s, a);
    } else if IsCall(a) {
      CallsListNothing(s, a);
    } else if IsFiling(a) {
      FilingListsNothing(s, a);
    } else {
      CatalogueLeavesEntries(s, a);
    }
  }

  lemma RememberKeepsModels(lib: Remote, s: Node, n: nat, u: Uid)
    requires n in s.tasks && TaskAt(lib, s, n) && s.tasks[n].phase.Remembering? && u in s.entries
    ensures EntryRemembered(s, n).entries[u] == s.entries[u]
  {}

  lemma UpdateKeepsModels(s: Node, u: Uid)
    requires SavingAt(s) && s.saving.Some? && u in s.entries
    ensures SameModel(s.entries[u], UpdateRemembered(s).entries[u])
  {}

  lemma RestartKeepsModels(s: Node, u: Uid, survivors: set<Id>)
    requires u in s.entries && EntryAt(s, u)
    ensures u in Reboot(s, survivors).entries && SameModel(s.entries[u], Reboot(s, survivors).entries[u])
  {}

  lemma ModelKept(lib: Remote, s: Node, a: Action, u: Uid)
    requires SavingAt(s) && Enabled(lib, s, a) && ChangesEntries(a)
    requires u in s.entries && EntryAt(s, u) && u in Step(lib, s, a).entries
    requires a.Remember? ==> TaskAt(lib, s, a.n)
    ensures SameModel(s.entries[u], Step(lib, s, a).entries[u])
  {
    if a.Remember? {
      RememberKeepsModels(lib, s, a.n, u);
    } else if a.UpdateRemember? {
      UpdateKeepsModels(s, u);
    } else if a.Restart? {
      RestartKeepsModels(s, u, a.survivors);
    }
  }

  /** A listed model keeps its handle and its commit for as long as it is listed. */
  lemma ModelStays(lib: Remote, s: Node, a: Action, u: Uid)
    requires Inv(lib, s) && Enabled(lib, s, a) && u in s.entries && u in Step(lib, s, a).entries
    ensures SameModel(s.entries[u], Step(lib, s, a).entries[u])
  {
    assert EntryAt(s, u) && (a.Remember? ==> TaskAt(lib, s, a.n));
    if ChangesEntries(a) { ModelKept(lib, s, a, u); } else { EntriesLeftAlone(lib, s, a); }
  }

  lemma NewlyListed(lib: Remote, s: Node, a: Action, u: Uid)
    requires SavingAt(s) && Enabled(lib, s, a) && ChangesEntries(a) && !a.Restart?
    requires u !in s.entries && u in Step(lib, s, a).entries
    ensures a.Remember? && Unlisted(s, a.n) == Some(Step(lib, s, a).entries[u]) && Unlisted(s, a.n).value.uid == u
  {}

  /** A model comes to be listed by its attempt, or by a boot. */
  lemma ListedByStep(lib: Remote, s: Node, a: Action, u: Uid)
    requires Inv(lib, s) && Enabled(lib, s, a) && u !in s.entries && u in Step(lib, s, a).entries && !a.Restart?
    ensures a.Remember? && Unlisted(s, a.n) == Some(Step(lib, s, a).entries[u]) && Unlisted(s, a.n).value.uid == u
  {
    if ChangesEntries(a) { NewlyListed(lib, s, a, u); } else { EntriesLeftAlone(lib, s, a); }
  }

  /** The `k`-th step lists model `u` that bears this key, and it is still listed after `m` steps. */
  ghost predicate ListedSince(states: seq<Node>, actions: seq<Action>, k: nat, m: nat, u: Uid, key: Key)
    requires k < m < |states| && |states| == |actions| + 1
  {
    && actions[k].Remember? && Unlisted(states[k], actions[k].n).Some?
    && Unlisted(states[k], actions[k].n).value.uid == u && Bears(Unlisted(states[k], actions[k].n).value, key)
    && forall i :: k < i <= m ==> u in states[i].entries
  }

  /** Since step `c`, and up to step `m`, somebody listed a model that bears this key and is still listed. */
  ghost predicate ListedBetween(states: seq<Node>, actions: seq<Action>, c: nat, m: nat, key: Key)
    requires m < |states| && |states| == |actions| + 1
  {
    exists k, u :: c <= k < m && ListedSince(states, actions, k, m, u, key)
  }

  /** After one more step a listed model was listed before, or is listed by that step. */
  lemma ListedLater(lib: Remote, states: seq<Node>, actions: seq<Action>, m: nat, u: Uid, key: Key)
    requires Runs(lib, states, actions) && m < |actions| && u in states[m + 1].entries && !actions[m].Restart?
    requires Bears(states[m + 1].entries[u], key)
    ensures u in states[m].entries ==> Bears(states[m].entries[u], key)
    ensures u !in states[m].entries ==> ListedSince(states, actions, m, m + 1, u, key)
  {
    InvOnRun(lib, states, actions, m);
    assert StepAt(lib, states, actions, m);
    if u in states[m].entries {
      ModelStays(lib, states[m], actions[m], u);
    } else {
      ListedByStep(lib, states[m], actions[m], u);
    }
  }

  /** What bears a key, after a stretch without a restart that began without it, was listed in that stretch. */
  lemma {:induction false} ListedInStretch(lib: Remote, states: seq<Node>, actions: seq<Action>, c: nat, m: nat, u: Uid,
                                           key: Key) returns (k: nat)
    requires Runs(lib, states, actions) && c <= m < |states| && u in states[m].entries
    requires Bears(states[m].entries[u], key) && !Taken(states[c], key)
    requires forall i :: c <= i < m ==> !actions[i].Restart?
    ensures c <= k < m && ListedSince(states, actions, k, m, u, key)
    decreases m
  {
    assert m > c;
    ListedLater(lib, states, actions, m - 1, u, key);
    if u in states[m - 1].entries {
      k := ListedInStretch(lib, states, actions, c, m - 1, u, key);
    } else {
      k := m - 1;
    }
  }

  lemma ListedUnderIt(lib: Remote, states: seq<Node>, actions: seq<Action>, k: nat, m: nat, u: Uid, key: Key)
    requires Runs(lib, states, actions) && k < m < |states| && ListedSince(states, actions, k, m, u, key)
    ensures u in states[k + 1].entries && Bears(states[k + 1].entries[u], key)
  {
    assert StepAt(lib, states, actions, k);
  }

  lemma StaysUnderIt(lib: Remote, states: seq<Node>, actions: seq<Action>, i: nat, u: Uid, key: Key)
    requires Runs(lib, states, actions) && i < |actions| && u in states[i].entries && u in states[i + 1].entries
    requires Bears(states[i].entries[u], key)
    ensures Bears(states[i + 1].entries[u], key)
  {
    InvOnRun(lib, states, actions, i);
    assert StepAt(lib, states, actions, i);
    ModelStays(lib, states[i], actions[i], u);
  }

  lemma {:induction false} StillUnderIt(lib: Remote, states: seq<Node>, actions: seq<Action>, k: nat, m: nat, u: Uid,
                                        key: Key)
    requires Runs(lib, states, actions) && k < m < |states| && ListedSince(states, actions, k, m, u, key)
    ensures Bears(states[m].entries[u], key)
    decreases m
  {
    if m == k + 1 {
      ListedUnderIt(lib, states, actions, k, m, u, key);
    } else {
      StillUnderIt(lib, states, actions, k, m - 1, u, key);
      StaysUnderIt(lib, states, actions, m - 1, u, key);
    }
  }

  /** A key that was free is taken exactly when somebody listed a model that bears it since, and it still is. */
  lemma TakenInStretch(lib: Remote, states: seq<Node>, actions: seq<Action>, c: nat, m: nat, key: Key)
    requires Runs(lib, states, actions) && c <= m < |states| && !Taken(states[c], key)
    requires forall i :: c <= i < m ==> !actions[i].Restart?
    ensures Taken(states[m], key) <==> ListedBetween(states, actions, c, m, key)
  {
    if Taken(states[m], key) {
      var u :| u in states[m].entries && Bears(states[m].entries[u], key);
      var k := ListedInStretch(lib, states, actions, c, m, u, key);
    }
    if k, u :| c <= k < m && ListedSince(states, actions, k, m, u, key) {
      StillUnderIt(lib, states, actions, k, m, u, key);
    }
  }

  // ------------------------------------------------------------- minted and listed

  /** Every handle minted in the first `i` steps was free at that moment. */
  ghost predicate MintsFree(states: seq<Node>, actions: seq<Action>, i: nat)
    requires i <= |actions| < |states|
  {
    forall c :: 0 <= c < i && actions[c].Compose? ==> !Taken(states[c], Handle(actions[c].entry.handle))
  }

  /** A restart leaves no attempt. */
  lemma NoneSurvives(lib: Remote, states: seq<Node>, actions: seq<Action>, k: nat, n: nat)
    requires Runs(lib, states, actions) && k < |actions| && n in states[k + 1].tasks
    ensures !actions[k].Restart?
  {
    assert StepAt(lib, states, actions, k);
  }

  /**
   A handle is free when it is minted. When its model is listed it is taken if
   and only if, in between, somebody listed another model under it, and that one
   is still listed.
   */
  lemma HandleTakenExactly(lib: Remote, states: seq<Node>, actions: seq<Action>, j: nat, n: nat) returns (c: nat)
    requires Runs(lib, states, actions) && j < |actions| && actions[j] == Remember(n) && MintsFree(states, actions, j)
    ensures c < j && Unlisted(states[j], n).Some? && actions[c] == Compose(n, Unlisted(states[j], n).value)
    ensures forall k :: c < k <= j ==> Unlisted(states[k], n) == Unlisted(states[j], n)
    ensures Taken(states[j], Handle(Unlisted(states[j], n).value.handle)) <==>
      ListedBetween(states, actions, c, j, Handle(Unlisted(states[j], n).value.handle))
  {
    assert StepAt(lib, states, actions, j);
    c := ComposedAt(lib, states, actions, j, n);
    forall i | c <= i < j ensures !actions[i].Restart? { NoneSurvives(lib, states, actions, i, n); }
    TakenInStretch(lib, states, actions, c, j, Handle(Unlisted(states[j], n).value.handle));
  }

  // --------------------------------------------------------- looked up and listed

  /** Something tracks the download or works on it. */
  ghost predicate Present(s: Node, id: Id) {
    id in s.book.inner || exists n :: n in s.tasks && s.tasks[n].id == id
  }

  /** Whatever tracks the download or works on it is about this plan. */
  ghost predicate OfPlan(s: Node, id: Id, plan: HubRepo) {
    && (id in s.book.inner ==> s.book.inner[id].described == plan)
    && (forall n :: n in s.tasks && s.tasks[n].id == id ==> s.tasks[n].plan == plan)
  }

  lemma StartTracksItsOwn(lib: Remote, s: Node, a: Action, id: Id)
    requires Enabled(lib, s, a) && a.Start? && a.id != id && id in Step(lib, s, a).book.inner
    ensures id in s.book.inner && Step(lib, s, a).book.inner[id].described == s.book.inner[id].described
  {}

  lemma RecordOfPlan(lib: Remote, s: Node, a: Action, id: Id)
    requires Enabled(lib, s, a) && id in Step(lib, s, a).book.inner && !(a.Start? && a.id == id)
    ensures id in s.book.inner && Step(lib, s, a).book.inner[id].described == s.book.inner[id].described
  {
    if OwnAction(a) {
      OwnActionKeepsPlans(lib, s, a);
    } else if a.Start? {
      StartTracksItsOwn(lib, s, a, id);
    } else {
      RecordsCarried(lib, s, a, id);
    }
  }

  lemma AttemptOfPlan(lib: Remote, s: Node, a: Action, n: nat)
    requires IdsOk(s) && Enabled(lib, s, a) && n in Step(lib, s, a).tasks
    ensures n in s.tasks ==>
      Step(lib, s, a).tasks[n].plan == s.tasks[n].plan && Step(lib, s, a).tasks[n].id == s.tasks[n].id
    ensures n !in s.tasks ==>
      var t := Step(lib, s, a).tasks[n];
      (a.Start? && t.id == a.id && t.plan == a.plan)
      || (a.Resume? && t.id == a.id && t.id in s.book.inner && t.plan == s.book.inner[t.id].described)
  {
    if n in s.tasks {
      assert n < s.book.next;
      SameDownload(lib, s, a, n);
    } else {
      SpawnedForItsOwn(lib, s, a, n);
    }
    if OwnAction(a) { OwnActionKeepsPlans(lib, s, a); } else { AttemptsCarried(lib, s, a, n); }
  }

  lemma PlanKept(lib: Remote, s: Node, a: Action, id: Id, plan: HubRepo)
    requires IdsOk(s) && Enabled(lib, s, a) && OfPlan(s, id, plan) && !(a.Start? && a.id == id)
    ensures OfPlan(Step(lib, s, a), id, plan)
  {
    if id in Step(lib, s, a).book.inner { RecordOfPlan(lib, s, a, id); }
    forall n | n in Step(lib, s, a).tasks && Step(lib, s, a).tasks[n].id == id
      ensures Step(lib, s, a).tasks[n].plan == plan {
      AttemptOfPlan(lib, s, a, n);
    }
  }

  /** A download appears by being started. */
  lemma AppearsByStart(lib: Remote, s: Node, a: Action, id: Id)
    requires IdsOk(s) && Enabled(lib, s, a) && !Present(s, id) && Present(Step(lib, s, a), id)
    ensures a.Start? && a.id == id
  {
    if id in Step(lib, s, a).book.inner {
      if !(a.Start? && a.id == id) { RecordOfPlan(lib, s, a, id); }
    } else {
      var n :| n in Step(lib, s, a).tasks && Step(lib, s, a).tasks[n].id == id;
      AttemptOfPlan(lib, s, a, n);
    }
  }

  lemma StartedOfPlan(lib: Remote, s: Node, a: Action)
    requires IdsOk(s) && Enabled(lib, s, a) && a.Start? && !Present(s, a.id)
    ensures OfPlan(Step(lib, s, a), a.id, a.plan)
  {}

  lemma NothingPresent(lib: Remote, s: Node, a: Action, id: Id)
    requires Enabled(lib, s, a) && a.Restart?
    ensures !Present(Step(lib, s, a), id)
  {}

  lemma NotStartedAgain(lib: Remote, s: Node, a: Action, id: Id)
    requires IdsOk(s) && Enabled(lib, s, a) && Present(s, id)
    ensures !(a.Start? && a.id == id)
  {
    assert id in s.minted;
  }

  /** A download that is present after a step was present before, of the same plan; or was started by it. */
  lemma PresentBefore(lib: Remote, s: Node, a: Action, id: Id)
    requires IdsOk(s) && Enabled(lib, s, a) && Present(Step(lib, s, a), id)
    ensures !a.Restart?
    ensures Present(s, id) ==> forall plan :: OfPlan(s, id, plan) ==> OfPlan(Step(lib, s, a), id, plan)
    ensures !Present(s, id) ==> a.Start? && a.id == id && OfPlan(Step(lib, s, a), id, a.plan)
  {
    if a.Restart? { NothingPresent(lib, s, a, id); }
    if Present(s, id) {
      NotStartedAgain(lib, s, a, id);
      forall plan | OfPlan(s, id, plan) { PlanKept(lib, s, a, id, plan); }
    } else {
      AppearsByStart(lib, s, a, id);
      StartedOfPlan(lib, s, a);
    }
  }

  lemma PresentAt(lib: Remote, states: seq<Node>, actions: seq<Action>, k: nat, id: Id)
    requires Runs(lib, states, actions) && k < |actions| && Present(states[k + 1], id)
    ensures !actions[k].Restart?
    ensures Present(states[k], id) ==> forall plan :: OfPlan(states[k], id, plan) ==> OfPlan(states[k + 1], id, plan)
    ensures !Present(states[k], id) ==>
      actions[k].Start? && actions[k].id == id && OfPlan(states[k + 1], id, actions[k].plan)
  {
    InvOnRun(lib, states, actions, k);
    assert StepAt(lib, states, actions, k);
    PresentBefore(lib, states[k], actions[k], id);
  }

  /** Where a download that is present was started: since when there was no restart. */
  lemma {:induction false} StartedAt(lib: Remote, states: seq<Node>, actions: seq<Action>, j: nat, id: Id)
    returns (c: nat)
    requires Runs(lib, states, actions) && j < |states| && Present(states[j], id)
    ensures c < j && actions[c].Start? && actions[c].id == id && OfPlan(states[j], id, actions[c].plan)
    ensures forall k :: c <= k < j ==> !actions[k].Restart?
  {
    if j == 0 {
      assert false;
    } else if Present(states[j - 1], id) {
      c := StartedAt(lib, states, actions, j - 1, id);
      PresentAt(lib, states, actions, j - 1, id);
    } else {
      c := j - 1;
      PresentAt(lib, states, actions, c, id);
    }
  }

  /**
   A commit that is listed is not downloaded again. But when a download lists
   its model, that commit is listed already if and only if, since the download
   was started, somebody listed it, and that model is still listed.
   */
  lemma CommitTakenExactly(lib: Remote, states: seq<Node>, actions: seq<Action>, j: nat, n: nat) returns (c: nat)
    requires Runs(lib, states, actions) && j < |actions| && actions[j] == Remember(n)
    ensures c < j && n in states[j].tasks && actions[c].Start? && actions[c].id == states[j].tasks[n].id
    ensures
      var key := Commit(actions[c].plan.repo, actions[c].plan.revision);
      && Unlisted(states[j], n).Some? && Bears(Unlisted(states[j], n).value, key)
      && (!Taken(states[c], key) ==> (Taken(states[j], key) <==> ListedBetween(states, actions, c, j, key)))
  {
    assert StepAt(lib, states, actions, j);
    InvOnRun(lib, states, actions, j);
    assert TaskAt(lib, states[j], n);
    c := StartedAt(lib, states, actions, j, states[j].tasks[n].id);
    var key := Commit(actions[c].plan.repo, actions[c].plan.revision);
    if !Taken(states[c], key) { TakenInStretch(lib, states, actions, c, j, key); }
  }

  // -------------------------------------------------------------- distinct handles

  /** What this step lists takes no handle twice. */
  ghost predicate ListsFree(s: Node, a: Action) {
    && (a.Remember? && Unlisted(s, a.n).Some? ==> !Taken(s, Handle(Unlisted(s, a.n).value.handle)))
    && (a.Restart? ==> Distinct(Reopen(s.shelf)))
  }

  lemma NothingNewListed(lib: Remote, s: Node, a: Action)
    requires Inv(lib, s) && Enabled(lib, s, a) && !a.Remember? && !a.Restart?
    ensures forall u :: u in Step(lib, s, a).entries ==>
      u in s.entries && Step(lib, s, a).entries[u].handle == s.entries[u].handle
  {
    forall u | u in Step(lib, s, a).entries
      ensures u in s.entries && Step(lib, s, a).entries[u].handle == s.entries[u].handle {
      if u !in s.entries { ListedByStep(lib, s, a, u); }
      ModelStays(lib, s, a, u);
    }
  }

  lemma RestartedDistinct(lib: Remote, s: Node, a: Action)
    requires Enabled(lib, s, a) && a.Restart?
    ensures Distinct(Step(lib, s, a).entries) <==> ListsFree(s, a)
  {}

  lemma DistinctStep(lib: Remote, s: Node, a: Action)
    requires Inv(lib, s) && Enabled(lib, s, a) && Distinct(s.entries)
    ensures Distinct(Step(lib, s, a).entries) <==> ListsFree(s, a)
  {
    if a.Remember? {
      assert TaskAt(lib, s, a.n);
      RememberedDistinct(lib, s, a.n);
    } else if a.Restart? {
      RestartedDistinct(lib, s, a);
    } else {
      NothingNewListed(lib, s, a);
    }
  }

  lemma OneMoreDistinct(entries: map<Uid, ModelEntry>, e: ModelEntry)
    requires Distinct(entries) && e.uid !in entries
    ensures Distinct(entries[e.uid := e]) <==> forall u :: u in entries ==> entries[u].handle != e.handle
  {
    var entries' := entries[e.uid := e];
    if u :| u in entries && entries[u].handle == e.handle {
      assert entries'[u].handle == entries'[e.uid].handle;
    }
  }

  lemma RememberedDistinct(lib: Remote, s: Node, n: nat)
    requires n in s.tasks && TaskAt(lib, s, n) && Enabled(lib, s, Remember(n)) && Distinct(s.entries)
    ensures Distinct(Step(lib, s, Remember(n)).entries) <==> ListsFree(s, Remember(n))
  {
    OneMoreDistinct(s.entries, s.tasks[n].phase.entry);
  }

  /**
   Handles stay distinct, over any run, if and only if no attempt lists a model
   under a handle that is taken, and no boot finds two entries under one.
   */
  lemma {:induction false} HandlesStayDistinct(lib: Remote, states: seq<Node>, actions: seq<Action>, i: nat)
    requires Runs(lib, states, actions) && i < |states|
    ensures (forall k :: 0 <= k <= i ==> Distinct(states[k].entries)) <==>
      (forall k :: 0 <= k < i ==> ListsFree(states[k], actions[k]))
  {
    if i > 0 {
      HandlesStayDistinct(lib, states, actions, i - 1);
      InvOnRun(lib, states, actions, i - 1);
      assert StepAt(lib, states, actions, i - 1);
      if Distinct(states[i - 1].entries) { DistinctStep(lib, states[i - 1], actions[i - 1]); }
    }
  }

  // ------------------------------------------------------------ what would be enough

  /** No two attempts have an entry composed and not yet listed. */
  ghost predicate OneAtATime(s: Node) {
    forall m, n :: Unlisted(s, m).Some? && Unlisted(s, n).Some? ==> m == n
  }

  /** All that a boot would find now is listed: nothing is being removed or about to be listed. */
  ghost predicate NothingUnderWay(s: Node) {
    forall u :: u in Reopen(s.shelf) ==> u in s.entries
  }

  lemma BootKeepsDistinct(lib: Remote, s: Node)
    requires Inv(lib, s) && NothingUnderWay(s) && Distinct(s.entries)
    ensures Distinct(Reopen(s.shelf))
  {
    forall u | u in Reopen(s.shelf) ensures u in s.entries && Reopen(s.shelf)[u].handle == s.entries[u].handle {
      assert EntryAt(s, u);
    }
  }

  /** An attempt that has listed its entry has none to list. */
  lemma ListedOnce(lib: Remote, s: Node, n: nat)
    requires Enabled(lib, s, Remember(n))
    ensures Unlisted(s, n).Some? && Unlisted(Step(lib, s, Remember(n)), n).None?
  {}

  lemma FreeWhenListed(lib: Remote, states: seq<Node>, actions: seq<Action>, j: nat, n: nat)
    requires Runs(lib, states, actions) && j < |actions| && actions[j] == Remember(n) && MintsFree(states, actions, j)
    requires forall k :: 0 <= k <= j ==> OneAtATime(states[k])
    ensures ListsFree(states[j], actions[j])
  {
    var c := HandleTakenExactly(lib, states, actions, j, n);
    var key := Handle(Unlisted(states[j], n).value.handle);
    if k, u :| c <= k < j && ListedSince(states, actions, k, j, u, key) {
      assert StepAt(lib, states, actions, k);
      ListedOnce(lib, states[k], actions[k].n);
      assert false;
    }
  }

  /**
   It is enough that attempts take turns from minting to listing, and that no
   boot falls in such a turn or in a removal.
   */
  lemma {:induction false} TakingTurnsIsEnough(lib: Remote, states: seq<Node>, actions: seq<Action>, i: nat)
    requires Runs(lib, states, actions) && i < |states| && MintsFree(states, actions, i)
    requires forall k :: 0 <= k < i ==> OneAtATime(states[k])
    requires forall k :: 0 <= k < i && actions[k].Restart? ==> NothingUnderWay(states[k])
    ensures Distinct(states[i].entries)
  {
    if i > 0 {
      TakingTurnsIsEnough(lib, states, actions, i - 1);
      InvOnRun(lib, states, actions, i - 1);
      assert StepAt(lib, states, actions, i - 1);
      if actions[i - 1].Remember? { FreeWhenListed(lib, states, actions, i - 1, actions[i - 1].n); }
      if actions[i - 1].Restart? { BootKeepsDistinct(lib, states[i - 1]); }
      DistinctStep(lib, states[i - 1], actions[i - 1]);
    }
  }
}
