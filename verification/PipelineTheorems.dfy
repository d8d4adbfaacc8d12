/** What the pipeline promises, in every state of every run. */
module PipelineTheorems {
  import opened Wrappers
  import opened Library
  import opened Models
  import opened Records
  import opened Pipeline
  import opened PipelineInvariant
  import opened PipelineSteps
  import opened PipelineCalls

  lemma KeepCall(lib: Remote, s: Node, a: Action)
    requires Inv(lib, s) && IsCall(a) && CallEnabled(lib, s, a)
    ensures Inv(lib, CallStep(s, a))
  {
    match a
    case Start(id, plan, now) => KeepStart(lib, s, id, plan, now);
    case Cancel(id) => KeepCancel(lib, s, id);
    case Resume(id, now) => KeepResume(lib, s, id, now);
    case ForgetAsk(id) => KeepForgetAsk(lib, s, id);
    case ForgetDrop(id) => KeepForgetDrop(lib, s, id);
    case ForgetWipe(id) => KeepForgetWipe(lib, s, id);
  }

  lemma KeepFiling(lib: Remote, s: Node, a: Action)
    requires Inv(lib, s) && IsFiling(a) && FilingEnabled(s, a)
    ensures Inv(lib, FilingStep(s, a))
  {
    match a
    case Begin(n) => KeepBegin(lib, s, n);
    case MintUid(n, uid) => KeepMintUid(lib, s, n, uid);
    case PutInPlace(n) => KeepMoved(lib, s, n);
    case WriteEntry(n) => KeepEntryWritten(lib, s, n);
    case CommitEntry(n) => KeepEntryCommitted(lib, s, n);
    case Remember(n) => KeepEntryRemembered(lib, s, n);
    case Settle(n, now) => KeepSettled(lib, s, n, now);
  }

  lemma KeepCatalogue(lib: Remote, s: Node, a: Action)
    requires Inv(lib, s) && !OwnAction(a) && !IsCall(a) && !IsFiling(a) && CatalogueEnabled(s, a)
    ensures Inv(lib, CatalogueStep(s, a))
  {
    match a
    case UpdateWrite(uid, e) => KeepUpdateWrite(lib, s, uid, e);
    case UpdateCommit => KeepUpdateCommit(lib, s);
    case UpdateRemember => KeepUpdateRemember(lib, s);
    case UpdateAbandon => KeepUpdateAbandon(lib, s);
    case RemoveEntry(uid) => KeepRemoveEntry(lib, s, uid);
    case RemoveDirectory(uid) => KeepRemoveDirectory(lib, s, uid);
    case Restart(survivors) => KeepRestart(lib, s, survivors);
  }

  /** Every step of the machine keeps the invariant. */
  lemma KeepStep(lib: Remote, s: Node, a: Action)
    requires Inv(lib, s) && Enabled(lib, s, a)
    ensures Inv(lib, Step(lib, s, a))
  {
    if OwnAction(a) {
      KeepOwnAction(lib, s, a);
    } else if IsCall(a) {
      KeepCall(lib, s, a);
    } else if IsFiling(a) {
      KeepFiling(lib, s, a);
    } else {
      KeepCatalogue(lib, s, a);
    }
  }

  lemma {:induction false} KeepRun(lib: Remote, states: seq<Node>, actions: seq<Action>, i: nat)
    requires IsRun(lib, states, actions) && Inv(lib, states[0]) && i < |states|
    ensures Inv(lib, states[i])
  {
    if i > 0 {
      KeepRun(lib, states, actions, i - 1);
      assert StepAt(lib, states, actions, i - 1);
      KeepStep(lib, states[i - 1], actions[i - 1]);
    }
  }

  /** A run of the machine: from the first boot, through any interleaving of calls, attempts, failures and restarts. */
  ghost predicate Runs(lib: Remote, states: seq<Node>, actions: seq<Action>) {
    IsRun(lib, states, actions) && states[0] == FIRST_BOOT
  }

  lemma InvOnRun(lib: Remote, states: seq<Node>, actions: seq<Action>, i: nat)
    requires Runs(lib, states, actions) && i < |states|
    ensures Inv(lib, states[i])
  {
    FirstBootOk(lib);
    KeepRun(lib, states, actions, i);
  }

  // -------------------------------------------- no half-downloaded model is loadable

  /** The entry `e` names a directory with exactly the bytes its download described, at that commit. */
  ghost predicate Loadable(lib: Remote, s: Node, uid: Uid, e: ModelEntry) {
    && e.uid == uid && uid in s.placements && uid in s.shelf
    && e.repo == s.placements[uid].plan.repo && e.revision == s.placements[uid].plan.revision
    && s.shelf[uid].weights.Some?
    && Complete(lib, s.placements[uid].plan, s.shelf[uid].weights.value)
  }

  /** Whatever the catalogue names, in memory or on the disk, is whole: in every state of every run. */
  lemma NeverHalfLoadable(lib: Remote, states: seq<Node>, actions: seq<Action>, i: nat)
    requires Runs(lib, states, actions) && i < |states|
    ensures forall u :: u in states[i].entries ==> Loadable(lib, states[i], u, states[i].entries[u])
    ensures forall u :: u in Reopen(states[i].shelf) ==> Loadable(lib, states[i], u, Reopen(states[i].shelf)[u])
    ensures Filed(states[i].shelf) && AllParse(states[i].shelf)
  {
    InvOnRun(lib, states, actions, i);
    var s := states[i];
    forall u | u in s.shelf ensures DirAt(lib, s, u) {}
    forall u | u in s.entries ensures Loadable(lib, s, u, s.entries[u]) {
      assert EntryAt(s, u) && DirAt(lib, s, u);
    }
  }

  ghost predicate WasStarted(actions: seq<Action>, i: nat, plan: HubRepo)
    requires i <= |actions|
  {
    exists j :: 0 <= j < i && actions[j].Start? && actions[j].plan == plan
  }

  ghost predicate PlansStarted(s: Node, actions: seq<Action>, i: nat)
    requires i <= |actions|
  {
    && (forall id :: id in s.book.inner ==> WasStarted(actions, i, s.book.inner[id].described))
    && (forall n :: n in s.tasks ==> WasStarted(actions, i, s.tasks[n].plan))
    && (forall u :: u in s.placements ==> WasStarted(actions, i, s.placements[u].plan))
  }

  lemma OwnActionKeepsPlans(lib: Remote, s: Node, a: Action)
    requires OwnAction(a) && Enabled(lib, s, a)
    ensures
      var s' := Step(lib, s, a);
      && s'.placements == s.placements
      && (forall id :: id in s'.book.inner ==>
           id in s.book.inner && s'.book.inner[id].described == s.book.inner[id].described)
      && (forall n :: n in s'.tasks ==> n in s.tasks && s'.tasks[n].plan == s.tasks[n].plan)
  {
    ActKeeps(lib, PlaceOf(s, a.n), s.book.cancelled, a);
  }

  /** Where a plan of the state after comes from. */
  ghost predicate PlansCarried(s: Node, a: Action, s': Node) {
    && (forall id :: id in s'.book.inner ==>
          || (a.Start? && s'.book.inner[id].described == a.plan)
          || (id in s.book.inner && s'.book.inner[id].described == s.book.inner[id].described))
    && (forall n :: n in s'.tasks ==>
          || (n in s.tasks && s'.tasks[n].plan == s.tasks[n].plan)
          || (a.Start? && s'.tasks[n].plan == a.plan)
          || (a.Resume? && a.id in s.book.inner && s'.tasks[n].plan == s.book.inner[a.id].described))
    && (forall u :: u in s'.placements ==>
          || (u in s.placements && s'.placements[u] == s.placements[u])
          || (a.MintUid? && a.n in s.tasks && s'.placements[u].plan == s.tasks[a.n].plan))
  }

  /** The steps that leave the records alone. */
  predicate LeavesBook(a: Action) {
    && !OwnAction(a) && !a.Start? && !a.Cancel? && !a.Resume? && !a.ForgetAsk? && !a.ForgetDrop?
    && !a.Settle? && !a.Restart?
  }

  lemma BookLeftAlone(lib: Remote, s: Node, a: Action)
    requires Enabled(lib, s, a) && LeavesBook(a)
    ensures Step(lib, s, a).book == s.book
  {}

  lemma SpawnedCarried(lib: Remote, s: Node, a: Action, n: nat)
    requires Enabled(lib, s, a) && (a.Start? || a.Resume?) && n in Step(lib, s, a).tasks
    ensures || (n in s.tasks && Step(lib, s, a).tasks[n] == s.tasks[n])
            || (n == s.book.next && a.Start? && Step(lib, s, a).tasks[n].plan == a.plan)
            || (n == s.book.next && a.Resume? && a.id in s.book.inner
                && Step(lib, s, a).tasks[n].plan == s.book.inner[a.id].described)
  {}

  /**
   Every step of the machine that is not an attempt's own leaves the attempts it does not start with
   the same id and plan.
   */
  lemma AttemptsCarried(lib: Remote, s: Node, a: Action, n: nat)
    requires Enabled(lib, s, a) && !OwnAction(a) && n in Step(lib, s, a).tasks
    ensures || (n in s.tasks && Step(lib, s, a).tasks[n].plan == s.tasks[n].plan
                  && Step(lib, s, a).tasks[n].id == s.tasks[n].id)
            || (n == s.book.next && a.Start? && Step(lib, s, a).tasks[n].plan == a.plan)
            || (n == s.book.next && a.Resume? && a.id in s.book.inner
                && Step(lib, s, a).tasks[n].plan == s.book.inner[a.id].described)
  {
    if a.ForgetWipe? {
      assert Step(lib, s, a).tasks[n] == Orphan(s.tasks[n], a.id);
    } else if a.Start? || a.Resume? {
      SpawnedCarried(lib, s, a, n);
    }
  }

  lemma PlacementsCarried(lib: Remote, s: Node, a: Action, u: Uid)
    requires Enabled(lib, s, a) && !OwnAction(a) && u in Step(lib, s, a).placements
    ensures || (u in s.placements && Step(lib, s, a).placements[u] == s.placements[u])
            || (a.MintUid? && a.n in s.tasks && Step(lib, s, a).placements[u].plan == s.tasks[a.n].plan)
  {}

  lemma RecordsCarried(lib: Remote, s: Node, a: Action, id: Id)
    requires Enabled(lib, s, a) && !OwnAction(a) && id in Step(lib, s, a).book.inner
    ensures || (a.Start? && Step(lib, s, a).book.inner[id].described == a.plan)
            || (id in s.book.inner && Step(lib, s, a).book.inner[id].described == s.book.inner[id].described)
  {
    if LeavesBook(a) { BookLeftAlone(lib, s, a); }
  }

  /** No step invents a plan: it starts one, or carries the ones there are. */
  lemma PlansOnlyStarted(lib: Remote, s: Node, a: Action)
    requires Enabled(lib, s, a)
    ensures PlansCarried(s, a, Step(lib, s, a))
  {
    if OwnAction(a) {
      OwnActionKeepsPlans(lib, s, a);
    } else {
      forall id | id in Step(lib, s, a).book.inner { RecordsCarried(lib, s, a, id); }
      forall n | n in Step(lib, s, a).tasks { AttemptsCarried(lib, s, a, n); }
      forall u | u in Step(lib, s, a).placements { PlacementsCarried(lib, s, a, u); }
    }
  }

  /** What a model directory was downloaded as is what some `start` of this run was asked for. */
  lemma {:induction false} ModelsWereAskedFor(lib: Remote, states: seq<Node>, actions: seq<Action>, i: nat)
    requires Runs(lib, states, actions) && i < |states|
    ensures PlansStarted(states[i], actions, i)
  {
    if i > 0 {
      ModelsWereAskedFor(lib, states, actions, i - 1);
      var s, a := states[i - 1], actions[i - 1];
      assert StepAt(lib, states, actions, i - 1);
      PlansOnlyStarted(lib, s, a);
      forall plan | WasStarted(actions, i - 1, plan) ensures WasStarted(actions, i, plan) {}
      if a.Start? { assert WasStarted(actions, i, a.plan); }
    }
  }

  // ------------------------------------------------------------ one writer

  /** At most one unsettled attempt a download, and a tracked download is unfinished exactly when it has one. */
  lemma OneWriterPerDownload(lib: Remote, states: seq<Node>, actions: seq<Action>, i: nat)
    requires Runs(lib, states, actions) && i < |states|
    ensures OneWriter(states[i])
    ensures forall id :: id in states[i].book.inner ==>
      (!states[i].book.inner[id].pull.state.Finished() <==>
       exists n :: n in states[i].tasks && states[i].tasks[n].id == id)
  {
    InvOnRun(lib, states, actions, i);
    var s := states[i];
    forall id | id in s.book.inner
      ensures !s.book.inner[id].pull.state.Finished() <==> exists n :: n in s.tasks && s.tasks[n].id == id
    {
      assert RecordAt(lib, s, id);
      if n :| n in s.tasks && s.tasks[n].id == id {
        assert TaskAt(lib, s, n);
        assert RecordAgrees(n, PlaceOf(s, n));
      }
    }
  }

  // ------------------------------------------- resuming refines a straight download

  /** Every staged file of a download that is tracked or being fetched is a prefix of its remote file. */
  lemma StagedIsAlwaysAPrefix(lib: Remote, states: seq<Node>, actions: seq<Action>, i: nat)
    requires Runs(lib, states, actions) && i < |states|
    ensures forall id :: id in states[i].book.inner && id in states[i].incoming ==>
      Staged(lib, states[i].book.inner[id].described, states[i].incoming[id])
    ensures forall n :: n in states[i].tasks && states[i].tasks[n].id in states[i].incoming ==>
      Staged(lib, states[i].tasks[n].plan, states[i].incoming[states[i].tasks[n].id])
  {
    InvOnRun(lib, states, actions, i);
    var s := states[i];
    forall id | id in s.book.inner && id in s.incoming ensures Staged(lib, s.book.inner[id].described, s.incoming[id]) {
      assert RecordAt(lib, s, id);
    }
    forall n | n in s.tasks && s.tasks[n].id in s.incoming
      ensures Staged(lib, s.tasks[n].plan, s.incoming[s.tasks[n].id]) {
      assert TaskAt(lib, s, n);
    }
  }

  /** An attempt whose every length was checked holds what a download without interruptions would, or nothing. */
  lemma CheckedLengthsAreCheckedBytes(lib: Remote, states: seq<Node>, actions: seq<Action>, i: nat, n: nat)
    requires Runs(lib, states, actions) && i < |states| && n in states[i].tasks
    requires states[i].tasks[n].phase.Placing?
          || (states[i].tasks[n].phase.Checking? && states[i].tasks[n].phase.k == |states[i].tasks[n].plan.files|)
    requires states[i].tasks[n].id in states[i].incoming
    ensures Complete(lib, states[i].tasks[n].plan, states[i].incoming[states[i].tasks[n].id])
  {
    InvOnRun(lib, states, actions, i);
    var s := states[i];
    assert TaskAt(lib, s, n);
    LengthsImplyBytes(lib, s.tasks[n].plan, s.incoming[s.tasks[n].id]);
  }

  // ------------------------------------------------------- byte conservation

  /**
   While an attempt is fetching, checking or placing, and no `forget` has taken
   its directory, the counter is what is staged of the files visited, plus the
   part in hand, plus what was discarded. With nothing discarded it never
   exceeds the total, and once every length is checked it is the total.
   */
  lemma ByteConservation(lib: Remote, states: seq<Node>, actions: seq<Action>, i: nat, n: nat)
    requires Runs(lib, states, actions) && i < |states| && n in states[i].tasks
    requires Counting(states[i].tasks[n].phase) && !states[i].tasks[n].wiped
    ensures
      var t := states[i].tasks[n];
      && t.id in states[i].incoming && Visited(t) <= |t.plan.files|
      && t.counter == StagedLength(states[i].incoming[t.id], t.plan.files, Visited(t)) + PartHeld(t.phase) + t.discarded
      && t.counter <= t.plan.sizeBytes + t.discarded
      && (t.phase.Placing? ==> t.counter == t.plan.sizeBytes + t.discarded)
  {
    InvOnRun(lib, states, actions, i);
    var s := states[i];
    var t := s.tasks[n];
    assert TaskAt(lib, s, n);
    ConservedIsBounded(lib, n, PlaceOf(s, n), HomeOf(s, t));
  }

  lemma ConservedIsBounded(lib: Remote, n: nat, p: Place, home: Option<Home>)
    requires TaskOk(lib, n, p, home) && Counting(p.task.phase) && !p.task.wiped
    ensures p.staged.Some? && Visited(p.task) <= |p.task.plan.files|
    ensures p.task.counter <= p.task.plan.sizeBytes + p.task.discarded
    ensures p.task.phase.Placing? ==> p.task.counter == p.task.plan.sizeBytes + p.task.discarded
  {
    var t, files := p.task, p.task.plan.files;
    StagedLengthBound(lib, t.plan, p.staged.value, Visited(t));
    SumSizesMonotone(files, if t.phase.Asking? || t.phase.Opening? then Visited(t) + 1 else Visited(t), |files|);
  }

  /** Bytes are discarded only where a ranged request was not answered in part, and then exactly the part held. */
  lemma DiscardedOnlyWhenNotContinued(lib: Remote, p: Place, cancelled: set<Token>, a: Action)
    requires OwnAction(a) && CanAct(lib, p, cancelled, a)
    ensures
      var d, d' := p.task.discarded, Act(lib, p, cancelled, a).task.discarded;
      if a.Open? && !p.task.phase.continuing then d' == d + p.task.phase.have else d' == d
  {}

  // ------------------------------------------------------ record consistency

  ghost predicate Consistent(s: Node, id: Id)
    requires id in s.book.inner
  {
    var p := s.book.inner[id].pull;
    && (p.modelUid.Some? <==> p.state.Ready?)
    && (p.error.Some? <==> p.state.Failed? || p.state.Cancelled?)
    && p.filesDone <= p.filesTotal
    && (p.state.Ready? ==>
          && p.filesDone == p.filesTotal && p.bytesDone == p.bytesTotal
          && p.modelUid.value in s.inserted && id !in s.incoming)
  }

  lemma RecordsAreConsistent(lib: Remote, states: seq<Node>, actions: seq<Action>, i: nat)
    requires Runs(lib, states, actions) && i < |states|
    ensures forall id :: id in states[i].book.inner ==> Consistent(states[i], id)
  {
    InvOnRun(lib, states, actions, i);
    forall id | id in states[i].book.inner ensures Consistent(states[i], id) {
      assert RecordAt(lib, states[i], id);
    }
  }

  lemma ActLegal(lib: Remote, n: nat, p: Place, cancelled: set<Token>, a: Action)
    requires OwnAction(a) && CanAct(lib, p, cancelled, a) && RecordAgrees(n, p) && p.rec.Some?
    ensures Act(lib, p, cancelled, a).rec.Some?
    ensures Legal(p.rec.value.pull.state, Act(lib, p, cancelled, a).rec.value.pull.state)
  {}

  lemma SettleLegal(s: Node, n: nat, now: int, id: Id)
    requires n in s.tasks && s.tasks[n].phase.Done? && RecordAgrees(n, PlaceOf(s, n)) && id in s.book.inner
    ensures id in AttemptSettled(s, n, now).book.inner
    ensures Legal(s.book.inner[id].pull.state, AttemptSettled(s, n, now).book.inner[id].pull.state)
  {}

  lemma OwnActionIsLegal(lib: Remote, s: Node, a: Action, id: Id)
    requires OwnAction(a) && Enabled(lib, s, a) && TaskAt(lib, s, a.n)
    requires id in s.book.inner && id in Step(lib, s, a).book.inner
    ensures Legal(s.book.inner[id].pull.state, Step(lib, s, a).book.inner[id].pull.state)
  {
    ActKeeps(lib, PlaceOf(s, a.n), s.book.cancelled, a);
    if id == s.tasks[a.n].id { ActLegal(lib, a.n, PlaceOf(s, a.n), s.book.cancelled, a); }
  }

  lemma CallIsLegal(lib: Remote, s: Node, a: Action, id: Id)
    requires !OwnAction(a) && !LeavesBook(a) && !a.Settle? && Enabled(lib, s, a) && s.book.inner.Keys <= s.minted
    requires id in s.book.inner && id in Step(lib, s, a).book.inner
    ensures Legal(s.book.inner[id].pull.state, Step(lib, s, a).book.inner[id].pull.state)
  {}

  lemma StepIsLegal(lib: Remote, s: Node, a: Action, id: Id)
    requires Enabled(lib, s, a) && s.book.inner.Keys <= s.minted
    requires (OwnAction(a) || a.Settle?) ==> TaskAt(lib, s, a.n)
    requires id in s.book.inner && id in Step(lib, s, a).book.inner
    ensures Legal(s.book.inner[id].pull.state, Step(lib, s, a).book.inner[id].pull.state)
  {
    if OwnAction(a) {
      OwnActionIsLegal(lib, s, a, id);
    } else if LeavesBook(a) {
      BookLeftAlone(lib, s, a);
    } else if a.Settle? {
      SettleLegal(s, a.n, a.now, id);
    } else {
      CallIsLegal(lib, s, a, id);
    }
  }

  /** Only the legal transitions happen. */
  lemma OnlyLegalTransitions(lib: Remote, states: seq<Node>, actions: seq<Action>, i: nat, id: Id)
    requires Runs(lib, states, actions) && i < |actions|
    requires id in states[i].book.inner && id in states[i + 1].book.inner
    ensures Legal(states[i].book.inner[id].pull.state, states[i + 1].book.inner[id].pull.state)
  {
    InvOnRun(lib, states, actions, i);
    assert StepAt(lib, states, actions, i);
    StepIsLegal(lib, states[i], actions[i], id);
  }

  /** The sweep drops only Ready records: none with an attempt, none with bytes to resume from. */
  lemma SweepDropsOnlyReady(lib: Remote, states: seq<Node>, actions: seq<Action>, i: nat, id: Id)
    requires Runs(lib, states, actions) && i < |actions| && actions[i].Start?
    requires id in states[i].book.inner && id !in states[i + 1].book.inner
    ensures states[i].book.inner[id].pull.state.Ready? && id !in states[i].incoming
    ensures forall n :: n in states[i].tasks ==> states[i].tasks[n].id != id
  {
    InvOnRun(lib, states, actions, i);
    var s := states[i];
    assert StepAt(lib, states, actions, i);
    assert RecordAt(lib, s, id);
    forall n | n in s.tasks ensures s.tasks[n].id != id {
      assert TaskAt(lib, s, n);
      assert RecordAgrees(n, PlaceOf(s, n));
    }
  }

  // --------------------------------------------------------------- cancelling

  /** A cancel that succeeded binds its own attempt: that attempt settles Cancelled or Ready, never Failed. */
  lemma CancelledNeverFails(lib: Remote, states: seq<Node>, actions: seq<Action>, i: nat)
    requires Runs(lib, states, actions) && i < |states|
    ensures forall id :: id in states[i].book.inner && states[i].book.inner[id].cancel in states[i].calledOff ==>
      !states[i].book.inner[id].pull.state.Failed?
    ensures forall id :: id in states[i].book.inner && states[i].book.inner[id].pull.state.Cancelled? ==>
      states[i].book.inner[id].cancel in states[i].book.cancelled
  {
    InvOnRun(lib, states, actions, i);
    forall id | id in states[i].book.inner ensures RecordAt(lib, states[i], id) {}
  }

  /** A live attempt's token is on no other download's record. */
  lemma TokenIsItsOwn(lib: Remote, s: Node, id: Id, n: nat)
    requires id in s.book.inner && RecordAt(lib, s, id) && n in s.tasks && s.book.inner[id].cancel == n
    ensures s.tasks[n].id == id
  {}

  ghost predicate CallsOff(a: Action, id: Id) {
    a == Cancel(id) || a == ForgetAsk(id)
  }

  lemma OwnActionKeepsTokens(lib: Remote, s: Node, a: Action, n: nat)
    requires OwnAction(a) && Enabled(lib, s, a) && n in s.tasks
    ensures n in Step(lib, s, a).tasks && Step(lib, s, a).tasks[n].id == s.tasks[n].id
    ensures Step(lib, s, a).book.cancelled == s.book.cancelled
  {
    ActKeeps(lib, PlaceOf(s, a.n), s.book.cancelled, a);
  }

  /** A call cancels no token but that of the download it is about. */
  lemma CallCancelsOne(s: Node, a: Action, n: nat)
    requires IsCall(a) && n !in s.book.cancelled && n in CallStep(s, a).book.cancelled
    ensures (a.Cancel? || a.ForgetAsk?) && a.id in s.book.inner && s.book.inner[a.id].cancel == n
  {}

  lemma FilingCancelsNothing(s: Node, a: Action)
    requires IsFiling(a) && FilingEnabled(s, a)
    ensures FilingStep(s, a).book.cancelled == s.book.cancelled
  {}

  /** Nor does any other step cancel one. */
  lemma CancelledByACall(lib: Remote, s: Node, a: Action, n: nat)
    requires Enabled(lib, s, a) && n in s.tasks && n !in s.book.cancelled && n in Step(lib, s, a).book.cancelled
    ensures (a.Cancel? || a.ForgetAsk?) && a.id in s.book.inner && s.book.inner[a.id].cancel == n
  {
    if OwnAction(a) {
      OwnActionKeepsTokens(lib, s, a, n);
    } else if IsCall(a) {
      CallCancelsOne(s, a, n);
    } else if IsFiling(a) {
      FilingCancelsNothing(s, a);
    }
  }

  /** A token is cancelled by a call on its own download, and by nothing else. */
  lemma TokenCancelledByItsOwn(lib: Remote, s: Node, a: Action, n: nat)
    requires Enabled(lib, s, a) && n in s.tasks && n !in s.book.cancelled
    requires forall id :: id in s.book.inner ==> RecordAt(lib, s, id)
    requires !CallsOff(a, s.tasks[n].id)
    ensures n !in Step(lib, s, a).book.cancelled
  {
    if n in Step(lib, s, a).book.cancelled {
      CancelledByACall(lib, s, a, n);
      TokenIsItsOwn(lib, s, a.id, n);
    }
  }

  lemma SameDownload(lib: Remote, s: Node, a: Action, n: nat)
    requires IdsOk(s) && Enabled(lib, s, a) && n in s.tasks && n in Step(lib, s, a).tasks
    ensures Step(lib, s, a).tasks[n].id == s.tasks[n].id
  {
    assert n < s.book.next;
    if OwnAction(a) { OwnActionKeepsTokens(lib, s, a, n); } else { AttemptsCarried(lib, s, a, n); }
  }

  lemma TokenAfterStep(lib: Remote, states: seq<Node>, actions: seq<Action>, k: nat, n: nat)
    requires Runs(lib, states, actions) && k < |actions|
    requires n in states[k].tasks && n in states[k + 1].tasks && n !in states[k].book.cancelled
    requires !CallsOff(actions[k], states[k].tasks[n].id)
    ensures n !in states[k + 1].book.cancelled && states[k + 1].tasks[n].id == states[k].tasks[n].id
  {
    InvOnRun(lib, states, actions, k);
    assert StepAt(lib, states, actions, k);
    TokenCancelledByItsOwn(lib, states[k], actions[k], n);
    SameDownload(lib, states[k], actions[k], n);
  }

  lemma NotCalledOff(lib: Remote, s: Node, n: nat)
    requires Inv(lib, s) && n in s.tasks && n !in s.book.cancelled
    ensures !s.tasks[n].phase.Spawned? ==> s.tasks[n].token !in s.book.cancelled
  {}

  /**
   A later attempt is stopped by no earlier cancel: as long as nobody cancels or
   forgets its download after it was spawned, its token stays uncancelled.
   */
  lemma {:induction false} EarlierCancelsDoNotReach(lib: Remote, states: seq<Node>, actions: seq<Action>, i: nat,
                                                    j: nat, n: nat)
    requires Runs(lib, states, actions) && i <= j < |states|
    requires forall k :: i <= k <= j ==> n in states[k].tasks
    requires n !in states[i].book.cancelled
    requires forall k :: i <= k < j ==> !CallsOff(actions[k], states[i].tasks[n].id)
    ensures n !in states[j].book.cancelled && states[j].tasks[n].id == states[i].tasks[n].id
    ensures !states[j].tasks[n].phase.Spawned? ==> states[j].tasks[n].token !in states[j].book.cancelled
    decreases j - i
  {
    if i < j {
      EarlierCancelsDoNotReach(lib, states, actions, i, j - 1, n);
      TokenAfterStep(lib, states, actions, j - 1, n);
    }
    InvOnRun(lib, states, actions, j);
    NotCalledOff(lib, states[j], n);
  }

  /** A resume that goes ahead spawns an attempt whose token nobody has cancelled. */
  lemma ResumeTakesAFreshToken(lib: Remote, states: seq<Node>, actions: seq<Action>, i: nat)
    requires Runs(lib, states, actions) && i < |actions| && actions[i].Resume?
    requires CanResume(states[i].book, actions[i].id)
    ensures
      var n := states[i].book.next;
      && n in states[i + 1].tasks && states[i + 1].tasks[n].id == actions[i].id
      && actions[i].id in states[i + 1].book.inner && states[i + 1].book.inner[actions[i].id].cancel == n
      && n !in states[i + 1].book.cancelled
  {
    InvOnRun(lib, states, actions, i);
    assert StepAt(lib, states, actions, i);
  }

  /** And if the attempt then fails, its record says so, not that it was called off. */
  lemma FailureIsNotACancel(lib: Remote, states: seq<Node>, actions: seq<Action>, i: nat, j: nat, n: nat)
    requires Runs(lib, states, actions) && i <= j < |actions|
    requires forall k :: i <= k <= j ==> n in states[k].tasks
    requires n !in states[i].book.cancelled
    requires forall k :: i <= k < j ==> !CallsOff(actions[k], states[i].tasks[n].id)
    requires actions[j].Settle? && actions[j].n == n && states[i].tasks[n].id in states[j].book.inner
    ensures states[j].tasks[n].phase.Done? && states[i].tasks[n].id in states[j + 1].book.inner
    ensures states[j].tasks[n].phase.outcome.Err? ==>
      states[j + 1].book.inner[states[i].tasks[n].id].pull.state.Failed?
  {
    EarlierCancelsDoNotReach(lib, states, actions, i, j, n);
    InvOnRun(lib, states, actions, j);
    assert StepAt(lib, states, actions, j);
    assert TaskAt(lib, states[j], n);
    assert RecordAgrees(n, PlaceOf(states[j], n));
  }

  // ---------------------------------------------- the steps and the locked map

  /** What the steps of an attempt do to its record is what the lock sections of `Pulls` do to the map. */
  lemma StepsAreLockSections(lib: Remote, s: Node, a: Action)
    requires OwnAction(a) && Enabled(lib, s, a)
    ensures
      var t := s.tasks[a.n];
      Step(lib, s, a).book ==
        if a.Mark? then Counted(s.book, t.id, t.phase.i + 1, a.now)
        else if a.Tick? then Ticked(s.book, t.id, t.counter, a.now)
        else if a.StartChecking? then Entered(s.book, t.id, Verifying, a.now)
        else s.book
  {
    var p := PlaceOf(s, a.n);
    assert Set(s.book.inner, p.task.id, p.rec) == s.book.inner;
  }

  // ------------------------------------------------------------- forgetting

  /** Nothing tracks the download and nothing works on it, though its identifier was used. */
  ghost predicate Gone(s: Node, id: Id) {
    id in s.minted && id !in s.book.inner && forall n :: n in s.tasks ==> s.tasks[n].id != id
  }

  /** A new attempt is for the download that was started or resumed. */
  lemma SpawnedForItsOwn(lib: Remote, s: Node, a: Action, n: nat)
    requires Enabled(lib, s, a) && n in Step(lib, s, a).tasks && n !in s.tasks
    ensures (a.Start? || (a.Resume? && a.id in s.book.inner)) && Step(lib, s, a).tasks[n].id == a.id
  {}

  lemma CallsTrackNothingAgain(s: Node, a: Action, id: Id)
    requires IsCall(a) && (a.Start? ==> a.id !in s.minted) && id in s.minted && id !in s.book.inner
    ensures id in CallStep(s, a).minted && id !in CallStep(s, a).book.inner
  {}

  /** An identifier that was used and is not tracked is not tracked again. */
  lemma NotTrackedAgain(lib: Remote, s: Node, a: Action, id: Id)
    requires Enabled(lib, s, a) && id in s.minted && id !in s.book.inner
    ensures id in Step(lib, s, a).minted && id !in Step(lib, s, a).book.inner
  {
    if OwnAction(a) {
      OwnActionKeepsPlans(lib, s, a);
    } else if IsCall(a) {
      CallsTrackNothingAgain(s, a, id);
    }
  }

  lemma GoneStays(lib: Remote, s: Node, a: Action, id: Id)
    requires IdsOk(s) && Enabled(lib, s, a) && Gone(s, id)
    ensures Gone(Step(lib, s, a), id)
  {
    NotTrackedAgain(lib, s, a, id);
    forall n | n in Step(lib, s, a).tasks ensures Step(lib, s, a).tasks[n].id != id {
      if n in s.tasks { SameDownload(lib, s, a, n); } else { SpawnedForItsOwn(lib, s, a, n); }
    }
  }

  /**
   A download that was dropped, once no attempt works on it, is gone for good:
   no call and no restart brings it back. What can still become a model after
   `forget` is only what the attempt then under way finishes.
   */
  lemma {:induction false} ForgottenForGood(lib: Remote, states: seq<Node>, actions: seq<Action>, i: nat, j: nat,
                                            id: Id)
    requires Runs(lib, states, actions) && i <= j < |states| && Gone(states[i], id)
    ensures Gone(states[j], id)
    decreases j - i
  {
    if i < j {
      ForgottenForGood(lib, states, actions, i, j - 1, id);
      InvOnRun(lib, states, actions, j - 1);
      assert StepAt(lib, states, actions, j - 1);
      GoneStays(lib, states[j - 1], actions[j - 1], id);
    }
  }
}
