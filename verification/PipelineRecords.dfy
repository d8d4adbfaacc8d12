/**
 What a poller reads of a download, and when: every step's effect on every
 record, and what becomes of a record that is asked to stop, over every run.
 */
module PipelineRecords {
  import opened Wrappers
  import opened Library
  import opened Models
  import opened Records
  import opened Pipeline
  import opened PipelineInvariant
  import opened PipelineTheorems
  import opened PipelineBytes

  /** Attempt `n` works on this download. */
  predicate WorksOn(s: Node, n: nat, id: Id) {
    n in s.tasks && s.tasks[n].id == id
  }

  /** How a record that ends says so: where it got to, or why it did not. */
  predicate SaysHowItEnded(pull: Pull, cancelled: bool, outcome: Result<ModelEntry, Failure>, pull': Pull) {
    match outcome
    case Ok(e) =>
      && pull'.state == Ready && pull'.modelUid == Some(e.uid) && pull'.error == pull.error
      && pull'.bytesDone == pull.bytesTotal && pull'.filesDone == pull.filesTotal
    case Err(why) =>
      && pull'.state == (if cancelled then Cancelled else Failed) && pull'.error == Some(why)
      && pull'.modelUid == pull.modelUid && pull'.bytesDone == pull.bytesDone && pull'.filesDone == pull.filesDone
  }

  /** What never changes of a record. */
  predicate SameDownload(a: Pull, b: Pull) {
    && a.id == b.id && a.repo == b.repo && a.revision == b.revision && a.startedAt == b.startedAt
    && a.bytesTotal == b.bytesTotal && a.filesTotal == b.filesTotal
  }

  /** A download that failed or was cancelled is taken up again under a new token; any other is left alone. */
  function TakenUp(tr: Tracked, token: Token, now: int): Tracked {
    if tr.pull.state == Failed || tr.pull.state == Cancelled
    then Tracked(tr.pull.(state := Downloading, error := None, updatedAt := now), token, tr.described)
    else tr
  }

  /** What the step makes of the record of `id`, as long as there is one. */
  predicate RecordAfter(s: Node, a: Action, id: Id, tr: Tracked, tr': Tracked) {
    var pull, pull' := tr.pull, tr'.pull;
    && tr'.described == tr.described && SameDownload(pull, pull')
    && match a
       case Tick(n, now) =>
         if WorksOn(s, n, id) then tr' == tr.(pull := pull.(bytesDone := s.tasks[n].counter, updatedAt := now))
         else tr' == tr
       case Mark(n, now) =>
         if WorksOn(s, n, id) && s.tasks[n].phase.Marking?
         then tr' == tr.(pull := pull.(filesDone := s.tasks[n].phase.i + 1, updatedAt := now))
         else tr' == tr
       case StartChecking(n, now) =>
         if WorksOn(s, n, id) then tr' == tr.(pull := pull.(state := Verifying, updatedAt := now)) else tr' == tr
       case Settle(n, now) =>
         if WorksOn(s, n, id) && s.tasks[n].phase.Done?
         then tr'.cancel == tr.cancel && pull'.updatedAt == now
           && SaysHowItEnded(pull, tr.cancel in s.book.cancelled, s.tasks[n].phase.outcome, pull')
         else tr' == tr
       case Resume(other, now) => tr' == if other == id then TakenUp(tr, s.book.next, now) else tr
       case _ => tr' == tr
  }

  /** What drops a record: `forget`, a restart, or a start that finds it ready for an hour. */
  predicate Drops(a: Action, id: Id, pull: Pull) {
    match a
    case ForgetDrop(other) => other == id
    case Restart(_) => true
    case Start(_, _, now) => pull.state == Ready && now - pull.updatedAt >= 3_600_000
    case _ => false
  }

  lemma OwnRecordAfter(lib: Remote, s: Node, a: Action, id: Id)
    requires OwnAction(a) && Enabled(lib, s, a) && id in s.book.inner
    ensures id in Step(lib, s, a).book.inner
    ensures RecordAfter(s, a, id, s.book.inner[id], Step(lib, s, a).book.inner[id])
  {
    StepsAreLockSections(lib, s, a);
  }

  lemma StartRecordAfter(s: Node, other: Id, plan: HubRepo, now: int, id: Id)
    requires id in s.book.inner && other != id
    ensures id !in Started(s, other, plan, now).book.inner <==>
      Drops(Start(other, plan, now), id, s.book.inner[id].pull)
    ensures id in Started(s, other, plan, now).book.inner ==>
      Started(s, other, plan, now).book.inner[id] == s.book.inner[id]
  {}

  lemma ResumeRecordAfter(s: Node, other: Id, now: int, id: Id)
    requires id in s.book.inner
    ensures id in ResumeCalled(s, other, now).book.inner
    ensures ResumeCalled(s, other, now).book.inner[id] ==
      if other == id then TakenUp(s.book.inner[id], s.book.next, now) else s.book.inner[id]
  {}

  lemma QuietCalls(s: Node, a: Action, id: Id)
    requires a.Cancel? || a.ForgetAsk? || a.ForgetDrop? || a.ForgetWipe?
    requires id in s.book.inner
    ensures id !in CallStep(s, a).book.inner <==> a == ForgetDrop(id)
    ensures id in CallStep(s, a).book.inner ==> CallStep(s, a).book.inner[id] == s.book.inner[id]
  {}

  lemma CallRecordAfter(lib: Remote, s: Node, a: Action, id: Id)
    requires IsCall(a) && Enabled(lib, s, a) && id in s.book.inner && s.book.inner.Keys <= s.minted
    ensures id !in CallStep(s, a).book.inner <==> Drops(a, id, s.book.inner[id].pull)
    ensures id in CallStep(s, a).book.inner ==>
      RecordAfter(s, a, id, s.book.inner[id], CallStep(s, a).book.inner[id])
  {
    if a.Start? {
      StartRecordAfter(s, a.id, a.plan, a.now, id);
    } else if a.Resume? {
      ResumeRecordAfter(s, a.id, a.now, id);
    } else {
      QuietCalls(s, a, id);
    }
  }

  lemma SettleRecordAfter(s: Node, n: nat, now: int, id: Id)
    requires n in s.tasks && s.tasks[n].phase.Done? && id in s.book.inner
    ensures id in AttemptSettled(s, n, now).book.inner
    ensures RecordAfter(s, Settle(n, now), id, s.book.inner[id], AttemptSettled(s, n, now).book.inner[id])
  {}

  lemma StepRecordAfter(lib: Remote, s: Node, a: Action, id: Id)
    requires Enabled(lib, s, a) && id in s.book.inner && s.book.inner.Keys <= s.minted
    ensures id !in Step(lib, s, a).book.inner <==> Drops(a, id, s.book.inner[id].pull)
    ensures id in Step(lib, s, a).book.inner ==>
      RecordAfter(s, a, id, s.book.inner[id], Step(lib, s, a).book.inner[id])
  {
    if OwnAction(a) {
      OwnRecordAfter(lib, s, a, id);
    } else if IsCall(a) {
      CallRecordAfter(lib, s, a, id);
    } else if a.Settle? {
      SettleRecordAfter(s, a.n, a.now, id);
    } else if !a.Restart? {
      BookLeftAlone(lib, s, a);
    }
  }

  /** In every run, what every step does to a record; and exactly what drops it. */
  lemma RecordsExactly(lib: Remote, states: seq<Node>, actions: seq<Action>, k: nat, id: Id)
    requires Runs(lib, states, actions) && k < |actions| && id in states[k].book.inner
    ensures id !in states[k + 1].book.inner <==> Drops(actions[k], id, states[k].book.inner[id].pull)
    ensures id in states[k + 1].book.inner ==>
      RecordAfter(states[k], actions[k], id, states[k].book.inner[id], states[k + 1].book.inner[id])
  {
    InvOnRun(lib, states, actions, k);
    assert StepAt(lib, states, actions, k);
    StepRecordAfter(lib, states[k], actions[k], id);
  }

  /** A record as a start makes it: nothing counted, under a token nobody holds. */
  predicate JustBegun(tr: Tracked, id: Id, plan: HubRepo, now: int, token: Token) {
    && tr.described == plan && tr.cancel == token
    && tr.pull == Pull(id, plan.repo, plan.revision, Downloading, 0, plan.sizeBytes, 0, |plan.files|,
                       None, None, now, now)
  }

  lemma BeginsByStart(lib: Remote, s: Node, a: Action, id: Id)
    requires Enabled(lib, s, a) && id !in s.book.inner
    ensures id in Step(lib, s, a).book.inner <==> a.Start? && a.id == id
    ensures a.Start? && a.id == id ==> JustBegun(Step(lib, s, a).book.inner[id], id, a.plan, a.now, s.book.next)
  {
    if OwnAction(a) {
      StepsAreLockSections(lib, s, a);
    } else if LeavesBook(a) {
      BookLeftAlone(lib, s, a);
    }
  }

  /** In every run, a record appears exactly by its start. */
  lemma RecordsBegin(lib: Remote, states: seq<Node>, actions: seq<Action>, k: nat, id: Id)
    requires Runs(lib, states, actions) && k < |actions| && id !in states[k].book.inner
    ensures id in states[k + 1].book.inner <==> actions[k].Start? && actions[k].id == id
    ensures actions[k].Start? && actions[k].id == id ==>
      && JustBegun(states[k + 1].book.inner[id], id, actions[k].plan, actions[k].now, states[k].book.next)
      && states[k].book.next !in states[k + 1].book.cancelled
  {
    InvOnRun(lib, states, actions, k);
    assert StepAt(lib, states, actions, k);
    BeginsByStart(lib, states[k], actions[k], id);
  }

  /** A cancel of the unfinished download that holds the token, or a `forget` of it in any state. */
  predicate Cancels(s: Node, a: Action, token: Token) {
    && (a.Cancel? || a.ForgetAsk?) && a.id in s.book.inner && s.book.inner[a.id].cancel == token
    && (a.Cancel? ==> s.book.inner[a.id].pull.state == Downloading || s.book.inner[a.id].pull.state == Verifying)
  }

  lemma CancelTokens(s: Node, id: Id, token: Token)
    ensures token in CancelCalled(s, id).book.cancelled <==>
      token in s.book.cancelled || Cancels(s, Cancel(id), token)
  {}

  lemma ForgetTokens(s: Node, id: Id, token: Token)
    ensures token in ForgetAsked(s, id).book.cancelled <==>
      token in s.book.cancelled || Cancels(s, ForgetAsk(id), token)
  {}

  lemma CallTokens(s: Node, a: Action, token: Token)
    requires IsCall(a)
    ensures token in CallStep(s, a).book.cancelled <==> token in s.book.cancelled || Cancels(s, a, token)
  {
    if a.Cancel? { CancelTokens(s, a.id, token); } else if a.ForgetAsk? { ForgetTokens(s, a.id, token); }
  }

  lemma TokensAfter(lib: Remote, s: Node, a: Action, token: Token)
    requires Enabled(lib, s, a) && !a.Restart?
    ensures token in Step(lib, s, a).book.cancelled <==> token in s.book.cancelled || Cancels(s, a, token)
  {
    if OwnAction(a) {
      StepsAreLockSections(lib, s, a);
    } else if IsCall(a) {
      CallTokens(s, a, token);
    } else if LeavesBook(a) {
      BookLeftAlone(lib, s, a);
    }
  }

  /** In every run, a token comes to be cancelled by exactly such a call. */
  lemma CancelsExactly(lib: Remote, states: seq<Node>, actions: seq<Action>, k: nat, token: Token)
    requires Runs(lib, states, actions) && k < |actions| && !actions[k].Restart?
    ensures token in states[k + 1].book.cancelled <==>
      token in states[k].book.cancelled || Cancels(states[k], actions[k], token)
  {
    assert StepAt(lib, states, actions, k);
    TokensAfter(lib, states[k], actions[k], token);
  }

  // ------------------------------------------------------------- being called off

  /** Up to step `k`, some call cancelled this token. */
  ghost predicate WasCancelled(states: seq<Node>, actions: seq<Action>, k: nat, token: Token)
    requires k <= |actions| < |states|
  {
    exists j :: 0 <= j < k && Cancels(states[j], actions[j], token)
  }

  lemma {:induction false} CancelledByCall(lib: Remote, states: seq<Node>, actions: seq<Action>, k: nat, token: Token)
    requires Runs(lib, states, actions) && k < |states| && token in states[k].book.cancelled
    ensures WasCancelled(states, actions, k, token)
  {
    assert k > 0;
    assert StepAt(lib, states, actions, k - 1);
    assert !actions[k - 1].Restart?;
    CancelsExactly(lib, states, actions, k - 1, token);
    if token in states[k - 1].book.cancelled { CancelledByCall(lib, states, actions, k - 1, token); }
  }

  /** An attempt that is there after a token of its number was given out has been there since. */
  lemma {:induction false} ThereSince(lib: Remote, states: seq<Node>, actions: seq<Action>, j: nat, k: nat, n: nat)
    requires Runs(lib, states, actions) && j <= k < |states| && n in states[k].tasks && n < states[j].book.next
    ensures forall i :: j <= i <= k ==> n in states[i].tasks
    ensures forall i :: j <= i < k ==> !actions[i].Restart?
    decreases k
  {
    if j < k {
      assert StepAt(lib, states, actions, k - 1);
      TokensGrowOnRun(lib, states, actions, j, k - 1);
      if n !in states[k - 1].tasks { SpawnedIsNext(lib, states[k - 1], actions[k - 1], n); }
      ThereSince(lib, states, actions, j, k - 1, n);
    }
  }

  lemma {:induction false} StaysCancelled(lib: Remote, states: seq<Node>, actions: seq<Action>, j: nat, k: nat,
                                          token: Token)
    requires Runs(lib, states, actions) && j <= k < |states| && token in states[j].book.cancelled
    requires forall i :: j <= i < k ==> !actions[i].Restart?
    ensures token in states[k].book.cancelled
    decreases k
  {
    if j < k {
      StaysCancelled(lib, states, actions, j, k - 1, token);
      CancelsExactly(lib, states, actions, k - 1, token);
    }
  }

  /** A cancel reaches the attempt that holds the token, for as long as there is one. */
  lemma CancelReaches(lib: Remote, states: seq<Node>, actions: seq<Action>, j: nat, k: nat, n: nat)
    requires Runs(lib, states, actions) && j < k < |states| && n in states[k].tasks
    requires Cancels(states[j], actions[j], n)
    ensures n in states[k].book.cancelled
  {
    InvOnRun(lib, states, actions, j);
    ThereSince(lib, states, actions, j, k, n);
    CancelsExactly(lib, states, actions, j, n);
    StaysCancelled(lib, states, actions, j + 1, k, n);
  }

  /**
   An attempt can be stopped by its token exactly while it writes and once a
   cancel or a `forget` of its download, made since it holds the record's token,
   has cancelled it.
   */
  lemma StopsExactly(lib: Remote, states: seq<Node>, actions: seq<Action>, k: nat, n: nat)
    requires Runs(lib, states, actions) && k < |states| && n in states[k].tasks
    ensures Enabled(lib, states[k], StopByToken(n)) <==>
      states[k].tasks[n].phase.Writing? && WasCancelled(states, actions, k, n)
  {
    InvOnRun(lib, states, actions, k);
    assert TaskAt(lib, states[k], n);
    if n in states[k].book.cancelled { CancelledByCall(lib, states, actions, k, n); }
    if j :| 0 <= j < k && Cancels(states[j], actions[j], n) { CancelReaches(lib, states, actions, j, k, n); }
  }

  // ------------------------------------------------------------------- restarting

  /** A restart keeps the models, of the staging directories exactly those that survive, and nothing that ran. */
  lemma RestartsExactly(lib: Remote, states: seq<Node>, actions: seq<Action>, k: nat)
    requires Runs(lib, states, actions) && k < |actions| && actions[k].Restart?
    ensures
      var s, s' := states[k], states[k + 1];
      && s'.shelf == s.shelf && s'.book.inner == map[] && s'.tasks == map[] && s'.saving.None?
      && (forall id :: id in s'.incoming <==> id in s.incoming && id in actions[k].survivors)
      && (forall id :: id in s'.incoming ==> s'.incoming[id] == s.incoming[id])
  {
    assert StepAt(lib, states, actions, k);
  }
}
