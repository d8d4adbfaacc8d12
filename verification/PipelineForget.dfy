/**
 What `forget` does not promise, and exactly when it falls short. It asks the
 attempt under way to stop, drops the record and removes the directory, but it
 does not wait: what the attempt does afterwards depends on where it stood when
 the directory was removed.
 */
module PipelineForget {
  import opened Wrappers
  import opened Library
  import opened Records
  import opened Pipeline
  import opened PipelineInvariant
  import opened PipelineSteps
  import opened PipelineTheorems
  import opened PipelineFuture

  // ------------------------------------------------------ what is left behind

  const LEFTOVER_LENGTH := 9

  /** Forgotten just before the attempt makes its directory; and the attempt then fails. */
  function LeftoverAction(i: nat, id: Id, plan: HubRepo): Action {
    if i == 0 then Start(id, plan, 0)
    else if i == 1 then Begin(0)
    else if i == 2 then ForgetAsk(id)
    else if i == 3 then ForgetDrop(id)
    else if i == 4 then ForgetWipe(id)
    else if i == 5 then Prepare(0)
    else if i == 6 then Look(0, false)
    else if i == 7 then Fail(0, 0)
    else Settle(0, 0)
  }

  function LeftoverState(i: nat, id: Id, plan: HubRepo): Node {
    var task := Task(id, plan, 0, Spawned, 0, 0, false);
    var tracked := Ledger(map[id := Tracked(NewPull(id, plan, 0), 0, plan)], {}, 1);
    var started := FIRST_BOOT.(book := tracked, tasks := map[0 := task], minted := {id});
    var forgotten := started.(book := Ledger(map[], {0}, 1), asked := {id}, dropped := {id});
    var remade := forgotten.(incoming := map[id := map[]]);
    if i == 0 then FIRST_BOOT
    else if i == 1 then started
    else if i == 2 then started.(tasks := map[0 := task.(phase := Preparing)])
    else if i == 3 then started.(tasks := map[0 := task.(phase := Preparing)],
                                 book := tracked.(cancelled := {0}), asked := {id})
    else if i == 4 then forgotten.(tasks := map[0 := task.(phase := Preparing)])
    else if i == 5 then forgotten.(tasks := map[0 := task.(phase := Preparing, wiped := true)])
    else if i == 6 then remade.(tasks := map[0 := task.(phase := Looking(0))])
    else if i == 7 then remade.(tasks := map[0 := task.(phase := Asking(0, 0))])
    else if i == 8 then remade.(tasks := map[0 := task.(phase := Done(Err(Broken)))])
    else remade.(tasks := map[])
  }

  ghost predicate LeftoverGoes(lib: Remote, i: nat, id: Id, plan: HubRepo) {
    && Enabled(lib, LeftoverState(i, id, plan), LeftoverAction(i, id, plan))
    && Step(lib, LeftoverState(i, id, plan), LeftoverAction(i, id, plan)) == LeftoverState(i + 1, id, plan)
  }

  lemma LeftoverToTheAsking(lib: Remote, i: nat, id: Id, plan: HubRepo)
    requires i < 3 && Truthful(lib, plan)
    ensures LeftoverGoes(lib, i, id, plan)
  {}

  lemma LeftoverToTheWipe(lib: Remote, i: nat, id: Id, plan: HubRepo)
    requires 3 <= i < 5 && Truthful(lib, plan)
    ensures LeftoverGoes(lib, i, id, plan)
  {}

  lemma LeftoverFromTheWipe(lib: Remote, i: nat, id: Id, plan: HubRepo)
    requires 5 <= i < 7 && Truthful(lib, plan)
    ensures LeftoverGoes(lib, i, id, plan)
  {}

  lemma LeftoverAfterAll(lib: Remote, i: nat, id: Id, plan: HubRepo)
    requires 7 <= i < LEFTOVER_LENGTH && Truthful(lib, plan)
    ensures LeftoverGoes(lib, i, id, plan)
  {}

  lemma LeftoverStep(lib: Remote, i: nat, id: Id, plan: HubRepo)
    requires i < LEFTOVER_LENGTH && Truthful(lib, plan)
    ensures LeftoverGoes(lib, i, id, plan)
  {
    if i < 3 {
      LeftoverToTheAsking(lib, i, id, plan);
    } else if i < 5 {
      LeftoverToTheWipe(lib, i, id, plan);
    } else if i < 7 {
      LeftoverFromTheWipe(lib, i, id, plan);
    } else {
      LeftoverAfterAll(lib, i, id, plan);
    }
  }

  /** Of any download, `forget` can leave a directory that nothing tracks and nothing works on. */
  lemma ForgetCanLeaveADirectory(lib: Remote, id: Id, plan: HubRepo)
    requires Truthful(lib, plan)
    ensures exists states: seq<Node>, actions: seq<Action> ::
      && Runs(lib, states, actions) && |actions| == LEFTOVER_LENGTH && actions[4] == ForgetWipe(id)
      && id !in states[5].incoming && Gone(states[9], id) && id in states[9].incoming
  {
    var states := seq(10, i requires 0 <= i < 10 => LeftoverState(i, id, plan));
    var actions := seq(9, i requires 0 <= i < 9 => LeftoverAction(i, id, plan));
    forall i | 0 <= i < |actions| ensures StepAt(lib, states, actions, i) {
      assert states[i] == LeftoverState(i, id, plan) && states[i + 1] == LeftoverState(i + 1, id, plan);
      LeftoverStep(lib, i, id, plan);
    }
    assert states[0] == LeftoverState(0, id, plan) && states[5] == LeftoverState(5, id, plan);
    assert states[9] == LeftoverState(9, id, plan) && actions[4] == LeftoverAction(4, id, plan);
    assert Runs(lib, states, actions);
  }

  // --------------------------------------------- what can still be written

  /** An attempt without a directory that can come to write one: it has a file left to create. */
  predicate CanStage(t: Task) {
    var n := |t.plan.files|;
    match t.phase
    case Preparing => true
    case Looking(i) => i < n
    case Asking(i, _) => i < n
    case Opening(i, _, continuing) => i < n && !continuing
    case Writing(i, _, _) => i + 1 < n
    case Marking(i) => i + 1 < n
    case _ => false
  }

  /** The download is untracked and has no directory. */
  predicate Bare(s: Node, id: Id) {
    id in s.minted && id !in s.book.inner && id !in s.incoming
  }

  /** And nothing that works on it can write one. */
  ghost predicate BareForGood(s: Node, id: Id) {
    Bare(s, id) && forall n :: n in s.tasks && s.tasks[n].id == id ==> !CanStage(s.tasks[n])
  }

  lemma ActLeavesBare(lib: Remote, p: Place, cancelled: set<Token>, a: Action)
    requires OwnAction(a) && CanAct(lib, p, cancelled, a) && p.staged.None? && !CanStage(p.task)
    ensures Act(lib, p, cancelled, a).staged.None? && !CanStage(Act(lib, p, cancelled, a).task)
  {}

  lemma PutLeavesBare(s: Node, n: nat, p: Place, id: Id)
    requires n in s.tasks && p.task.id == s.tasks[n].id && (p.rec.Some? <==> p.task.id in s.book.inner)
    requires BareForGood(s, id) && (p.task.id == id ==> p.staged.None? && !CanStage(p.task))
    ensures BareForGood(Put(s, n, p), id)
  {}

  lemma OwnActionLeavesBare(lib: Remote, s: Node, a: Action, id: Id)
    requires OneWriter(s) && OwnAction(a) && Enabled(lib, s, a) && BareForGood(s, id)
    ensures BareForGood(Step(lib, s, a), id)
  {
    var p := PlaceOf(s, a.n);
    ActKeeps(lib, p, s.book.cancelled, a);
    if s.tasks[a.n].id == id { ActLeavesBare(lib, p, s.book.cancelled, a); }
    PutLeavesBare(s, a.n, Act(lib, p, s.book.cancelled, a), id);
  }

  /** Nothing but an attempt's own steps makes a staging directory. */
  lemma CallsStageNothing(lib: Remote, s: Node, a: Action, id: Id)
    requires !OwnAction(a) && Enabled(lib, s, a) && id !in s.incoming
    ensures id !in Step(lib, s, a).incoming
  {}

  lemma CallsEnableNothing(lib: Remote, s: Node, a: Action, n: nat)
    requires !OwnAction(a) && Enabled(lib, s, a) && n in s.tasks && n in Step(lib, s, a).tasks
    requires s.tasks[n].id !in s.book.inner && !CanStage(s.tasks[n])
    ensures !CanStage(Step(lib, s, a).tasks[n])
  {
    if a.ForgetWipe? { assert Step(lib, s, a).tasks[n] == Orphan(s.tasks[n], a.id); }
  }

  /** A download left bare for good stays so. */
  lemma BareForGoodStays(lib: Remote, s: Node, a: Action, id: Id)
    requires IdsOk(s) && OneWriter(s) && Enabled(lib, s, a) && BareForGood(s, id)
    ensures BareForGood(Step(lib, s, a), id)
  {
    if OwnAction(a) {
      OwnActionLeavesBare(lib, s, a, id);
    } else {
      NotTrackedAgain(lib, s, a, id);
      CallsStageNothing(lib, s, a, id);
      forall n | n in Step(lib, s, a).tasks && Step(lib, s, a).tasks[n].id == id
        ensures !CanStage(Step(lib, s, a).tasks[n]) {
        if n in s.tasks {
          SameDownload(lib, s, a, n);
          CallsEnableNothing(lib, s, a, n);
        } else {
          SpawnedForItsOwn(lib, s, a, n);
        }
      }
    }
  }

  lemma {:induction false} BareOnPath(lib: Remote, s: Node, actions: seq<Action>, s': Node, id: Id)
    requires Path(lib, s, actions, s') && Inv(lib, s) && BareForGood(s, id)
    ensures BareForGood(s', id)
    decreases |actions|
  {
    if actions != [] {
      BareForGoodStays(lib, s, actions[0], id);
      KeepStep(lib, s, actions[0]);
      BareOnPath(lib, Step(lib, s, actions[0]), actions[1..], s', id);
    }
  }

  lemma StagesByStep(lib: Remote, s: Node, n: nat) returns (a: Action)
    requires n in s.tasks && TaskAt(lib, s, n) && CanStage(s.tasks[n]) && s.tasks[n].id !in s.incoming
    ensures OwnAction(a) && a.n == n && Enabled(lib, s, a)
    ensures
      var p' := Act(lib, PlaceOf(s, n), s.book.cancelled, a);
      p'.staged.Some? || (CanStage(p'.task) && Rank(p'.task) < Rank(s.tasks[n]))
  {
    var phase := s.tasks[n].phase;
    a := if phase.Preparing? then Prepare(n)
         else if phase.Looking? then Look(n, false)
         else if phase.Asking? then Answer(n, false)
         else if phase.Opening? then Open(n)
         else if phase.Writing? then CloseFile(n)
         else Mark(n, 0);
  }

  /** An attempt with a file left to create can create it. */
  lemma {:induction false} Stages(lib: Remote, s: Node, n: nat) returns (s': Node)
    requires Inv(lib, s) && n in s.tasks && CanStage(s.tasks[n]) && s.tasks[n].id !in s.incoming
    ensures CanReach(lib, s, s') && s.tasks[n].id in s'.incoming
    decreases Rank(s.tasks[n])
  {
    assert TaskAt(lib, s, n);
    var p := PlaceOf(s, n);
    var a := StagesByStep(lib, s, n);
    ActKeeps(lib, p, s.book.cancelled, a);
    PutTouches(s, n, Act(lib, p, s.book.cancelled, a));
    KeepStep(lib, s, a);
    var s1 := Step(lib, s, a);
    if s.tasks[n].id in s1.incoming {
      s' := s1;
      ReachSelf(lib, s1);
    } else {
      s' := Stages(lib, s1, n);
    }
    ReachByStep(lib, s, a, s');
  }

  // ------------------------------------------- what can still become a model

  /**
   An attempt that has lost its directory and its record, and can succeed all the same: it had nothing
   behind it yet, or everything.
   */
  predicate CanYield(t: Task) {
    match t.phase
    case Preparing => true
    case Looking(i) => i == 0
    case Asking(i, _) => i == 0
    case Opening(i, _, continuing) => i == 0 && !continuing
    case Placed(_) => true
    case Recording(_) => true
    case Committing(_) => true
    case Remembering(_) => true
    case Done(outcome) => outcome.Ok?
    case _ => false
  }

  lemma BarePromise(lib: Remote, n: nat, p: Place, home: Option<Home>)
    requires TaskOk(lib, n, p, home) && p.staged.None? && p.rec.None?
    ensures Promising(p) <==> CanYield(p.task)
  {
    assert p.task.plan.files[0].path !in DirOf(p);
  }

  // ------------------------------------------------------------- the wipe

  /** Whose second lock section `forget` has passed is untracked, and was minted. */
  ghost predicate DroppedOk(s: Node) {
    && s.asked <= s.minted
    && forall id :: id in s.dropped ==> id in s.minted && id !in s.book.inner
  }

  lemma DroppedStep(lib: Remote, s: Node, a: Action)
    requires IdsOk(s) && Enabled(lib, s, a) && DroppedOk(s)
    ensures DroppedOk(Step(lib, s, a))
  {
    forall id | id in s.dropped { NotTrackedAgain(lib, s, a, id); }
  }

  lemma {:induction false} DroppedOnRun(lib: Remote, states: seq<Node>, actions: seq<Action>, i: nat)
    requires Runs(lib, states, actions) && i < |states|
    ensures DroppedOk(states[i])
  {
    if i > 0 {
      DroppedOnRun(lib, states, actions, i - 1);
      InvOnRun(lib, states, actions, i - 1);
      assert StepAt(lib, states, actions, i - 1);
      DroppedStep(lib, states[i - 1], actions[i - 1]);
    }
  }

  /** Some continuation gives the download a directory. */
  ghost predicate CanBeStaged(lib: Remote, s: Node, id: Id) {
    exists s' :: CanReach(lib, s, s') && id in s'.incoming
  }

  /** Some continuation ends the attempt with its model listed. */
  ghost predicate CanEndWell(lib: Remote, s: Node, n: nat) {
    exists s' :: CanReach(lib, s, s') && EndedWell(s', n)
  }

  /** An attempt on the download has a file left to create. */
  ghost predicate FileLeft(s: Node, id: Id) {
    exists n :: n in s.tasks && s.tasks[n].id == id && CanStage(s.tasks[n])
  }

  /** A bare download can get a directory again if and only if an attempt on it has a file left to create. */
  lemma WhatCanStillBeStaged(lib: Remote, s: Node, id: Id)
    requires Inv(lib, s) && Bare(s, id)
    ensures CanBeStaged(lib, s, id) <==> FileLeft(s, id)
  {
    if FileLeft(s, id) {
      var n :| n in s.tasks && s.tasks[n].id == id && CanStage(s.tasks[n]);
      var s' := Stages(lib, s, n);
    } else {
      forall s' | CanReach(lib, s, s') ensures id !in s'.incoming {
        var path :| Path(lib, s, path, s');
        BareOnPath(lib, s, path, s', id);
      }
    }
  }

  /**
   After `forget` has removed the directory, in any run: there is none; one can
   come back if and only if the attempt under way had a file left to create;
   and that attempt can still become a model if and only if it had nothing
   behind it yet, or its model was already in place.
   */
  lemma AfterTheWipe(lib: Remote, states: seq<Node>, actions: seq<Action>, i: nat, id: Id)
    requires Runs(lib, states, actions) && i < |actions| && actions[i] == ForgetWipe(id)
    ensures
      var s := states[i + 1];
      && Bare(s, id)
      && (CanBeStaged(lib, s, id) <==> FileLeft(s, id))
      && (forall n :: n in s.tasks && s.tasks[n].id == id ==> (CanEndWell(lib, s, n) <==> CanYield(s.tasks[n])))
  {
    var s := states[i + 1];
    assert StepAt(lib, states, actions, i);
    InvOnRun(lib, states, actions, i + 1);
    DroppedOnRun(lib, states, actions, i + 1);
    WhatCanStillBeStaged(lib, s, id);
    forall n | n in s.tasks && s.tasks[n].id == id ensures CanEndWell(lib, s, n) <==> CanYield(s.tasks[n]) {
      assert TaskAt(lib, s, n);
      BarePromise(lib, n, PlaceOf(s, n), HomeOf(s, s.tasks[n]));
      CanStillBecomeAModel(lib, states, actions, i + 1, n);
    }
  }

  /** So of any download, a model can still come after it was forgotten. */
  lemma ForgottenCanBecomeAModel(lib: Remote, id: Id, plan: HubRepo)
    requires Truthful(lib, plan)
    ensures exists states: seq<Node>, actions: seq<Action> ::
      && Runs(lib, states, actions) && |actions| == 5 && actions[4] == ForgetWipe(id)
      && 0 in states[5].tasks && states[5].tasks[0].id == id && CanEndWell(lib, states[5], 0)
  {
    var states := seq(6, i requires 0 <= i < 6 => LeftoverState(i, id, plan));
    var actions := seq(5, i requires 0 <= i < 5 => LeftoverAction(i, id, plan));
    forall i | 0 <= i < |actions| ensures StepAt(lib, states, actions, i) {
      assert states[i] == LeftoverState(i, id, plan) && states[i + 1] == LeftoverState(i + 1, id, plan);
      LeftoverStep(lib, i, id, plan);
    }
    assert states[0] == LeftoverState(0, id, plan) && states[5] == LeftoverState(5, id, plan);
    assert actions[4] == LeftoverAction(4, id, plan);
    assert Runs(lib, states, actions);
    AfterTheWipe(lib, states, actions, 4, id);
  }

  /** Once nothing tracks a download, nothing works on it and nothing is staged of it, that is so for good. */
  lemma {:induction false} NothingComesBack(lib: Remote, states: seq<Node>, actions: seq<Action>, i: nat, j: nat,
                                            id: Id)
    requires Runs(lib, states, actions) && i <= j < |states| && Gone(states[i], id) && id !in states[i].incoming
    ensures Gone(states[j], id) && id !in states[j].incoming
    decreases j
  {
    ForgottenForGood(lib, states, actions, i, j, id);
    if i < j {
      NothingComesBack(lib, states, actions, i, j - 1, id);
      InvOnRun(lib, states, actions, j - 1);
      assert StepAt(lib, states, actions, j - 1);
      BareForGoodStays(lib, states[j - 1], actions[j - 1], id);
    }
  }
}
