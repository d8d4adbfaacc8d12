/**
 What can still happen. From any state of the machine: which attempts can still
 become a model, which downloads can still finish, and what a forgotten
 download can still leave behind. Each answer is a condition on the state
 itself, and exact: it holds if and only if some continuation gets there.
 */
module PipelineFuture {
  import opened Wrappers
  import opened Library
  import opened Models
  import opened Records
  import opened Pipeline
  import opened PipelineInvariant
  import opened PipelineSteps
  import opened PipelineCalls
  import opened PipelineTheorems
  import opened PipelineBytes
  import opened PipelineProgress

  // ------------------------------------------------------------ continuations

  ghost predicate Path(lib: Remote, s: Node, actions: seq<Action>, s': Node)
    decreases |actions|
  {
    if actions == [] then s' == s
    else Enabled(lib, s, actions[0]) && Path(lib, Step(lib, s, actions[0]), actions[1..], s')
  }

  /** Some continuation leads from `s` to `s'`. */
  ghost predicate CanReach(lib: Remote, s: Node, s': Node) {
    exists actions :: Path(lib, s, actions, s')
  }

  lemma ReachSelf(lib: Remote, s: Node)
    ensures CanReach(lib, s, s)
  {
    assert Path(lib, s, [], s);
  }

  lemma PathBegins(lib: Remote, s: Node, a: Action, rest: seq<Action>, s': Node)
    requires Enabled(lib, s, a) && Path(lib, Step(lib, s, a), rest, s')
    ensures Path(lib, s, [a] + rest, s')
  {
    assert ([a] + rest)[1..] == rest;
  }

  lemma ReachByStep(lib: Remote, s: Node, a: Action, s': Node)
    requires Enabled(lib, s, a) && CanReach(lib, Step(lib, s, a), s')
    ensures CanReach(lib, s, s')
  {
    var actions :| Path(lib, Step(lib, s, a), actions, s');
    PathBegins(lib, s, a, actions, s');
  }

  lemma ReachBy(lib: Remote, s: Node, a: Action, s': Node)
    requires Enabled(lib, s, a) && Step(lib, s, a) == s'
    ensures CanReach(lib, s, s')
  {
    ReachSelf(lib, s');
    ReachByStep(lib, s, a, s');
  }

  lemma {:induction false} PathJoin(lib: Remote, s: Node, first: seq<Action>, middle: Node, second: seq<Action>,
                                    s': Node)
    requires Path(lib, s, first, middle) && Path(lib, middle, second, s')
    ensures Path(lib, s, first + second, s')
    decreases |first|
  {
    if first == [] {
      assert first + second == second;
    } else {
      var a, rest := first[0], first[1..];
      PathJoin(lib, Step(lib, s, a), rest, middle, second, s');
      PathBegins(lib, s, a, rest + second, s');
      assert [a] + (rest + second) == first + second;
    }
  }

  lemma ReachOn(lib: Remote, s: Node, middle: Node, s': Node)
    requires CanReach(lib, s, middle) && CanReach(lib, middle, s')
    ensures CanReach(lib, s, s')
  {
    var first :| Path(lib, s, first, middle);
    var second :| Path(lib, middle, second, s');
    PathJoin(lib, s, first, middle, second, s');
  }

  // ------------------------------------------------- attempts that can succeed

  function DirOf(p: Place): Dir {
    if p.staged.Some? then p.staged.value else map[]
  }

  /** The first `k` files are staged at their described lengths. */
  predicate FullUpTo(p: Place, k: nat) {
    k <= |p.task.plan.files| && FullLength(p.task.plan.files, DirOf(p), k)
  }

  /** An attempt that no file behind it, and nothing taken from under it, condemns. */
  predicate Promising(p: Place) {
    var files := p.task.plan.files;
    match p.task.phase
    case Spawned => p.rec.Some?
    case Preparing => true
    case Looking(i) => FullUpTo(p, i)
    case Asking(i, _) => i < |files| && FullUpTo(p, i)
    case Opening(i, _, continuing) => i < |files| && FullUpTo(p, i) && (continuing ==> Part(p, i).Some?)
    case Writing(i, _, attached) => i < |files| && FullUpTo(p, i) && (attached || FullUpTo(p, i + 1))
    case Marking(i) => i < |files| && FullUpTo(p, i + 1)
    case Fetched => FullUpTo(p, |files|)
    case Checking(_) => FullUpTo(p, |files|)
    case Placing(_) => FullUpTo(p, |files|)
    case Done(outcome) => outcome.Ok?
    case _ => true
  }

  /** How much an attempt has left to do. */
  function Rank(t: Task): nat {
    var files := t.plan.files;
    var n := |files|;
    match t.phase
    case Spawned => 11 * n + 40
    case Preparing => 11 * n + 39
    case Looking(i) => if i <= n then 10 * (n - i) + n + 20 else 0
    case Asking(i, _) => if i < n then 10 * (n - i) + n + 19 else 0
    case Opening(i, _, _) => if i < n then 10 * (n - i) + n + 18 else 0
    case Writing(i, pos, _) => if i < n then 10 * (n - i) + n + (if pos < files[i].size then 17 else 16) else 0
    case Marking(i) => if i < n then 10 * (n - i) + n + 15 else 0
    case Fetched => n + 12
    case Checking(k) => if k <= n then (n - k) + 10 else 0
    case Placing(_) => 8
    case Placed(_) => 7
    case Recording(_) => 6
    case Committing(_) => 5
    case Remembering(_) => 4
    case Done(_) => 0
  }

  /** Replacing file `i` leaves the files before it as they are. */
  lemma EarlierFilesStay(p: Place, i: nat, content: Bytes, k: nat)
    requires DistinctPaths(p.task.plan.files) && k <= i < |p.task.plan.files|
    ensures FullUpTo(WithFile(p, p.task.plan.files[i].path, content), k) <==> FullUpTo(p, k)
    ensures k == i && |content| == p.task.plan.files[i].size && FullUpTo(p, i) ==>
      FullUpTo(WithFile(p, p.task.plan.files[i].path, content), i + 1)
  {
    var files := p.task.plan.files;
    var p' := WithFile(p, files[i].path, content);
    forall j | 0 <= j < k ensures Get(DirOf(p'), files[j].path) == Get(DirOf(p), files[j].path) {
      assert files[j].path != files[i].path;
    }
  }

  /** A step of the attempt's own that brings it nearer, and leaves it promising. */
  ghost predicate Advances(lib: Remote, n: nat, p: Place, cancelled: set<Token>, a: Action) {
    && OwnAction(a) && a.n == n && CanAct(lib, p, cancelled, a)
    && Promising(Act(lib, p, cancelled, a)) && Rank(Act(lib, p, cancelled, a).task) < Rank(p.task)
  }

  lemma AdvanceByLooking(lib: Remote, n: nat, p: Place, home: Option<Home>, cancelled: set<Token>)
    requires TaskOk(lib, n, p, home) && Promising(p) && p.task.phase.Looking?
    ensures Advances(lib, n, p, cancelled, Look(n, true))
  {}

  lemma AdvanceByOpening(lib: Remote, n: nat, p: Place, home: Option<Home>, cancelled: set<Token>)
    requires TaskOk(lib, n, p, home) && Promising(p) && p.task.phase.Opening?
    ensures Advances(lib, n, p, cancelled, Open(n))
  {
    if !p.task.phase.continuing { EarlierFilesStay(p, p.task.phase.i, [], p.task.phase.i); }
  }

  lemma AdvanceToWriting(lib: Remote, n: nat, p: Place, home: Option<Home>, cancelled: set<Token>) returns (a: Action)
    requires TaskOk(lib, n, p, home) && Promising(p)
    requires p.task.phase.Preparing? || p.task.phase.Looking? || p.task.phase.Asking? || p.task.phase.Opening?
    ensures Advances(lib, n, p, cancelled, a)
  {
    if p.task.phase.Looking? {
      a := Look(n, true);
      AdvanceByLooking(lib, n, p, home, cancelled);
    } else if p.task.phase.Opening? {
      a := Open(n);
      AdvanceByOpening(lib, n, p, home, cancelled);
    } else {
      a := if p.task.phase.Preparing? then Prepare(n) else Answer(n, false);
    }
  }

  lemma AdvanceByWriting(lib: Remote, n: nat, p: Place, home: Option<Home>, cancelled: set<Token>) returns (a: Action)
    requires TaskOk(lib, n, p, home) && Promising(p) && p.task.phase.Writing?
    ensures Advances(lib, n, p, cancelled, a)
  {
    var i, pos, size := p.task.phase.i, p.task.phase.pos, p.task.plan.files[p.task.phase.i].size;
    if p.task.phase.attached && pos < size {
      a := Chunk(n, size - pos);
      EarlierFilesStay(p, i, WriteAt(Part(p, i).value, pos, RemoteBytes(lib, p.task, i)[pos..size]), i);
    } else {
      a := CloseFile(n);
    }
  }

  lemma AdvanceAfterWriting(lib: Remote, n: nat, p: Place, home: Option<Home>, cancelled: set<Token>)
    returns (a: Action)
    requires TaskOk(lib, n, p, home) && Promising(p)
    requires p.task.phase.Marking? || p.task.phase.Fetched?
          || (p.task.phase.Checking? && p.task.phase.k < |p.task.plan.files|)
    ensures Advances(lib, n, p, cancelled, a)
  {
    a := if p.task.phase.Marking? then Mark(n, 0)
         else if p.task.phase.Fetched? then StartChecking(n, 0)
         else CheckFile(n);
  }

  lemma AdvanceByComposing(lib: Remote, n: nat, p: Place, cancelled: set<Token>) returns (a: Action)
    requires p.task.phase.Placed?
    ensures Advances(lib, n, p, cancelled, a)
  {
    var plan := p.task.plan;
    a := Compose(n, ModelEntry(p.task.phase.uid, plan.repo, plan.revision, plan.name, plan.name,
                               Facts(None, None, None, |plan.files|, plan.sizeBytes), map[], false, 0));
  }

  predicate OnItsOwn(t: Task) {
    || t.phase.Preparing? || Fetching(t.phase) || t.phase.Fetched? || t.phase.Placed?
    || (t.phase.Checking? && t.phase.k < |t.plan.files|)
  }

  lemma Advance(lib: Remote, n: nat, p: Place, home: Option<Home>, cancelled: set<Token>) returns (a: Action)
    requires TaskOk(lib, n, p, home) && Promising(p) && OnItsOwn(p.task)
    ensures Advances(lib, n, p, cancelled, a)
  {
    if p.task.phase.Preparing? || p.task.phase.Looking? || p.task.phase.Asking? || p.task.phase.Opening? {
      a := AdvanceToWriting(lib, n, p, home, cancelled);
    } else if p.task.phase.Writing? {
      a := AdvanceByWriting(lib, n, p, home, cancelled);
    } else if p.task.phase.Placed? {
      a := AdvanceByComposing(lib, n, p, cancelled);
    } else {
      a := AdvanceAfterWriting(lib, n, p, home, cancelled);
    }
  }

  // ------------------------------------------------ and in the whole machine

  /**
   From `s` to `s'`, attempt `n` is nearer its end and still promising; it works on the same download,
   tracked as before.
   */
  ghost predicate Nearer(s: Node, s': Node, n: nat) {
    && n in s.tasks && n in s'.tasks && s'.tasks[n].id == s.tasks[n].id
    && Promising(PlaceOf(s', n)) && Rank(s'.tasks[n]) < Rank(s.tasks[n])
    && s'.saving.None? && (s.tasks[n].id in s'.book.inner <==> s.tasks[n].id in s.book.inner)
  }

  lemma NearerOnItsOwn(lib: Remote, s: Node, n: nat) returns (a: Action)
    requires n in s.tasks && TaskAt(lib, s, n) && s.saving.None? && Promising(PlaceOf(s, n)) && OnItsOwn(s.tasks[n])
    ensures Enabled(lib, s, a) && Nearer(s, Step(lib, s, a), n)
  {
    var p := PlaceOf(s, n);
    a := Advance(lib, n, p, HomeOf(s, s.tasks[n]), s.book.cancelled);
    ActKeeps(lib, p, s.book.cancelled, a);
    PutTouches(s, n, Act(lib, p, s.book.cancelled, a));
  }

  lemma NearerByMinting(lib: Remote, s: Node, n: nat) returns (a: Action)
    requires n in s.tasks && s.saving.None? && Promising(PlaceOf(s, n))
    requires s.tasks[n].phase.Checking? && s.tasks[n].phase.k == |s.tasks[n].plan.files|
    ensures Enabled(lib, s, a) && Nearer(s, Step(lib, s, a), n)
  {
    var uid := SomethingUnused(s.minted);
    a := MintUid(n, uid);
    assert PlaceOf(UidMinted(s, n, uid), n) == At(PlaceOf(s, n), Placing(uid));
  }

  lemma NearerByPlacing(lib: Remote, s: Node, n: nat) returns (a: Action)
    requires n in s.tasks && TaskAt(lib, s, n) && s.saving.None? && Promising(PlaceOf(s, n))
    requires s.tasks[n].phase.Spawned? || s.tasks[n].phase.Placing?
    ensures Enabled(lib, s, a) && Nearer(s, Step(lib, s, a), n)
  {
    a := if s.tasks[n].phase.Spawned? then Begin(n) else PutInPlace(n);
  }

  lemma NearerByListing(lib: Remote, s: Node, n: nat)
    requires n in s.tasks && TaskAt(lib, s, n) && s.saving.None? && s.tasks[n].phase.Remembering?
    ensures Enabled(lib, s, Remember(n)) && Nearer(s, Step(lib, s, Remember(n)), n)
  {}

  lemma NearerByRecording(lib: Remote, s: Node, n: nat) returns (a: Action)
    requires n in s.tasks && TaskAt(lib, s, n) && s.saving.None?
    requires s.tasks[n].phase.Recording? || s.tasks[n].phase.Committing?
    ensures Enabled(lib, s, a) && Nearer(s, Step(lib, s, a), n)
  {
    a := if s.tasks[n].phase.Recording? then WriteEntry(n) else CommitEntry(n);
  }

  lemma NearerByFiling(lib: Remote, s: Node, n: nat) returns (a: Action)
    requires n in s.tasks && TaskAt(lib, s, n) && s.saving.None? && Promising(PlaceOf(s, n))
    requires !OnItsOwn(s.tasks[n]) && !s.tasks[n].phase.Done?
    ensures Enabled(lib, s, a) && Nearer(s, Step(lib, s, a), n)
  {
    if s.tasks[n].phase.Remembering? {
      a := Remember(n);
      NearerByListing(lib, s, n);
    } else if s.tasks[n].phase.Recording? || s.tasks[n].phase.Committing? {
      a := NearerByRecording(lib, s, n);
    } else if s.tasks[n].phase.Checking? {
      a := NearerByMinting(lib, s, n);
    } else {
      a := NearerByPlacing(lib, s, n);
    }
  }

  /** A promising attempt can run to its end, and its model be listed. */
  lemma {:induction false} Completes(lib: Remote, s: Node, n: nat) returns (s': Node)
    requires Inv(lib, s) && n in s.tasks && s.saving.None? && Promising(PlaceOf(s, n))
    ensures CanReach(lib, s, s') && Inv(lib, s') && n in s'.tasks && s'.tasks[n].id == s.tasks[n].id
    ensures s'.tasks[n].phase.Done? && s'.tasks[n].phase.outcome.Ok?
    ensures s.tasks[n].id in s'.book.inner <==> s.tasks[n].id in s.book.inner
    decreases Rank(s.tasks[n])
  {
    if s.tasks[n].phase.Done? {
      s' := s;
      ReachSelf(lib, s);
    } else {
      assert TaskAt(lib, s, n);
      var a;
      if OnItsOwn(s.tasks[n]) { a := NearerOnItsOwn(lib, s, n); } else { a := NearerByFiling(lib, s, n); }
      KeepStep(lib, s, a);
      s' := Completes(lib, Step(lib, s, a), n);
      ReachByStep(lib, s, a, s');
    }
  }

  lemma CommitReached(lib: Remote, s: Node)
    requires CatalogueEnabled(s, UpdateCommit)
    ensures CanReach(lib, s, UpdateCommitted(s))
  {
    ReachBy(lib, s, UpdateCommit, UpdateCommitted(s));
  }

  lemma RememberReached(lib: Remote, s: Node)
    requires CatalogueEnabled(s, UpdateRemember)
    ensures CanReach(lib, s, UpdateRemembered(s))
  {
    ReachBy(lib, s, UpdateRemember, UpdateRemembered(s));
  }

  lemma UpdateFinishesFrom(lib: Remote, s: Node) returns (s': Node)
    requires Inv(lib, s) && CatalogueEnabled(s, UpdateRemember)
    ensures CanReach(lib, s, s') && Inv(lib, s') && s'.saving.None?
    ensures s'.tasks == s.tasks && s'.book == s.book && s'.incoming == s.incoming
  {
    KeepUpdateRemember(lib, s);
    RememberReached(lib, s);
    s' := UpdateRemembered(s);
  }

  /** An update in progress can finish, and touches no download and no attempt. */
  lemma UpdateFinishes(lib: Remote, s: Node) returns (s': Node)
    requires Inv(lib, s)
    ensures CanReach(lib, s, s') && Inv(lib, s') && s'.saving.None?
    ensures s'.tasks == s.tasks && s'.book == s.book && s'.incoming == s.incoming
  {
    if s.saving.None? {
      s' := s;
      ReachSelf(lib, s);
    } else if s.saving.value.committed {
      s' := UpdateFinishesFrom(lib, s);
    } else {
      assert SavingAt(s);
      KeepUpdateCommit(lib, s);
      CommitReached(lib, s);
      s' := UpdateFinishesFrom(lib, UpdateCommitted(s));
      ReachOn(lib, s, UpdateCommitted(s), s');
    }
  }

  // -------------------------------------------------- attempts that cannot

  lemma WritingStepCondemned(lib: Remote, n: nat, p: Place, home: Option<Home>, cancelled: set<Token>, a: Action)
    requires TaskOk(lib, n, p, home) && !Promising(p) && (a.Open? || a.Chunk?) && CanAct(lib, p, cancelled, a)
    ensures !Promising(Act(lib, p, cancelled, a))
  {
    if a.Open? && !p.task.phase.continuing { EarlierFilesStay(p, p.task.phase.i, [], p.task.phase.i); }
    if a.Chunk? && p.task.phase.attached {
      var i, pos, len := p.task.phase.i, p.task.phase.pos, a.len;
      EarlierFilesStay(p, i, WriteAt(Part(p, i).value, pos, RemoteBytes(lib, p.task, i)[pos..pos + len]), i);
    }
  }

  lemma FetchStepCondemned(lib: Remote, p: Place, cancelled: set<Token>, a: Action)
    requires !Promising(p) && (a.Look? || a.Answer? || a.CloseFile? || a.Mark?) && CanAct(lib, p, cancelled, a)
    ensures !Promising(Act(lib, p, cancelled, a))
  {}

  lemma EndStepCondemned(lib: Remote, p: Place, cancelled: set<Token>, a: Action)
    requires a.Prepare? || a.StopByToken? || a.Fail? || a.Tick? || a.StartChecking? || a.CheckFile? || a.Compose?
    requires !Promising(p) && CanAct(lib, p, cancelled, a)
    ensures !Promising(Act(lib, p, cancelled, a))
  {}

  /** A condemned attempt stays condemned, whatever it does next. */
  lemma OwnStepCondemned(lib: Remote, n: nat, p: Place, home: Option<Home>, cancelled: set<Token>, a: Action)
    requires TaskOk(lib, n, p, home) && !Promising(p) && OwnAction(a) && CanAct(lib, p, cancelled, a)
    ensures !Promising(Act(lib, p, cancelled, a))
  {
    if a.Open? || a.Chunk? {
      WritingStepCondemned(lib, n, p, home, cancelled, a);
    } else if a.Look? || a.Answer? || a.CloseFile? || a.Mark? {
      FetchStepCondemned(lib, p, cancelled, a);
    } else {
      EndStepCondemned(lib, p, cancelled, a);
    }
  }

  lemma PutElsewhere(s: Node, m: nat, p: Place, n: nat)
    requires m in s.tasks && n in s.tasks && m != n && p.task.id != s.tasks[n].id
    ensures n in Put(s, m, p).tasks && PlaceOf(Put(s, m, p), n) == PlaceOf(s, n)
  {}

  lemma OwnActionCondemned(lib: Remote, s: Node, a: Action, n: nat)
    requires Inv(lib, s) && Enabled(lib, s, a) && n in s.tasks && OwnAction(a) && !Promising(PlaceOf(s, n))
    ensures n in Step(lib, s, a).tasks && !Promising(PlaceOf(Step(lib, s, a), n))
  {
    var p := PlaceOf(s, a.n);
    ActKeeps(lib, p, s.book.cancelled, a);
    if a.n == n {
      assert TaskAt(lib, s, n);
      OwnStepCondemned(lib, n, p, HomeOf(s, s.tasks[n]), s.book.cancelled, a);
      PutTouches(s, n, Act(lib, p, s.book.cancelled, a));
    } else {
      PutElsewhere(s, a.n, Act(lib, p, s.book.cancelled, a), n);
    }
  }

  lemma WipeCondemned(p: Place)
    requires !Promising(p)
    ensures !Promising(Place(Orphan(p.task, p.task.id), p.rec, None)) && !Promising(p.(rec := None))
  {}

  lemma ForgetCondemned(s: Node, id: Id, n: nat)
    requires n in s.tasks && !Promising(PlaceOf(s, n))
    ensures
      var dropped := s.(book := Dropped(s.book, id), dropped := s.dropped + {id});
      && !Promising(PlaceOf(dropped, n))
      && n in ForgetWiped(s, id).tasks && !Promising(PlaceOf(ForgetWiped(s, id), n))
  {
    var p, dropped := PlaceOf(s, n), s.(book := Dropped(s.book, id), dropped := s.dropped + {id});
    WipeCondemned(p);
    WipedPlaces(s, id, n);
    assert PlaceOf(dropped, n) == p || PlaceOf(dropped, n) == p.(rec := None);
  }

  /** A new attempt leaves the others alone. */
  lemma SpawningElsewhere(lib: Remote, s: Node, a: Action, n: nat)
    requires Inv(lib, s) && Enabled(lib, s, a) && n in s.tasks && (a.Start? || a.Resume?)
    ensures n in Step(lib, s, a).tasks && PlaceOf(Step(lib, s, a), n) == PlaceOf(s, n)
  {
    if a.Start? {
      StartedTasks(lib, s, a.id, a.plan, a.now);
    } else if CanResume(s.book, a.id) {
      ResumedTasks(lib, s, a.id, a.now);
    }
  }

  lemma SettlingElsewhere(s: Node, m: nat, now: int, n: nat)
    requires m in s.tasks && s.tasks[m].phase.Done? && n in s.tasks && m != n && s.tasks[m].id != s.tasks[n].id
    ensures n in AttemptSettled(s, m, now).tasks && PlaceOf(AttemptSettled(s, m, now), n) == PlaceOf(s, n)
  {}

  lemma MovingElsewhere(s: Node, m: nat, n: nat)
    requires m in s.tasks && s.tasks[m].phase.Placing? && s.tasks[m].id in s.incoming && s.tasks[m].phase.uid in s.shelf
    requires n in s.tasks && m != n && s.tasks[m].id != s.tasks[n].id
    ensures n in Moved(s, m).tasks && PlaceOf(Moved(s, m), n) == PlaceOf(s, n)
  {}

  /** The steps of an attempt that reach beyond its own place leave another's alone. */
  lemma FilingElsewhere(s: Node, a: Action, n: nat)
    requires IsFiling(a) && FilingEnabled(s, a) && n in s.tasks
    requires a.n != n && s.tasks[a.n].id != s.tasks[n].id
    ensures n in FilingStep(s, a).tasks && PlaceOf(FilingStep(s, a), n) == PlaceOf(s, n)
  {
    if a.PutInPlace? { MovingElsewhere(s, a.n, n); }
    if a.Settle? { SettlingElsewhere(s, a.n, a.now, n); }
  }

  lemma MintingCondemned(s: Node, n: nat, uid: Uid)
    requires n in s.tasks && s.tasks[n].phase.Checking? && !Promising(PlaceOf(s, n))
    ensures !Promising(PlaceOf(UidMinted(s, n, uid), n))
  {
    assert PlaceOf(UidMinted(s, n, uid), n) == At(PlaceOf(s, n), Placing(uid));
  }

  /** And a condemned attempt takes none of them, but to mint an identifier or to end. */
  lemma FilingCondemned(lib: Remote, s: Node, a: Action, n: nat)
    requires n in s.tasks && TaskAt(lib, s, n) && IsFiling(a) && FilingEnabled(s, a) && !Promising(PlaceOf(s, n))
    requires a.n == n && n in FilingStep(s, a).tasks
    ensures !Promising(PlaceOf(FilingStep(s, a), n))
  {
    assert a.MintUid? || a.Begin?;
    if a.MintUid? { MintingCondemned(s, n, a.uid); }
  }

  /** The catalogue's steps, and the calls that only cancel, leave every attempt's place alone. */
  lemma CatalogueElsewhere(s: Node, a: Action, n: nat)
    requires n in s.tasks && !OwnAction(a) && !IsCall(a) && !IsFiling(a) && CatalogueEnabled(s, a)
    ensures n in CatalogueStep(s, a).tasks ==> PlaceOf(CatalogueStep(s, a), n) == PlaceOf(s, n)
  {}

  lemma CancelElsewhere(s: Node, a: Action, n: nat)
    requires n in s.tasks && (a.Cancel? || a.ForgetAsk?)
    ensures n in CallStep(s, a).tasks && PlaceOf(CallStep(s, a), n) == PlaceOf(s, n)
  {}

  /** A condemned attempt is condemned for good. */
  lemma StepCondemned(lib: Remote, s: Node, a: Action, n: nat)
    requires Inv(lib, s) && Enabled(lib, s, a) && n in s.tasks && n in Step(lib, s, a).tasks
    requires !Promising(PlaceOf(s, n))
    ensures !Promising(PlaceOf(Step(lib, s, a), n))
  {
    if OwnAction(a) {
      OwnActionCondemned(lib, s, a, n);
    } else if a.Start? || a.Resume? {
      SpawningElsewhere(lib, s, a, n);
    } else if a.ForgetDrop? || a.ForgetWipe? {
      ForgetCondemned(s, a.id, n);
    } else if IsFiling(a) {
      if a.n == n {
        assert TaskAt(lib, s, n);
        FilingCondemned(lib, s, a, n);
      } else {
        FilingElsewhere(s, a, n);
      }
    } else if IsCall(a) {
      CancelElsewhere(s, a, n);
    } else {
      CatalogueElsewhere(s, a, n);
    }
  }

  lemma {:induction false} GoneOnPath(lib: Remote, s: Node, actions: seq<Action>, s': Node, n: nat)
    requires Path(lib, s, actions, s') && n !in s.tasks && n < s.book.next
    ensures n !in s'.tasks
    decreases |actions|
  {
    if actions != [] {
      var s1 := Step(lib, s, actions[0]);
      TokensGrow(lib, s, actions[0]);
      if n in s1.tasks { SpawnedIsNext(lib, s, actions[0], n); }
      GoneOnPath(lib, s1, actions[1..], s', n);
    }
  }

  lemma {:induction false} CondemnedOnPath(lib: Remote, s: Node, actions: seq<Action>, s': Node, n: nat)
    requires Path(lib, s, actions, s') && Inv(lib, s) && n in s.tasks && !Promising(PlaceOf(s, n))
    ensures n in s'.tasks ==> !Promising(PlaceOf(s', n))
    decreases |actions|
  {
    if actions != [] {
      var s1 := Step(lib, s, actions[0]);
      KeepStep(lib, s, actions[0]);
      TokensGrow(lib, s, actions[0]);
      if n in s1.tasks {
        StepCondemned(lib, s, actions[0], n);
        CondemnedOnPath(lib, s1, actions[1..], s', n);
      } else {
        GoneOnPath(lib, s1, actions[1..], s', n);
      }
    }
  }

  /** The attempt has ended, and the catalogue has listed its model. */
  predicate EndedWell(s: Node, n: nat) {
    && n in s.tasks && s.tasks[n].phase.Done? && s.tasks[n].phase.outcome.Ok?
    && s.tasks[n].phase.outcome.value.uid in s.inserted
  }

  lemma PromisingEndsWell(lib: Remote, s: Node, n: nat) returns (s': Node)
    requires Inv(lib, s) && n in s.tasks && Promising(PlaceOf(s, n))
    ensures CanReach(lib, s, s') && Inv(lib, s') && EndedWell(s', n) && s'.tasks[n].id == s.tasks[n].id
    ensures s.tasks[n].id in s'.book.inner <==> s.tasks[n].id in s.book.inner
  {
    var s1 := UpdateFinishes(lib, s);
    assert PlaceOf(s1, n) == PlaceOf(s, n);
    s' := Completes(lib, s1, n);
    ReachOn(lib, s, s1, s');
    assert TaskAt(lib, s', n);
  }

  lemma EndingWellIsPromising(s: Node, n: nat)
    requires EndedWell(s, n)
    ensures Promising(PlaceOf(s, n))
  {}

  lemma CondemnedNeverEndsWell(lib: Remote, s: Node, n: nat, s': Node)
    requires Inv(lib, s) && n in s.tasks && !Promising(PlaceOf(s, n)) && CanReach(lib, s, s')
    ensures !EndedWell(s', n)
  {
    var path :| Path(lib, s, path, s');
    CondemnedOnPath(lib, s, path, s', n);
    if EndedWell(s', n) { EndingWellIsPromising(s', n); }
  }

  /**
   An attempt can still become a model if and only if it is promising: for every attempt in every state
   of every run.
   */
  lemma CanStillBecomeAModel(lib: Remote, states: seq<Node>, actions: seq<Action>, i: nat, n: nat)
    requires Runs(lib, states, actions) && i < |states| && n in states[i].tasks
    ensures Promising(PlaceOf(states[i], n)) <==> exists s' :: CanReach(lib, states[i], s') && EndedWell(s', n)
  {
    InvOnRun(lib, states, actions, i);
    if Promising(PlaceOf(states[i], n)) {
      var s' := PromisingEndsWell(lib, states[i], n);
    } else {
      forall s' | CanReach(lib, states[i], s') ensures !EndedWell(s', n) {
        CondemnedNeverEndsWell(lib, states[i], n, s');
      }
    }
  }

  // ---------------------------------------------------- downloads that can finish

  lemma GivesUpByStep(lib: Remote, s: Node, n: nat) returns (a: Action)
    requires n in s.tasks && TaskAt(lib, s, n) && s.tasks[n].id in s.book.inner
    requires !Promising(PlaceOf(s, n)) && !s.tasks[n].phase.Done?
    ensures OwnAction(a) && a.n == n && Enabled(lib, s, a)
    ensures Rank(Act(lib, PlaceOf(s, n), s.book.cancelled, a).task) < Rank(s.tasks[n])
  {
    var phase := s.tasks[n].phase;
    a := if phase.Looking? then Look(n, false)
         else if phase.Marking? then Mark(n, 0)
         else if phase.Fetched? then StartChecking(n, 0)
         else Fail(n, 0);
  }

  /** A condemned attempt comes to an end. */
  lemma {:induction false} GivesUp(lib: Remote, s: Node, n: nat) returns (s': Node)
    requires Inv(lib, s) && n in s.tasks && s.tasks[n].id in s.book.inner && !Promising(PlaceOf(s, n))
    ensures CanReach(lib, s, s') && Inv(lib, s') && n in s'.tasks && s'.tasks[n].id == s.tasks[n].id
    ensures s.tasks[n].id in s'.book.inner && s'.tasks[n].phase.Done? && s'.tasks[n].phase.outcome.Err?
    decreases Rank(s.tasks[n])
  {
    if s.tasks[n].phase.Done? {
      s' := s;
      ReachSelf(lib, s);
    } else {
      assert TaskAt(lib, s, n);
      var a := GivesUpByStep(lib, s, n);
      var p := PlaceOf(s, n);
      ActKeeps(lib, p, s.book.cancelled, a);
      PutTouches(s, n, Act(lib, p, s.book.cancelled, a));
      KeepStep(lib, s, a);
      OwnActionCondemned(lib, s, a, n);
      s' := GivesUp(lib, Step(lib, s, a), n);
      ReachByStep(lib, s, a, s');
    }
  }

  ghost predicate IsReady(s: Node, id: Id) {
    id in s.book.inner && s.book.inner[id].pull.state.Ready?
  }

  /** A tracked download with a promising attempt can become Ready. */
  lemma ReadyByAttempt(lib: Remote, s: Node, id: Id, n: nat) returns (s': Node)
    requires Inv(lib, s) && id in s.book.inner && n in s.tasks && s.tasks[n].id == id && Promising(PlaceOf(s, n))
    ensures CanReach(lib, s, s') && IsReady(s', id)
  {
    var done := PromisingEndsWell(lib, s, n);
    s' := AttemptSettled(done, n, 0);
    ReachSelf(lib, s');
    ReachByStep(lib, done, Settle(n, 0), s');
    ReachOn(lib, s, done, s');
  }

  /** One that stopped can be resumed, and then become Ready. */
  lemma ReadyByResume(lib: Remote, s: Node, id: Id) returns (s': Node)
    requires Inv(lib, s) && CanResume(s.book, id)
    ensures CanReach(lib, s, s') && IsReady(s', id)
  {
    KeepStep(lib, s, Resume(id, 0));
    s' := ReadyByAttempt(lib, ResumeCalled(s, id, 0), id, s.book.next);
    ReachByStep(lib, s, Resume(id, 0), s');
  }

  /** One whose attempt is condemned can stop, and be resumed. */
  lemma ReadyByGivingUp(lib: Remote, s: Node, id: Id, n: nat) returns (s': Node)
    requires Inv(lib, s) && id in s.book.inner && n in s.tasks && s.tasks[n].id == id && !Promising(PlaceOf(s, n))
    ensures CanReach(lib, s, s') && IsReady(s', id)
  {
    var done := GivesUp(lib, s, n);
    var stopped := AttemptSettled(done, n, 0);
    KeepStep(lib, done, Settle(n, 0));
    s' := ReadyByResume(lib, stopped, id);
    ReachByStep(lib, done, Settle(n, 0), s');
    ReachOn(lib, s, done, s');
  }

  /** Every download that is tracked can still finish, whatever has happened to it: in every state of every run. */
  lemma EveryDownloadCanFinish(lib: Remote, states: seq<Node>, actions: seq<Action>, i: nat, id: Id)
    requires Runs(lib, states, actions) && i < |states| && id in states[i].book.inner
    ensures exists s' :: CanReach(lib, states[i], s') && IsReady(s', id)
  {
    InvOnRun(lib, states, actions, i);
    var s := states[i];
    assert RecordAt(lib, s, id);
    var tr, s' := s.book.inner[id], s;
    if tr.pull.state.Ready? {
      ReachSelf(lib, s);
    } else if tr.pull.state.Finished() {
      s' := ReadyByResume(lib, s, id);
    } else if Promising(PlaceOf(s, tr.cancel)) {
      s' := ReadyByAttempt(lib, s, id, tr.cancel);
    } else {
      s' := ReadyByGivingUp(lib, s, id, tr.cancel);
    }
    assert CanReach(lib, s, s') && IsReady(s', id);
  }
}
