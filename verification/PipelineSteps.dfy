/** Every step keeps the invariant: first what an attempt does on its own, then the steps that reach further. */
module PipelineSteps {
  import opened Wrappers
  import opened Library
  import opened Models
  import opened Records
  import opened Pipeline
  import opened PipelineInvariant

  /** The record of an attempt's download, seen from the attempt. */
  ghost predicate RecordHere(lib: Remote, p: Place) {
    p.rec.Some? ==>
      RecordOk(lib, p.task.id, p.rec.value, Some(p.task.id), p.staged, false, false, false)
  }

  ghost predicate OwnOk(lib: Remote, n: nat, p: Place, home: Option<Home>) {
    TaskOk(lib, n, p, home) && RecordHere(lib, p)
  }

  /** The home an attempt has after a step of its own: the same one, or none. */
  function HomeAfter(p: Place, home: Option<Home>): Option<Home> {
    if UidOf(p.task.phase).Some? then home else None
  }

  lemma PrepareOk(lib: Remote, n: nat, p: Place)
    requires OwnOk(lib, n, p, None) && p.task.phase.Preparing?
    ensures OwnOk(lib, n, Prepared(p), None)
  {}

  /** What the stat finds is counted at once: the whole file, or the part to be continued. */
  lemma LookConserves(lib: Remote, n: nat, p: Place, seen: bool)
    requires TaskOk(lib, n, p, None) && p.task.phase.Looking?
    ensures Conserved(Looked(p, seen))
  {}

  lemma LookOk(lib: Remote, n: nat, p: Place, seen: bool)
    requires OwnOk(lib, n, p, None) && p.task.phase.Looking?
    ensures OwnOk(lib, n, Looked(p, seen), None)
  {
    LookConserves(lib, n, p, seen);
  }

  lemma AnswerOk(lib: Remote, n: nat, p: Place, partial: bool)
    requires OwnOk(lib, n, p, None) && p.task.phase.Asking?
    ensures OwnOk(lib, n, Answered(p, partial), None)
  {}

  /** Replacing the content of file `i` moves only its own term of the staged length. */
  lemma FileReplaced(lib: Remote, p: Place, i: nat, content: Bytes)
    requires Truthful(lib, p.task.plan) && i < |p.task.plan.files|
    requires p.staged.Some? ==> Staged(lib, p.task.plan, p.staged.value)
    requires content <= RemoteBytes(lib, p.task, i)
    ensures
      var p' := WithFile(p, p.task.plan.files[i].path, content);
      && Staged(lib, p.task.plan, p'.staged.value)
      && Part(p', i) == Some(content)
      && (p.staged.Some? ==>
            StagedLength(p'.staged.value, p.task.plan.files, i) == StagedLength(p.staged.value, p.task.plan.files, i))
  {
    var files := p.task.plan.files;
    var p' := WithFile(p, files[i].path, content);
    assert Described(p.task.plan, files[i].path);
    if p.staged.Some? {
      forall j | 0 <= j < i
        ensures LengthOf(p.staged.value, files[j].path) == LengthOf(p'.staged.value, files[j].path)
      {
        assert files[j].path != files[i].path;
      }
      StagedLengthFrame(p.staged.value, p'.staged.value, files, i);
    }
  }

  lemma ContinueOk(lib: Remote, n: nat, p: Place)
    requires OwnOk(lib, n, p, None) && p.task.phase.Opening? && p.task.phase.continuing
    requires Part(p, p.task.phase.i).Some?
    ensures OwnOk(lib, n, Opened(p), None)
  {}

  /** Creating the file afresh moves what was there from the staged length to what was discarded. */
  lemma CreateConserves(lib: Remote, n: nat, p: Place)
    requires TaskOk(lib, n, p, None) && p.task.phase.Opening? && !p.task.phase.continuing
    ensures Conserved(Opened(p))
    ensures Staged(lib, p.task.plan, Opened(p).staged.value) && Part(Opened(p), p.task.phase.i) == Some([])
  {
    var i := p.task.phase.i;
    FileReplaced(lib, p, i, []);
    assert StagedLength(Opened(p).staged.value, p.task.plan.files, i + 1)
        == StagedLength(Opened(p).staged.value, p.task.plan.files, i);
  }

  lemma CreateOk(lib: Remote, n: nat, p: Place)
    requires OwnOk(lib, n, p, None) && p.task.phase.Opening? && !p.task.phase.continuing
    ensures OwnOk(lib, n, Opened(p), None)
  {
    CreateConserves(lib, n, p);
  }

  /** Bytes that land keep every staged file a prefix of the remote, whatever happens to the attempt next. */
  lemma LandOk(lib: Remote, n: nat, p: Place, len: nat)
    requires OwnOk(lib, n, p, None) && CanWrite(lib, p, len)
    ensures
      var p' := Land(lib, p, len);
      var i := p.task.phase.i;
      && p'.task == p.task && p'.rec == p.rec && (p'.staged.Some? <==> p.staged.Some?)
      && (p'.staged.Some? ==> Staged(lib, p.task.plan, p'.staged.value))
      && (p.task.phase.attached ==>
            && Part(p', i).Some? && |Part(p', i).value| == p.task.phase.pos + len
            && StagedLength(p'.staged.value, p.task.plan.files, i + 1)
               == StagedLength(p.staged.value, p.task.plan.files, i + 1) + len)
  {
    var i, pos := p.task.phase.i, p.task.phase.pos;
    if p.task.phase.attached {
      var remote, content := RemoteBytes(lib, p.task, i), Part(p, i).value;
      WriteAtEndOfPrefix(remote, content, remote[pos..pos + len]);
      FileReplaced(lib, p, i, WriteAt(content, pos, remote[pos..pos + len]));
    }
  }

  lemma WroteIsLanded(lib: Remote, p: Place, len: nat)
    requires CanWrite(lib, p, len)
    ensures
      var p', t' := Land(lib, p, len), Wrote(lib, p, len).task;
      && Wrote(lib, p, len).staged == p'.staged && Wrote(lib, p, len).rec == p'.rec
      && t' == p'.task.(phase := p.task.phase.(pos := p.task.phase.pos + len), counter := p.task.counter + len)
  {}

  /** Every byte that lands is counted once. */
  lemma ChunkConserves(lib: Remote, n: nat, p: Place, len: nat)
    requires OwnOk(lib, n, p, None) && CanWrite(lib, p, len)
    ensures Conserved(Wrote(lib, p, len))
  {
    LandOk(lib, n, p, len);
    WroteIsLanded(lib, p, len);
  }

  lemma ChunkInPhase(lib: Remote, n: nat, p: Place, len: nat)
    requires OwnOk(lib, n, p, None) && CanWrite(lib, p, len)
    ensures PhaseOk(lib, n, Wrote(lib, p, len), None)
  {}

  lemma ChunkOk(lib: Remote, n: nat, p: Place, len: nat)
    requires OwnOk(lib, n, p, None) && CanWrite(lib, p, len)
    ensures OwnOk(lib, n, Wrote(lib, p, len), None)
  {
    LandOk(lib, n, p, len);
    ChunkConserves(lib, n, p, len);
    ChunkInPhase(lib, n, p, len);
  }

  lemma CloseOk(lib: Remote, n: nat, p: Place)
    requires OwnOk(lib, n, p, None) && p.task.phase.Writing?
    ensures OwnOk(lib, n, At(p, Marking(p.task.phase.i)), None)
  {}

  lemma MarkOk(lib: Remote, n: nat, p: Place, now: int)
    requires OwnOk(lib, n, p, None) && p.task.phase.Marking?
    ensures OwnOk(lib, n, Marked(p, now), None)
  {}

  lemma EndOk(lib: Remote, n: nat, p: Place, home: Option<Home>, why: Failure)
    requires OwnOk(lib, n, p, home) && !p.task.phase.Done? && !p.task.phase.Spawned?
    ensures OwnOk(lib, n, At(p, Done(Err(why))), None)
  {}

  lemma FailOk(lib: Remote, n: nat, p: Place, home: Option<Home>, landed: nat)
    requires OwnOk(lib, n, p, home) && CanFail(p.task.phase)
    requires p.task.phase.Writing? ==> home.None? && CanWrite(lib, p, landed)
    ensures OwnOk(lib, n, At(if p.task.phase.Writing? then Land(lib, p, landed) else p, Done(Err(Broken))), None)
  {
    if p.task.phase.Writing? {
      LandOk(lib, n, p, landed);
    } else {
      EndOk(lib, n, p, home, Broken);
    }
  }

  lemma TickOk(lib: Remote, n: nat, p: Place, now: int)
    requires OwnOk(lib, n, p, None) && Fetching(p.task.phase)
    ensures OwnOk(lib, n, Published(p, now), None)
  {}

  lemma StartCheckingOk(lib: Remote, n: nat, p: Place, now: int)
    requires OwnOk(lib, n, p, None) && p.task.phase.Fetched?
    ensures OwnOk(lib, n, CheckingStarted(p, now), None)
  {}

  lemma CheckFileOk(lib: Remote, n: nat, p: Place)
    requires OwnOk(lib, n, p, None) && p.task.phase.Checking? && p.task.phase.k < |p.task.plan.files|
    ensures OwnOk(lib, n, FileChecked(p), None)
  {}

  lemma ComposeOk(lib: Remote, n: nat, p: Place, home: Option<Home>, e: ModelEntry)
    requires OwnOk(lib, n, p, home) && p.task.phase.Placed?
    requires e.uid == p.task.phase.uid && e.repo == p.task.plan.repo && e.revision == p.task.plan.revision
    ensures OwnOk(lib, n, At(p, Recording(e)), home)
  {}

  /** The steps of the fetch loop. */
  lemma FetchActOk(lib: Remote, n: nat, p: Place, cancelled: set<Token>, a: Action)
    requires a.Look? || a.Answer? || a.Open? || a.Chunk? || a.CloseFile? || a.Mark? || a.Tick?
    requires CanAct(lib, p, cancelled, a) && OwnOk(lib, n, p, None)
    ensures OwnOk(lib, n, Act(lib, p, cancelled, a), None)
  {
    match a
    case Look(_, seen) => LookOk(lib, n, p, seen);
    case Answer(_, partial) => AnswerOk(lib, n, p, partial);
    case Open(_) => if p.task.phase.continuing { ContinueOk(lib, n, p); } else { CreateOk(lib, n, p); }
    case Chunk(_, len) => ChunkOk(lib, n, p, len);
    case CloseFile(_) => CloseOk(lib, n, p);
    case Mark(_, now) => MarkOk(lib, n, p, now);
    case Tick(_, now) => TickOk(lib, n, p, now);
  }

  lemma OtherActOk(lib: Remote, n: nat, p: Place, home: Option<Home>, cancelled: set<Token>, a: Action)
    requires a.Prepare? || a.StopByToken? || a.Fail? || a.StartChecking? || a.CheckFile? || a.Compose?
    requires CanAct(lib, p, cancelled, a) && OwnOk(lib, n, p, home)
    requires UidOf(p.task.phase).None? ==> home.None?
    ensures OwnOk(lib, n, Act(lib, p, cancelled, a), HomeAfter(Act(lib, p, cancelled, a), home))
  {
    match a
    case Prepare(_) => PrepareOk(lib, n, p);
    case StopByToken(_) => EndOk(lib, n, p, home, Failure.CalledOff);
    case Fail(_, landed) => FailOk(lib, n, p, home, landed);
    case StartChecking(_, now) => StartCheckingOk(lib, n, p, now);
    case CheckFile(_) => CheckFileOk(lib, n, p);
    case Compose(_, e) => ComposeOk(lib, n, p, home, e);
  }

  /** What an attempt does on its own changes neither whose it is nor what it is for. */
  lemma ActKeeps(lib: Remote, p: Place, cancelled: set<Token>, a: Action)
    requires OwnAction(a) && CanAct(lib, p, cancelled, a)
    ensures
      var p' := Act(lib, p, cancelled, a);
      && p'.task.id == p.task.id && p'.task.plan == p.task.plan
      && (p'.rec.Some? <==> p.rec.Some?)
      && (p.rec.Some? ==> p'.rec.value.described == p.rec.value.described && p'.rec.value.cancel == p.rec.value.cancel)
  {}

  lemma ActKeepsUid(lib: Remote, p: Place, cancelled: set<Token>, a: Action)
    requires OwnAction(a) && CanAct(lib, p, cancelled, a)
    ensures
      var uid := UidOf(Act(lib, p, cancelled, a).task.phase);
      uid.Some? ==>
        && uid == UidOf(p.task.phase)
        && !(a.Look? || a.Answer? || a.Open? || a.Chunk? || a.CloseFile? || a.Mark? || a.Tick?)
  {}

  /** What an attempt does on its own leaves its own places in order. */
  lemma ActOk(lib: Remote, n: nat, p: Place, home: Option<Home>, cancelled: set<Token>, a: Action)
    requires OwnAction(a) && CanAct(lib, p, cancelled, a) && OwnOk(lib, n, p, home)
    requires UidOf(p.task.phase).None? ==> home.None?
    ensures OwnOk(lib, n, Act(lib, p, cancelled, a), HomeAfter(Act(lib, p, cancelled, a), home))
  {
    ActKeepsUid(lib, p, cancelled, a);
    if a.Look? || a.Answer? || a.Open? || a.Chunk? || a.CloseFile? || a.Mark? || a.Tick? {
      FetchActOk(lib, n, p, cancelled, a);
    } else {
      OtherActOk(lib, n, p, home, cancelled, a);
    }
  }

  // ------------------------------------------------ steps of attempt `n` in the whole machine

  lemma PlaceInOrder(lib: Remote, s: Node, n: nat)
    requires Inv(lib, s) && n in s.tasks
    ensures OwnOk(lib, n, PlaceOf(s, n), HomeOf(s, s.tasks[n]))
  {}

  /** The model directory `own` after a step of its attempt: still nobody else's, or just listed. */
  ghost predicate HomeInOrder(lib: Remote, s: Node, s': Node, n: nat, own: Uid)
    requires n in s'.tasks
  {
    && UidOf(s'.tasks[n].phase) == Some(own)
    && own in s'.minted && own !in s.entries
    && (own in s'.shelf ==> DirAt(lib, s', own))
    && (own in s'.entries ==> EntryAt(s', own))
  }

  lemma AttemptMoved(lib: Remote, s: Node, s': Node, n: nat, own: Option<Uid>)
    requires n in s.tasks && n in s'.tasks && s'.tasks[n].id == s.tasks[n].id
    requires OwnOk(lib, n, PlaceOf(s', n), HomeOf(s', s'.tasks[n]))
    requires match own
             case Some(uid) => HomeInOrder(lib, s, s', n, uid)
             case None => UidOf(s'.tasks[n].phase).Some? ==> UidOf(s'.tasks[n].phase) == UidOf(s.tasks[n].phase)
    ensures TouchedOk(lib, s, s', n, own)
  {}

  lemma PutTouches(s: Node, n: nat, p: Place)
    requires n in s.tasks && p.task.id == s.tasks[n].id
    requires p.rec.Some? <==> s.tasks[n].id in s.book.inner
    requires p.rec.Some? ==> p.rec.value.cancel == s.book.inner[s.tasks[n].id].cancel
    ensures OnlyTouches(s, Put(s, n, p), n, None) && PlaceOf(Put(s, n, p), n) == p
  {}

  lemma PutKeeps(lib: Remote, s: Node, n: nat, p: Place)
    requires Inv(lib, s) && n in s.tasks && p.task.id == s.tasks[n].id
    requires p.rec.Some? <==> s.tasks[n].id in s.book.inner
    requires p.rec.Some? ==> p.rec.value.cancel == s.book.inner[s.tasks[n].id].cancel
    requires UidOf(p.task.phase).Some? ==> UidOf(p.task.phase) == UidOf(s.tasks[n].phase)
    requires OwnOk(lib, n, p, HomeAfter(p, HomeOf(s, s.tasks[n])))
    ensures Inv(lib, Put(s, n, p))
  {
    var s' := Put(s, n, p);
    PutTouches(s, n, p);
    assert HomeOf(s', p.task) == HomeAfter(p, HomeOf(s, s.tasks[n]));
    AttemptMoved(lib, s, s', n, None);
    Frame(lib, s, s', n, None);
  }

  lemma KeepOwnAction(lib: Remote, s: Node, a: Action)
    requires Inv(lib, s) && OwnAction(a) && Enabled(lib, s, a)
    ensures Inv(lib, Step(lib, s, a))
  {
    var n := a.n;
    var p, home := PlaceOf(s, n), HomeOf(s, s.tasks[n]);
    PlaceInOrder(lib, s, n);
    ActOk(lib, n, p, home, s.book.cancelled, a);
    ActKeeps(lib, p, s.book.cancelled, a);
    ActKeepsUid(lib, p, s.book.cancelled, a);
    var p' := Act(lib, p, s.book.cancelled, a);
    PutKeeps(lib, s, n, p');
  }

  lemma BeginOk(lib: Remote, n: nat, p: Place)
    requires OwnOk(lib, n, p, None) && p.task.phase.Spawned? && p.rec.Some?
    ensures OwnOk(lib, n, p.(task := p.task.(token := p.rec.value.cancel, phase := Preparing)), None)
  {}

  lemma BegunIsPut(s: Node, n: nat)
    requires n in s.tasks && s.tasks[n].id in s.book.inner
    ensures
      var p := PlaceOf(s, n);
      Begun(s, n) == Put(s, n, p.(task := p.task.(token := p.rec.value.cancel, phase := Preparing)))
  {}

  /** An attempt whose record is gone by the time it starts ends there. */
  lemma KeepGone(lib: Remote, s: Node, n: nat)
    requires Inv(lib, s) && n in s.tasks && s.tasks[n].phase.Spawned? && s.tasks[n].id !in s.book.inner
    ensures Inv(lib, Begun(s, n))
  {
    AttemptGone(lib, s, Begun(s, n), n);
  }

  lemma KeepBegin(lib: Remote, s: Node, n: nat)
    requires Inv(lib, s) && n in s.tasks && s.tasks[n].phase.Spawned?
    ensures Inv(lib, Begun(s, n))
  {
    PlaceInOrder(lib, s, n);
    var p := PlaceOf(s, n);
    if p.rec.Some? {
      BeginOk(lib, n, p);
      BegunIsPut(s, n);
      PutKeeps(lib, s, n, p.(task := p.task.(token := p.rec.value.cancel, phase := Preparing)));
    } else {
      KeepGone(lib, s, n);
    }
  }

  lemma AttemptGone(lib: Remote, s: Node, s': Node, n: nat)
    requires Inv(lib, s) && n in s.tasks && n !in s'.tasks && OnlyTouches(s, s', n, None)
    requires s.tasks[n].id in s'.book.inner ==> RecordAt(lib, s', s.tasks[n].id)
    ensures Inv(lib, s')
  {
    assert TouchedOk(lib, s, s', n, None);
    Frame(lib, s, s', n, None);
  }

  lemma SettleTouches(s: Node, n: nat, now: int)
    requires n in s.tasks && s.tasks[n].phase.Done?
    ensures OnlyTouches(s, AttemptSettled(s, n, now), n, None)
  {}

  /** Settling finishes the record: Ready only for a listed model, Cancelled only if its token was cancelled. */
  lemma SettledRecordOk(lib: Remote, s: Node, n: nat, now: int)
    requires n in s.tasks && s.tasks[n].phase.Done? && s.tasks[n].id in s.book.inner
    requires RecordAt(lib, s, s.tasks[n].id) && TaskAt(lib, s, n) && s.calledOff <= s.book.cancelled
    ensures RecordAt(lib, AttemptSettled(s, n, now), s.tasks[n].id)
  {}

  lemma KeepSettled(lib: Remote, s: Node, n: nat, now: int)
    requires Inv(lib, s) && n in s.tasks && s.tasks[n].phase.Done?
    ensures Inv(lib, AttemptSettled(s, n, now))
  {
    SettleTouches(s, n, now);
    if s.tasks[n].id in s.book.inner {
      assert RecordAt(lib, s, s.tasks[n].id) && TaskAt(lib, s, n);
      SettledRecordOk(lib, s, n, now);
    }
    AttemptGone(lib, s, AttemptSettled(s, n, now), n);
  }

  // Steps on the attempt's own model directory.

  lemma HomeMoved(lib: Remote, s: Node, s': Node, n: nat, own: Uid)
    requires Inv(lib, s) && n in s.tasks && n in s'.tasks
    requires OnlyTouches(s, s', n, Some(own)) && HomeInOrder(lib, s, s', n, own)
    requires OwnOk(lib, n, PlaceOf(s', n), HomeOf(s', s'.tasks[n]))
    ensures Inv(lib, s')
  {
    AttemptMoved(lib, s, s', n, Some(own));
    Frame(lib, s, s', n, Some(own));
  }

  lemma MintTouches(s: Node, n: nat, uid: Uid)
    requires IdsOk(s) && n in s.tasks && uid !in s.minted
    ensures OnlyTouches(s, UidMinted(s, n, uid), n, Some(uid))
  {}

  lemma MintLeaves(lib: Remote, s: Node, n: nat, uid: Uid)
    requires IdsOk(s) && n in s.tasks && uid !in s.minted
    requires s.tasks[n].phase.Checking? && s.tasks[n].phase.k == |s.tasks[n].plan.files|
    requires OwnOk(lib, n, PlaceOf(s, n), HomeOf(s, s.tasks[n]))
    ensures HomeInOrder(lib, s, UidMinted(s, n, uid), n, uid)
    ensures OwnOk(lib, n, PlaceOf(UidMinted(s, n, uid), n), HomeOf(UidMinted(s, n, uid), UidMinted(s, n, uid).tasks[n]))
  {
    assert PlaceOf(UidMinted(s, n, uid), n) == At(PlaceOf(s, n), Placing(uid));
    assert uid !in s.shelf && uid !in s.entries && uid !in s.removing;
  }

  lemma KeepMintUid(lib: Remote, s: Node, n: nat, uid: Uid)
    requires Inv(lib, s) && n in s.tasks && uid !in s.minted
    requires s.tasks[n].phase.Checking? && s.tasks[n].phase.k == |s.tasks[n].plan.files|
    ensures Inv(lib, UidMinted(s, n, uid))
  {
    PlaceInOrder(lib, s, n);
    MintTouches(s, n, uid);
    MintLeaves(lib, s, n, uid);
    HomeMoved(lib, s, UidMinted(s, n, uid), n, uid);
  }

  lemma MoveTouches(s: Node, n: nat)
    requires n in s.tasks && s.tasks[n].phase.Placing? && s.tasks[n].id in s.incoming && s.tasks[n].phase.uid in s.shelf
    ensures OnlyTouches(s, Moved(s, n), n, Some(s.tasks[n].phase.uid))
  {}

  /** The rename moves exactly the remote bytes: the length test already implied it. */
  lemma MoveLeaves(lib: Remote, s: Node, n: nat)
    requires n in s.tasks && s.tasks[n].phase.Placing? && s.tasks[n].id in s.incoming && s.tasks[n].phase.uid in s.shelf
    requires s.tasks[n].phase.uid in s.minted
    requires OwnOk(lib, n, PlaceOf(s, n), HomeOf(s, s.tasks[n]))
    ensures HomeInOrder(lib, s, Moved(s, n), n, s.tasks[n].phase.uid)
    ensures OwnOk(lib, n, PlaceOf(Moved(s, n), n), HomeOf(Moved(s, n), Moved(s, n).tasks[n]))
  {}

  lemma KeepMoved(lib: Remote, s: Node, n: nat)
    requires Inv(lib, s) && n in s.tasks && s.tasks[n].phase.Placing?
    requires s.tasks[n].id in s.incoming && s.tasks[n].phase.uid in s.shelf
    ensures Inv(lib, Moved(s, n))
  {
    PlaceInOrder(lib, s, n);
    MoveTouches(s, n);
    assert UidOf(s.tasks[n].phase).value in s.minted;
    MoveLeaves(lib, s, n);
    HomeMoved(lib, s, Moved(s, n), n, s.tasks[n].phase.uid);
  }

  lemma WriteTouches(s: Node, n: nat)
    requires n in s.tasks && s.tasks[n].phase.Recording? && s.tasks[n].phase.entry.uid in s.shelf
    ensures OnlyTouches(s, EntryWritten(s, n), n, Some(s.tasks[n].phase.entry.uid))
  {}

  lemma WriteLeaves(lib: Remote, s: Node, n: nat)
    requires n in s.tasks && s.tasks[n].phase.Recording? && s.tasks[n].phase.entry.uid in s.shelf
    requires s.tasks[n].phase.entry.uid in s.minted
    requires OwnOk(lib, n, PlaceOf(s, n), HomeOf(s, s.tasks[n]))
    ensures HomeInOrder(lib, s, EntryWritten(s, n), n, s.tasks[n].phase.entry.uid)
    ensures OwnOk(lib, n, PlaceOf(EntryWritten(s, n), n), HomeOf(EntryWritten(s, n), EntryWritten(s, n).tasks[n]))
  {}

  lemma KeepEntryWritten(lib: Remote, s: Node, n: nat)
    requires Inv(lib, s) && n in s.tasks && s.tasks[n].phase.Recording? && s.tasks[n].phase.entry.uid in s.shelf
    ensures Inv(lib, EntryWritten(s, n))
  {
    PlaceInOrder(lib, s, n);
    WriteTouches(s, n);
    assert UidOf(s.tasks[n].phase).value in s.minted;
    WriteLeaves(lib, s, n);
    HomeMoved(lib, s, EntryWritten(s, n), n, s.tasks[n].phase.entry.uid);
  }

  lemma CommitTouches(s: Node, n: nat)
    requires n in s.tasks && s.tasks[n].phase.Committing?
    requires s.tasks[n].phase.entry.uid in s.shelf && s.shelf[s.tasks[n].phase.entry.uid].temp.Some?
    ensures OnlyTouches(s, EntryCommitted(s, n), n, Some(s.tasks[n].phase.entry.uid))
  {}

  /** From here on a boot would list the model: its directory is whole. */
  lemma CommitLeaves(lib: Remote, s: Node, n: nat)
    requires n in s.tasks && s.tasks[n].phase.Committing?
    requires s.tasks[n].phase.entry.uid in s.shelf && s.shelf[s.tasks[n].phase.entry.uid].temp.Some?
    requires s.tasks[n].phase.entry.uid in s.minted
    requires OwnOk(lib, n, PlaceOf(s, n), HomeOf(s, s.tasks[n]))
    ensures HomeInOrder(lib, s, EntryCommitted(s, n), n, s.tasks[n].phase.entry.uid)
    ensures OwnOk(lib, n, PlaceOf(EntryCommitted(s, n), n), HomeOf(EntryCommitted(s, n), EntryCommitted(s, n).tasks[n]))
  {}

  lemma KeepEntryCommitted(lib: Remote, s: Node, n: nat)
    requires Inv(lib, s) && n in s.tasks && s.tasks[n].phase.Committing?
    requires s.tasks[n].phase.entry.uid in s.shelf && s.shelf[s.tasks[n].phase.entry.uid].temp.Some?
    ensures Inv(lib, EntryCommitted(s, n))
  {
    PlaceInOrder(lib, s, n);
    CommitTouches(s, n);
    assert UidOf(s.tasks[n].phase).value in s.minted;
    CommitLeaves(lib, s, n);
    HomeMoved(lib, s, EntryCommitted(s, n), n, s.tasks[n].phase.entry.uid);
  }

  lemma RememberTouches(s: Node, n: nat)
    requires n in s.tasks && s.tasks[n].phase.Remembering?
    ensures OnlyTouches(s, EntryRemembered(s, n), n, Some(s.tasks[n].phase.entry.uid))
  {}

  lemma RememberLeaves(lib: Remote, s: Node, n: nat)
    requires n in s.tasks && s.tasks[n].phase.Remembering? && s.saving.None?
    requires s.tasks[n].phase.entry.uid in s.minted
    requires OwnOk(lib, n, PlaceOf(s, n), HomeOf(s, s.tasks[n]))
    requires s.tasks[n].phase.entry.uid in s.shelf ==> DirAt(lib, s, s.tasks[n].phase.entry.uid)
    ensures HomeInOrder(lib, s, EntryRemembered(s, n), n, s.tasks[n].phase.entry.uid)
    ensures OwnOk(lib, n, PlaceOf(EntryRemembered(s, n), n),
                  HomeOf(EntryRemembered(s, n), EntryRemembered(s, n).tasks[n]))
  {}

  lemma KeepEntryRemembered(lib: Remote, s: Node, n: nat)
    requires Inv(lib, s) && n in s.tasks && s.tasks[n].phase.Remembering? && s.saving.None?
    ensures Inv(lib, EntryRemembered(s, n))
  {
    PlaceInOrder(lib, s, n);
    RememberTouches(s, n);
    assert UidOf(s.tasks[n].phase).value in s.minted;
    assert s.tasks[n].phase.entry.uid in s.shelf ==> DirAt(lib, s, s.tasks[n].phase.entry.uid);
    RememberLeaves(lib, s, n);
    HomeMoved(lib, s, EntryRemembered(s, n), n, s.tasks[n].phase.entry.uid);
  }
}
