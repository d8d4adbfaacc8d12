/**
 The inductive invariant of the pipeline. It is stated place by place: what
 holds of an attempt depends only on its own record, its own staging directory
 and its own model directory, so a step disturbs only what it touches.
 */
module PipelineInvariant {
  import opened Wrappers
  import opened Library
  import opened Models
  import opened Records
  import opened Pipeline

  // ---------------------------------------------------------------- models

  /** Exactly the remote bytes of every file the plan described. */
  ghost predicate WholeWeights(lib: Remote, plan: HubRepo, weights: Option<Dir>) {
    Truthful(lib, plan) && weights.Some? && Complete(lib, plan, weights.value)
  }

  /** An entry for `uid` that says where its bytes came from. */
  ghost predicate Describes(uid: Uid, plan: HubRepo, e: ModelEntry) {
    e.uid == uid && e.repo == plan.repo && e.revision == plan.revision
  }

  /** A directory with a `model.json` holds a whole model, and the file says which. */
  ghost predicate DirOk(lib: Remote, uid: Uid, dir: ModelDir, placed: Option<Placement>) {
    dir.entry.Some? ==>
      && placed.Some?
      && dir.entry.value.Whole? && Describes(uid, placed.value.plan, dir.entry.value.entry)
      && WholeWeights(lib, placed.value.plan, dir.weights)
  }

  ghost predicate CommittedFor(uid: Uid, saving: Option<Saving>) {
    saving.Some? && saving.value.uid == uid && saving.value.committed
  }

  /** A listed model is on the disk, and its file says what memory says, or what an update is about to make it say. */
  ghost predicate EntryOk(uid: Uid, e: ModelEntry, dir: Option<ModelDir>, removing: bool, inserted: bool,
                          saving: Option<Saving>) {
    && dir.Some? && !removing && inserted && e.uid == uid
    && dir.value.entry.Some? && dir.value.entry.value.Whole?
    && SameModel(e, dir.value.entry.value.entry)
    && (!CommittedFor(uid, saving) ==> dir.value.entry.value.entry == e)
  }

  ghost predicate SavingOk(saving: Option<Saving>, e: Option<ModelEntry>, dir: Option<ModelDir>) {
    saving.Some? ==>
      && e.Some? && SameModel(e.value, saving.value.entry) && e.value.uid == saving.value.uid
      && dir.Some?
      && (if saving.value.committed then dir.value.entry == Some(Whole(saving.value.entry))
          else dir.value.temp == Some(Whole(saving.value.entry)))
  }

  // --------------------------------------------------------------- records

  /** `owner` is the download the attempt that holds the record's token works on. */
  ghost predicate RecordOk(lib: Remote, id: Id, tr: Tracked, owner: Option<Id>, staged: Option<Dir>,
                           inserted: bool, cancelled: bool, calledOff: bool) {
    var p := tr.pull;
    && p.id == id
    && Truthful(lib, tr.described) && p.repo == tr.described.repo && p.revision == tr.described.revision
    && p.bytesTotal == tr.described.sizeBytes && p.filesTotal == |tr.described.files|
    && p.filesDone <= p.filesTotal
    && (p.modelUid.Some? <==> p.state.Ready?)
    && (p.error.Some? <==> p.state.Failed? || p.state.Cancelled?)
    && (p.state.Ready? ==> p.bytesDone == p.bytesTotal && p.filesDone == p.filesTotal && inserted && staged.None?)
    && owner == (if p.state.Finished() then None else Some(id))
    && (p.state.Failed? ==> !calledOff)
    && (p.state.Cancelled? ==> cancelled)
    && (staged.Some? ==> Staged(lib, tr.described, staged.value))
  }

  function OwnerOf(tasks: map<nat, Task>, tr: Tracked): Option<Id> {
    if tr.cancel in tasks then Some(tasks[tr.cancel].id) else None
  }

  predicate InsertedModel(inserted: set<Uid>, tr: Tracked) {
    tr.pull.modelUid.Some? && tr.pull.modelUid.value in inserted
  }

  // -------------------------------------------------------------- attempts

  /** What an attempt's own model directory looks like from outside. */
  datatype Home = Home(dir: Option<ModelDir>, placed: Option<Placement>, listed: bool, removing: bool, inserted: bool)

  function UidOf(p: Phase): Option<Uid> {
    match p
    case Placing(uid) => Some(uid)
    case Placed(uid) => Some(uid)
    case Recording(e) => Some(e.uid)
    case Committing(e) => Some(e.uid)
    case Remembering(e) => Some(e.uid)
    case Done(Ok(e)) => Some(e.uid)
    case _ => None
  }

  function HomeAt(s: Node, uid: Uid): Home {
    Home(Get(s.shelf, uid), Get(s.placements, uid), uid in s.entries, uid in s.removing, uid in s.inserted)
  }

  function HomeOf(s: Node, t: Task): Option<Home> {
    match UidOf(t.phase)
    case Some(uid) => Some(HomeAt(s, uid))
    case None => None
  }

  /** The phases in which the record of the download, if there is one, says Verifying. */
  predicate Checked(p: Phase) {
    || p.Checking? || p.Placing? || p.Placed? || p.Recording? || p.Committing? || p.Remembering?
    || (p.Done? && p.outcome.Ok?)
  }

  ghost predicate RecordAgrees(n: nat, p: Place) {
    p.rec.Some? ==>
      var state := p.rec.value.pull.state;
      && p.rec.value.cancel == n && p.rec.value.described == p.task.plan
      && (if Checked(p.task.phase) then state.Verifying?
          else if p.task.phase.Done? then state.Verifying? || state.Downloading?
          else state.Downloading?)
  }

  /** How many files an attempt has visited. */
  function Visited(t: Task): nat {
    match t.phase
    case Looking(i) => i
    case Asking(i, _) => i
    case Opening(i, _, _) => i
    case Writing(i, _, _) => i + 1
    case Marking(i) => i + 1
    case _ => |t.plan.files|
  }

  /** What a file about to be continued or fetched again is counted as. */
  function PartHeld(p: Phase): nat {
    match p
    case Asking(_, have) => have
    case Opening(_, have, _) => have
    case _ => 0
  }

  predicate Counting(p: Phase) {
    Fetching(p) || p.Fetched? || p.Checking? || p.Placing?
  }

  /**
   Byte conservation: the counter is the staged length of every file visited,
   plus the part about to be continued or discarded, plus what was discarded.
   */
  ghost predicate Conserved(p: Place) {
    var t := p.task;
    Counting(t.phase) && !t.wiped ==>
      && p.staged.Some? && Visited(t) <= |t.plan.files|
      && t.counter == StagedLength(p.staged.value, t.plan.files, Visited(t)) + PartHeld(t.phase) + t.discarded
  }

  ghost predicate HaveOk(p: Place, i: nat, have: nat) {
    && i < |p.task.plan.files| && have <= p.task.plan.files[i].size
    && (have > 0 && Part(p, i).Some? ==> |Part(p, i).value| == have)
    && (have > 0 && !p.task.wiped ==> Part(p, i).Some?)
  }

  /** A model directory of attempt `n` that nothing else knows about yet. */
  ghost predicate OwnHome(n: nat, t: Task, home: Option<Home>) {
    && home.Some? && home.value.placed == Some(Placement(t.plan, n))
    && home.value.dir.Some? && !home.value.listed && !home.value.removing
  }

  ghost predicate HomeWhole(lib: Remote, n: nat, p: Place, home: Option<Home>) {
    OwnHome(n, p.task, home) && WholeWeights(lib, p.task.plan, home.value.dir.value.weights) && p.staged.None?
  }

  ghost predicate PhaseOk(lib: Remote, n: nat, p: Place, home: Option<Home>) {
    var files := p.task.plan.files;
    match p.task.phase
    case Spawned => p.task.counter == 0 && p.task.discarded == 0
    case Preparing => p.task.counter == 0 && p.task.discarded == 0
    case Looking(i) => i <= |files|
    case Asking(i, have) => HaveOk(p, i, have)
    case Opening(i, have, continuing) => HaveOk(p, i, have) && (continuing ==> have > 0)
    case Writing(i, pos, attached) =>
      && i < |files| && pos <= files[i].size
      && (attached ==> Part(p, i).Some? && |Part(p, i).value| == pos)
      && (!p.task.wiped ==> attached)
    case Marking(i) => i < |files|
    case Fetched => true
    case Checking(k) => k <= |files| && (p.staged.Some? ==> FullLength(files, p.staged.value, k))
    case Placing(uid) =>
      && OwnHome(n, p.task, home) && home.value.dir.value.entry.None?
      && (p.staged.Some? ==> FullLength(files, p.staged.value, |files|))
    case Placed(uid) => HomeWhole(lib, n, p, home) && home.value.dir.value.entry.None?
    case Recording(e) =>
      HomeWhole(lib, n, p, home) && home.value.dir.value.entry.None? && Describes(e.uid, p.task.plan, e)
    case Committing(e) =>
      && HomeWhole(lib, n, p, home) && home.value.dir.value.entry.None? && Describes(e.uid, p.task.plan, e)
      && home.value.dir.value.temp == Some(Whole(e))
    case Remembering(e) =>
      HomeWhole(lib, n, p, home) && Describes(e.uid, p.task.plan, e) && home.value.dir.value.entry == Some(Whole(e))
    case Done(outcome) => outcome.Ok? ==>
      home.Some? && home.value.placed == Some(Placement(p.task.plan, n)) && home.value.inserted && p.staged.None?
  }

  ghost predicate TaskOk(lib: Remote, n: nat, p: Place, home: Option<Home>) {
    && Truthful(lib, p.task.plan)
    && (!p.task.phase.Spawned? ==> p.task.token == n)
    && (p.staged.Some? ==> Staged(lib, p.task.plan, p.staged.value))
    && RecordAgrees(n, p)
    && PhaseOk(lib, n, p, home)
    && Conserved(p)
  }

  // ----------------------------------------------------------- whole states

  ghost predicate TaskAt(lib: Remote, s: Node, n: nat)
    requires n in s.tasks
  {
    TaskOk(lib, n, PlaceOf(s, n), HomeOf(s, s.tasks[n]))
  }

  ghost predicate RecordAt(lib: Remote, s: Node, id: Id)
    requires id in s.book.inner
  {
    var tr := s.book.inner[id];
    RecordOk(lib, id, tr, OwnerOf(s.tasks, tr), Get(s.incoming, id), InsertedModel(s.inserted, tr),
             tr.cancel in s.book.cancelled, tr.cancel in s.calledOff)
  }

  ghost predicate DirAt(lib: Remote, s: Node, uid: Uid)
    requires uid in s.shelf
  {
    DirOk(lib, uid, s.shelf[uid], Get(s.placements, uid))
  }

  ghost predicate EntryAt(s: Node, uid: Uid)
    requires uid in s.entries
  {
    EntryOk(uid, s.entries[uid], Get(s.shelf, uid), uid in s.removing, uid in s.inserted, s.saving)
  }

  ghost predicate SavingAt(s: Node) {
    s.saving.Some? ==>
      SavingOk(s.saving, Get(s.entries, s.saving.value.uid), Get(s.shelf, s.saving.value.uid))
  }

  /** Identifiers and tokens: what is minted is never minted again, and no two attempts share a download. */
  ghost predicate IdsOk(s: Node) {
    && s.book.inner.Keys <= s.minted && s.incoming.Keys <= s.minted && s.shelf.Keys <= s.minted
    && s.placements.Keys <= s.minted && s.removing <= s.minted && s.entries.Keys <= s.minted
    && (forall n :: n in s.tasks ==> n < s.book.next && s.tasks[n].id in s.minted)
    && (forall n :: n in s.tasks && UidOf(s.tasks[n].phase).Some? ==> UidOf(s.tasks[n].phase).value in s.minted)
    && (forall k :: k in s.book.cancelled ==> k < s.book.next)
    && s.calledOff <= s.book.cancelled
    && (forall id :: id in s.book.inner ==> s.book.inner[id].cancel < s.book.next)
    && (forall a, b ::
          a in s.book.inner && b in s.book.inner && s.book.inner[a].cancel == s.book.inner[b].cancel ==> a == b)
  }

  /** One writer: no two unsettled attempts work on the same download. */
  ghost predicate OneWriter(s: Node) {
    forall m, n :: m in s.tasks && n in s.tasks && s.tasks[m].id == s.tasks[n].id ==> m == n
  }

  ghost predicate Inv(lib: Remote, s: Node) {
    && IdsOk(s) && OneWriter(s) && SavingAt(s)
    && (forall id :: id in s.book.inner ==> RecordAt(lib, s, id))
    && (forall n :: n in s.tasks ==> TaskAt(lib, s, n))
    && (forall u :: u in s.shelf ==> DirAt(lib, s, u))
    && (forall u :: u in s.entries ==> EntryAt(s, u))
  }

  lemma FirstBootOk(lib: Remote)
    ensures Inv(lib, FIRST_BOOT)
  {}

  // ----------------------------------------------------------------- frame

  ghost predicate AgreeExcept<K(!new), V(!new)>(m: map<K, V>, m': map<K, V>, k: Option<K>) {
    forall x :: Some(x) != k ==> Get(m, x) == Get(m', x)
  }

  /**
   `s'` differs from `s` only in attempt `n`, its download, its staging
   directory, and the model directory `own`, which is that attempt's alone.
   */
  ghost predicate OnlyTouches(s: Node, s': Node, n: nat, own: Option<Uid>)
    requires n in s.tasks
  {
    var id := Some(s.tasks[n].id);
    && AgreeExcept(s.tasks, s'.tasks, Some(n))
    && (n in s'.tasks ==> s'.tasks[n].id == s.tasks[n].id)
    && AgreeExcept(s.book.inner, s'.book.inner, id) && s'.book.inner.Keys == s.book.inner.Keys
    && (s.tasks[n].id in s.book.inner ==> s'.book.inner[s.tasks[n].id].cancel == s.book.inner[s.tasks[n].id].cancel)
    && s'.book.next == s.book.next && s'.book.cancelled == s.book.cancelled && s'.calledOff == s.calledOff
    && AgreeExcept(s.incoming, s'.incoming, id)
    && AgreeExcept(s.shelf, s'.shelf, own) && AgreeExcept(s.placements, s'.placements, own)
    && AgreeExcept(s.entries, s'.entries, own)
    && s'.saving == s.saving && s'.removing == s.removing
    && s.minted <= s'.minted && s.inserted <= s'.inserted
    && (forall u :: u in s'.inserted && u !in s.inserted ==> own == Some(u))
    && (own.Some? ==> (own.value in s.minted ==> UidOf(s.tasks[n].phase) == own))
  }

  /** What the touched places must satisfy for the invariant to hold again. */
  ghost predicate TouchedOk(lib: Remote, s: Node, s': Node, n: nat, own: Option<Uid>)
    requires n in s.tasks
  {
    var id := s.tasks[n].id;
    && (n in s'.tasks ==> TaskAt(lib, s', n))
    && (id in s'.book.inner ==> RecordAt(lib, s', id))
    && (own.Some? ==>
          && own.value in s'.minted
          && (own.value in s'.shelf ==> DirAt(lib, s', own.value))
          && (own.value in s'.entries ==> EntryAt(s', own.value))
          && (own.value !in s.entries))
    && (n in s'.tasks && UidOf(s'.tasks[n].phase).Some? ==>
         UidOf(s'.tasks[n].phase) == UidOf(s.tasks[n].phase) || UidOf(s'.tasks[n].phase) == own)
  }

  /** No other attempt has to do with the model directory `own`. */
  lemma OthersElsewhere(lib: Remote, s: Node, s': Node, n: nat, own: Option<Uid>, m: nat)
    requires Inv(lib, s) && n in s.tasks && OnlyTouches(s, s', n, own)
    requires m in s.tasks && m != n && own.Some?
    ensures UidOf(s.tasks[m].phase) != own
  {
    assert TaskAt(lib, s, m) && TaskAt(lib, s, n);
    assert UidOf(s.tasks[m].phase) == own ==> own.value in s.minted;
  }

  lemma FrameTasks(lib: Remote, s: Node, s': Node, n: nat, own: Option<Uid>)
    requires Inv(lib, s) && n in s.tasks && OnlyTouches(s, s', n, own)
    ensures forall m :: m in s'.tasks && m != n ==> m in s.tasks && TaskAt(lib, s', m)
  {
    forall m | m in s'.tasks && m != n ensures m in s.tasks && TaskAt(lib, s', m) {
      assert Get(s.tasks, m) == Get(s'.tasks, m);
      var t := s.tasks[m];
      assert TaskAt(lib, s, m);
      assert t.id != s.tasks[n].id;
      assert Get(s.book.inner, t.id) == Get(s'.book.inner, t.id);
      assert Get(s.incoming, t.id) == Get(s'.incoming, t.id);
      if own.Some? { OthersElsewhere(lib, s, s', n, own, m); }
      if UidOf(t.phase).Some? {
        var u := UidOf(t.phase).value;
        assert Get(s.shelf, u) == Get(s'.shelf, u) && Get(s.placements, u) == Get(s'.placements, u);
        assert Get(s.entries, u) == Get(s'.entries, u);
      }
      assert HomeOf(s, t) == HomeOf(s', t) && PlaceOf(s, m) == PlaceOf(s', m);
    }
  }

  lemma FrameRecords(lib: Remote, s: Node, s': Node, n: nat, own: Option<Uid>)
    requires Inv(lib, s) && n in s.tasks && OnlyTouches(s, s', n, own)
    ensures forall id :: id in s'.book.inner && id != s.tasks[n].id ==> RecordAt(lib, s', id)
  {
    forall id | id in s'.book.inner && id != s.tasks[n].id ensures RecordAt(lib, s', id) {
      assert Get(s.book.inner, id) == Get(s'.book.inner, id);
      assert Get(s.incoming, id) == Get(s'.incoming, id);
      assert RecordAt(lib, s, id);
      assert Get(s.tasks, s.book.inner[id].cancel) == Get(s'.tasks, s.book.inner[id].cancel);
    }
  }

  lemma FrameModels(lib: Remote, s: Node, s': Node, n: nat, own: Option<Uid>)
    requires Inv(lib, s) && n in s.tasks && OnlyTouches(s, s', n, own) && TouchedOk(lib, s, s', n, own)
    ensures forall u :: u in s'.shelf ==> DirAt(lib, s', u)
    ensures forall u :: u in s'.entries ==> EntryAt(s', u)
    ensures SavingAt(s')
  {
    forall u | u in s'.shelf ensures DirAt(lib, s', u) {
      if Some(u) != own {
        assert Get(s.shelf, u) == Get(s'.shelf, u) && Get(s.placements, u) == Get(s'.placements, u);
        assert DirAt(lib, s, u);
      }
    }
    forall u | u in s'.entries ensures EntryAt(s', u) {
      if Some(u) != own {
        assert Get(s.entries, u) == Get(s'.entries, u) && Get(s.shelf, u) == Get(s'.shelf, u);
        assert EntryAt(s, u);
      }
    }
    if s.saving.Some? {
      var u := s.saving.value.uid;
      assert u in s.entries;
      assert Get(s.entries, u) == Get(s'.entries, u) && Get(s.shelf, u) == Get(s'.shelf, u);
    }
  }

  lemma FrameIds(lib: Remote, s: Node, s': Node, n: nat, own: Option<Uid>)
    requires Inv(lib, s) && n in s.tasks && OnlyTouches(s, s', n, own) && TouchedOk(lib, s, s', n, own)
    ensures IdsOk(s') && OneWriter(s')
  {
    forall id | id in s'.incoming ensures id in s'.minted {
      assert Get(s.incoming, id) == Get(s'.incoming, id) || id == s.tasks[n].id;
    }
    forall u | u in s'.shelf || u in s'.placements || u in s'.entries ensures u in s'.minted {
      if Some(u) != own {
        assert Get(s.shelf, u) == Get(s'.shelf, u) && Get(s.placements, u) == Get(s'.placements, u);
        assert Get(s.entries, u) == Get(s'.entries, u);
      }
    }
    forall m | m in s'.tasks ensures m in s.tasks && s'.tasks[m].id == s.tasks[m].id {
      assert Get(s.tasks, m) == Get(s'.tasks, m) || m == n;
    }
    forall m | m in s'.tasks && UidOf(s'.tasks[m].phase).Some? ensures UidOf(s'.tasks[m].phase).value in s'.minted {
      assert Get(s.tasks, m) == Get(s'.tasks, m) || m == n;
    }
    forall id | id in s'.book.inner ensures s'.book.inner[id].cancel == s.book.inner[id].cancel {
      assert Get(s.book.inner, id) == Get(s'.book.inner, id) || id == s.tasks[n].id;
    }
  }

  /** A step that touches one attempt's places keeps the invariant if those places are left in order. */
  lemma Frame(lib: Remote, s: Node, s': Node, n: nat, own: Option<Uid>)
    requires Inv(lib, s) && n in s.tasks && OnlyTouches(s, s', n, own) && TouchedOk(lib, s, s', n, own)
    ensures Inv(lib, s')
  {
    FrameTasks(lib, s, s', n, own);
    FrameRecords(lib, s, s', n, own);
    FrameModels(lib, s, s', n, own);
    FrameIds(lib, s, s', n, own);
  }
}
