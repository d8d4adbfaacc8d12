/**
 The download pipeline as a step system. Calls (`start`, `cancel`, `resume`,
 `forget`, and the catalogue's `update` and `remove`) interleave with one task
 per attempt, one lock section or one file-system step at a time; the process
 may be killed and restarted between any two steps.

 Fields marked "history" record what happened and decide nothing.
 */
module Pipeline {
  import opened Wrappers
  import opened Library
  import opened Models
  import opened Records

  /**
   Where an attempt stands. `i` is the file being fetched, `have` how much of it
   an earlier attempt left, `pos` where the open handle writes next. A handle
   whose file was removed underneath it is no longer `attached`.
   */
  datatype Phase =
    | Spawned
    | Preparing
    | Looking(i: nat)
    | Asking(i: nat, have: nat)
    | Opening(i: nat, have: nat, continuing: bool)
    | Writing(i: nat, pos: nat, attached: bool)
    | Marking(i: nat)
    | Fetched
    | Checking(k: nat)
    | Placing(uid: Uid)
    | Placed(uid: Uid)
    | Recording(entry: ModelEntry)
    | Committing(entry: ModelEntry)
    | Remembering(entry: ModelEntry)
    | Done(outcome: Result<ModelEntry, Failure>)

  /**
   `counter` is the shared byte counter. History: `discarded` is how much of
   what earlier attempts left the library would not continue; `wiped` says that
   a `forget` removed the staging directory under this attempt.
   */
  datatype Task = Task(id: Id, plan: HubRepo, token: Token, phase: Phase,
                       counter: nat, discarded: nat, wiped: bool)

  /** History: what a model directory was downloaded as, and by which attempt. */
  datatype Placement = Placement(plan: HubRepo, attempt: nat)

  /** An update holds the catalogue's write lock from its temporary file to its memory entry. */
  datatype Saving = Saving(uid: Uid, entry: ModelEntry, committed: bool)

  datatype Node = Node(
    book: Ledger,
    tasks: map<nat, Task>,
    incoming: map<Id, Dir>,
    shelf: Shelf,
    entries: map<Uid, ModelEntry>,
    saving: Option<Saving>,
    asked: set<Id>,        // a `forget` has passed its first lock
    dropped: set<Id>,      // a `forget` has passed its second lock
    removing: set<Uid>,    // a `remove` has dropped the entry and will delete the directory
    minted: set<string>,   // history: every identifier ever minted or found
    placements: map<Uid, Placement>,  // history
    inserted: set<Uid>,    // history: models the catalogue has listed
    calledOff: set<Token>) // history: attempts a `cancel` succeeded on, in this boot

  datatype Action =
    | Start(id: Id, plan: HubRepo, now: int)
    | Cancel(id: Id)
    | Resume(id: Id, now: int)
    | ForgetAsk(id: Id)
    | ForgetDrop(id: Id)
    | ForgetWipe(id: Id)
    | Begin(n: nat)
    | Prepare(n: nat)
    | Look(n: nat, seen: bool)
    | Answer(n: nat, partial: bool)
    | Open(n: nat)
    | Chunk(n: nat, len: nat)
    | CloseFile(n: nat)
    | Mark(n: nat, now: int)
    | StopByToken(n: nat)
    | Fail(n: nat, landed: nat)
    | Tick(n: nat, now: int)
    | StartChecking(n: nat, now: int)
    | CheckFile(n: nat)
    | MintUid(n: nat, uid: Uid)
    | PutInPlace(n: nat)
    | Compose(n: nat, entry: ModelEntry)
    | WriteEntry(n: nat)
    | CommitEntry(n: nat)
    | Remember(n: nat)
    | Settle(n: nat, now: int)
    | UpdateWrite(uid: Uid, entry: ModelEntry)
    | UpdateCommit
    | UpdateRemember
    | UpdateAbandon
    | RemoveEntry(uid: Uid)
    | RemoveDirectory(uid: Uid)
    | Restart(survivors: set<Id>)

  const FIRST_BOOT := Node(Ledger(map[], {}, 0), map[], map[], map[], map[], None, {}, {}, {}, {}, map[], {}, {})

  function Get<K, V>(m: map<K, V>, k: K): Option<V> {
    if k in m then Some(m[k]) else None
  }

  function Set<K, V>(m: map<K, V>, k: K, v: Option<V>): map<K, V> {
    if v.Some? then m[k := v.value] else m - {k}
  }

  /** The phases between the first stat and the end of `fetch`, in which the ticker runs. */
  predicate Fetching(p: Phase) {
    p.Looking? || p.Asking? || p.Opening? || p.Writing? || p.Marking?
  }

  /** The phases an input/output error, a refused request or a broken stream can end. */
  predicate CanFail(p: Phase) {
    || p.Preparing? || p.Asking? || p.Opening? || p.Writing? || p.Checking? || p.Placing?
    || p.Recording? || p.Committing?
  }

  /** An update may change what an administrator sets, and not which bytes the entry is about or its handle. */
  predicate SameModel(e: ModelEntry, e': ModelEntry) {
    e'.uid == e.uid && e'.repo == e.repo && e'.revision == e.revision && e'.handle == e.handle
  }

  // ------------------------------------------------- one attempt, on its own

  /** What an attempt works on: itself, the record of its download if there still is one, its staging directory. */
  datatype Place = Place(task: Task, rec: Option<Tracked>, staged: Option<Dir>)

  function Part(p: Place, i: nat): Option<Bytes>
    requires i < |p.task.plan.files|
  {
    if p.staged.Some? then Get(p.staged.value, p.task.plan.files[i].path) else None
  }

  function RemoteBytes(lib: Remote, t: Task, i: nat): Bytes
    requires i < |t.plan.files|
  {
    var src := SourceOf(t.plan, t.plan.files[i].path);
    if src in lib then lib[src] else []
  }

  /** The open handle has `len` more of the body to write; only an attached one is measured against the file. */
  ghost predicate CanWrite(lib: Remote, p: Place, len: nat) {
    var t := p.task;
    && t.phase.Writing? && t.phase.i < |t.plan.files|
    && t.phase.pos + len <= |RemoteBytes(lib, t, t.phase.i)|
    && (t.phase.attached ==> Part(p, t.phase.i).Some? && t.phase.pos <= |Part(p, t.phase.i).value|)
  }

  function At(p: Place, phase: Phase): Place {
    p.(task := p.task.(phase := phase))
  }

  function Charged(p: Place, bytes: nat): Place {
    p.(task := p.task.(counter := p.task.counter + bytes))
  }

  function WithFile(p: Place, path: string, content: Bytes): Place {
    var dir: Dir := if p.staged.Some? then p.staged.value else map[];
    p.(staged := Some(dir[path := content]))
  }

  function WithRecord(p: Place, pull: Pull): Place
    requires p.rec.Some?
  {
    p.(rec := Some(p.rec.value.(pull := pull)))
  }

  /** `len` bytes of the body reach the handle: and the file, if the file is still there. */
  ghost function Land(lib: Remote, p: Place, len: nat): Place
    requires CanWrite(lib, p, len)
  {
    var i, pos := p.task.phase.i, p.task.phase.pos;
    if p.task.phase.attached then
      WithFile(p, p.task.plan.files[i].path,
               WriteAt(Part(p, i).value, pos, RemoteBytes(lib, p.task, i)[pos..pos + len]))
    else p
  }

  function Prepared(p: Place): Place {
    var dir: Dir := if p.staged.Some? then p.staged.value else map[];
    Place(p.task.(phase := Looking(0), wiped := false), p.rec, Some(dir))
  }

  /**
   The stat of file `i`: finished, to be continued, or to be fetched from the
   start. A stat that fails (`seen` is false) counts as a file that is not there.
   */
  function Looked(p: Place, seen: bool): Place
    requires p.task.phase.Looking? && p.task.phase.i <= |p.task.plan.files|
  {
    var i := p.task.phase.i;
    if i == |p.task.plan.files| then At(p, Fetched) else
    var size := p.task.plan.files[i].size;
    match if seen then Part(p, i) else None
    case Some(found) =>
      if |found| == size then At(Charged(p, size), Marking(i))
      else if |found| < size then At(Charged(p, |found|), Asking(i, |found|))
      else At(p, Asking(i, 0))
    case None => At(p, Asking(i, 0))
  }

  /** Only a partial answer to a ranged request is continued. */
  function Answered(p: Place, partial: bool): Place
    requires p.task.phase.Asking?
  {
    At(p, Opening(p.task.phase.i, p.task.phase.have, p.task.phase.have > 0 && partial))
  }

  /** What is kept is decided by what the library answered: continued, or created afresh. */
  function Opened(p: Place): Place
    requires p.task.phase.Opening? && p.task.phase.i < |p.task.plan.files|
  {
    var i, have := p.task.phase.i, p.task.phase.have;
    if p.task.phase.continuing then At(p, Writing(i, have, true))
    else
      var p1 := WithFile(p, p.task.plan.files[i].path, []);
      p1.(task := p.task.(phase := Writing(i, 0, true), discarded := p.task.discarded + have))
  }

  ghost function Wrote(lib: Remote, p: Place, len: nat): Place
    requires CanWrite(lib, p, len)
  {
    Charged(At(Land(lib, p, len), p.task.phase.(pos := p.task.phase.pos + len)), len)
  }

  function Marked(p: Place, now: int): Place
    requires p.task.phase.Marking?
  {
    var i := p.task.phase.i;
    At(if p.rec.Some? then WithRecord(p, CountedPull(p.rec.value.pull, i + 1, now)) else p, Looking(i + 1))
  }

  function Published(p: Place, now: int): Place {
    if p.rec.Some? then WithRecord(p, TickedPull(p.rec.value.pull, p.task.counter, now)) else p
  }

  function CheckingStarted(p: Place, now: int): Place {
    At(if p.rec.Some? then WithRecord(p, EnteredPull(p.rec.value.pull, Verifying, now)) else p, Checking(0))
  }

  function FileChecked(p: Place): Place
    requires p.task.phase.Checking? && p.task.phase.k < |p.task.plan.files|
  {
    var k := p.task.phase.k;
    match Part(p, k)
    case Some(found) => At(p, if |found| == p.task.plan.files[k].size then Checking(k + 1) else Done(Err(Broken)))
    case None => At(p, Done(Err(Broken)))
  }

  // ------------------------------------------------------- the whole machine

  function PlaceOf(s: Node, n: nat): Place
    requires n in s.tasks
  {
    var t := s.tasks[n];
    Place(t, Get(s.book.inner, t.id), Get(s.incoming, t.id))
  }

  function Put(s: Node, n: nat, p: Place): Node {
    s.(tasks := s.tasks[n := p.task],
       book := s.book.(inner := Set(s.book.inner, p.task.id, p.rec)),
       incoming := Set(s.incoming, p.task.id, p.staged))
  }

  /** The actions of an attempt that concern nothing but its own place. */
  predicate OwnAction(a: Action) {
    || a.Prepare? || a.Look? || a.Answer? || a.Open? || a.Chunk? || a.CloseFile? || a.Mark?
    || a.StopByToken? || a.Fail? || a.Tick? || a.StartChecking? || a.CheckFile? || a.Compose?
  }

  ghost predicate CanAct(lib: Remote, p: Place, cancelled: set<Token>, a: Action)
    requires OwnAction(a)
  {
    var phase, files := p.task.phase, p.task.plan.files;
    match a
    case Prepare(_) => phase.Preparing?
    case Look(_, _) => phase.Looking? && phase.i <= |files|
    case Answer(_, _) => phase.Asking?
    case Open(_) => phase.Opening? && phase.i < |files| && (phase.continuing ==> Part(p, phase.i).Some?)
    case Chunk(_, len) => CanWrite(lib, p, len)
    case CloseFile(_) => phase.Writing?
    case Mark(_, _) => phase.Marking?
    case StopByToken(_) => phase.Writing? && p.task.token in cancelled
    case Fail(_, landed) => CanFail(phase) && if phase.Writing? then CanWrite(lib, p, landed) else landed == 0
    case Tick(_, _) => Fetching(phase)
    case StartChecking(_, _) => phase.Fetched?
    case CheckFile(_) => phase.Checking? && phase.k < |files|
    case Compose(_, e) =>
      && phase.Placed? && e.uid == phase.uid && e.repo == p.task.plan.repo && e.revision == p.task.plan.revision
      && e.facts.files == |files| && e.facts.sizeBytes == p.task.plan.sizeBytes
  }

  ghost function Act(lib: Remote, p: Place, cancelled: set<Token>, a: Action): Place
    requires OwnAction(a) && CanAct(lib, p, cancelled, a)
  {
    match a
    case Prepare(_) => Prepared(p)
    case Look(_, seen) => Looked(p, seen)
    case Answer(_, partial) => Answered(p, partial)
    case Open(_) => Opened(p)
    case Chunk(_, len) => Wrote(lib, p, len)
    case CloseFile(_) => At(p, Marking(p.task.phase.i))
    case Mark(_, now) => Marked(p, now)
    case StopByToken(_) => At(p, Done(Err(Failure.CalledOff)))
    case Fail(_, landed) => At(if p.task.phase.Writing? then Land(lib, p, landed) else p, Done(Err(Broken)))
    case Tick(_, now) => Published(p, now)
    case StartChecking(_, now) => CheckingStarted(p, now)
    case CheckFile(_) => FileChecked(p)
    case Compose(_, e) => At(p, Recording(e))
  }

  /** The calls that concern a download. */
  predicate IsCall(a: Action) {
    a.Start? || a.Cancel? || a.Resume? || a.ForgetAsk? || a.ForgetDrop? || a.ForgetWipe?
  }

  /** The steps of an attempt that reach beyond its own place. */
  predicate IsFiling(a: Action) {
    a.Begin? || a.MintUid? || a.PutInPlace? || a.WriteEntry? || a.CommitEntry? || a.Remember? || a.Settle?
  }

  ghost predicate CallEnabled(lib: Remote, s: Node, a: Action)
    requires IsCall(a)
  {
    match a
    case Start(id, plan, _) => id !in s.minted && Truthful(lib, plan)
    case ForgetDrop(id) => id in s.asked
    case ForgetWipe(id) => id in s.dropped
    case _ => true
  }

  /** The entry an attempt is writing has a directory, and, to be renamed, a temporary file. */
  predicate EntryFileReady(s: Node, entry: ModelEntry, written: bool) {
    entry.uid in s.shelf && (written ==> s.shelf[entry.uid].temp.Some?)
  }

  predicate FilingEnabled(s: Node, a: Action)
    requires IsFiling(a)
  {
    && a.n in s.tasks
    && var t := s.tasks[a.n];
    match a
    case Begin(_) => t.phase.Spawned?
    case MintUid(_, uid) => t.phase.Checking? && t.phase.k == |t.plan.files| && uid !in s.minted
    case PutInPlace(_) => t.phase.Placing? && t.id in s.incoming && t.phase.uid in s.shelf
    case WriteEntry(_) => t.phase.Recording? && EntryFileReady(s, t.phase.entry, false)
    case CommitEntry(_) => t.phase.Committing? && EntryFileReady(s, t.phase.entry, true)
    case Remember(_) => t.phase.Remembering? && s.saving.None?
    case Settle(_, _) => t.phase.Done?
  }

  predicate CatalogueEnabled(s: Node, a: Action)
    requires !OwnAction(a) && !IsCall(a) && !IsFiling(a)
  {
    match a
    case UpdateWrite(uid, e) => s.saving.None? && uid in s.entries && uid in s.shelf && SameModel(s.entries[uid], e)
    case UpdateCommit =>
      && s.saving.Some? && !s.saving.value.committed
      && s.saving.value.uid in s.shelf && s.shelf[s.saving.value.uid].temp.Some?
    case UpdateRemember => s.saving.Some? && s.saving.value.committed
    case UpdateAbandon => s.saving.Some? && !s.saving.value.committed
    case RemoveEntry(uid) => s.saving.None? && uid in s.entries
    case RemoveDirectory(uid) => uid in s.removing
    case Restart(_) => true
  }

  /** What can happen in a state. An action of attempt `n` needs that attempt in the phase the action leaves. */
  ghost predicate Enabled(lib: Remote, s: Node, a: Action) {
    if OwnAction(a) then a.n in s.tasks && CanAct(lib, PlaceOf(s, a.n), s.book.cancelled, a)
    else if IsCall(a) then CallEnabled(lib, s, a)
    else if IsFiling(a) then FilingEnabled(s, a)
    else CatalogueEnabled(s, a)
  }

  function Spawn(s: Node, id: Id, plan: HubRepo): map<nat, Task> {
    s.tasks[s.book.next := Task(id, plan, 0, Spawned, 0, 0, false)]
  }

  function GoTo(s: Node, n: nat, p: Phase): map<nat, Task>
    requires n in s.tasks
  {
    s.tasks[n := s.tasks[n].(phase := p)]
  }

  function Started(s: Node, id: Id, plan: HubRepo, now: int): Node {
    s.(book := Track(s.book, id, plan, now), tasks := Spawn(s, id, plan), minted := s.minted + {id})
  }

  function CancelCalled(s: Node, id: Id): Node {
    if CanCancel(s.book, id)
    then s.(book := CallOff(s.book, id), calledOff := s.calledOff + {s.book.inner[id].cancel})
    else s
  }

  function ResumeCalled(s: Node, id: Id, now: int): Node {
    if CanResume(s.book, id)
    then s.(book := Restarted(s.book, id, now), tasks := Spawn(s, id, s.book.inner[id].described))
    else s
  }

  function ForgetAsked(s: Node, id: Id): Node {
    if id in s.book.inner then s.(book := CallOff(s.book, id), asked := s.asked + {id}) else s
  }

  /** Removing a staging tree detaches whatever handle an attempt of that download holds. */
  function Orphan(t: Task, id: Id): Task {
    if t.id != id then t
    else t.(wiped := true, phase := if t.phase.Writing? then t.phase.(attached := false) else t.phase)
  }

  function ForgetWiped(s: Node, id: Id): Node {
    s.(incoming := s.incoming - {id}, tasks := map n | n in s.tasks :: Orphan(s.tasks[n], id))
  }

  /** A task whose record is gone before it starts ends without doing anything. */
  function Begun(s: Node, n: nat): Node
    requires n in s.tasks
  {
    var t := s.tasks[n];
    if t.id in s.book.inner
    then s.(tasks := s.tasks[n := t.(token := s.book.inner[t.id].cancel, phase := Preparing)])
    else s.(tasks := s.tasks - {n})
  }

  function UidMinted(s: Node, n: nat, uid: Uid): Node
    requires n in s.tasks
  {
    s.(tasks := GoTo(s, n, Placing(uid)), shelf := EnsureDir(s.shelf, uid), minted := s.minted + {uid},
       placements := s.placements[uid := Placement(s.tasks[n].plan, n)])
  }

  /** The rename of the staging directory to the weights directory. */
  function Moved(s: Node, n: nat): Node
    requires n in s.tasks && s.tasks[n].phase.Placing? && s.tasks[n].id in s.incoming && s.tasks[n].phase.uid in s.shelf
  {
    var t, uid := s.tasks[n], s.tasks[n].phase.uid;
    s.(tasks := GoTo(s, n, Placed(uid)),
       shelf := s.shelf[uid := s.shelf[uid].(weights := Some(s.incoming[t.id]))],
       incoming := s.incoming - {t.id})
  }

  function EntryWritten(s: Node, n: nat): Node
    requires n in s.tasks && s.tasks[n].phase.Recording? && s.tasks[n].phase.entry.uid in s.shelf
  {
    var e := s.tasks[n].phase.entry;
    s.(tasks := GoTo(s, n, Committing(e)), shelf := SetTemp(s.shelf, e.uid, Whole(e)))
  }

  function EntryCommitted(s: Node, n: nat): Node
    requires n in s.tasks && s.tasks[n].phase.Committing?
    requires s.tasks[n].phase.entry.uid in s.shelf && s.shelf[s.tasks[n].phase.entry.uid].temp.Some?
  {
    var e := s.tasks[n].phase.entry;
    s.(tasks := GoTo(s, n, Remembering(e)), shelf := CommitTemp(s.shelf, e.uid))
  }

  function EntryRemembered(s: Node, n: nat): Node
    requires n in s.tasks && s.tasks[n].phase.Remembering?
  {
    var e := s.tasks[n].phase.entry;
    s.(tasks := GoTo(s, n, Done(Ok(e))), entries := s.entries[e.uid := e], inserted := s.inserted + {e.uid})
  }

  function AttemptSettled(s: Node, n: nat, now: int): Node
    requires n in s.tasks && s.tasks[n].phase.Done?
  {
    s.(book := Settled(s.book, s.tasks[n].id, s.tasks[n].phase.outcome, now), tasks := s.tasks - {n})
  }

  function UpdateWritten(s: Node, uid: Uid, e: ModelEntry): Node
    requires uid in s.shelf
  {
    s.(shelf := SetTemp(s.shelf, uid, Whole(e)), saving := Some(Saving(uid, e, false)))
  }

  function UpdateCommitted(s: Node): Node
    requires s.saving.Some? && s.saving.value.uid in s.shelf && s.shelf[s.saving.value.uid].temp.Some?
  {
    s.(shelf := CommitTemp(s.shelf, s.saving.value.uid), saving := Some(s.saving.value.(committed := true)))
  }

  function UpdateRemembered(s: Node): Node
    requires s.saving.Some?
  {
    s.(entries := s.entries[s.saving.value.uid := s.saving.value.entry], saving := None)
  }

  /** What a restart keeps: the disk, less the staging directories it managed to clear. */
  function Reboot(s: Node, survivors: set<Id>): Node {
    FIRST_BOOT.(
      book := Ledger(map[], {}, s.book.next),
      incoming := map id | id in s.incoming && id in survivors :: s.incoming[id],
      shelf := s.shelf,
      entries := Reopen(s.shelf),
      minted := s.minted,
      placements := s.placements,
      inserted := s.inserted + Reopen(s.shelf).Keys)
  }

  function CallStep(s: Node, a: Action): Node
    requires IsCall(a)
  {
    match a
    case Start(id, plan, now) => Started(s, id, plan, now)
    case Cancel(id) => CancelCalled(s, id)
    case Resume(id, now) => ResumeCalled(s, id, now)
    case ForgetAsk(id) => ForgetAsked(s, id)
    case ForgetDrop(id) => s.(book := Dropped(s.book, id), dropped := s.dropped + {id})
    case ForgetWipe(id) => ForgetWiped(s, id)
  }

  function FilingStep(s: Node, a: Action): Node
    requires IsFiling(a) && FilingEnabled(s, a)
  {
    match a
    case Begin(n) => Begun(s, n)
    case MintUid(n, uid) => UidMinted(s, n, uid)
    case PutInPlace(n) => Moved(s, n)
    case WriteEntry(n) => EntryWritten(s, n)
    case CommitEntry(n) => EntryCommitted(s, n)
    case Remember(n) => EntryRemembered(s, n)
    case Settle(n, now) => AttemptSettled(s, n, now)
  }

  function CatalogueStep(s: Node, a: Action): Node
    requires !OwnAction(a) && !IsCall(a) && !IsFiling(a) && CatalogueEnabled(s, a)
  {
    match a
    case UpdateWrite(uid, e) => UpdateWritten(s, uid, e)
    case UpdateCommit => UpdateCommitted(s)
    case UpdateRemember => UpdateRemembered(s)
    case UpdateAbandon => s.(saving := None)
    case RemoveEntry(uid) => s.(entries := s.entries - {uid}, removing := s.removing + {uid})
    case RemoveDirectory(uid) => s.(shelf := DeleteTree(s.shelf, uid))
    case Restart(survivors) => Reboot(s, survivors)
  }

  ghost function Step(lib: Remote, s: Node, a: Action): Node
    requires Enabled(lib, s, a)
  {
    if OwnAction(a) then Put(s, a.n, Act(lib, PlaceOf(s, a.n), s.book.cancelled, a))
    else if IsCall(a) then CallStep(s, a)
    else if IsFiling(a) then FilingStep(s, a)
    else CatalogueStep(s, a)
  }

  ghost predicate StepAt(lib: Remote, states: seq<Node>, actions: seq<Action>, i: nat)
    requires i < |actions| && |states| == |actions| + 1
  {
    Enabled(lib, states[i], actions[i]) && states[i + 1] == Step(lib, states[i], actions[i])
  }

  /** A run: states from `states[0]` on, each an enabled step after the one before. */
  ghost predicate IsRun(lib: Remote, states: seq<Node>, actions: seq<Action>) {
    && |states| == |actions| + 1
    && forall i {:trigger StepAt(lib, states, actions, i)} :: 0 <= i < |actions| ==> StepAt(lib, states, actions, i)
  }
}
