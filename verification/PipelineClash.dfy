/**
 Two downloads that come to one handle: each mints it while neither is listed,
 and then both are.
 */
module PipelineClash {
  import opened Wrappers
  import opened Library
  import opened Models
  import opened Records
  import opened Pipeline
  import opened PipelineTheorems
  import opened PipelineListing
  import Handles

  const COMPOSED := 14

  /** An attempt that was just started, of a download of one file that nothing is staged of. */
  ghost predicate Ready(lib: Remote, s: Node, n: nat) {
    && n in s.tasks && n !in s.book.cancelled
    && var t := s.tasks[n];
    && Truthful(lib, t.plan) && |t.plan.files| == 1 && t == Task(t.id, t.plan, 0, Spawned, 0, 0, false)
    && t.id in s.book.inner && t.id !in s.incoming
    && s.book.inner[t.id] == Tracked(NewPull(t.id, t.plan, 0), n, t.plan)
  }

  /** Undisturbed, attempt `n` goes on to place its model as `uid` and to compose its entry. */
  function Going(n: nat, uid: Uid, e: ModelEntry, size: nat, k: nat): Action {
    if k == 0 then Begin(n)
    else if k == 1 then Prepare(n)
    else if k == 2 || k == 8 then Look(n, false)
    else if k == 3 then Answer(n, false)
    else if k == 4 then Open(n)
    else if k == 5 then Chunk(n, size)
    else if k == 6 then CloseFile(n)
    else if k == 7 then Mark(n, 0)
    else if k == 9 then StartChecking(n, 0)
    else if k == 10 then CheckFile(n)
    else if k == 11 then MintUid(n, uid)
    else if k == 12 then PutInPlace(n)
    else Compose(n, e)
  }

  function PhaseAfter(uid: Uid, e: ModelEntry, size: nat, k: nat): Phase {
    if k == 0 then Spawned
    else if k == 1 then Preparing
    else if k == 2 then Looking(0)
    else if k == 3 then Asking(0, 0)
    else if k == 4 then Opening(0, 0, false)
    else if k == 5 then Writing(0, 0, true)
    else if k == 6 then Writing(0, size, true)
    else if k == 7 then Marking(0)
    else if k == 8 then Looking(1)
    else if k == 9 then Fetched
    else if k == 10 then Checking(0)
    else if k == 11 then Checking(1)
    else if k == 12 then Placing(uid)
    else if k == 13 then Placed(uid)
    else Recording(e)
  }

  /** What is staged after `k` steps, if there is a directory. */
  function StagedAfter(path: string, bytes: Bytes, k: nat): Option<Dir> {
    if k <= 1 || k >= 13 then None
    else if k <= 4 then Some(map[])
    else if k == 5 then Some(map[path := []])
    else Some(map[path := bytes])
  }

  function PullAfter(pull: Pull, k: nat): Pull {
    var counted := if k >= 8 then CountedPull(pull, 1, 0) else pull;
    if k >= 10 then EnteredPull(counted, Verifying, 0) else counted
  }

  /** The attempt's own place after `k` of its steps. */
  ghost function PlaceAfter(lib: Remote, p: Place, n: nat, uid: Uid, e: ModelEntry, k: nat): Place
    requires |p.task.plan.files| == 1 && p.rec.Some?
  {
    var bytes := RemoteBytes(lib, p.task, 0);
    Place(p.task.(token := if k >= 1 then n else 0, phase := PhaseAfter(uid, e, |bytes|, k),
                  counter := if k >= 6 then |bytes| else 0),
          Some(p.rec.value.(pull := PullAfter(p.rec.value.pull, k))),
          StagedAfter(p.task.plan.files[0].path, bytes, k))
  }

  ghost function HomeAfter(lib: Remote, t: Task, k: nat): ModelDir
    requires |t.plan.files| == 1
  {
    ModelDir(if k == 12 then None else Some(map[t.plan.files[0].path := RemoteBytes(lib, t, 0)]), None, None)
  }

  /** The whole machine, if nothing else happens meanwhile. */
  ghost function After(lib: Remote, s: Node, n: nat, uid: Uid, e: ModelEntry, k: nat): Node
    requires Ready(lib, s, n)
  {
    var s' := Put(s, n, PlaceAfter(lib, PlaceOf(s, n), n, uid, e, k));
    if k <= 11 then s'
    else
      s'.(shelf := s.shelf[uid := HomeAfter(lib, s.tasks[n], k)], minted := s.minted + {uid},
          placements := s.placements[uid := Placement(s.tasks[n].plan, n)])
  }

  ghost predicate Goes(lib: Remote, s: Node, n: nat, uid: Uid, e: ModelEntry, k: nat)
    requires Ready(lib, s, n)
  {
    var a := Going(n, uid, e, |RemoteBytes(lib, s.tasks[n], 0)|, k);
    && Enabled(lib, After(lib, s, n, uid, e, k), a)
    && Step(lib, After(lib, s, n, uid, e, k), a) == After(lib, s, n, uid, e, k + 1)
  }

  /** The entry says what the attempt downloaded. */
  predicate EntryFits(t: Task, uid: Uid, e: ModelEntry) {
    && e.uid == uid && e.repo == t.plan.repo && e.revision == t.plan.revision
    && e.facts.files == |t.plan.files| && e.facts.sizeBytes == t.plan.sizeBytes
  }

  predicate ReadyPlace(p: Place) {
    && |p.task.plan.files| == 1 && p.rec.Some? && p.staged.None?
    && p.task == Task(p.task.id, p.task.plan, 0, Spawned, 0, 0, false)
  }

  /** One step of the attempt's own. */
  ghost predicate Acts(lib: Remote, p: Place, n: nat, cancelled: set<Token>, uid: Uid, e: ModelEntry, k: nat)
    requires ReadyPlace(p)
  {
    var a := Going(n, uid, e, |RemoteBytes(lib, p.task, 0)|, k);
    && OwnAction(a) && CanAct(lib, PlaceAfter(lib, p, n, uid, e, k), cancelled, a)
    && Act(lib, PlaceAfter(lib, p, n, uid, e, k), cancelled, a) == PlaceAfter(lib, p, n, uid, e, k + 1)
  }

  lemma ActsOnTheFile(lib: Remote, p: Place, n: nat, cancelled: set<Token>, uid: Uid, e: ModelEntry, k: nat)
    requires ReadyPlace(p) && 1 <= k < 8
    ensures Acts(lib, p, n, cancelled, uid, e, k)
  {
    var bytes := RemoteBytes(lib, p.task, 0);
    assert WriteAt([], 0, bytes[0..0 + |bytes|]) == bytes;
    assert map[p.task.plan.files[0].path := []][p.task.plan.files[0].path := bytes]
        == map[p.task.plan.files[0].path := bytes];
  }

  lemma ActsOnTheRest(lib: Remote, p: Place, n: nat, cancelled: set<Token>, uid: Uid, e: ModelEntry, k: nat)
    requires ReadyPlace(p) && 8 <= k < COMPOSED && k != 11 && k != 12
    requires Truthful(lib, p.task.plan) && EntryFits(p.task, uid, e)
    ensures Acts(lib, p, n, cancelled, uid, e, k)
  {}

  lemma PutTwice(s: Node, n: nat, p: Place, p': Place)
    requires n in s.tasks && p.task.id == p'.task.id && p.rec.Some? && p'.rec.Some?
    ensures Put(Put(s, n, p), n, p') == Put(s, n, p')
    ensures PlaceOf(Put(s, n, p), n) == p
  {}

  lemma GoesOnItsOwn(lib: Remote, s: Node, n: nat, uid: Uid, e: ModelEntry, k: nat)
    requires Ready(lib, s, n) && Acts(lib, PlaceOf(s, n), n, s.book.cancelled, uid, e, k) && k < 11
    ensures Goes(lib, s, n, uid, e, k)
  {
    var p := PlaceOf(s, n);
    PutTwice(s, n, PlaceAfter(lib, p, n, uid, e, k), PlaceAfter(lib, p, n, uid, e, k + 1));
  }

  lemma GoesCompose(lib: Remote, s: Node, n: nat, uid: Uid, e: ModelEntry)
    requires Ready(lib, s, n) && Acts(lib, PlaceOf(s, n), n, s.book.cancelled, uid, e, 13)
    ensures Goes(lib, s, n, uid, e, 13)
  {
    var p := PlaceOf(s, n);
    PutTwice(s, n, PlaceAfter(lib, p, n, uid, e, 13), PlaceAfter(lib, p, n, uid, e, 14));
  }

  lemma NotGoneYet(lib: Remote, s: Node, n: nat, uid: Uid, e: ModelEntry)
    requires Ready(lib, s, n)
    ensures After(lib, s, n, uid, e, 0) == s
  {
    assert Put(s, n, PlaceAfter(lib, PlaceOf(s, n), n, uid, e, 0)) == s;
  }

  lemma GoesBegin(lib: Remote, s: Node, n: nat, uid: Uid, e: ModelEntry)
    requires Ready(lib, s, n)
    ensures Goes(lib, s, n, uid, e, 0)
  {
    var p := PlaceOf(s, n);
    NotGoneYet(lib, s, n, uid, e);
    var begun, after := Begun(s, n), Put(s, n, PlaceAfter(lib, p, n, uid, e, 1));
    assert begun.tasks == after.tasks && begun.book.inner == after.book.inner && begun.incoming == after.incoming;
  }

  lemma GoesMint(lib: Remote, s: Node, n: nat, uid: Uid, e: ModelEntry)
    requires Ready(lib, s, n) && uid !in s.minted && s.shelf.Keys <= s.minted
    ensures Goes(lib, s, n, uid, e, 11)
  {
    var p := PlaceOf(s, n);
    PutTwice(s, n, PlaceAfter(lib, p, n, uid, e, 11), PlaceAfter(lib, p, n, uid, e, 12));
    var minted, after := UidMinted(After(lib, s, n, uid, e, 11), n, uid), After(lib, s, n, uid, e, 12);
    assert minted.tasks == after.tasks && minted.book.inner == after.book.inner && minted.incoming == after.incoming;
    assert minted.shelf == after.shelf;
  }

  lemma GoesInPlace(lib: Remote, s: Node, n: nat, uid: Uid, e: ModelEntry)
    requires Ready(lib, s, n)
    ensures Goes(lib, s, n, uid, e, 12)
  {
    var p := PlaceOf(s, n);
    PutTwice(s, n, PlaceAfter(lib, p, n, uid, e, 12), PlaceAfter(lib, p, n, uid, e, 13));
    var moved, after := Moved(After(lib, s, n, uid, e, 12), n), After(lib, s, n, uid, e, 13);
    assert moved.tasks == after.tasks && moved.book.inner == after.book.inner && moved.incoming == after.incoming;
    assert moved.shelf == after.shelf;
  }

  lemma GoesOn(lib: Remote, s: Node, n: nat, uid: Uid, e: ModelEntry, k: nat)
    requires Ready(lib, s, n) && k < COMPOSED
    requires uid !in s.minted && s.shelf.Keys <= s.minted && EntryFits(s.tasks[n], uid, e)
    ensures Goes(lib, s, n, uid, e, k)
  {
    if k == 0 {
      GoesBegin(lib, s, n, uid, e);
    } else if k == 11 {
      GoesMint(lib, s, n, uid, e);
    } else if k == 12 {
      GoesInPlace(lib, s, n, uid, e);
    } else {
      var p := PlaceOf(s, n);
      if k < 8 {
        ActsOnTheFile(lib, p, n, s.book.cancelled, uid, e, k);
      } else {
        ActsOnTheRest(lib, p, n, s.book.cancelled, uid, e, k);
      }
      if k < 11 { GoesOnItsOwn(lib, s, n, uid, e, k); } else { GoesCompose(lib, s, n, uid, e); }
    }
  }

  // --------------------------------------------------------------------- the run

  /** A run without a restart, in which every handle minted was free, that comes to `s`. */
  ghost predicate RunTo(lib: Remote, states: seq<Node>, actions: seq<Action>, s: Node) {
    && Runs(lib, states, actions) && states[|actions|] == s && MintsFree(states, actions, |actions|)
    && forall i :: 0 <= i < |actions| ==> !actions[i].Restart?
  }

  ghost predicate CanRunTo(lib: Remote, s: Node) {
    exists states, actions :: RunTo(lib, states, actions, s)
  }

  lemma OneMore(lib: Remote, s: Node, a: Action)
    requires CanRunTo(lib, s) && Enabled(lib, s, a) && !a.Restart?
    requires a.Compose? ==> !Taken(s, Handle(a.entry.handle))
    ensures CanRunTo(lib, Step(lib, s, a))
  {
    var states, actions :| RunTo(lib, states, actions, s);
    var states', actions' := states + [Step(lib, s, a)], actions + [a];
    forall i | 0 <= i < |actions'| ensures StepAt(lib, states', actions', i) {
      if i < |actions| { assert StepAt(lib, states, actions, i); }
    }
    assert RunTo(lib, states', actions', Step(lib, s, a));
  }

  /** What an attempt that goes on leaves alone, and where it gets to. */
  lemma AfterSeen(lib: Remote, s: Node, n: nat, uid: Uid, e: ModelEntry, k: nat)
    requires Ready(lib, s, n)
    ensures
      var s' := After(lib, s, n, uid, e, k);
      && s'.entries == s.entries && s'.saving == s.saving
      && n in s'.tasks && s'.tasks[n].phase.Recording? == (k >= COMPOSED)
      && (k >= COMPOSED ==> s'.tasks[n].phase == Recording(e) && s'.minted == s.minted + {uid})
      && (k >= COMPOSED ==> uid in s'.shelf && s'.shelf.Keys == s.shelf.Keys + {uid})
      && (forall m :: m in s.tasks && m != n ==> m in s'.tasks && s'.tasks[m] == s.tasks[m])
  {}

  lemma NothingTaken(lib: Remote, s: Node, n: nat, uid: Uid, e: ModelEntry, k: nat)
    requires Ready(lib, s, n) && s.entries == map[]
    ensures forall key :: !Taken(After(lib, s, n, uid, e, k), key)
  {
    AfterSeen(lib, s, n, uid, e, k);
  }

  lemma OneFurther(lib: Remote, s: Node, n: nat, uid: Uid, e: ModelEntry, k: nat)
    requires Ready(lib, s, n) && k < COMPOSED && CanRunTo(lib, After(lib, s, n, uid, e, k)) && s.entries == map[]
    requires uid !in s.minted && s.shelf.Keys <= s.minted && EntryFits(s.tasks[n], uid, e)
    ensures CanRunTo(lib, After(lib, s, n, uid, e, k + 1))
  {
    GoesOn(lib, s, n, uid, e, k);
    NothingTaken(lib, s, n, uid, e, k);
    OneMore(lib, After(lib, s, n, uid, e, k), Going(n, uid, e, |RemoteBytes(lib, s.tasks[n], 0)|, k));
  }

  /** The attempt is run from its start to its composed entry. */
  lemma {:induction false} RunOn(lib: Remote, s: Node, n: nat, uid: Uid, e: ModelEntry, k: nat)
    requires CanRunTo(lib, s) && Ready(lib, s, n) && s.entries == map[] && k <= COMPOSED
    requires uid !in s.minted && s.shelf.Keys <= s.minted && EntryFits(s.tasks[n], uid, e)
    ensures CanRunTo(lib, After(lib, s, n, uid, e, k))
    decreases k
  {
    if k == 0 {
      NotGoneYet(lib, s, n, uid, e);
    } else {
      RunOn(lib, s, n, uid, e, k - 1);
      OneFurther(lib, s, n, uid, e, k - 1);
    }
  }

  lemma Writes(lib: Remote, s: Node, n: nat, e: ModelEntry)
    requires CanRunTo(lib, s) && n in s.tasks && s.tasks[n].phase == Recording(e) && e.uid in s.shelf
    ensures CanRunTo(lib, EntryWritten(s, n))
  {
    OneMore(lib, s, WriteEntry(n));
  }

  lemma Commits(lib: Remote, s: Node, n: nat, e: ModelEntry)
    requires CanRunTo(lib, s) && n in s.tasks && s.tasks[n].phase == Committing(e)
    requires e.uid in s.shelf && s.shelf[e.uid].temp.Some?
    ensures CanRunTo(lib, EntryCommitted(s, n))
  {
    OneMore(lib, s, CommitEntry(n));
  }

  lemma Remembers(lib: Remote, s: Node, n: nat, e: ModelEntry)
    requires CanRunTo(lib, s) && n in s.tasks && s.tasks[n].phase == Remembering(e) && s.saving.None?
    ensures CanRunTo(lib, EntryRemembered(s, n))
  {
    OneMore(lib, s, Remember(n));
  }

  /** An attempt lists the entry it has composed. */
  lemma Lists(lib: Remote, s: Node, n: nat, e: ModelEntry) returns (s': Node)
    requires CanRunTo(lib, s) && n in s.tasks && s.tasks[n].phase == Recording(e)
    requires e.uid in s.shelf && s.saving.None?
    ensures CanRunTo(lib, s') && s'.entries == s.entries[e.uid := e] && s'.saving.None?
    ensures forall m :: m in s.tasks && m != n ==> m in s'.tasks && s'.tasks[m] == s.tasks[m]
    ensures s'.shelf.Keys == s.shelf.Keys
  {
    Writes(lib, s, n, e);
    var s1 := EntryWritten(s, n);
    Commits(lib, s1, n, e);
    var s2 := EntryCommitted(s1, n);
    Remembers(lib, s2, n, e);
    s' := EntryRemembered(s2, n);
  }

  /** A download of one file. */
  ghost predicate OneFile(lib: Remote, plan: HubRepo) {
    Truthful(lib, plan) && |plan.files| == 1
  }

  /** The entry of a model whose repository's own name is free as a handle. */
  function EntryOf(plan: HubRepo, uid: Uid): ModelEntry {
    ModelEntry(uid, plan.repo, plan.revision, plan.name, Handles.Base(plan.name),
               Facts(None, None, None, |plan.files|, plan.sizeBytes), map[], false, 0)
  }

  /** Two downloads just started, and nothing else. */
  ghost function BothStarted(id: Id, plan: HubRepo, id': Id, plan': HubRepo): Node {
    Started(Started(FIRST_BOOT, id, plan, 0), id', plan', 0)
  }

  lemma BothReady(lib: Remote, id: Id, plan: HubRepo, id': Id, plan': HubRepo)
    requires OneFile(lib, plan) && OneFile(lib, plan') && id != id'
    ensures
      var s := BothStarted(id, plan, id', plan');
      && CanRunTo(lib, s) && Ready(lib, s, 0) && Ready(lib, s, 1) && s.entries == map[] && s.shelf == map[]
      && s.saving.None? && s.tasks[0].plan == plan && s.tasks[1].plan == plan' && s.minted == {id, id'}
      && s.tasks[0].id == id && s.tasks[1].id == id'
  {
    assert RunTo(lib, [FIRST_BOOT], [], FIRST_BOOT);
    OneMore(lib, FIRST_BOOT, Start(id, plan, 0));
    OneMore(lib, Started(FIRST_BOOT, id, plan, 0), Start(id', plan', 0));
  }

  /** What one attempt does meanwhile leaves the other ready. */
  lemma OtherStaysReady(lib: Remote, s: Node, n: nat, uid: Uid, e: ModelEntry, m: nat)
    requires Ready(lib, s, n) && Ready(lib, s, m) && m != n && s.tasks[m].id != s.tasks[n].id
    ensures Ready(lib, After(lib, s, n, uid, e, COMPOSED), m)
  {}

  /**
   Of any two downloads of one file whose repositories have one name, a run
   without a restart that lists both under the handle the name gives, though it
   was free each time it was minted. They may be of one commit: neither was
   listed when either was started.
   */
  lemma HandlesCanClash(lib: Remote, id: Id, plan: HubRepo, id': Id, plan': HubRepo, uid: Uid, uid': Uid)
    requires OneFile(lib, plan) && OneFile(lib, plan') && plan'.name == plan.name
    requires id != id' && uid !in {id, id'} && uid' !in {id, id', uid}
    ensures exists s :: CanRunTo(lib, s) && s.entries == map[uid := EntryOf(plan, uid), uid' := EntryOf(plan', uid')]
    ensures EntryOf(plan, uid).handle == EntryOf(plan', uid').handle == Handles.Base(plan.name)
    ensures plan == plan' ==> Bears(EntryOf(plan', uid'), Commit(plan.repo, plan.revision))
  {
    var e, e', s := EntryOf(plan, uid), EntryOf(plan', uid'), BothStarted(id, plan, id', plan');
    BothReady(lib, id, plan, id', plan');
    RunOn(lib, s, 0, uid, e, COMPOSED);
    AfterSeen(lib, s, 0, uid, e, COMPOSED);
    OtherStaysReady(lib, s, 0, uid, e, 1);
    var s1 := After(lib, s, 0, uid, e, COMPOSED);
    ListedTogether(lib, s1, uid, e, uid', e');
  }

  lemma ListedTogether(lib: Remote, s: Node, uid: Uid, e: ModelEntry, uid': Uid, e': ModelEntry)
    requires CanRunTo(lib, s) && Ready(lib, s, 1) && s.entries == map[] && s.saving.None?
    requires 0 in s.tasks && s.tasks[0].phase == Recording(e) && e.uid == uid && uid in s.shelf
    requires uid' !in s.minted && s.shelf.Keys <= s.minted && EntryFits(s.tasks[1], uid', e') && uid != uid'
    ensures exists s' :: CanRunTo(lib, s') && s'.entries == map[uid := e, uid' := e']
  {
    RunOn(lib, s, 1, uid', e', COMPOSED);
    AfterSeen(lib, s, 1, uid', e', COMPOSED);
    var s1 := After(lib, s, 1, uid', e', COMPOSED);
    var s2 := Lists(lib, s1, 0, e);
    var s3 := Lists(lib, s2, 1, e');
    assert s3.entries == map[uid := e, uid' := e'];
  }
}
