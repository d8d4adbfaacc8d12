/**
 The records of the downloads a node has started: what each lock section of
 `Pulls` does to them, as functions on a `Ledger` value, and the class that
 holds the locked map. A cancellation token is a number; cancelling it is
 putting it in `cancelled`, where every holder of the token sees it.
 */
module Records {
  import opened Wrappers
  import opened Library
  import opened Models

  type Id = string
  type Token = nat

  datatype PullState = Downloading | Verifying | Ready | Failed | Cancelled {
    predicate Finished() {
      Ready? || Failed? || Cancelled?
    }
  }

  /** Why an attempt ended badly: called off, or a failure of the network, the library or the disk. */
  datatype Failure = CalledOff | Broken

  datatype Pull = Pull(
    id: Id, repo: string, revision: string, state: PullState,
    bytesDone: nat, bytesTotal: nat, filesDone: nat, filesTotal: nat,
    error: Option<Failure>, modelUid: Option<Uid>, startedAt: int, updatedAt: int)

  datatype Tracked = Tracked(pull: Pull, cancel: Token, described: HubRepo)

  datatype Ledger = Ledger(inner: map<Id, Tracked>, cancelled: set<Token>, next: Token)

  /** How long a Ready record stays readable: one hour, in milliseconds. */
  const KEEP_FINISHED: int := 3_600_000

  function NewPull(id: Id, d: HubRepo, now: int): Pull {
    Pull(id, d.repo, d.revision, Downloading, 0, d.sizeBytes, 0, |d.files|, None, None, now, now)
  }

  predicate Kept(t: Tracked, now: int) {
    || !t.pull.state.Finished()
    || t.pull.state.Cancelled? || t.pull.state.Failed?
    || now - t.pull.updatedAt < KEEP_FINISHED
  }

  function Swept(inner: map<Id, Tracked>, now: int): map<Id, Tracked> {
    map id | id in inner && Kept(inner[id], now) :: inner[id]
  }

  function Track(l: Ledger, id: Id, d: HubRepo, now: int): Ledger {
    Ledger(Swept(l.inner, now)[id := Tracked(NewPull(id, d, now), l.next, d)], l.cancelled, l.next + 1)
  }

  predicate CanCancel(l: Ledger, id: Id) {
    id in l.inner && !l.inner[id].pull.state.Finished()
  }

  function CallOff(l: Ledger, id: Id): Ledger
    requires id in l.inner
  {
    l.(cancelled := l.cancelled + {l.inner[id].cancel})
  }

  predicate CanResume(l: Ledger, id: Id) {
    id in l.inner && (l.inner[id].pull.state.Failed? || l.inner[id].pull.state.Cancelled?)
  }

  /** The download starts over under a token that nobody holds yet. */
  function Restarted(l: Ledger, id: Id, now: int): Ledger
    requires id in l.inner
  {
    var t := l.inner[id];
    var pull := t.pull.(state := Downloading, error := None, updatedAt := now);
    l.(inner := l.inner[id := t.(cancel := l.next, pull := pull)], next := l.next + 1)
  }

  function Dropped(l: Ledger, id: Id): Ledger {
    l.(inner := l.inner - {id})
  }

  // What happens to one record, and to the ledger that may or may not still hold it.

  function CountedPull(p: Pull, filesDone: nat, now: int): Pull {
    p.(filesDone := filesDone, updatedAt := now)
  }

  function EnteredPull(p: Pull, state: PullState, now: int): Pull {
    p.(state := state, updatedAt := now)
  }

  function TickedPull(p: Pull, bytes: nat, now: int): Pull {
    p.(bytesDone := bytes, updatedAt := now)
  }

  /** How an attempt ended: cancelled is read off the record's own token, not off the error. */
  function SettledPull(p: Pull, cancelled: bool, outcome: Result<ModelEntry, Failure>, now: int): Pull {
    match outcome
    case Ok(entry) =>
      p.(state := Ready, bytesDone := p.bytesTotal, filesDone := p.filesTotal,
         modelUid := Some(entry.uid), updatedAt := now)
    case Err(why) =>
      p.(state := if cancelled then Cancelled else Failed, error := Some(why), updatedAt := now)
  }

  function WithPull(l: Ledger, id: Id, pull: Pull): Ledger
    requires id in l.inner
  {
    l.(inner := l.inner[id := l.inner[id].(pull := pull)])
  }

  function Counted(l: Ledger, id: Id, filesDone: nat, now: int): Ledger {
    if id in l.inner then WithPull(l, id, CountedPull(l.inner[id].pull, filesDone, now)) else l
  }

  function Entered(l: Ledger, id: Id, state: PullState, now: int): Ledger {
    if id in l.inner then WithPull(l, id, EnteredPull(l.inner[id].pull, state, now)) else l
  }

  function Ticked(l: Ledger, id: Id, bytes: nat, now: int): Ledger {
    if id in l.inner then WithPull(l, id, TickedPull(l.inner[id].pull, bytes, now)) else l
  }

  function Settled(l: Ledger, id: Id, outcome: Result<ModelEntry, Failure>, now: int): Ledger {
    if id in l.inner
    then WithPull(l, id, SettledPull(l.inner[id].pull, l.inner[id].cancel in l.cancelled, outcome, now))
    else l
  }

  /** The transitions a record may make, staying put included. */
  predicate Legal(a: PullState, b: PullState) {
    || a == b
    || (a.Downloading? && (b.Verifying? || b.Failed? || b.Cancelled?))
    || (a.Verifying? && (b.Ready? || b.Failed? || b.Cancelled?))
    || ((a.Failed? || a.Cancelled?) && b.Downloading?)
  }

  datatype Refusal = NotFound | AlreadyFinished | NothingChosen | AlreadyHere | NotAllowed

  /** `describe`'s answer and the verdicts `start` asks for, all taken before the record is written. */
  datatype Verdicts = Verdicts(alreadyHere: bool, access: bool, runnable: bool, room: bool)

  class Pulls {
    var inner: map<Id, Tracked>
    var cancelled: set<Token>
    var next: Token

    ghost function View(): Ledger
      reads this
    {
      Ledger(inner, cancelled, next)
    }

    constructor ()
      ensures View() == Ledger(map[], {}, 0)
    {
      inner, cancelled, next := map[], {}, 0;
    }

    method Get(id: Id) returns (r: Result<Pull, Refusal>)
      ensures r == if id in inner then Ok(inner[id].pull) else Err(NotFound)
    {
      if id in inner { r := Ok(inner[id].pull); } else { r := Err(NotFound); }
    }

    ghost function Unfinished(ids: set<Id>): set<Id>
      requires ids <= inner.Keys
      reads this
    {
      set id | id in ids && !inner[id].pull.state.Finished()
    }

    lemma OneMoreUnfinished(ids: set<Id>, id: Id)
      requires ids <= inner.Keys && id in inner && id !in ids
      ensures |Unfinished(ids + {id})| == |Unfinished(ids)| + if inner[id].pull.state.Finished() then 0 else 1
    {
      assert Unfinished(ids + {id}) == Unfinished(ids) + (if inner[id].pull.state.Finished() then {} else {id});
    }

    /** How many downloads are unfinished. */
    method Active() returns (n: nat)
      ensures n == |Unfinished(inner.Keys)|
    {
      n := 0;
      var left := inner.Keys;
      ghost var seen: set<Id> := {};
      while left != {}
        invariant left + seen == inner.Keys && left !! seen
        invariant n == |Unfinished(seen)|
        decreases left
      {
        var id :| id in left;
        OneMoreUnfinished(seen, id);
        left, seen := left - {id}, seen + {id};
        if !inner[id].pull.state.Finished() { n := n + 1; }
      }
      assert seen == inner.Keys;
    }

    /** The order of the refusals is the order of the checks; the record is written only past all of them. */
    method Start(id: Id, described: HubRepo, v: Verdicts, now: int) returns (r: Result<Pull, Refusal>)
      modifies this
      ensures r.Ok? <==> described.files != [] && !v.alreadyHere && v.access && v.runnable && v.room
      ensures r.Ok? ==> View() == Track(old(View()), id, described, now) && id in inner && r.value == inner[id].pull
      ensures r.Err? ==> View() == old(View())
      ensures r.Err? ==>
        r.error == if described.files == [] then NothingChosen else if v.alreadyHere then AlreadyHere else NotAllowed
    {
      if described.files == [] { return Err(NothingChosen); }
      if v.alreadyHere { return Err(AlreadyHere); }
      if !v.access { return Err(NotAllowed); }
      if !v.runnable { return Err(NotAllowed); }
      if !v.room { return Err(NotAllowed); }
      var pull := NewPull(id, described, now);
      ForgetOld(now);
      inner := inner[id := Tracked(pull, next, described)];
      next := next + 1;
      r := Ok(pull);
    }

    /** Cancelling something already finished is a conflict, and cancels nothing. */
    method Cancel(id: Id) returns (r: Result<(), Refusal>)
      modifies this
      ensures r.Ok? <==> CanCancel(old(View()), id)
      ensures r.Ok? ==> View() == CallOff(old(View()), id)
      ensures r.Err? ==> View() == old(View()) && r.error == if id in inner then AlreadyFinished else NotFound
    {
      if id !in inner { return Err(NotFound); }
      if inner[id].pull.state.Finished() { return Err(AlreadyFinished); }
      cancelled := cancelled + {inner[id].cancel};
      r := Ok(());
    }

    /** `go` says whether a task is to be spawned: never for a download that already has one. */
    method Resume(id: Id, now: int) returns (r: Result<Pull, Refusal>, go: bool)
      modifies this
      ensures go <==> CanResume(old(View()), id)
      ensures View() == if go then Restarted(old(View()), id, now) else old(View())
      ensures r.Err? <==> id !in old(inner) || old(inner)[id].pull.state.Ready?
      ensures r.Err? ==> r.error == if id in inner then AlreadyFinished else NotFound
      ensures r.Ok? ==> id in inner && r.value == inner[id].pull
    {
      if id !in inner { return Err(NotFound), false; }
      var tracked := inner[id];
      match tracked.pull.state {
        case Ready => return Err(AlreadyFinished), false;
        case Downloading => return Ok(tracked.pull), false;
        case Verifying => return Ok(tracked.pull), false;
        case Failed =>
        case Cancelled =>
      }
      var pull := tracked.pull.(state := Downloading, error := None, updatedAt := now);
      inner := inner[id := tracked.(cancel := next, pull := pull)];
      next := next + 1;
      r, go := Ok(pull), true;
    }

    /** `forget`'s first lock section: ask whatever is running to stop. */
    method AskToStop(id: Id) returns (r: Result<(), Refusal>)
      modifies this
      ensures r.Ok? <==> id in old(inner)
      ensures View() == if r.Ok? then CallOff(old(View()), id) else old(View())
    {
      if id !in inner { return Err(NotFound); }
      cancelled := cancelled + {inner[id].cancel};
      r := Ok(());
    }

    /** `forget`'s second lock section. */
    method Drop(id: Id)
      modifies this
      ensures View() == Dropped(old(View()), id)
    {
      inner := inner - {id};
    }

    method FilesDone(id: Id, filesDone: nat, now: int)
      modifies this
      ensures View() == Counted(old(View()), id, filesDone, now)
    {
      if id in inner {
        inner := inner[id := inner[id].(pull := inner[id].pull.(filesDone := filesDone, updatedAt := now))];
      }
    }

    method SetState(id: Id, state: PullState, now: int)
      modifies this
      ensures View() == Entered(old(View()), id, state, now)
    {
      if id in inner {
        inner := inner[id := inner[id].(pull := inner[id].pull.(state := state, updatedAt := now))];
      }
    }

    method Tick(id: Id, bytes: nat, now: int)
      modifies this
      ensures View() == Ticked(old(View()), id, bytes, now)
    {
      if id in inner {
        inner := inner[id := inner[id].(pull := inner[id].pull.(bytesDone := bytes, updatedAt := now))];
      }
    }

    method Settle(id: Id, outcome: Result<ModelEntry, Failure>, now: int)
      modifies this
      ensures View() == Settled(old(View()), id, outcome, now)
    {
      if id !in inner { return; }
      var tracked := inner[id];
      var pull := tracked.pull;
      match outcome {
        case Ok(entry) =>
          pull := pull.(state := Ready);
          pull := pull.(bytesDone := pull.bytesTotal);
          pull := pull.(filesDone := pull.filesTotal);
          pull := pull.(modelUid := Some(entry.uid));
        case Err(why) =>
          pull := pull.(state := if tracked.cancel in cancelled then Cancelled else Failed);
          pull := pull.(error := Some(why));
      }
      pull := pull.(updatedAt := now);
      inner := inner[id := tracked.(pull := pull)];
    }

    /** Drop the Ready records nobody is going to ask about again, one by one. */
    method ForgetOld(now: int)
      modifies this`inner
      ensures inner == Swept(old(inner), now)
    {
      var left := inner.Keys;
      while left != {}
        invariant left <= old(inner).Keys && left <= inner.Keys
        invariant inner == map id | id in old(inner) && (id in left || Kept(old(inner)[id], now)) :: old(inner)[id]
        decreases left
      {
        var id :| id in left;
        left := left - {id};
        if !Kept(inner[id], now) {
          inner := inner - {id};
        }
      }
    }
  }
}
