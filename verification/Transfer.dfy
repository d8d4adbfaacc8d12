/**
 One attempt at a download, run through without interference: the loops of
 `download_from`, `fetch` and `verify` on a staging directory changed in place.
 The library is a function from (file, bytes already here) to an answer, and may
 answer each request in part or whole, break off anywhere, or not at all.
 */
module Transfer {
  import opened Wrappers
  import opened Library

  /** What the stream yields: a chunk, an error, or the notice that the pull was called off. */
  datatype Event = Data(bytes: Bytes) | Lost | Stop

  /** No usable answer, or a body under status 206 (`partial`) or 200. */
  datatype Answer = NoAnswer | Body(partial: bool, events: seq<Event>)

  /** The bytes delivered before the stream ends or breaks. */
  function Delivered(events: seq<Event>): Bytes {
    if events == [] || !events[0].Data? then [] else events[0].bytes + Delivered(events[1..])
  }

  predicate Unbroken(events: seq<Event>) {
    forall k :: 0 <= k < |events| ==> events[k].Data?
  }

  /** What a body is the body of: the rest of the file, or all of it. */
  function BodyOf(remote: Bytes, have: nat, partial: bool): Bytes {
    if have > 0 && partial && have <= |remote| then remote[have..] else remote
  }

  /** The library delivers the bytes it was asked for, in order, and perhaps not all of them. */
  ghost predicate Honest(remote: Bytes, have: nat, a: Answer) {
    a.Body? ==> Delivered(a.events) <= BodyOf(remote, have, a.partial)
  }

  /** An answer that arrives whole. */
  ghost predicate Prompt(remote: Bytes, have: nat, a: Answer) {
    a.Body? && Unbroken(a.events) && Delivered(a.events) == BodyOf(remote, have, a.partial)
  }

  lemma {:induction false} DeliveredSplit(events: seq<Event>, k: nat)
    requires k < |events| && Unbroken(events[..k])
    ensures Delivered(events[..k]) <= Delivered(events)
    ensures events[k].Data? ==> Delivered(events[..k + 1]) == Delivered(events[..k]) + events[k].bytes
    ensures !events[k].Data? ==> Delivered(events) == Delivered(events[..k])
    decreases k
  {
    if k > 0 {
      assert events[0] == events[..k][0] == events[..k + 1][0];
      assert events[..k][1..] == events[1..][..k - 1] && events[..k + 1][1..] == events[1..][..k];
      DeliveredSplit(events[1..], k - 1);
    } else {
      assert events[..1][1..] == [];
    }
  }

  /** The directory after one answer: nothing, the part continued, or the file replaced. */
  function Fetched(dir: Dir, path: string, have: nat, a: Answer): Dir
    requires have > 0 ==> path in dir
  {
    if a.NoAnswer? then dir
    else dir[path := (if have > 0 && a.partial then dir[path] else []) + Delivered(a.events)]
  }

  /** How much of what was here an answer throws away. */
  function Discarded(have: nat, a: Answer): nat {
    if a.Body? && !a.partial then have else 0
  }

  /** The remote bytes of file `i`. */
  function RemoteOf(lib: Remote, d: HubRepo, i: nat): Bytes
    requires i < |d.files|
  {
    var src := SourceOf(d, d.files[i].path);
    if src in lib then lib[src] else []
  }

  ghost predicate HonestAt(lib: Remote, d: HubRepo, ask: (nat, nat) -> Answer, i: nat, have: nat)
    requires i < |d.files|
  {
    Honest(RemoteOf(lib, d, i), have, ask(i, have))
  }

  ghost predicate PromptAt(lib: Remote, d: HubRepo, ask: (nat, nat) -> Answer, i: nat, have: nat)
    requires i < |d.files|
  {
    Prompt(RemoteOf(lib, d, i), have, ask(i, have))
  }

  /** A ranged request is answered in part. One for the whole file carries no range, and may be answered as it likes. */
  predicate PartialAt(ask: (nat, nat) -> Answer, i: nat, have: nat) {
    have > 0 && ask(i, have).Body? ==> ask(i, have).partial
  }

  ghost predicate HonestLibrary(lib: Remote, d: HubRepo, ask: (nat, nat) -> Answer)
  {
    forall i: nat, have: nat :: i < |d.files| ==> HonestAt(lib, d, ask, i, have)
  }

  ghost predicate PromptLibrary(lib: Remote, d: HubRepo, ask: (nat, nat) -> Answer)
  {
    forall i: nat, have: nat :: i < |d.files| ==> PromptAt(lib, d, ask, i, have)
  }

  lemma PromptIsHonest(lib: Remote, d: HubRepo, ask: (nat, nat) -> Answer)
    requires PromptLibrary(lib, d, ask)
    ensures HonestLibrary(lib, d, ask)
  {
    forall i: nat, have: nat | i < |d.files| ensures HonestAt(lib, d, ask, i, have) {
      assert PromptAt(lib, d, ask, i, have);
    }
  }

  ghost predicate AlwaysPartial(ask: (nat, nat) -> Answer) {
    forall i: nat, have: nat :: PartialAt(ask, i, have)
  }

  /** Nothing staged is longer than its description, so the stat is never of another file. */
  lemma NeverLonger(lib: Remote, d: HubRepo, dir: Dir, k: nat)
    requires Truthful(lib, d) && Staged(lib, d, dir) && k < |d.files|
    ensures LengthOf(dir, d.files[k].path) <= d.files[k].size
  {}

  /** What a file holds after one answer. */
  function After(content: Bytes, have: nat, a: Answer): Bytes {
    if a.NoAnswer? then content else (if have > 0 && a.partial then content else []) + Delivered(a.events)
  }

  /** One answer keeps a file a prefix of its remote, and accounts for every byte. */
  lemma OnePrefixKept(remote: Bytes, content: Bytes, have: nat, a: Answer)
    requires content <= remote && |content| == have && Honest(remote, have, a)
    ensures After(content, have, a) <= remote
    ensures |After(content, have, a)| + Discarded(have, a) == have + (if a.Body? then |Delivered(a.events)| else 0)
    ensures Prompt(remote, have, a) ==> After(content, have, a) == remote
  {
    if a.Body? && have > 0 && a.partial { assert remote == remote[..have] + remote[have..]; }
  }

  /**
   Replacing one described file by a prefix of its remote leaves the directory staged, and the files
   before it alone.
   */
  lemma OneFileReplaced(lib: Remote, d: HubRepo, dir: Dir, k: nat, content: Bytes)
    requires Truthful(lib, d) && Staged(lib, d, dir) && k < |d.files| && content <= RemoteOf(lib, d, k)
    ensures
      var dir' := dir[d.files[k].path := content];
      && Staged(lib, d, dir')
      && StagedLength(dir', d.files, k) == StagedLength(dir, d.files, k)
      && (FullLength(d.files, dir, k) && content == RemoteOf(lib, d, k) ==> FullLength(d.files, dir', k + 1))
  {
    var path := d.files[k].path;
    var dir' := dir[path := content];
    assert Described(d, path);
    forall j | 0 <= j < k ensures LengthOf(dir, d.files[j].path) == LengthOf(dir', d.files[j].path) {
      assert d.files[j].path != path;
    }
    StagedLengthFrame(dir, dir', d.files, k);
  }

  /** One answer keeps every file a prefix of its remote, and accounts for every byte. */
  lemma OneFileFetched(lib: Remote, d: HubRepo, dir: Dir, k: nat, have: nat, a: Answer)
    requires Truthful(lib, d) && Staged(lib, d, dir) && k < |d.files|
    requires Honest(RemoteOf(lib, d, k), have, a)
    requires have == LengthOf(dir, d.files[k].path)
    ensures
      var dir' := Fetched(dir, d.files[k].path, have, a);
      && Staged(lib, d, dir')
      && StagedLength(dir', d.files, k) == StagedLength(dir, d.files, k)
      && LengthOf(dir', d.files[k].path) + Discarded(have, a) == have + (if a.Body? then |Delivered(a.events)| else 0)
      && (FullLength(d.files, dir, k) && Prompt(RemoteOf(lib, d, k), have, a) ==> FullLength(d.files, dir', k + 1))
  {
    var path := d.files[k].path;
    var content: Bytes := if path in dir then dir[path] else [];
    OnePrefixKept(RemoteOf(lib, d, k), content, have, a);
    OneFileReplaced(lib, d, dir, k, After(content, have, a));
  }

  /** How a library answers this plan: in part whenever asked to, and every time to the end. */
  datatype Kind = Kind(partial: bool, prompt: bool)

  ghost function KindOf(lib: Remote, d: HubRepo, ask: (nat, nat) -> Answer): Kind {
    Kind(AlwaysPartial(ask), PromptLibrary(lib, d, ask))
  }

  /** What the fetch loop has done after `k` files: the counter is what is staged of them plus what was discarded. */
  ghost predicate SoFar(lib: Remote, d: HubRepo, kind: Kind, dir: Dir, k: nat, done: nat, discarded: nat)
    requires k <= |d.files|
  {
    && Staged(lib, d, dir)
    && done == StagedLength(dir, d.files, k) + discarded
    && (kind.partial ==> discarded == 0)
    && (kind.prompt ==> FullLength(d.files, dir, k))
  }

  predicate IsFull(d: HubRepo, dir: Dir, k: nat)
    requires k < |d.files|
  {
    d.files[k].path in dir && |dir[d.files[k].path]| == d.files[k].size
  }

  /** What an earlier attempt left to be continued: nothing, if what is there is as long as the file or longer. */
  function Have(d: HubRepo, dir: Dir, k: nat): nat
    requires k < |d.files|
  {
    var path := d.files[k].path;
    if path in dir && |dir[path]| < d.files[k].size then |dir[path]| else 0
  }

  /** What one turn of the loop makes of the directory, counts, throws away, and whether the loop goes on. */
  function AfterTurn(d: HubRepo, ask: (nat, nat) -> Answer, dir: Dir, k: nat): Dir
    requires k < |d.files|
  {
    var have := Have(d, dir, k);
    if IsFull(d, dir, k) then dir else Fetched(dir, d.files[k].path, have, ask(k, have))
  }

  function CountedInTurn(d: HubRepo, ask: (nat, nat) -> Answer, dir: Dir, k: nat): nat
    requires k < |d.files|
  {
    var have := Have(d, dir, k);
    if IsFull(d, dir, k) then d.files[k].size
    else have + (if ask(k, have).Body? then |Delivered(ask(k, have).events)| else 0)
  }

  function LostInTurn(d: HubRepo, ask: (nat, nat) -> Answer, dir: Dir, k: nat): nat
    requires k < |d.files|
  {
    var have := Have(d, dir, k);
    if IsFull(d, dir, k) then 0 else Discarded(have, ask(k, have))
  }

  predicate GoesOn(d: HubRepo, ask: (nat, nat) -> Answer, dir: Dir, k: nat)
    requires k < |d.files|
  {
    var a := ask(k, Have(d, dir, k));
    IsFull(d, dir, k) || (a.Body? && Unbroken(a.events))
  }

  /** One turn of the loop, whatever is found and whatever is answered, keeps the account straight. */
  lemma TurnOk(lib: Remote, d: HubRepo, ask: (nat, nat) -> Answer, dir: Dir, k: nat, done: nat, discarded: nat)
    requires Truthful(lib, d) && k < |d.files| && SoFar(lib, d, KindOf(lib, d, ask), dir, k, done, discarded)
    requires HonestLibrary(lib, d, ask)
    ensures SoFar(lib, d, KindOf(lib, d, ask), AfterTurn(d, ask, dir, k), k + 1,
                  done + CountedInTurn(d, ask, dir, k), discarded + LostInTurn(d, ask, dir, k))
    ensures KindOf(lib, d, ask).prompt ==> GoesOn(d, ask, dir, k)
  {
    var have := Have(d, dir, k);
    NeverLonger(lib, d, dir, k);
    if !IsFull(d, dir, k) {
      assert HonestAt(lib, d, ask, k, have);
      assert AlwaysPartial(ask) ==> PartialAt(ask, k, have);
      assert PromptLibrary(lib, d, ask) ==> PromptAt(lib, d, ask, k, have);
      OneFileFetched(lib, d, dir, k, have, ask(k, have));
    }
  }

  /** How a fetch ended: `discarded` is history. */
  datatype Outcome = Outcome(dir: Dir, ok: bool, done: nat, filesDone: nat, discarded: nat)

  /** The fetch loop from file `k` on. */
  function FetchRun(d: HubRepo, ask: (nat, nat) -> Answer, dir: Dir, k: nat, done: nat, discarded: nat): Outcome
    requires k <= |d.files|
    decreases |d.files| - k
  {
    if k == |d.files| then Outcome(dir, true, done, k, discarded) else
    var dir', done' := AfterTurn(d, ask, dir, k), done + CountedInTurn(d, ask, dir, k);
    var discarded' := discarded + LostInTurn(d, ask, dir, k);
    if GoesOn(d, ask, dir, k) then FetchRun(d, ask, dir', k + 1, done', discarded')
    else Outcome(dir', false, done', k, discarded')
  }

  /** The account of a fetch that has ended. */
  ghost predicate Accounted(lib: Remote, d: HubRepo, kind: Kind, r: Outcome) {
    && r.filesDone <= |d.files| && (r.ok <==> r.filesDone == |d.files|)
    && SoFar(lib, d, kind, r.dir, if r.ok then r.filesDone else r.filesDone + 1, r.done, r.discarded)
    && (kind.prompt ==> r.ok)
  }

  /** A fetch that stops at file `k` is accounted for as of that file. */
  lemma StoppedOk(lib: Remote, d: HubRepo, kind: Kind, dir: Dir, k: nat, done: nat, discarded: nat)
    requires k < |d.files| && SoFar(lib, d, kind, dir, k + 1, done, discarded) && !kind.prompt
    ensures Accounted(lib, d, kind, Outcome(dir, false, done, k, discarded))
  {}

  /** The values a turn leaves the loop with. */
  ghost predicate LeftBy(d: HubRepo, ask: (nat, nat) -> Answer, dir: Dir, k: nat, done: nat, discarded: nat,
                         on: bool, dir': Dir, done': nat, discarded': nat)
    requires k < |d.files|
  {
    && on == GoesOn(d, ask, dir, k) && dir' == AfterTurn(d, ask, dir, k)
    && done' == done + CountedInTurn(d, ask, dir, k) && discarded' == discarded + LostInTurn(d, ask, dir, k)
  }

  /** A run is its first turn, and then the run from there, if it goes on. */
  lemma RunFollows(d: HubRepo, ask: (nat, nat) -> Answer, dir: Dir, k: nat, done: nat, discarded: nat)
    returns (on: bool, dir': Dir, done': nat, discarded': nat)
    requires k < |d.files|
    ensures LeftBy(d, ask, dir, k, done, discarded, on, dir', done', discarded')
    ensures FetchRun(d, ask, dir, k, done, discarded) ==
      if on then FetchRun(d, ask, dir', k + 1, done', discarded') else Outcome(dir', false, done', k, discarded')
  {
    on, dir', done' := GoesOn(d, ask, dir, k), AfterTurn(d, ask, dir, k), done + CountedInTurn(d, ask, dir, k);
    discarded' := discarded + LostInTurn(d, ask, dir, k);
  }

  lemma TurnStraight(lib: Remote, d: HubRepo, ask: (nat, nat) -> Answer, kind: Kind, dir: Dir, k: nat,
                     done: nat, discarded: nat, on: bool, dir': Dir, done': nat, discarded': nat)
    requires Truthful(lib, d) && HonestLibrary(lib, d, ask) && kind == KindOf(lib, d, ask)
    requires k < |d.files| && SoFar(lib, d, kind, dir, k, done, discarded)
    requires LeftBy(d, ask, dir, k, done, discarded, on, dir', done', discarded')
    ensures SoFar(lib, d, kind, dir', k + 1, done', discarded') && (kind.prompt ==> on)
  {
    TurnOk(lib, d, ask, dir, k, done, discarded);
  }

  /** However a fetch ends, every byte is accounted for; and a prompt library ends it with every file whole. */
  lemma {:induction false} FetchRunOk(lib: Remote, d: HubRepo, ask: (nat, nat) -> Answer, kind: Kind,
                                      dir: Dir, k: nat, done: nat, discarded: nat, r: Outcome)
    requires Truthful(lib, d) && HonestLibrary(lib, d, ask) && kind == KindOf(lib, d, ask)
    requires k <= |d.files| && SoFar(lib, d, kind, dir, k, done, discarded)
    requires r == FetchRun(d, ask, dir, k, done, discarded)
    ensures Accounted(lib, d, kind, r)
    decreases |d.files| - k
  {
    if k < |d.files| {
      var on, dir', done', discarded' := RunFollows(d, ask, dir, k, done, discarded);
      TurnStraight(lib, d, ask, kind, dir, k, done, discarded, on, dir', done', discarded');
      if on {
        FetchRunOk(lib, d, ask, kind, dir', k + 1, done', discarded', r);
      } else {
        StoppedOk(lib, d, kind, dir', k, done', discarded');
      }
    }
  }

  /**
   Resuming refines a straight download. Whatever earlier attempts staged, an
   attempt a prompt library answers to the end leaves exactly the remote, its
   counter the whole size plus what was discarded: which is nothing when every
   ranged request was answered in part.
   */
  lemma ResumedIsStraight(lib: Remote, d: HubRepo, ask: (nat, nat) -> Answer, dir: Dir)
    requires Truthful(lib, d) && PromptLibrary(lib, d, ask) && Staged(lib, d, dir)
    ensures
      var r := FetchRun(d, ask, dir, 0, 0, 0);
      && r.ok && Complete(lib, d, r.dir) && r.done == d.sizeBytes + r.discarded
      && (AlwaysPartial(ask) ==> r.done == d.sizeBytes)
  {
    var r := FetchRun(d, ask, dir, 0, 0, 0);
    PromptIsHonest(lib, d, ask);
    FetchRunOk(lib, d, ask, KindOf(lib, d, ask), dir, 0, 0, 0, r);
    LengthsImplyBytes(lib, d, r.dir);
    StagedLengthBound(lib, d, r.dir, |d.files|);
  }

  /**
   An attempt that ends badly leaves a directory the next one may continue from, and counts what it
   holds of the files it visited.
   */
  lemma InterruptedIsResumable(lib: Remote, d: HubRepo, ask: (nat, nat) -> Answer, dir: Dir)
    requires Truthful(lib, d) && HonestLibrary(lib, d, ask) && Staged(lib, d, dir)
    ensures
      var r := FetchRun(d, ask, dir, 0, 0, 0);
      && Staged(lib, d, r.dir)
      && (!r.ok ==> r.filesDone < |d.files| && r.done == StagedLength(r.dir, d.files, r.filesDone + 1) + r.discarded)
      && (AlwaysPartial(ask) ==> r.done <= d.sizeBytes)
  {
    var r := FetchRun(d, ask, dir, 0, 0, 0);
    FetchRunOk(lib, d, ask, KindOf(lib, d, ask), dir, 0, 0, 0, r);
    var k := if r.ok then r.filesDone else r.filesDone + 1;
    StagedLengthBound(lib, d, r.dir, k);
    SumSizesMonotone(d.files, k, |d.files|);
  }

  /** A chunk written where the file ends makes the file that much longer, and changes no other file. */
  lemma ChunkLands(base: Dir, path: string, kept: Bytes, got: Bytes, chunk: Bytes)
    ensures base[path := kept + got][path := WriteAt(kept + got, |kept| + |got|, chunk)]
         == base[path := kept + (got + chunk)]
  {
    assert WriteAt(kept + got, |kept| + |got|, chunk) == kept + (got + chunk);
  }

  /** The first `k` events are chunks, and `got` is what they carry. */
  ghost predicate Arrived(events: seq<Event>, k: nat, got: Bytes) {
    k <= |events| && Unbroken(events[..k]) && Delivered(events[..k]) == got
  }

  lemma NextArrives(events: seq<Event>, k: nat, got: Bytes)
    requires Arrived(events, k, got)
    ensures k == |events| ==> Unbroken(events) && Delivered(events) == got
    ensures k < |events| && events[k].Data? ==> Arrived(events, k + 1, got + events[k].bytes)
    ensures k < |events| && !events[k].Data? ==> !Unbroken(events) && Delivered(events) == got
  {
    if k < |events| { DeliveredSplit(events, k); } else { assert events[..k] == events; }
  }

  class Staging {
    var files: Dir

    constructor ()
      ensures files == map[]
    {
      files := map[];
    }

    /**
     Stream one file to disk. What is kept is what the status says: a 206 to a
     ranged request continues the file, anything else replaces it.
     */
    method DownloadFrom(path: string, have: nat, a: Answer) returns (ok: bool, counted: nat)
      requires have > 0 ==> path in files && |files[path]| == have
      modifies this
      ensures files == Fetched(old(files), path, have, a)
      ensures counted == if a.Body? then |Delivered(a.events)| else 0
      ensures ok <==> a.Body? && Unbroken(a.events)
    {
      counted, ok := 0, false;
      if a.NoAnswer? { return; }
      var continuing := have > 0 && a.partial;
      var pos := 0;
      if continuing { pos := have; } else { files := files[path := []]; }
      ghost var kept, base := files[path], files;
      ghost var got: Bytes := [];
      var k := 0;
      assert kept + got == kept && base[path := kept] == base;
      while k < |a.events|
        invariant Arrived(a.events, k, got)
        invariant files == base[path := kept + got]
        invariant pos == |kept| + counted && counted == |got|
      {
        NextArrives(a.events, k, got);
        match a.events[k]
        case Lost => return;
        case Stop => return;
        case Data(chunk) =>
          ChunkLands(base, path, kept, got, chunk);
          files := files[path := WriteAt(files[path], pos, chunk)];
          got := got + chunk;
          pos := pos + |chunk|;
          counted := counted + |chunk|;
          k := k + 1;
      }
      NextArrives(a.events, k, got);
      ok := true;
    }

    /** One turn of the fetch loop: a file already the right size is not fetched again. */
    method FetchFile(d: HubRepo, k: nat, ask: (nat, nat) -> Answer) returns (ok: bool, counted: nat)
      requires k < |d.files|
      modifies this
      ensures files == AfterTurn(d, ask, old(files), k)
      ensures counted == CountedInTurn(d, ask, old(files), k)
      ensures ok <==> GoesOn(d, ask, old(files), k)
      ensures
        var path, size := d.files[k].path, d.files[k].size;
        var whole := path in old(files) && |old(files)[path]| == size;
        var have := if path in old(files) && |old(files)[path]| < size then |old(files)[path]| else 0;
        && (whole ==> ok && counted == size && files == old(files))
        && (!whole ==> (ok <==> ask(k, have).Body? && Unbroken(ask(k, have).events)) && counted >= have)
    {
      var path, size := d.files[k].path, d.files[k].size;
      if path in files && |files[path]| == size {
        return true, size;
      }
      var have := if path in files && |files[path]| < size then |files[path]| else 0;
      var got;
      ok, got := DownloadFrom(path, have, ask(k, have));
      counted := have + got;
    }

    /** Fetch every file, continuing what an earlier attempt left; `filesDone` is how many landed. */
    method Fetch(d: HubRepo, ask: (nat, nat) -> Answer) returns (ok: bool, done: nat, filesDone: nat)
      modifies this
      ensures var r := FetchRun(d, ask, old(files), 0, 0, 0);
        files == r.dir && ok == r.ok && done == r.done && filesDone == r.filesDone
    {
      ok, done, filesDone := false, 0, 0;
      ghost var lost: nat := 0;
      while filesDone < |d.files|
        invariant filesDone <= |d.files|
        invariant FetchRun(d, ask, files, filesDone, done, lost) == FetchRun(d, ask, old(files), 0, 0, 0)
      {
        ghost var _, _, _, _ := RunFollows(d, ask, files, filesDone, done, lost);
        lost := lost + LostInTurn(d, ask, files, filesDone);
        var whole, counted := FetchFile(d, filesDone, ask);
        done := done + counted;
        if !whole { return; }
        filesDone := filesDone + 1;
      }
      ok := true;
    }

    /** Every file present at the described length; otherwise the first that is not. */
    method Verify(d: HubRepo) returns (bad: Option<nat>)
      ensures bad.None? <==> FullLength(d.files, files, |d.files|)
      ensures bad.Some? ==>
        && bad.value < |d.files| && FullLength(d.files, files, bad.value)
        && !FullLength(d.files, files, bad.value + 1)
    {
      var k := 0;
      while k < |d.files|
        invariant k <= |d.files| && FullLength(d.files, files, k)
      {
        if d.files[k].path !in files || |files[d.files[k].path]| != d.files[k].size {
          return Some(k);
        }
        k := k + 1;
      }
      bad := None;
    }
  }
}
