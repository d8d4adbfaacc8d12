/**
 The loops of `Transfer` and the steps of the machine are about one thing: what
 an undisturbed fetch computes, an attempt's own steps compute.
 */
module PipelineTransfer {
  import opened Wrappers
  import opened Library
  import opened Records
  import opened Pipeline
  import Transfer

  /** The attempt's own actions, one after another, with nothing else in between. */
  ghost predicate OwnPath(lib: Remote, p: Place, cancelled: set<Token>, actions: seq<Action>, p': Place)
    decreases |actions|
  {
    if actions == [] then p' == p
    else
      && OwnAction(actions[0]) && CanAct(lib, p, cancelled, actions[0])
      && OwnPath(lib, Act(lib, p, cancelled, actions[0]), cancelled, actions[1..], p')
  }

  ghost predicate Leads(lib: Remote, p: Place, cancelled: set<Token>, p': Place) {
    exists actions :: OwnPath(lib, p, cancelled, actions, p')
  }

  lemma LeadsNowhere(lib: Remote, p: Place, cancelled: set<Token>)
    ensures Leads(lib, p, cancelled, p)
  {
    assert OwnPath(lib, p, cancelled, [], p);
  }

  lemma LeadsOn(lib: Remote, p: Place, cancelled: set<Token>, a: Action, p': Place)
    requires OwnAction(a) && CanAct(lib, p, cancelled, a) && Leads(lib, Act(lib, p, cancelled, a), cancelled, p')
    ensures Leads(lib, p, cancelled, p')
  {
    var rest :| OwnPath(lib, Act(lib, p, cancelled, a), cancelled, rest, p');
    assert ([a] + rest)[1..] == rest;
    assert OwnPath(lib, p, cancelled, [a] + rest, p');
  }

  lemma {:induction false} PathsJoin(lib: Remote, p: Place, cancelled: set<Token>, actions: seq<Action>,
                                     middle: Place, p': Place)
    requires OwnPath(lib, p, cancelled, actions, middle) && Leads(lib, middle, cancelled, p')
    ensures Leads(lib, p, cancelled, p')
    decreases |actions|
  {
    if actions != [] {
      PathsJoin(lib, Act(lib, p, cancelled, actions[0]), cancelled, actions[1..], middle, p');
      LeadsOn(lib, p, cancelled, actions[0], p');
    }
  }

  lemma LeadsThrough(lib: Remote, p: Place, cancelled: set<Token>, middle: Place, p': Place)
    requires Leads(lib, p, cancelled, middle) && Leads(lib, middle, cancelled, p')
    ensures Leads(lib, p, cancelled, p')
  {
    var actions :| OwnPath(lib, p, cancelled, actions, middle);
    PathsJoin(lib, p, cancelled, actions, middle, p');
  }

  /** Attempt `p` has come to file `i` with `dir` staged. */
  predicate AtFile(p: Place, i: nat, dir: Dir) {
    p.task.phase == Looking(i) && i <= |p.task.plan.files| && p.staged == Some(dir)
  }

  /** What a turn of the loop leaves: the directory, the counter and what was thrown away as `Transfer` has them. */
  ghost predicate TurnTaken(p: Place, ask: (nat, nat) -> Transfer.Answer, i: nat, dir: Dir, p': Place)
    requires i < |p.task.plan.files|
  {
    var d := p.task.plan;
    && p'.task.plan == d && p'.staged == Some(Transfer.AfterTurn(d, ask, dir, i))
    && p'.task.counter == p.task.counter + Transfer.CountedInTurn(d, ask, dir, i)
    && p'.task.discarded == p.task.discarded + Transfer.LostInTurn(d, ask, dir, i)
    && (if Transfer.GoesOn(d, ask, dir, i) then p'.task.phase == Looking(i + 1)
        else p'.task.phase.Done? && p'.task.phase.outcome.Err?)
  }

  /** A file already whole is counted and passed over. */
  lemma WholeFileTurn(lib: Remote, n: nat, p: Place, cancelled: set<Token>, ask: (nat, nat) -> Transfer.Answer,
                      i: nat, dir: Dir)
    returns (p': Place)
    requires AtFile(p, i, dir) && i < |p.task.plan.files| && Transfer.IsFull(p.task.plan, dir, i)
    ensures Leads(lib, p, cancelled, p') && TurnTaken(p, ask, i, dir, p')
  {
    var looked := Looked(p, true);
    p' := Marked(looked, 0);
    LeadsNowhere(lib, p', cancelled);
    LeadsOn(lib, looked, cancelled, Mark(n, 0), p');
    LeadsOn(lib, p, cancelled, Look(n, true), p');
  }

  /** The request, when the file is not whole. */
  function AskedFor(p: Place, i: nat, have: nat): Place {
    At(Charged(p, have), Asking(i, have))
  }

  lemma LookAsks(p: Place, i: nat, dir: Dir)
    requires AtFile(p, i, dir) && i < |p.task.plan.files| && !Transfer.IsFull(p.task.plan, dir, i)
    ensures Looked(p, true) == AskedFor(p, i, Transfer.Have(p.task.plan, dir, i))
  {}

  /** The file once the answer's status is known: continued, or created afresh. */
  function OpenedFor(p: Place, i: nat, have: nat, partial: bool): Place
    requires i < |p.task.plan.files|
  {
    Opened(At(AskedFor(p, i, have), Opening(i, have, have > 0 && partial)))
  }

  lemma OpenedIs(p: Place, i: nat, dir: Dir, have: nat, partial: bool)
    requires AtFile(p, i, dir) && i < |p.task.plan.files| && have == Transfer.Have(p.task.plan, dir, i)
    ensures
      var q, path := OpenedFor(p, i, have, partial), p.task.plan.files[i].path;
      var kept: Bytes := if have > 0 && partial then dir[path] else [];
      && q.staged == Some(dir[path := kept]) && q.task.plan == p.task.plan
      && q.task.phase == Writing(i, |kept|, true)
      && q.task.counter == p.task.counter + have
      && q.task.discarded == p.task.discarded + (if partial then 0 else have)
  {
    var path := p.task.plan.files[i].path;
    if have > 0 && partial { assert dir[path := dir[path]] == dir; }
  }

  /** What the answer delivers lands in the file, in one piece as in many. */
  lemma Lands(lib: Remote, q: Place, i: nat, dir: Dir, kept: Bytes, got: Bytes)
    requires i < |q.task.plan.files| && q.task.phase == Writing(i, |kept|, true)
    requires q.staged == Some(dir[q.task.plan.files[i].path := kept])
    requires |kept| + |got| <= |RemoteBytes(lib, q.task, i)|
    requires RemoteBytes(lib, q.task, i)[|kept|..|kept| + |got|] == got
    ensures CanWrite(lib, q, |got|)
    ensures
      var w := Wrote(lib, q, |got|);
      && w.staged == Some(dir[q.task.plan.files[i].path := kept + got]) && w.task.plan == q.task.plan
      && w.task.phase == Writing(i, |kept| + |got|, true)
      && w.task.counter == q.task.counter + |got| && w.task.discarded == q.task.discarded
  {
    var path := q.task.plan.files[i].path;
    assert Part(q, i) == Some(kept);
    assert WriteAt(kept, |kept|, got) == kept + got;
    assert dir[path := kept][path := kept + got] == dir[path := kept + got];
  }

  /** The way from the request to the end of the answer. */
  lemma AnsweredTurn(lib: Remote, n: nat, p: Place, cancelled: set<Token>, i: nat, dir: Dir, have: nat,
                     a: Transfer.Answer, last: Place)
    requires AtFile(p, i, dir) && i < |p.task.plan.files| && !Transfer.IsFull(p.task.plan, dir, i)
    requires have == Transfer.Have(p.task.plan, dir, i) && a.Body?
    requires CanWrite(lib, OpenedFor(p, i, have, a.partial), |Transfer.Delivered(a.events)|)
    requires Leads(lib, Wrote(lib, OpenedFor(p, i, have, a.partial), |Transfer.Delivered(a.events)|), cancelled, last)
    ensures Leads(lib, p, cancelled, last)
  {
    LookAsks(p, i, dir);
    OpenedIs(p, i, dir, have, a.partial);
    var asked := AskedFor(p, i, have);
    var answered := At(asked, Opening(i, have, have > 0 && a.partial));
    var q := OpenedFor(p, i, have, a.partial);
    LeadsOn(lib, q, cancelled, Chunk(n, |Transfer.Delivered(a.events)|), last);
    assert have > 0 ==> Part(answered, i).Some?;
    LeadsOn(lib, answered, cancelled, Open(n), last);
    LeadsOn(lib, asked, cancelled, Answer(n, a.partial), last);
    LeadsOn(lib, p, cancelled, Look(n, true), last);
  }

  /** What is left to do once the bytes have landed: close and count the file, or fail. */
  lemma TurnEnds(lib: Remote, n: nat, w: Place, cancelled: set<Token>, i: nat, good: bool) returns (p': Place)
    requires w.task.phase.Writing? && w.task.phase.i == i && CanWrite(lib, w, 0)
    ensures Leads(lib, w, cancelled, p') && p'.task.plan == w.task.plan
    ensures p'.staged == w.staged && p'.task.counter == w.task.counter && p'.task.discarded == w.task.discarded
    ensures if good then p'.task.phase == Looking(i + 1) else p'.task.phase == Done(Err(Broken))
  {
    if good {
      var closed := At(w, Marking(i));
      p' := Marked(closed, 0);
      LeadsNowhere(lib, p', cancelled);
      LeadsOn(lib, closed, cancelled, Mark(n, 0), p');
      LeadsOn(lib, w, cancelled, CloseFile(n), p');
    } else {
      p' := Act(lib, w, cancelled, Fail(n, 0));
      NothingLands(lib, w);
      LeadsNowhere(lib, p', cancelled);
      LeadsOn(lib, w, cancelled, Fail(n, 0), p');
    }
  }

  lemma NothingLands(lib: Remote, w: Place)
    requires CanWrite(lib, w, 0)
    ensures Land(lib, w, 0).staged == w.staged
  {
    if w.task.phase.attached {
      var i, pos := w.task.phase.i, w.task.phase.pos;
      var path, content := w.task.plan.files[i].path, Part(w, i).value;
      assert RemoteBytes(lib, w.task, i)[pos..pos + 0] == [];
      assert content[..pos] + [] + content[pos..] == content;
      assert w.staged.value[path := content] == w.staged.value;
    }
  }

  lemma NoAnswerTurn(lib: Remote, n: nat, p: Place, cancelled: set<Token>, ask: (nat, nat) -> Transfer.Answer,
                     i: nat, dir: Dir)
    returns (p': Place)
    requires AtFile(p, i, dir) && i < |p.task.plan.files| && !Transfer.IsFull(p.task.plan, dir, i)
    requires ask(i, Transfer.Have(p.task.plan, dir, i)).NoAnswer?
    ensures Leads(lib, p, cancelled, p') && TurnTaken(p, ask, i, dir, p')
  {
    LookAsks(p, i, dir);
    var asked := AskedFor(p, i, Transfer.Have(p.task.plan, dir, i));
    p' := At(asked, Done(Err(Broken)));
    LeadsNowhere(lib, p', cancelled);
    LeadsOn(lib, asked, cancelled, Fail(n, 0), p');
    LeadsOn(lib, p, cancelled, Look(n, true), p');
  }

  lemma BodyTurn(lib: Remote, n: nat, p: Place, cancelled: set<Token>, ask: (nat, nat) -> Transfer.Answer, i: nat,
                 dir: Dir)
    returns (p': Place)
    requires AtFile(p, i, dir) && i < |p.task.plan.files| && !Transfer.IsFull(p.task.plan, dir, i)
    requires Truthful(lib, p.task.plan) && Staged(lib, p.task.plan, dir)
    requires Transfer.HonestAt(lib, p.task.plan, ask, i, Transfer.Have(p.task.plan, dir, i))
    requires ask(i, Transfer.Have(p.task.plan, dir, i)).Body?
    ensures Leads(lib, p, cancelled, p') && TurnTaken(p, ask, i, dir, p')
  {
    var d := p.task.plan;
    var have := Transfer.Have(d, dir, i);
    var a, path := ask(i, have), d.files[i].path;
    var got, remote := Transfer.Delivered(a.events), RemoteBytes(lib, p.task, i);
    var q := OpenedFor(p, i, have, a.partial);
    OpenedIs(p, i, dir, have, a.partial);
    var kept: Bytes := if have > 0 && a.partial then dir[path] else [];
    assert remote == Transfer.RemoteOf(lib, d, i) && RemoteBytes(lib, q.task, i) == remote;
    DeliveredIsNext(remote, kept, have, a);
    Lands(lib, q, i, dir, kept, got);
    var w := Wrote(lib, q, |got|);
    p' := TurnEnds(lib, n, w, cancelled, i, Transfer.Unbroken(a.events));
    AnsweredTurn(lib, n, p, cancelled, i, dir, have, a, p');
  }

  /** An honest answer delivers the bytes that come after what is kept. */
  lemma DeliveredIsNext(remote: Bytes, kept: Bytes, have: nat, a: Transfer.Answer)
    requires a.Body? && Transfer.Honest(remote, have, a) && have <= |remote|
    requires |kept| == if have > 0 && a.partial then have else 0
    ensures |kept| + |Transfer.Delivered(a.events)| <= |remote|
    ensures remote[|kept|..|kept| + |Transfer.Delivered(a.events)|] == Transfer.Delivered(a.events)
  {}

  /** One turn of the fetch loop is a stretch of the attempt's own steps. */
  lemma TurnIsSteps(lib: Remote, n: nat, p: Place, cancelled: set<Token>, ask: (nat, nat) -> Transfer.Answer, i: nat,
                    dir: Dir)
    returns (p': Place)
    requires AtFile(p, i, dir) && i < |p.task.plan.files|
    requires Truthful(lib, p.task.plan) && Staged(lib, p.task.plan, dir)
    requires Transfer.HonestLibrary(lib, p.task.plan, ask)
    ensures Leads(lib, p, cancelled, p') && TurnTaken(p, ask, i, dir, p')
  {
    var have := Transfer.Have(p.task.plan, dir, i);
    assert Transfer.HonestAt(lib, p.task.plan, ask, i, have);
    if Transfer.IsFull(p.task.plan, dir, i) {
      p' := WholeFileTurn(lib, n, p, cancelled, ask, i, dir);
    } else if ask(i, have).NoAnswer? {
      p' := NoAnswerTurn(lib, n, p, cancelled, ask, i, dir);
    } else {
      p' := BodyTurn(lib, n, p, cancelled, ask, i, dir);
    }
  }

  /** A turn leaves the directory staged. */
  lemma TurnStaysStaged(lib: Remote, d: HubRepo, ask: (nat, nat) -> Transfer.Answer, i: nat, dir: Dir)
    requires i < |d.files| && Truthful(lib, d) && Staged(lib, d, dir) && Transfer.HonestLibrary(lib, d, ask)
    ensures Staged(lib, d, Transfer.AfterTurn(d, ask, dir, i))
  {
    if !Transfer.IsFull(d, dir, i) {
      var have := Transfer.Have(d, dir, i);
      Transfer.NeverLonger(lib, d, dir, i);
      assert Transfer.HonestAt(lib, d, ask, i, have);
      Transfer.OneFileFetched(lib, d, dir, i, have, ask(i, have));
    }
  }

  /**
   What the run from file `i` on comes to: the directory, the counter, what was thrown away, and
   whether every file landed.
   */
  ghost predicate RunTaken(p: Place, r: Transfer.Outcome, p': Place) {
    && p'.task.plan == p.task.plan && p'.staged == Some(r.dir)
    && p'.task.counter == r.done && p'.task.discarded == r.discarded
    && (if r.ok then p'.task.phase == Looking(|p.task.plan.files|)
        else p'.task.phase.Done? && p'.task.phase.outcome.Err?)
  }

  /**
   The fetch loop, undisturbed, is a stretch of an attempt's own steps: with the
   same directory, the same counter and the same bytes thrown away at its end.
   */
  lemma {:induction false} FetchIsSteps(lib: Remote, n: nat, p: Place, cancelled: set<Token>,
                                        ask: (nat, nat) -> Transfer.Answer, i: nat, dir: Dir) returns (p': Place)
    requires AtFile(p, i, dir)
    requires Truthful(lib, p.task.plan) && Staged(lib, p.task.plan, dir)
    requires Transfer.HonestLibrary(lib, p.task.plan, ask)
    ensures Leads(lib, p, cancelled, p')
    ensures RunTaken(p, Transfer.FetchRun(p.task.plan, ask, dir, i, p.task.counter, p.task.discarded), p')
    decreases |p.task.plan.files| - i
  {
    var d := p.task.plan;
    if i == |d.files| {
      p' := p;
      LeadsNowhere(lib, p, cancelled);
    } else {
      var q := TurnIsSteps(lib, n, p, cancelled, ask, i, dir);
      if Transfer.GoesOn(d, ask, dir, i) {
        TurnStaysStaged(lib, d, ask, i, dir);
        p' := FetchIsSteps(lib, n, q, cancelled, ask, i + 1, Transfer.AfterTurn(d, ask, dir, i));
        LeadsThrough(lib, p, cancelled, q, p');
      } else {
        p' := q;
      }
    }
  }
}
