/**
 One staged file, and the chunks that land late. A call-off returns without a
 flush, so the last chunk an attempt counted may reach the file afterwards, even
 while the next attempt writes it. Which orders of that keep the file a prefix
 of its remote, over every run.
 */
module LateWrites {
  import opened Wrappers
  import opened Library

  /** What a file holds after a late write: one at an offset the file may no longer reach, the gap filled with zeros. */
  function LateWrite(content: Bytes, pos: nat, chunk: Bytes): Bytes {
    if pos <= |content| then WriteAt(content, pos, chunk)
    else content + seq(pos - |content|, _ => 0 as Byte) + chunk
  }

  /**
   A call-off returns without a flush, so its last chunk may land late. That
   leaves the file a prefix of the remote exactly when the file still reaches
   to where the chunk belongs, or the remote is zeros in between.
   */
  lemma LateLanding(remote: Bytes, content: Bytes, pos: nat, chunk: Bytes)
    requires content <= remote && chunk != []
    requires pos + |chunk| <= |remote| && chunk == remote[pos..pos + |chunk|]
    ensures LateWrite(content, pos, chunk) <= remote <==> forall i :: |content| <= i < pos ==> remote[i] == 0
  {
    var late := LateWrite(content, pos, chunk);
    if pos <= |content| {
      LateInside(remote, content, pos, chunk);
    } else {
      assert forall i :: |content| <= i < pos ==> late[i] == 0;
      assert forall i :: 0 <= i < |content| ==> late[i] == remote[i];
      assert forall i :: pos <= i < |late| ==> late[i] == chunk[i - pos] == remote[i];
    }
  }

  lemma LateInside(remote: Bytes, content: Bytes, pos: nat, chunk: Bytes)
    requires content <= remote && pos <= |content|
    requires pos + |chunk| <= |remote| && chunk == remote[pos..pos + |chunk|]
    ensures LateWrite(content, pos, chunk) <= remote
  {
    var late := LateWrite(content, pos, chunk);
    assert forall i :: 0 <= i < pos ==> late[i] == content[i];
    assert forall i :: pos <= i < pos + |chunk| ==> late[i] == chunk[i - pos];
    assert forall i :: pos + |chunk| <= i < |late| ==> late[i] == content[i];
  }

  /** `writer` is where the open handle writes next; `late` are the stretches counted and not yet landed. */
  datatype File = File(content: Option<Bytes>, writer: Option<nat>, late: set<(nat, nat)>)

  /** The file is opened to be continued or afresh, written, given up with or without a chunk under way, or removed. */
  datatype Event =
    | Continue(have: nat)
    | Afresh
    | Chunk(len: nat)
    | CallOff(len: nat)
    | GiveUp
    | Lands(pos: nat, len: nat)
    | Remove

  predicate Fits(remote: Bytes, f: File, len: nat) {
    && f.writer.Some? && f.writer.value + len <= |remote|
    && f.content.Some? && f.writer.value <= |f.content.value|
  }

  predicate Enabled(remote: Bytes, f: File, e: Event) {
    match e
    case Continue(have) => f.writer.None? && f.content.Some? && have <= |f.content.value|
    case Afresh => f.writer.None?
    case Chunk(len) => Fits(remote, f, len)
    case CallOff(len) => Fits(remote, f, len) && len > 0
    case GiveUp => f.writer.Some?
    case Lands(pos, len) => (pos, len) in f.late && f.content.Some? && pos + len <= |remote|
    case Remove => true
  }

  function Next(remote: Bytes, f: File, e: Event): File
    requires Enabled(remote, f, e)
  {
    match e
    case Continue(have) => f.(writer := Some(have))
    case Afresh => f.(content := Some([]), writer := Some(0))
    case Chunk(len) =>
      var pos := f.writer.value;
      f.(content := Some(WriteAt(f.content.value, pos, remote[pos..pos + len])), writer := Some(pos + len))
    case CallOff(len) => f.(late := f.late + {(f.writer.value, len)}, writer := None)
    case GiveUp => f.(writer := None)
    case Lands(pos, len) =>
      f.(content := Some(LateWrite(f.content.value, pos, remote[pos..pos + len])), late := f.late - {(pos, len)})
    case Remove => File(None, None, {})
  }

  predicate IsPrefix(remote: Bytes, f: File) {
    f.content.Some? ==> f.content.value <= remote
  }

  /** What is outstanding is a stretch of the remote, of a file that is there; and the handle is within the file. */
  ghost predicate Ok(remote: Bytes, f: File) {
    && (f.writer.Some? ==> f.content.Some? && f.writer.value <= |f.content.value|)
    && (forall pos, len :: (pos, len) in f.late ==> f.content.Some? && len > 0 && pos + len <= |remote|)
  }

  ghost predicate StepAt(remote: Bytes, files: seq<File>, events: seq<Event>, i: nat)
    requires |files| == |events| + 1 && i < |events|
  {
    Enabled(remote, files[i], events[i]) && files[i + 1] == Next(remote, files[i], events[i])
  }

  /** From a prefix, or nothing, with nobody writing and nothing outstanding. */
  ghost predicate IsRun(remote: Bytes, files: seq<File>, events: seq<Event>) {
    && |files| == |events| + 1
    && files[0].writer.None? && files[0].late == {} && IsPrefix(remote, files[0])
    && forall i :: 0 <= i < |events| ==> StepAt(remote, files, events, i)
  }

  lemma {:induction false} OkOnRun(remote: Bytes, files: seq<File>, events: seq<Event>, i: nat)
    requires IsRun(remote, files, events) && i < |files|
    ensures Ok(remote, files[i])
  {
    if i > 0 {
      OkOnRun(remote, files, events, i - 1);
      assert StepAt(remote, files, events, i - 1);
    }
  }

  /** A late chunk lands well if the file still reaches to it, or the remote is zeros in between. */
  predicate LandsWell(remote: Bytes, f: File, e: Event) {
    e.Lands? && f.content.Some? ==> forall i :: |f.content.value| <= i < e.pos && i < |remote| ==> remote[i] == 0
  }

  lemma PrefixStep(remote: Bytes, f: File, e: Event)
    requires Ok(remote, f) && Enabled(remote, f, e) && IsPrefix(remote, f)
    ensures IsPrefix(remote, Next(remote, f, e)) <==> LandsWell(remote, f, e)
  {
    match e
    case Chunk(len) =>
      var pos := f.writer.value;
      LateInside(remote, f.content.value, pos, remote[pos..pos + len]);
    case Lands(pos, len) => LateLanding(remote, f.content.value, pos, remote[pos..pos + len]);
    case _ =>
  }

  /** In any run the file stays a prefix of its remote if and only if every late chunk lands well. */
  lemma {:induction false} PrefixExactly(remote: Bytes, files: seq<File>, events: seq<Event>, i: nat)
    requires IsRun(remote, files, events) && i < |files|
    ensures (forall k :: 0 <= k <= i ==> IsPrefix(remote, files[k])) <==>
      (forall k :: 0 <= k < i ==> LandsWell(remote, files[k], events[k]))
  {
    if i > 0 {
      PrefixExactly(remote, files, events, i - 1);
      OkOnRun(remote, files, events, i - 1);
      assert StepAt(remote, files, events, i - 1);
      if IsPrefix(remote, files[i - 1]) { PrefixStep(remote, files[i - 1], events[i - 1]); }
    }
  }

  /** The file reaches to whatever is outstanding. */
  ghost predicate Reaches(f: File) {
    forall pos, len :: (pos, len) in f.late ==> f.content.Some? && pos <= |f.content.value|
  }

  lemma {:induction false} ReachesOnRun(remote: Bytes, files: seq<File>, events: seq<Event>, i: nat)
    requires IsRun(remote, files, events) && i < |files|
    requires forall k :: 0 <= k < i && events[k].Afresh? ==> files[k].late == {}
    ensures Reaches(files[i])
  {
    if i > 0 {
      ReachesOnRun(remote, files, events, i - 1);
      OkOnRun(remote, files, events, i - 1);
      assert StepAt(remote, files, events, i - 1);
    }
  }

  /** So it does whenever the file is opened afresh only with nothing outstanding: continuing a part does no harm. */
  lemma ContinuingIsSafe(remote: Bytes, files: seq<File>, events: seq<Event>, i: nat)
    requires IsRun(remote, files, events) && i < |files|
    requires forall k :: 0 <= k < i && events[k].Afresh? ==> files[k].late == {}
    ensures IsPrefix(remote, files[i])
  {
    forall k | 0 <= k < i ensures LandsWell(remote, files[k], events[k]) {
      ReachesOnRun(remote, files, events, k);
      assert StepAt(remote, files, events, k);
    }
    PrefixExactly(remote, files, events, i);
  }

  /**
   Otherwise not. Of any file of two bytes or more that does not begin with a
   zero: a run that ends with nobody writing and nothing outstanding, with a
   file of the right length, and the wrong bytes.
   */
  lemma LateChunkSpoils(remote: Bytes)
    requires |remote| >= 2 && remote[0] != 0
    ensures exists files: seq<File>, events: seq<Event> ::
      && IsRun(remote, files, events) && files[|events|].writer.None? && files[|events|].late == {}
      && files[|events|].content.Some? && |files[|events|].content.value| == |remote|
      && files[|events|].content.value != remote
  {
    var rest := |remote| - 1;
    var events := [Afresh, Chunk(1), CallOff(rest), Afresh, Lands(1, rest), GiveUp];
    var f0 := File(None, None, {});
    var f1 := Next(remote, f0, Afresh);
    var f2 := Next(remote, f1, Chunk(1));
    var f3 := Next(remote, f2, CallOff(rest));
    var f4 := Next(remote, f3, Afresh);
    var f5 := Next(remote, f4, Lands(1, rest));
    var f6 := Next(remote, f5, GiveUp);
    var files := [f0, f1, f2, f3, f4, f5, f6];
    forall i | 0 <= i < |events| ensures StepAt(remote, files, events, i) {}
    assert f6.content.value[0] == 0 && |f6.content.value| == |remote|;
    assert IsRun(remote, files, events) && files[|events|] == f6;
  }
}
