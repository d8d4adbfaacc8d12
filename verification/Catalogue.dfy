/**
 The catalogue of models, and the disk underneath it.

 `Disk` performs one file-system step at a time, and logs the state after each:
 the last entry of the log a killed process leaves is what the next boot reads.
 Any step may fail: whether it does is the world's, and given with the call. A
 failing write may leave a torn temporary file.
 */
module Catalogue {
  import opened Wrappers
  import opened Models

  /** What the world makes of each step that writes an entry, if it is asked for it. */
  datatype Fate = Fate(made: bool, written: bool, torn: bool, renamed: bool)

  class Disk {
    var shelf: Shelf
    ghost var log: seq<Shelf>

    constructor (shelf: Shelf)
      ensures this.shelf == shelf && log == []
    {
      this.shelf, log := shelf, [];
    }

    method MakeDir(u: Uid, ok: bool)
      modifies this
      ensures shelf == if ok then EnsureDir(old(shelf), u) else old(shelf)
      ensures log == old(log) + [shelf]
    {
      if ok { shelf := EnsureDir(shelf, u); }
      log := log + [shelf];
    }

    /** Create, then fill: a kill in between leaves the temporary file torn. */
    method WriteTemp(u: Uid, e: ModelEntry, ok: bool, torn: bool)
      requires u in shelf
      modifies this
      ensures !ok ==> shelf == if torn then SetTemp(old(shelf), u, Torn) else old(shelf)
      ensures ok ==> shelf == SetTemp(SetTemp(old(shelf), u, Torn), u, Whole(e))
      ensures log == old(log) + (if ok then [SetTemp(old(shelf), u, Torn), shelf] else [shelf])
    {
      if ok {
        shelf := SetTemp(shelf, u, Torn);
        log := log + [shelf];
        shelf := SetTemp(shelf, u, Whole(e));
      } else if torn {
        shelf := SetTemp(shelf, u, Torn);
      }
      log := log + [shelf];
    }

    method RenameTemp(u: Uid, ok: bool)
      requires u in shelf && shelf[u].temp.Some?
      modifies this
      ensures shelf == if ok then CommitTemp(old(shelf), u) else old(shelf)
      ensures log == old(log) + [shelf]
    {
      if ok { shelf := CommitTemp(shelf, u); }
      log := log + [shelf];
    }

    method RemoveTree(u: Uid, ok: bool)
      modifies this
      ensures shelf == if ok then DeleteTree(old(shelf), u) else old(shelf)
      ensures log == old(log) + [shelf]
    {
      if ok { shelf := DeleteTree(shelf, u); }
      log := log + [shelf];
    }
  }

  /** A step from `shelf` to `shelf'` that no boot sees, and that loses and rewrites no weights. */
  ghost predicate Unseen(shelf: Shelf, shelf': Shelf) {
    Filed(shelf') && Reopen(shelf') == Reopen(shelf) && SameWeights(shelf, shelf') && shelf.Keys <= shelf'.Keys
  }

  /** Of the steps that write an entry, only the last is seen. */
  lemma EntrySteps(shelf: Shelf, e: ModelEntry)
    requires Filed(shelf)
    ensures
      var made := EnsureDir(shelf, e.uid);
      var torn := SetTemp(made, e.uid, Torn);
      var filled := SetTemp(torn, e.uid, Whole(e));
      var done := CommitTemp(filled, e.uid);
      && Unseen(shelf, made) && Unseen(shelf, torn) && Unseen(shelf, filled)
      && Filed(done) && Reopen(done) == Reopen(shelf)[e.uid := e]
      && SameWeights(shelf, done) && shelf.Keys <= done.Keys
  {
    var made := EnsureDir(shelf, e.uid);
    var torn := SetTemp(made, e.uid, Torn);
    StepsSeenByABoot(shelf, e.uid);
    StepsSeenByABoot(made, e.uid);
    StepsSeenByABoot(torn, e.uid);
    StepsSeenByABoot(SetTemp(torn, e.uid, Whole(e)), e.uid);
  }

  /** Where every entry is in its own directory, the list is the map of the directories. */
  lemma ListedInPlace(shelf: Shelf, entries: map<Uid, ModelEntry>)
    requires Filed(shelf)
    requires forall u :: u in shelf && Readable(shelf[u]) ==> shelf[u].entry.value.entry.uid in entries
    requires forall k :: k in entries ==>
      entries[k].uid == k && exists u :: u in shelf && shelf[u].entry == Some(Whole(entries[k]))
    ensures Reopen(shelf) == entries
  {
    forall k | k in entries ensures k in Reopen(shelf) && Reopen(shelf)[k] == entries[k] {
      var u :| u in shelf && shelf[u].entry == Some(Whole(entries[k]));
      assert Readable(shelf[u]);
    }
    forall u | u in Reopen(shelf) ensures u in entries {}
  }

  datatype Refusal = NotFound | Refused | Storage

  class Catalog {
    const disk: Disk
    var entries: map<Uid, ModelEntry>

    /** What is listed is on the disk, word for word. */
    ghost predicate Valid()
      reads this, disk
    {
      && Filed(disk.shelf)
      && (forall u :: u in entries ==> u in Reopen(disk.shelf) && Reopen(disk.shelf)[u] == entries[u])
    }

    /** Nothing on the disk is unlisted either: the catalogue is the plain map a boot would build. */
    ghost predicate Faithful()
      reads this, disk
    {
      Filed(disk.shelf) && Reopen(disk.shelf) == entries
    }

    /** Whatever step the process is killed after, a boot finds the map before or the map after. */
    twostate predicate BeforeOrAfter()
      reads this, disk
    {
      && old(disk.log) <= disk.log
      && forall i :: |old(disk.log)| <= i < |disk.log| ==>
           && Filed(disk.log[i])
           && (Reopen(disk.log[i]) == Reopen(old(disk.shelf)) || Reopen(disk.log[i]) == Reopen(disk.shelf))
    }

    /** Every entry among `dirs` that parses is listed under the uid it gives, and nothing else is. */
    ghost predicate Lists(dirs: set<Uid>)
      reads this, disk
    {
      && (forall u :: u in dirs && u in disk.shelf && Readable(disk.shelf[u]) ==>
            disk.shelf[u].entry.value.entry.uid in entries)
      && (forall k :: k in entries ==>
            entries[k].uid == k
            && exists u :: u in dirs && u in disk.shelf && disk.shelf[u].entry == Some(Whole(entries[k])))
    }

    /** Read what is on the disk: one directory at a time, passing over whatever does not parse. */
    constructor Open(disk: Disk)
      ensures this.disk == disk && Lists(disk.shelf.Keys)
      ensures Filed(disk.shelf) ==> Faithful() && Valid()
    {
      this.disk := disk;
      entries := map[];
      new;
      var left := disk.shelf.Keys;
      while left != {}
        invariant left <= disk.shelf.Keys && Lists(disk.shelf.Keys - left)
        decreases left
      {
        var u :| u in left;
        left := left - {u};
        if Readable(disk.shelf[u]) {
          var entry := disk.shelf[u].entry.value.entry;
          entries := entries[entry.uid := entry];
          assert disk.shelf[u].entry == Some(Whole(entry));
        }
      }
      if Filed(disk.shelf) { ListedInPlace(disk.shelf, entries); }
    }

    /** Put an entry on the disk by way of a temporary file: every boot reads the old entry, or the new one whole. */
    method WriteEntry(e: ModelEntry, fate: Fate) returns (ok: bool)
      requires Filed(disk.shelf)
      modifies disk
      ensures ok <==> fate.made && fate.written && fate.renamed
      ensures ok ==> e.uid in disk.shelf && disk.shelf[e.uid].entry == Some(Whole(e)) && disk.shelf[e.uid].temp.None?
      ensures Filed(disk.shelf) && SameWeights(old(disk.shelf), disk.shelf) && old(disk.shelf).Keys <= disk.shelf.Keys
      ensures Reopen(disk.shelf) == if ok then Reopen(old(disk.shelf))[e.uid := e] else Reopen(old(disk.shelf))
      ensures BeforeOrAfter()
    {
      var u := e.uid;
      EntrySteps(disk.shelf, e);
      disk.MakeDir(u, fate.made);
      if !fate.made { return false; }
      disk.WriteTemp(u, e, fate.written, fate.torn);
      if !fate.written { return false; }
      disk.RenameTemp(u, fate.renamed);
      ok := fate.renamed;
    }

    /** Listed exactly when the directory, the temporary file and the rename all succeeded. */
    method Insert(e: ModelEntry, fate: Fate) returns (r: Result<(), Refusal>)
      requires Valid()
      modifies this`entries, disk
      ensures Valid() && (old(Faithful()) ==> Faithful())
      ensures r.Ok? <==> fate.made && fate.written && fate.renamed
      ensures r.Ok? ==> entries == old(entries)[e.uid := e]
      ensures r.Err? ==> r.error == Storage && entries == old(entries) && Reopen(disk.shelf) == Reopen(old(disk.shelf))
      ensures SameWeights(old(disk.shelf), disk.shelf) && old(disk.shelf).Keys <= disk.shelf.Keys
      ensures BeforeOrAfter()
    {
      var ok := WriteEntry(e, fate);
      if !ok { return Err(Storage); }
      entries := entries[e.uid := e];
      r := Ok(());
    }

    /** Change an entry through `change`, which must not change whose entry it is. */
    method Update(uid: Uid, change: ModelEntry -> Option<ModelEntry>, fate: Fate)
      returns (r: Result<ModelEntry, Refusal>)
      requires Valid()
      requires forall e :: change(e).Some? ==> change(e).value.uid == e.uid
      modifies this`entries, disk
      ensures Valid() && (old(Faithful()) ==> Faithful())
      ensures r == Err(NotFound) <==> uid !in old(entries)
      ensures r == Err(Refused) <==> uid in old(entries) && change(old(entries)[uid]).None?
      ensures r == Err(Storage) <==>
        uid in old(entries) && change(old(entries)[uid]).Some? && !(fate.made && fate.written && fate.renamed)
      ensures r.Ok? ==> uid in old(entries) && change(old(entries)[uid]) == Some(r.value)
      ensures r.Ok? ==> entries == old(entries)[uid := r.value]
      ensures r.Err? ==> entries == old(entries) && Reopen(disk.shelf) == Reopen(old(disk.shelf))
      ensures SameWeights(old(disk.shelf), disk.shelf) && old(disk.shelf).Keys <= disk.shelf.Keys
      ensures BeforeOrAfter()
    {
      if uid !in entries { return Err(NotFound); }
      assert entries[uid].uid == uid;
      var candidate := change(entries[uid]);
      if candidate.None? { return Err(Refused); }
      var ok := WriteEntry(candidate.value, fate);
      if !ok { return Err(Storage); }
      entries := entries[uid := candidate.value];
      r := Ok(candidate.value);
    }

    /** Dropped from memory first; a directory that then fails to delete is found again by the next boot. */
    method Remove(uid: Uid, deleted: bool) returns (r: Result<ModelEntry, Refusal>)
      requires Valid()
      modifies this`entries, disk
      ensures Valid()
      ensures r.Ok? <==> uid in old(entries)
      ensures r.Ok? ==> uid in old(disk.shelf) && (uid !in disk.shelf <==> deleted)
      ensures r.Err? ==> r.error == NotFound && entries == old(entries) && disk.shelf == old(disk.shelf)
      ensures r.Ok? ==> r.value == old(entries)[uid] && entries == old(entries) - {uid}
      ensures r.Ok? && uid !in disk.shelf ==> Reopen(disk.shelf) == Reopen(old(disk.shelf)) - {uid}
      ensures r.Ok? && uid in disk.shelf ==> disk.shelf == old(disk.shelf)
      ensures r.Ok? && old(Faithful()) ==> (Faithful() <==> uid !in disk.shelf)
      ensures SameWeights(old(disk.shelf), disk.shelf)
      ensures BeforeOrAfter()
    {
      if uid !in entries { return Err(NotFound); }
      r := Ok(entries[uid]);
      entries := entries - {uid};
      StepsSeenByABoot(disk.shelf, uid);
      disk.RemoveTree(uid, deleted);
    }
  }
}
