/**
 What `models/` holds, and what a boot would read out of it. Each directory may
 hold weights, an entry (`model.json`) and a temporary entry (`model.writing`);
 a file written by a process killed in the middle of the write is torn.
 */
module Models {
  import opened Wrappers
  import opened Library

  type Uid = string

  datatype Facts = Facts(architecture: Option<string>, contextLength: Option<nat>, license: Option<string>,
                         files: nat, sizeBytes: nat)

  datatype ModelEntry = ModelEntry(
    uid: Uid, repo: string, revision: string, name: string, handle: string,
    facts: Facts, settings: map<string, string>, resident: bool, addedAt: int)

  /** The content of an entry file: half of it, or all of it. */
  datatype Text = Torn | Whole(entry: ModelEntry)

  datatype ModelDir = ModelDir(weights: Option<Dir>, entry: Option<Text>, temp: Option<Text>)

  type Shelf = map<Uid, ModelDir>

  predicate Readable(dir: ModelDir) {
    dir.entry.Some? && dir.entry.value.Whole?
  }

  /** A `model.json` that parses describes the model whose directory it is in. Others may not parse at all. */
  ghost predicate Filed(shelf: Shelf) {
    forall u :: u in shelf && Readable(shelf[u]) ==> shelf[u].entry.value.entry.uid == u
  }

  /** Every `model.json` there is parses. */
  ghost predicate AllParse(shelf: Shelf) {
    forall u :: u in shelf && shelf[u].entry.Some? ==> Readable(shelf[u])
  }

  /** The catalogue a boot finds: one entry for every directory whose `model.json` parses. */
  function Reopen(shelf: Shelf): map<Uid, ModelEntry> {
    map u | u in shelf && Readable(shelf[u]) :: shelf[u].entry.value.entry
  }

  // The single file-system steps the catalogue is built from.

  function EnsureDir(shelf: Shelf, u: Uid): Shelf {
    if u in shelf then shelf else shelf[u := ModelDir(None, None, None)]
  }

  function SetTemp(shelf: Shelf, u: Uid, text: Text): Shelf
    requires u in shelf
  {
    shelf[u := shelf[u].(temp := Some(text))]
  }

  /** `rename(model.writing, model.json)`. */
  function CommitTemp(shelf: Shelf, u: Uid): Shelf
    requires u in shelf && shelf[u].temp.Some?
  {
    shelf[u := shelf[u].(entry := shelf[u].temp, temp := None)]
  }

  function DeleteTree(shelf: Shelf, u: Uid): Shelf {
    shelf - {u}
  }

  /** No step changes the weights of any directory it leaves standing. */
  ghost predicate SameWeights(shelf: Shelf, shelf': Shelf) {
    forall u :: u in shelf && u in shelf' ==> shelf'[u].weights == shelf[u].weights
  }

  /** A directory or a temporary file is invisible to a boot; only the rename and the removal are seen. */
  lemma StepsSeenByABoot(shelf: Shelf, u: Uid)
    requires Filed(shelf)
    ensures Filed(EnsureDir(shelf, u)) && Reopen(EnsureDir(shelf, u)) == Reopen(shelf)
    ensures Filed(DeleteTree(shelf, u)) && Reopen(DeleteTree(shelf, u)) == Reopen(shelf) - {u}
    ensures u in shelf ==> forall text ::
      Filed(SetTemp(shelf, u, text)) && Reopen(SetTemp(shelf, u, text)) == Reopen(shelf)
    ensures u in shelf && shelf[u].temp.Some? && shelf[u].temp.value.Whole? && shelf[u].temp.value.entry.uid == u ==>
              && Filed(CommitTemp(shelf, u))
              && Reopen(CommitTemp(shelf, u)) == Reopen(shelf)[u := shelf[u].temp.value.entry]
  {
    assert Reopen(EnsureDir(shelf, u)) == Reopen(shelf);
    assert Reopen(DeleteTree(shelf, u)) == Reopen(shelf) - {u};
    if u in shelf {
      forall text ensures Filed(SetTemp(shelf, u, text)) && Reopen(SetTemp(shelf, u, text)) == Reopen(shelf) {
        assert Reopen(SetTemp(shelf, u, text)) == Reopen(shelf);
      }
      if shelf[u].temp.Some? && shelf[u].temp.value.Whole? && shelf[u].temp.value.entry.uid == u {
        assert Reopen(CommitTemp(shelf, u)) == Reopen(shelf)[u := shelf[u].temp.value.entry];
      }
    }
  }
}
