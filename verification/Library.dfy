/**
 The model library as the node sees it: one immutable file for every
 (repository, commit, path), and the description of a download resolved to one
 commit. A staging directory is a map from path to bytes.
 */
module Library {

  newtype Byte = b: int | 0 <= b < 256
  type Bytes = seq<Byte>

  /** The name of one immutable remote file. */
  datatype Source = Source(repo: string, revision: string, path: string)
  type Remote = map<Source, Bytes>

  datatype HubFile = HubFile(path: string, size: nat)

  /** What a download is of: one commit of a repository, and its plan. */
  datatype HubRepo = HubRepo(repo: string, name: string, revision: string, files: seq<HubFile>, sizeBytes: nat)

  type Dir = map<string, Bytes>

  predicate DistinctPaths(files: seq<HubFile>) {
    forall i, j :: 0 <= i < j < |files| ==> files[i].path != files[j].path
  }

  /** The sizes of the first `k` files, added up. */
  function SumSizes(files: seq<HubFile>, k: nat): nat
    requires k <= |files|
  {
    if k == 0 then 0 else SumSizes(files, k - 1) + files[k - 1].size
  }

  function SourceOf(d: HubRepo, path: string): Source {
    Source(d.repo, d.revision, path)
  }

  /** The standing assumption about the library: what it describes is what it holds. */
  ghost predicate Truthful(lib: Remote, d: HubRepo) {
    && d.files != []
    && DistinctPaths(d.files)
    && d.sizeBytes == SumSizes(d.files, |d.files|)
    && (forall i :: 0 <= i < |d.files| ==>
          SourceOf(d, d.files[i].path) in lib && |lib[SourceOf(d, d.files[i].path)]| == d.files[i].size)
  }

  ghost predicate Described(d: HubRepo, path: string) {
    exists i :: 0 <= i < |d.files| && d.files[i].path == path
  }

  /** Every staged file is a described one, and holds the start of its remote bytes. */
  ghost predicate Staged(lib: Remote, d: HubRepo, dir: Dir) {
    forall p :: p in dir ==> Described(d, p) && SourceOf(d, p) in lib && dir[p] <= lib[SourceOf(d, p)]
  }

  /** The first `k` described files are present at the described length: all that is ever checked. */
  predicate FullLength(files: seq<HubFile>, dir: Dir, k: nat)
    requires k <= |files|
  {
    forall i :: 0 <= i < k ==> files[i].path in dir && |dir[files[i].path]| == files[i].size
  }

  /** Exactly the described files, each with exactly its remote bytes. */
  ghost predicate Complete(lib: Remote, d: HubRepo, dir: Dir) {
    && (forall p :: p in dir <==> Described(d, p))
    && (forall p :: p in dir ==> SourceOf(d, p) in lib && dir[p] == lib[SourceOf(d, p)])
  }

  /** Lengths imply bytes: a staged directory that passes the length test is the remote, byte for byte. */
  lemma LengthsImplyBytes(lib: Remote, d: HubRepo, dir: Dir)
    requires Truthful(lib, d) && Staged(lib, d, dir)
    ensures FullLength(d.files, dir, |d.files|) <==> Complete(lib, d, dir)
  {}

  function LengthOf(dir: Dir, path: string): nat {
    if path in dir then |dir[path]| else 0
  }

  /** The staged lengths of the first `k` files, added up. */
  function StagedLength(dir: Dir, files: seq<HubFile>, k: nat): nat
    requires k <= |files|
  {
    if k == 0 then 0 else StagedLength(dir, files, k - 1) + LengthOf(dir, files[k - 1].path)
  }

  /** Changing one file leaves the sum over the files before it alone. */
  lemma {:induction false} StagedLengthFrame(dir: Dir, dir': Dir, files: seq<HubFile>, k: nat)
    requires k <= |files|
    requires forall i :: 0 <= i < k ==> LengthOf(dir, files[i].path) == LengthOf(dir', files[i].path)
    ensures StagedLength(dir, files, k) == StagedLength(dir', files, k)
  {
    if k > 0 {
      StagedLengthFrame(dir, dir', files, k - 1);
    }
  }

  /** Staged files never outgrow their description, so the sums do not either. */
  lemma {:induction false} StagedLengthBound(lib: Remote, d: HubRepo, dir: Dir, k: nat)
    requires k <= |d.files| && Truthful(lib, d) && Staged(lib, d, dir)
    ensures StagedLength(dir, d.files, k) <= SumSizes(d.files, k)
    ensures FullLength(d.files, dir, k) ==> StagedLength(dir, d.files, k) == SumSizes(d.files, k)
  {
    if k > 0 {
      StagedLengthBound(lib, d, dir, k - 1);
    }
  }

  lemma {:induction false} SumSizesMonotone(files: seq<HubFile>, j: nat, k: nat)
    requires j <= k <= |files|
    ensures SumSizes(files, j) <= SumSizes(files, k)
    decreases k
  {
    if j < k {
      SumSizesMonotone(files, j, k - 1);
    }
  }

  /** What a file holds after `chunk` is written at offset `pos` of it. */
  function WriteAt(content: Bytes, pos: nat, chunk: Bytes): Bytes
    requires pos <= |content|
  {
    if pos + |chunk| <= |content|
    then content[..pos] + chunk + content[pos + |chunk|..]
    else content[..pos] + chunk
  }

  /** Writing the next stretch of the remote at the end of a prefix gives a longer prefix. */
  lemma WriteAtEndOfPrefix(remote: Bytes, content: Bytes, chunk: Bytes)
    requires content <= remote
    requires |content| + |chunk| <= |remote| && chunk == remote[|content|..|content| + |chunk|]
    ensures WriteAt(content, |content|, chunk) == remote[..|content| + |chunk|]
  {}
}
