/**
 Which files of a repository's listing a download takes. A listing may name a
 path more than once; what counts then is its first mention.
 */
module Selection {
  import opened Wrappers
  import opened Ascii
  import opened Library

  datatype Refusal = NoSuchFile | NothingReadable | TooManyLevels

  const ESSENTIAL_FILES := [
    "config.json", "generation_config.json", "preprocessor_config.json", "processor_config.json",
    "tokenizer.json", "tokenizer_config.json", "special_tokens_map.json", "chat_template.json",
    "chat_template.jinja", "vocab.json", "merges.txt", "tokenizer.model"]

  predicate IsEssential(path: string) {
    path in ESSENTIAL_FILES
  }

  /** What follows the last dot: all of a path that has none. */
  function AfterLastDot(path: string): string {
    if path == [] || path[|path| - 1] == '.' then []
    else AfterLastDot(path[..|path| - 1]) + [path[|path| - 1]]
  }

  predicate HasExtension(path: string, ext: string) {
    SameIgnoringCase(AfterLastDot(path), ext)
  }

  predicate EndsWith(path: string, tail: string) {
    |tail| <= |path| && path[|path| - |tail|..] == tail
  }

  lemma {:induction false} AfterLastDotIs(path: string)
    ensures '.' !in AfterLastDot(path)
    ensures EndsWith(path, AfterLastDot(path))
    ensures var k := |path| - |AfterLastDot(path)|; k == 0 || path[k - 1] == '.'
  {
    if path != [] && path[|path| - 1] != '.' {
      var init := path[..|path| - 1];
      AfterLastDotIs(init);
      var k := |path| - |AfterLastDot(path)|;
      assert path[k..] == init[k..] + [path[|path| - 1]];
    }
  }

  /** What follows the last dot is found from either end. */
  lemma {:induction false} AfterLastDotAt(path: string, k: nat)
    requires k <= |path| && '.' !in path[k..] && (k == 0 || path[k - 1] == '.')
    ensures AfterLastDot(path) == path[k..]
  {
    if k < |path| {
      var init, last := path[..|path| - 1], path[|path| - 1];
      assert path[k..] == init[k..] + [last];
      AfterLastDotAt(init, k);
    }
  }

  /** A path that ends in `ext`, whatever its case, after a dot: or that is nothing else. */
  predicate EndsInExtension(path: string, ext: string) {
    && |ext| <= |path| && SameLetters(path[|path| - |ext|..], ext)
    && (|ext| == |path| || path[|path| - |ext| - 1] == '.')
  }

  lemma NoDotEither(a: string, b: string)
    requires SameIgnoringCase(a, b) && '.' !in b
    ensures '.' !in a
  {}

  lemma ExtensionIsASuffix(path: string, ext: string)
    requires '.' !in ext
    ensures HasExtension(path, ext) <==> EndsInExtension(path, ext)
  {
    AfterLastDotIs(path);
    SameLettersIgnoringCase(AfterLastDot(path), ext);
    if |ext| <= |path| { SameLettersIgnoringCase(path[|path| - |ext|..], ext); }
    if EndsInExtension(path, ext) {
      NoDotEither(path[|path| - |ext|..], ext);
      AfterLastDotAt(path, |path| - |ext|);
    }
  }

  // ------------------------------------------------- order, sorting, doubles

  /** Strict lexicographic order on characters. */
  predicate Before(a: string, b: string) {
    b != [] && (a == [] || a[0] < b[0] || (a[0] == b[0] && Before(a[1..], b[1..])))
  }

  /** `a` and `b` agree up to `k`, where `a` ends or has the smaller character. */
  predicate PartsFrom(a: string, b: string, k: nat) {
    k <= |a| && k < |b| && a[..k] == b[..k] && (k == |a| || a[k] < b[k])
  }

  /** The order is that of dictionaries. */
  lemma {:induction false} BeforeIs(a: string, b: string)
    ensures Before(a, b) <==> exists k: nat :: PartsFrom(a, b, k)
  {
    if Before(a, b) {
      if a == [] || a[0] < b[0] {
        assert PartsFrom(a, b, 0);
      } else {
        BeforeIs(a[1..], b[1..]);
        var k: nat :| PartsFrom(a[1..], b[1..], k);
        assert a[..k + 1] == [a[0]] + a[1..][..k] && b[..k + 1] == [b[0]] + b[1..][..k];
        assert PartsFrom(a, b, k + 1);
      }
    }
    if k: nat :| PartsFrom(a, b, k) {
      if k > 0 {
        assert a[0] == a[..k][0] == b[..k][0] == b[0];
        assert a[1..][..k - 1] == a[..k][1..] && b[1..][..k - 1] == b[..k][1..];
        assert PartsFrom(a[1..], b[1..], k - 1);
        BeforeIs(a[1..], b[1..]);
      }
    }
  }

  lemma {:induction false} BeforeTransitive(a: string, b: string, c: string)
    requires Before(a, b) && Before(b, c)
    ensures Before(a, c)
  {
    if a != [] && a[0] == b[0] && b[0] == c[0] {
      BeforeTransitive(a[1..], b[1..], c[1..]);
    }
  }

  lemma {:induction false} BeforeTotal(a: string, b: string)
    ensures Before(a, b) || a == b || Before(b, a)
    ensures !(Before(a, b) && Before(b, a)) && !Before(a, a)
  {
    if a != [] {
      BeforeTotal(a[1..], a[1..]);
      if b != [] && a[0] == b[0] {
        BeforeTotal(a[1..], b[1..]);
        assert a == [a[0]] + a[1..] && b == [b[0]] + b[1..];
      }
    }
  }

  ghost predicate StrictlySorted(files: seq<HubFile>) {
    forall i, j :: 0 <= i < j < |files| ==> Before(files[i].path, files[j].path)
  }

  predicate Sorted(files: seq<HubFile>) {
    |files| >= 2 ==> !Before(files[1].path, files[0].path) && Sorted(files[1..])
  }

  function Keep(all: seq<HubFile>, keep: string -> bool): seq<HubFile> {
    if all == [] then []
    else (if keep(all[0].path) then [all[0]] else []) + Keep(all[1..], keep)
  }

  function InsertByPath(f: HubFile, files: seq<HubFile>): seq<HubFile> {
    if files == [] || !Before(files[0].path, f.path) then [f] + files
    else [files[0]] + InsertByPath(f, files[1..])
  }

  /** A stable sort: of two files with one path, the earlier stays the earlier. */
  function SortByPath(files: seq<HubFile>): seq<HubFile> {
    if files == [] then [] else InsertByPath(files[0], SortByPath(files[1..]))
  }

  /** Of neighbours with one path, the first stays. */
  function DedupByPath(files: seq<HubFile>): seq<HubFile>
    decreases |files|
  {
    if |files| <= 1 then files
    else if files[0].path == files[1].path then DedupByPath([files[0]] + files[2..])
    else [files[0]] + DedupByPath(files[1..])
  }

  function Take(files: seq<HubFile>): seq<HubFile> {
    DedupByPath(SortByPath(files))
  }

  /** The first mention of a path. */
  function First(files: seq<HubFile>, path: string): Option<HubFile> {
    if files == [] then None
    else if files[0].path == path then Some(files[0])
    else First(files[1..], path)
  }

  lemma {:induction false} FirstIs(files: seq<HubFile>, path: string)
    ensures First(files, path).None? <==> forall f :: f in files ==> f.path != path
    ensures First(files, path).Some? ==> First(files, path).value in files && First(files, path).value.path == path
  {
    if files != [] {
      FirstIs(files[1..], path);
      assert files == [files[0]] + files[1..];
    }
  }

  /** The file at `i` is of this path, and no file before it is. */
  predicate MentionedFirst(files: seq<HubFile>, path: string, i: nat) {
    i < |files| && files[i].path == path && forall j :: 0 <= j < i ==> files[j].path != path
  }

  lemma {:induction false} FirstIsFirst(files: seq<HubFile>, path: string)
    ensures First(files, path).Some? ==>
      exists i: nat :: MentionedFirst(files, path, i) && First(files, path) == Some(files[i])
  {
    if files != [] {
      if files[0].path == path {
        assert MentionedFirst(files, path, 0);
      } else {
        FirstIsFirst(files[1..], path);
        if First(files, path).Some? {
          var i: nat :| MentionedFirst(files[1..], path, i) && First(files, path) == Some(files[1..][i]);
          assert forall j :: 1 <= j < |files| ==> files[j] == files[1..][j - 1];
          assert MentionedFirst(files, path, i + 1);
        }
      }
    }
  }

  lemma {:induction false} FirstOfKept(all: seq<HubFile>, keep: string -> bool, path: string)
    ensures First(Keep(all, keep), path) == if keep(path) then First(all, path) else None
  {
    if all != [] {
      FirstOfKept(all[1..], keep, path);
      if keep(all[0].path) {
        assert Keep(all, keep)[1..] == Keep(all[1..], keep);
      } else {
        assert Keep(all, keep) == Keep(all[1..], keep);
      }
    }
  }

  lemma {:induction false} FirstOfBoth(a: seq<HubFile>, b: seq<HubFile>, path: string)
    ensures First(a + b, path) == if First(a, path).Some? then First(a, path) else First(b, path)
  {
    if a == [] {
      assert a + b == b;
    } else {
      assert (a + b)[1..] == a[1..] + b;
      FirstOfBoth(a[1..], b, path);
    }
  }

  lemma {:induction false} InsertedByPath(f: HubFile, files: seq<HubFile>, path: string)
    ensures First(InsertByPath(f, files), path) == if f.path == path then Some(f) else First(files, path)
    ensures Sorted(files) ==> Sorted(InsertByPath(f, files))
    ensures InsertByPath(f, files) != []
    ensures InsertByPath(f, files)[0] == f || (files != [] && InsertByPath(f, files)[0] == files[0])
  {
    var r := InsertByPath(f, files);
    if files == [] || !Before(files[0].path, f.path) {
      assert r[1..] == files;
    } else {
      InsertedByPath(f, files[1..], path);
      assert r[1..] == InsertByPath(f, files[1..]) && r[0] == files[0];
      assert r[1] == f || r[1] == files[1];
      BeforeTotal(files[0].path, f.path);
    }
  }

  lemma {:induction false} SortedByPath(files: seq<HubFile>, path: string)
    ensures First(SortByPath(files), path) == First(files, path)
    ensures Sorted(SortByPath(files))
  {
    if files != [] {
      SortedByPath(files[1..], path);
      InsertedByPath(files[0], SortByPath(files[1..]), path);
    }
  }

  lemma {:induction false} DedupedByPath(files: seq<HubFile>, path: string)
    requires Sorted(files)
    ensures First(DedupByPath(files), path) == First(files, path)
    ensures StrictlySorted(DedupByPath(files))
    ensures files != [] ==> DedupByPath(files) != [] && DedupByPath(files)[0] == files[0]
    decreases |files|
  {
    if |files| >= 2 {
      if files[0].path == files[1].path {
        var shorter := [files[0]] + files[2..];
        assert shorter[1..] == files[1..][1..] == files[2..];
        DedupedByPath(shorter, path);
      } else {
        DedupedByPath(files[1..], path);
        BeforeTotal(files[0].path, files[1].path);
        var rest := DedupByPath(files[1..]);
        assert DedupByPath(files) == [files[0]] + rest;
        assert DedupByPath(files)[1..] == rest;
        forall j | 0 < j < |rest| ensures Before(files[0].path, rest[j].path) {
          BeforeTransitive(files[0].path, rest[0].path, rest[j].path);
        }
      }
    }
  }

  /** In a strictly sorted list every file is the first of its path. */
  lemma {:induction false} FirstInSorted(files: seq<HubFile>, f: HubFile)
    requires StrictlySorted(files)
    ensures f in files <==> First(files, f.path) == Some(f)
  {
    if files != [] {
      assert files == [files[0]] + files[1..];
      FirstInSorted(files[1..], f);
      if f in files[1..] { BeforeTotal(files[0].path, f.path); }
    }
  }

  /** What a plan takes of `files` is the first mention of each path, in order, once. */
  lemma Taken(files: seq<HubFile>, f: HubFile)
    ensures StrictlySorted(Take(files))
    ensures f in Take(files) <==> First(files, f.path) == Some(f)
  {
    SortedByPath(files, f.path);
    DedupedByPath(SortByPath(files), f.path);
    FirstInSorted(Take(files), f);
  }

  // ------------------------------------------------------------ what to take

  function SafeTensors(all: seq<HubFile>): seq<HubFile> {
    Keep(all, path => HasExtension(path, "safetensors"))
  }

  function Compressed(all: seq<HubFile>): seq<HubFile> {
    Keep(all, path => HasExtension(path, "gguf"))
  }

  function WeightFiles(all: seq<HubFile>): seq<HubFile> {
    Keep(all, path => HasExtension(path, "safetensors") || HasExtension(path, "gguf"))
  }

  function SelectFiles(all: seq<HubFile>, want: Option<string>): Result<seq<HubFile>, Refusal> {
    var essentials := Keep(all, IsEssential);
    match want
    case Some(path) =>
      (match First(all, path)
       case Some(chosen) => Ok(Take([chosen] + essentials))
       case None => Err(NoSuchFile))
    case None =>
      if SafeTensors(all) != [] then
        Ok(Take(SafeTensors(all) + Keep(all, path => EndsWith(path, "safetensors.index.json")) + essentials))
      else match |Compressed(all)|
        case 0 => Err(NothingReadable)
        case 1 => Ok(Take(Compressed(all) + essentials))
        case _ => Err(TooManyLevels)
  }

  /** No files and every choice: the answer is a question. */
  function FilesOrAmbiguity(all: seq<HubFile>, want: Option<string>, choices: seq<HubFile>)
    : Result<seq<HubFile>, Refusal>
  {
    match SelectFiles(all, want)
    case Ok(files) => Ok(files)
    case Err(e) => if want.None? && |choices| > 1 then Ok([]) else Err(e)
  }

  /** The plan a description of this listing carries. */
  function Plan(all: seq<HubFile>, want: Option<string>): Result<seq<HubFile>, Refusal> {
    FilesOrAmbiguity(all, want, WeightFiles(all))
  }

  predicate Offers(all: seq<HubFile>, ext: string) {
    exists i :: 0 <= i < |all| && HasExtension(all[i].path, ext)
  }

  predicate OffersTwo(all: seq<HubFile>, ext: string) {
    exists i, j :: 0 <= i < j < |all| && HasExtension(all[i].path, ext) && HasExtension(all[j].path, ext)
  }

  /** The paths a download of this listing is about. */
  predicate Wanted(all: seq<HubFile>, want: Option<string>, path: string) {
    || IsEssential(path)
    || (match want
        case Some(named) => path == named
        case None =>
          if Offers(all, "safetensors")
          then HasExtension(path, "safetensors") || EndsWith(path, "safetensors.index.json")
          else HasExtension(path, "gguf"))
  }

  /** How many files of a kind a listing offers is what was counted. */
  lemma {:induction false} Counted(all: seq<HubFile>, ext: string, keep: string -> bool)
    requires forall path :: keep(path) <==> HasExtension(path, ext)
    ensures |Keep(all, keep)| >= 1 <==> Offers(all, ext)
    ensures |Keep(all, keep)| >= 2 <==> OffersTwo(all, ext)
  {
    if all != [] {
      Counted(all[1..], ext, keep);
      assert forall i :: 0 <= i < |all[1..]| ==> all[1..][i] == all[i + 1];
      assert forall i :: 1 <= i < |all| ==> all[i] == all[1..][i - 1];
      if HasExtension(all[0].path, ext) {
        assert Offers(all, ext);
        if Offers(all[1..], ext) {
          var i :| 0 <= i < |all[1..]| && HasExtension(all[1..][i].path, ext);
          assert HasExtension(all[i + 1].path, ext);
          assert OffersTwo(all, ext);
        }
      } else {
        if Offers(all[1..], ext) {
          var i :| 0 <= i < |all[1..]| && HasExtension(all[1..][i].path, ext);
          assert HasExtension(all[i + 1].path, ext);
        }
        if OffersTwo(all[1..], ext) {
          var i, j :| 0 <= i < j < |all[1..]| && HasExtension(all[1..][i].path, ext)
                         && HasExtension(all[1..][j].path, ext);
          assert HasExtension(all[i + 1].path, ext) && HasExtension(all[j + 1].path, ext);
        }
      }
    }
  }

  /** Every list of weights a plan starts from, extended by the essentials, taken in order and once. */
  lemma TakenWithEssentials(all: seq<HubFile>, weights: seq<HubFile>, ours: string -> bool, f: HubFile)
    requires First(weights, f.path) == if ours(f.path) then First(all, f.path) else None
    ensures StrictlySorted(Take(weights + Keep(all, IsEssential)))
    ensures f in Take(weights + Keep(all, IsEssential)) <==>
      (ours(f.path) || IsEssential(f.path)) && First(all, f.path) == Some(f)
  {
    var files := weights + Keep(all, IsEssential);
    Taken(files, f);
    FirstOfBoth(weights, Keep(all, IsEssential), f.path);
    FirstOfKept(all, IsEssential, f.path);
  }

  /** What a plan that is not a question holds, in any order of the listing. */
  ghost predicate IsPlan(all: seq<HubFile>, want: Option<string>, files: seq<HubFile>) {
    && StrictlySorted(files)
    && forall f :: f in files <==> Wanted(all, want, f.path) && First(all, f.path) == Some(f)
  }

  lemma NamedIsPlan(all: seq<HubFile>, named: string)
    requires First(all, named).Some?
    ensures IsPlan(all, Some(named), Take([First(all, named).value] + Keep(all, IsEssential)))
  {
    FirstIs(all, named);
    var weights := [First(all, named).value];
    forall f: HubFile
      ensures StrictlySorted(Take(weights + Keep(all, IsEssential)))
      ensures f in Take(weights + Keep(all, IsEssential)) <==>
        Wanted(all, Some(named), f.path) && First(all, f.path) == Some(f)
    {
      assert First(weights[1..], f.path) == None;
      TakenWithEssentials(all, weights, path => path == named, f);
    }
  }

  lemma SafeTensorsArePlan(all: seq<HubFile>)
    requires Offers(all, "safetensors")
    ensures IsPlan(all, None, Take(SafeTensors(all) + Keep(all, path => EndsWith(path, "safetensors.index.json"))
                                   + Keep(all, IsEssential)))
  {
    var index := (path: string) => EndsWith(path, "safetensors.index.json");
    var weights := SafeTensors(all) + Keep(all, index);
    forall f: HubFile
      ensures StrictlySorted(Take(weights + Keep(all, IsEssential)))
      ensures f in Take(weights + Keep(all, IsEssential)) <==>
        Wanted(all, None, f.path) && First(all, f.path) == Some(f)
    {
      FirstOfBoth(SafeTensors(all), Keep(all, index), f.path);
      FirstOfKept(all, path => HasExtension(path, "safetensors"), f.path);
      FirstOfKept(all, index, f.path);
      TakenWithEssentials(
        all, weights, path => HasExtension(path, "safetensors") || EndsWith(path, "safetensors.index.json"), f);
    }
  }

  lemma CompressedIsPlan(all: seq<HubFile>)
    requires !Offers(all, "safetensors")
    ensures IsPlan(all, None, Take(Compressed(all) + Keep(all, IsEssential)))
  {
    forall f: HubFile
      ensures StrictlySorted(Take(Compressed(all) + Keep(all, IsEssential)))
      ensures f in Take(Compressed(all) + Keep(all, IsEssential)) <==>
        Wanted(all, None, f.path) && First(all, f.path) == Some(f)
    {
      FirstOfKept(all, path => HasExtension(path, "gguf"), f.path);
      TakenWithEssentials(all, Compressed(all), path => HasExtension(path, "gguf"), f);
    }
  }

  /** With no safetensors to offer, the choices are the compressed files. */
  lemma {:induction false} ChoicesAreCompressed(all: seq<HubFile>)
    requires !Offers(all, "safetensors")
    ensures WeightFiles(all) == Compressed(all)
  {
    if all != [] {
      assert !HasExtension(all[0].path, "safetensors");
      assert forall i :: 0 <= i < |all[1..]| ==> all[1..][i] == all[i + 1];
      ChoicesAreCompressed(all[1..]);
    }
  }

  lemma NotEmpty(all: seq<HubFile>, want: Option<string>, files: seq<HubFile>, path: string)
    requires IsPlan(all, want, files) && Wanted(all, want, path) && exists f :: f in all && f.path == path
    ensures files != []
  {
    FirstIs(all, path);
    assert First(all, path).value in files;
  }

  /** The plan there is, in each of the three cases in which there is one. */
  ghost predicate GoodPlan(all: seq<HubFile>, want: Option<string>) {
    Plan(all, want).Ok? && Plan(all, want).value != [] && IsPlan(all, want, Plan(all, want).value)
  }

  lemma NamedPlan(all: seq<HubFile>, named: string)
    requires First(all, named).Some?
    ensures GoodPlan(all, Some(named))
  {
    NamedIsPlan(all, named);
    FirstIs(all, named);
    NotEmpty(all, Some(named), Plan(all, Some(named)).value, named);
  }

  lemma SafeTensorsPlan(all: seq<HubFile>)
    requires Offers(all, "safetensors") && SafeTensors(all) != []
    ensures GoodPlan(all, None)
  {
    SafeTensorsArePlan(all);
    var i :| 0 <= i < |all| && HasExtension(all[i].path, "safetensors");
    NotEmpty(all, None, Plan(all, None).value, all[i].path);
  }

  lemma CompressedPlan(all: seq<HubFile>)
    requires !Offers(all, "safetensors") && SafeTensors(all) == [] && Offers(all, "gguf") && |Compressed(all)| == 1
    ensures GoodPlan(all, None)
  {
    CompressedIsPlan(all);
    var i :| 0 <= i < |all| && HasExtension(all[i].path, "gguf");
    NotEmpty(all, None, Plan(all, None).value, all[i].path);
  }

  lemma ChoicesIfNone(all: seq<HubFile>)
    ensures !Offers(all, "safetensors") ==> WeightFiles(all) == Compressed(all)
  {
    if !Offers(all, "safetensors") { ChoicesAreCompressed(all); }
  }

  /**
   A plan is exact. It is a question exactly when nothing was named, there are
   no safetensors and there are two compressed files to choose between; it is
   refused exactly when the named file is not there, or nothing was named and
   nothing is readable; and otherwise it is the first mention of every path
   wanted, in order and once.
   */
  lemma PlanIsExact(all: seq<HubFile>, want: Option<string>)
    ensures
      var question := want.None? && !Offers(all, "safetensors") && OffersTwo(all, "gguf");
      var refused := if want.Some? then First(all, want.value).None?
                     else !Offers(all, "safetensors") && !Offers(all, "gguf");
      && (Plan(all, want).Err? <==> refused)
      && (refused ==> Plan(all, want) == Err(if want.Some? then NoSuchFile else NothingReadable))
      && (question ==> Plan(all, want) == Ok([]))
      && (!question && !refused ==> GoodPlan(all, want))
  {
    Counted(all, "safetensors", path => HasExtension(path, "safetensors"));
    Counted(all, "gguf", path => HasExtension(path, "gguf"));
    match want
    case Some(named) =>
      if First(all, named).Some? { NamedPlan(all, named); }
    case None =>
      ChoicesIfNone(all);
      if Offers(all, "safetensors") {
        SafeTensorsPlan(all);
      } else if Offers(all, "gguf") && !OffersTwo(all, "gguf") {
        CompressedPlan(all);
      }
  }

  /** Being strictly sorted and having the same files leaves no choice: a plan is a function of what is wanted. */
  lemma {:induction false} PlanIsUnique(a: seq<HubFile>, b: seq<HubFile>)
    requires StrictlySorted(a) && StrictlySorted(b)
    requires forall f :: f in a <==> f in b
    ensures a == b
  {
    assert b != [] ==> b[0] in a;
    if a != [] {
      assert a[0] in b;
      assert b[0] in a;
      var i :| 0 <= i < |a| && a[i] == b[0];
      var j :| 0 <= j < |b| && b[j] == a[0];
      BeforeTotal(a[0].path, b[0].path);
      assert a[0] == b[0];
      forall f: HubFile ensures f in a[1..] <==> f in b[1..] {
        assert f in a <==> f == a[0] || f in a[1..];
        assert f in b <==> f == b[0] || f in b[1..];
        BeforeTotal(f.path, f.path);
      }
      PlanIsUnique(a[1..], b[1..]);
      assert a == [a[0]] + a[1..] && b == [b[0]] + b[1..];
    }
  }

  /** No plan names a path twice: so no two files of a download share a place on the disk. */
  lemma PlanIsDistinct(all: seq<HubFile>, want: Option<string>)
    requires Plan(all, want).Ok?
    ensures DistinctPaths(Plan(all, want).value)
  {
    PlanIsExact(all, want);
    var files := Plan(all, want).value;
    forall i, j | 0 <= i < j < |files| ensures files[i].path != files[j].path {
      BeforeTotal(files[i].path, files[j].path);
      assert StrictlySorted(files);
    }
  }

  /**
   What `describe` answers about a truthful listing is what the pipeline asks of a download: unless it
   is a question.
   */
  lemma PlansAreTruthful(lib: Remote, all: seq<HubFile>, want: Option<string>, d: HubRepo)
    requires forall f :: f in all ==> SourceOf(d, f.path) in lib && |lib[SourceOf(d, f.path)]| == f.size
    requires Plan(all, want) == Ok(d.files) && d.sizeBytes == SumSizes(d.files, |d.files|)
    ensures Truthful(lib, d) <==> d.files != []
  {
    PlanIsExact(all, want);
    PlanIsDistinct(all, want);
    forall i | 0 <= i < |d.files| ensures d.files[i] in all {
      assert d.files[i] in d.files;
      FirstIs(all, d.files[i].path);
    }
  }
}
