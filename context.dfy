/**
 * The context assembler of lib/context.js (`buildContext`, `readFilePreview`): it resolves
 * the entry point, takes an excerpt of the first dependency manifest, selects up to five
 * large shallow source files, and renders the directory tree.
 * Reading a file is a parameter `read`: `None` stands for a file that cannot be read.
 */
module Context {
  import opened Wrappers
  import opened Strings
  import opened Rules
  import opened Detector
  import opened Structure

  /** The file-content lookup: the text of a file by its path, or `None` if it cannot be read. */
  type Reader = string -> Option<string>

  const Unreadable := "[Unable to read file]"

  /** `readFilePreview`: the first `lines` lines of the file, or the placeholder. */
  function ReadFilePreview(read: Reader, path: string, lines: nat): (r: string)
    ensures read(path).None? ==> r == Unreadable
    ensures read(path).Some? ==> StartsWith(read(path).value, r)
    ensures read(path).Some? && lines > 0 ==> |Split(r, '\n')| <= lines
    ensures read(path).Some? && lines > 0 ==> Split(r, '\n') == Take(Split(read(path).value, '\n'), lines)
    ensures read(path).Some? && CountChar(read(path).value, '\n') < lines ==> r == read(path).value
  {
    match read(path)
    case None => Unreadable
    case Some(content) =>
      TakeLinesSpec(content, lines);
      TakeLines(content, lines)
  }

  datatype KeyFile = KeyFile(path: string, preview: string)

  /** The context object that `buildContext` returns. */
  datatype BriefingContext = BriefingContext(
    projectType: string,
    language: string,
    entryPoint: Option<string>,
    entryContent: Option<string>,
    structure: string,
    keyFiles: seq<KeyFile>,
    dependencies: Option<string>,
    totalFiles: nat)

  const EntryPreviewLines := 50
  const DependencyPreviewLines := 30
  const KeyFilePreviewLines := 10
  const MaxKeyFiles := 5

  // ---------------------------------------------------------------- entry point

  /** `f.path === entryName || f.path.endsWith(entryName)`: a raw suffix test, not segment-aware. */
  predicate MatchesEntry(f: FileRecord, entryName: string) {
    f.path == entryName || EndsWith(f.path, entryName)
  }

  /** The test `buildContext` applies to each file for the candidate `entryName`. */
  function MatchesEntryName(entryName: string): FileRecord -> bool {
    (f: FileRecord) => MatchesEntry(f, entryName)
  }

  /** The first file (in traversal order) matching the earliest candidate that any file matches. */
  function ResolveEntry(files: seq<FileRecord>, candidates: seq<string>): Option<FileRecord>
    decreases |candidates|
  {
    if candidates == [] then None
    else
      match Find(files, MatchesEntryName(candidates[0]))
      case Some(i) => Some(files[i])
      case None => ResolveEntry(files, candidates[1..])
  }

  /** File `i` is the first file matching `name`. */
  ghost predicate FirstMatchingFile(files: seq<FileRecord>, name: string, i: int) {
    0 <= i < |files| && MatchesEntry(files[i], name) && forall j :: 0 <= j < i ==> !MatchesEntry(files[j], name)
  }

  /** No file matches `name`. */
  ghost predicate NoFileMatches(files: seq<FileRecord>, name: string) {
    forall j :: 0 <= j < |files| ==> !MatchesEntry(files[j], name)
  }

  /**
   * Entry resolution tries the candidates in order and stops at the first one that some file
   * matches; the entry point is then the first matching file. No entry point means that no
   * file matches any candidate.
   */
  lemma {:induction false} ResolveEntrySpec(files: seq<FileRecord>, candidates: seq<string>)
    ensures ResolveEntry(files, candidates).None? <==>
      forall k :: 0 <= k < |candidates| ==> NoFileMatches(files, candidates[k])
    ensures ResolveEntry(files, candidates).Some? ==>
      exists k, i :: 0 <= k < |candidates| && FirstMatchingFile(files, candidates[k], i) &&
        ResolveEntry(files, candidates).value == files[i] &&
        forall k' :: 0 <= k' < k ==> NoFileMatches(files, candidates[k'])
    decreases |candidates|
  {
    if candidates != [] {
      var found := Find(files, MatchesEntryName(candidates[0]));
      if found.Some? {
        assert FirstMatchingFile(files, candidates[0], found.value);
      } else {
        assert NoFileMatches(files, candidates[0]);
        var rest := candidates[1..];
        ResolveEntrySpec(files, rest);
        assert forall k :: 1 <= k < |candidates| ==> candidates[k] == rest[k - 1];
        if ResolveEntry(files, rest).Some? {
          var k, i :| 0 <= k < |rest| && FirstMatchingFile(files, rest[k], i) &&
            ResolveEntry(files, rest).value == files[i] &&
            forall k' :: 0 <= k' < k ==> NoFileMatches(files, rest[k']);
          assert FirstMatchingFile(files, candidates[k + 1], i);
        }
      }
    }
  }

  // ---------------------------------------------------------------- dependency manifest

  const ManifestNames: seq<string> :=
    ["package.json", "requirements.txt", "Cargo.toml", "go.mod", "Gemfile", "setup.py", "pyproject.toml"]

  /** The first file, in traversal order, whose name is one of the manifest names. */
  function FirstManifest(files: seq<FileRecord>): (r: Option<nat>)
    ensures r.Some? ==>
      && r.value < |files|
      && files[r.value].filename in ManifestNames
      && forall j :: 0 <= j < r.value ==> files[j].filename !in ManifestNames
    ensures r.None? <==> forall j :: 0 <= j < |files| ==> files[j].filename !in ManifestNames
  {
    Find(files, (f: FileRecord) => f.filename in ManifestNames)
  }

  // ---------------------------------------------------------------- key files

  const SourceExtensions: seq<string> := [".js", ".py", ".ts", ".tsx", ".jsx", ".go", ".rs"]

  /** At most two path segments, and a source-code extension. */
  predicate IsKeyCandidate(f: FileRecord) {
    |Segments(f.path)| <= 2 && f.ext in SourceExtensions
  }

  /** `files.filter(...)`: the key-file candidates, in traversal order. */
  function KeyCandidates(files: seq<FileRecord>): (r: seq<FileRecord>)
    ensures forall i :: 0 <= i < |r| ==> IsKeyCandidate(r[i])
    ensures multiset(r) <= multiset(files)
    ensures forall f :: f in files && IsKeyCandidate(f) ==> f in r
  {
    FilterMultiset(files, IsKeyCandidate);
    Filter(files, IsKeyCandidate)
  }

  /**
   * The candidates keep traversal order and multiplicity: candidate `i` is the file at
   * position `pos[i]`, the positions increase, and every candidate position is among them.
   */
  lemma KeyCandidatesInOrder(files: seq<FileRecord>)
    ensures var pos := FilterPositions(files, IsKeyCandidate);
      && |pos| == |KeyCandidates(files)|
      && (forall i :: 0 <= i < |pos| ==> pos[i] < |files| && files[pos[i]] == KeyCandidates(files)[i])
      && (forall i, j :: 0 <= i < j < |pos| ==> pos[i] < pos[j])
      && (forall k :: 0 <= k < |files| && IsKeyCandidate(files[k]) ==> k in pos)
  {
    FilterPositionsSpec(files, IsKeyCandidate);
  }

  /** Sizes never increase along the sequence. */
  ghost predicate SortedBySizeDesc(s: seq<FileRecord>) {
    forall i, j :: 0 <= i < j < |s| ==> s[i].size >= s[j].size
  }

  /** Insert `x` into a size-descending sequence after every element at least as large. */
  function InsertBySize(x: FileRecord, s: seq<FileRecord>): seq<FileRecord>
    decreases |s|
  {
    if s == [] then [x]
    else if s[0].size >= x.size then [s[0]] + InsertBySize(x, s[1..])
    else [x] + s
  }

  /** `sort((a, b) => b.size - a.size)`: a stable sort by size, largest first (insertion sort). */
  function SortBySizeDesc(s: seq<FileRecord>): seq<FileRecord>
    decreases |s|
  {
    if s == [] then []
    else InsertBySize(s[|s| - 1], SortBySizeDesc(s[..|s| - 1]))
  }

  /** The elements of `s` of size `n`, in order. */
  function OfSize(s: seq<FileRecord>, n: nat): seq<FileRecord>
    decreases |s|
  {
    if s == [] then []
    else OfSize(s[..|s| - 1], n) + (if s[|s| - 1].size == n then [s[|s| - 1]] else [])
  }

  lemma {:induction false} OfSizeAppend(a: seq<FileRecord>, b: seq<FileRecord>, n: nat)
    ensures OfSize(a + b, n) == OfSize(a, n) + OfSize(b, n)
    decreases |b|
  {
    if b == [] {
      assert a + b == a;
    } else {
      var ab := a + b;
      assert ab[..|ab| - 1] == a + b[..|b| - 1];
      assert ab[|ab| - 1] == b[|b| - 1];
      OfSizeAppend(a, b[..|b| - 1], n);
    }
  }

  lemma OfSizeSingle(x: FileRecord, n: nat)
    ensures OfSize([x], n) == if x.size == n then [x] else []
  {
    assert [x][..0] == [];
  }

  /** In a size-descending sequence whose head is smaller than `n`, nothing has size `n`. */
  lemma {:induction false} OfSizeSmaller(s: seq<FileRecord>, n: nat)
    requires SortedBySizeDesc(s)
    requires s != [] ==> s[0].size < n
    ensures OfSize(s, n) == []
    decreases |s|
  {
    if s != [] {
      OfSizeSmaller(s[..|s| - 1], n);
    }
  }

  lemma {:induction false} InsertBySizePerm(x: FileRecord, s: seq<FileRecord>)
    ensures multiset(InsertBySize(x, s)) == multiset(s) + multiset{x}
    decreases |s|
  {
    if s != [] && s[0].size >= x.size {
      InsertBySizePerm(x, s[1..]);
      assert s == [s[0]] + s[1..];
    }
  }

  lemma {:induction false} InsertBySizeSorted(x: FileRecord, s: seq<FileRecord>)
    requires SortedBySizeDesc(s)
    ensures SortedBySizeDesc(InsertBySize(x, s))
    decreases |s|
  {
    if s != [] && s[0].size >= x.size {
      var t := s[1..];
      InsertBySizeSorted(x, t);
      InsertBySizePerm(x, t);
      var rt := InsertBySize(x, t);
      var r := [s[0]] + rt;
      forall j | 0 <= j < |rt| ensures s[0].size >= rt[j].size {
        assert rt[j] in multiset(rt);
        assert rt[j] == x || rt[j] in t;
      }
      assert SortedBySizeDesc(r);
    }
  }

  lemma {:induction false} InsertBySizeStable(x: FileRecord, s: seq<FileRecord>, n: nat)
    requires SortedBySizeDesc(s)
    ensures OfSize(InsertBySize(x, s), n) == OfSize(s, n) + OfSize([x], n)
    decreases |s|
  {
    if s == [] {
    } else if s[0].size >= x.size {
      InsertBySizeStable(x, s[1..], n);
      InsertBySizeStablePast(x, s, n);
    } else {
      InsertBySizeStableFront(x, s, n);
    }
  }

  /** One step of `InsertBySizeStable` where `x` moves past the head. */
  lemma InsertBySizeStablePast(x: FileRecord, s: seq<FileRecord>, n: nat)
    requires s != [] && s[0].size >= x.size
    requires OfSize(InsertBySize(x, s[1..]), n) == OfSize(s[1..], n) + OfSize([x], n)
    ensures OfSize(InsertBySize(x, s), n) == OfSize(s, n) + OfSize([x], n)
  {
    var t := s[1..];
    calc {
      OfSize(InsertBySize(x, s), n);
      OfSize([s[0]] + InsertBySize(x, t), n);
      { OfSizeAppend([s[0]], InsertBySize(x, t), n); }
      OfSize([s[0]], n) + OfSize(InsertBySize(x, t), n);
      OfSize([s[0]], n) + (OfSize(t, n) + OfSize([x], n));
      { OfSizeAppend([s[0]], t, n); assert s == [s[0]] + t; }
      OfSize(s, n) + OfSize([x], n);
    }
  }

  /** The step of `InsertBySizeStable` where `x` is placed in front of a smaller head. */
  lemma InsertBySizeStableFront(x: FileRecord, s: seq<FileRecord>, n: nat)
    requires SortedBySizeDesc(s) && s != [] && s[0].size < x.size
    ensures OfSize(InsertBySize(x, s), n) == OfSize(s, n) + OfSize([x], n)
  {
    calc {
      OfSize(InsertBySize(x, s), n);
      OfSize([x] + s, n);
      { OfSizeAppend([x], s, n); }
      OfSize([x], n) + OfSize(s, n);
      { OfSizeSingle(x, n); if x.size == n { OfSizeSmaller(s, n); } }
      OfSize(s, n) + OfSize([x], n);
    }
  }



  /**
   * The sort yields a size-descending permutation of its input that keeps, for every size,
   * the files of that size in their original order (it is stable).
   */
  lemma SortBySizeDescSpec(s: seq<FileRecord>)
    ensures SortedBySizeDesc(SortBySizeDesc(s))
    ensures multiset(SortBySizeDesc(s)) == multiset(s)
    ensures forall n: nat :: OfSize(SortBySizeDesc(s), n) == OfSize(s, n)
  {
    SortBySizeDescSorted(s);
    SortBySizeDescPerm(s);
    forall n: nat ensures OfSize(SortBySizeDesc(s), n) == OfSize(s, n) {
      SortBySizeDescStable(s, n);
    }
  }

  lemma {:induction false} SortBySizeDescSorted(s: seq<FileRecord>)
    ensures SortedBySizeDesc(SortBySizeDesc(s))
    decreases |s|
  {
    if s != [] {
      SortBySizeDescSorted(s[..|s| - 1]);
      InsertBySizeSorted(s[|s| - 1], SortBySizeDesc(s[..|s| - 1]));
    }
  }

  lemma {:induction false} SortBySizeDescPerm(s: seq<FileRecord>)
    ensures multiset(SortBySizeDesc(s)) == multiset(s)
    decreases |s|
  {
    if s != [] {
      var init := s[..|s| - 1];
      var last := s[|s| - 1];
      SortBySizeDescPerm(init);
      InsertBySizePerm(last, SortBySizeDesc(init));
      assert s == init + [last];
    }
  }

  lemma {:induction false} SortBySizeDescStable(s: seq<FileRecord>, n: nat)
    ensures OfSize(SortBySizeDesc(s), n) == OfSize(s, n)
    decreases |s|
  {
    if s != [] {
      var init := s[..|s| - 1];
      var last := s[|s| - 1];
      calc {
        OfSize(SortBySizeDesc(s), n);
        OfSize(InsertBySize(last, SortBySizeDesc(init)), n);
        { SortBySizeDescSorted(init); InsertBySizeStable(last, SortBySizeDesc(init), n); }
        OfSize(SortBySizeDesc(init), n) + OfSize([last], n);
        { SortBySizeDescStable(init, n); }
        OfSize(init, n) + OfSize([last], n);
        { OfSizeAppend(init, [last], n); assert s == init + [last]; }
        OfSize(s, n);
      }
    }
  }

  /** The key files `buildContext` selects: the first five of the sorted candidates. */
  function TopKeyFiles(files: seq<FileRecord>): seq<FileRecord> {
    Take(SortBySizeDesc(KeyCandidates(files)), MaxKeyFiles)
  }

  /** For every size, the files of that size in a prefix are a prefix of those in the whole. */
  lemma {:induction false} OfSizePrefix(s: seq<FileRecord>, m: nat, n: nat)
    requires m <= |s|
    ensures StartsWith(OfSize(s, n), OfSize(s[..m], n))
  {
    assert s == s[..m] + s[m..];
    OfSizeAppend(s[..m], s[m..], n);
  }

  /** There are five key files, or fewer when there are fewer candidates. */
  lemma TopKeyFilesCount(files: seq<FileRecord>)
    ensures |TopKeyFiles(files)| == Min(|KeyCandidates(files)|, MaxKeyFiles)
  {
    SortBySizeDescSpec(KeyCandidates(files));
    assert |SortBySizeDesc(KeyCandidates(files))| == |multiset(SortBySizeDesc(KeyCandidates(files)))|;
  }

  function Min(a: nat, b: nat): nat {
    if a <= b then a else b
  }

  /** Every key file is a shallow source file taken from the input, without repetition. */
  lemma TopKeyFilesAreCandidates(files: seq<FileRecord>)
    ensures multiset(TopKeyFiles(files)) <= multiset(KeyCandidates(files))
    ensures forall i :: 0 <= i < |TopKeyFiles(files)| ==> IsKeyCandidate(TopKeyFiles(files)[i])
  {
    var sorted := SortBySizeDesc(KeyCandidates(files));
    SortBySizeDescSpec(KeyCandidates(files));
    var top := TopKeyFiles(files);
    assert sorted == top + sorted[|top|..];
    forall i | 0 <= i < |top| ensures IsKeyCandidate(top[i]) {
      assert top[i] in multiset(sorted);
    }
  }

  /** The key files are listed largest first. */
  lemma TopKeyFilesSorted(files: seq<FileRecord>)
    ensures SortedBySizeDesc(TopKeyFiles(files))
  {
    SortBySizeDescSpec(KeyCandidates(files));
  }

  /** No candidate left out is larger than the smallest key file. */
  lemma TopKeyFilesLargest(files: seq<FileRecord>)
    ensures var top := TopKeyFiles(files);
      forall f :: f in multiset(KeyCandidates(files)) - multiset(top) ==>
        |top| > 0 && f.size <= top[|top| - 1].size
  {
    var cands := KeyCandidates(files);
    SortBySizeDescSpec(cands);
    var sorted := SortBySizeDesc(cands);
    TopKeyFilesCount(files);
    assert |sorted| == |cands| by {
      assert |sorted| == |multiset(sorted)|;
    }
    PrefixOfSortedLargest(sorted, |TopKeyFiles(files)|);
  }

  /** Whatever a size-descending sequence holds beyond its first `m` elements is no larger than those. */
  lemma PrefixOfSortedLargest(sorted: seq<FileRecord>, m: nat)
    requires SortedBySizeDesc(sorted)
    requires m <= |sorted|
    requires sorted != [] ==> m > 0
    ensures forall f :: f in multiset(sorted) - multiset(sorted[..m]) ==>
      m > 0 && f.size <= sorted[m - 1].size
  {
    assert sorted == sorted[..m] + sorted[m..];
    assert multiset(sorted) == multiset(sorted[..m]) + multiset(sorted[m..]);
    forall f: FileRecord | f in multiset(sorted) - multiset(sorted[..m])
      ensures m > 0 && f.size <= sorted[m - 1].size
    {
      assert f in multiset(sorted[m..]);
      var j :| m <= j < |sorted| && sorted[j] == f;
    }
  }

  /** Among files of equal size, the earlier ones in traversal order are the ones kept. */
  lemma TopKeyFilesStable(files: seq<FileRecord>, n: nat)
    ensures StartsWith(OfSize(KeyCandidates(files), n), OfSize(TopKeyFiles(files), n))
  {
    var sorted := SortBySizeDesc(KeyCandidates(files));
    SortBySizeDescSpec(KeyCandidates(files));
    OfSizePrefix(sorted, |TopKeyFiles(files)|, n);
  }

  /** The key-file records with their ten-line previews. */
  function KeyFileEntries(read: Reader, top: seq<FileRecord>): (r: seq<KeyFile>)
    ensures |r| == |top|
    ensures forall i :: 0 <= i < |top| ==>
      r[i] == KeyFile(top[i].path, ReadFilePreview(read, top[i].path, KeyFilePreviewLines))
  {
    seq(|top|, i requires 0 <= i < |top| => KeyFile(top[i].path, ReadFilePreview(read, top[i].path, KeyFilePreviewLines)))
  }

  // ---------------------------------------------------------------- buildContext

  /** The entry-point search loop of `buildContext`: candidates in order, stopping at the first hit. */
  method FindEntry(files: seq<FileRecord>, entryPoints: seq<string>) returns (entry: Option<FileRecord>)
    ensures entry == ResolveEntry(files, entryPoints)
  {
    entry := None;
    var k := 0;
    while k < |entryPoints|
      invariant 0 <= k <= |entryPoints|
      invariant ResolveEntry(files, entryPoints) == ResolveEntry(files, entryPoints[k..])
    {
      var entryName := entryPoints[k];
      var entryFile := Find(files, MatchesEntryName(entryName));
      assert entryPoints[k..][1..] == entryPoints[k + 1..];
      assert ResolveEntry(files, entryPoints[k..]) ==
        match entryFile case Some(i) => Some(files[i]) case None => ResolveEntry(files, entryPoints[k + 1..]);
      if entryFile.Some? {
        entry := Some(files[entryFile.value]);
        return;
      }
      k := k + 1;
    }
  }

  /** The manifest filter of `buildContext`; its first element is the one that is read. */
  method FindManifests(files: seq<FileRecord>) returns (configFiles: seq<nat>)
    ensures configFiles == [] <==> FirstManifest(files).None?
    ensures configFiles != [] ==> FirstManifest(files) == Some(configFiles[0])
    ensures forall j :: 0 <= j < |configFiles| ==> configFiles[j] < |files| && files[configFiles[j]].filename in ManifestNames
  {
    configFiles := [];
    var i := 0;
    while i < |files|
      invariant 0 <= i <= |files|
      invariant forall j :: 0 <= j < |configFiles| ==> configFiles[j] < |files| && files[configFiles[j]].filename in ManifestNames
      invariant configFiles == [] <==> forall j :: 0 <= j < i ==> files[j].filename !in ManifestNames
      invariant configFiles != [] ==> forall j :: 0 <= j < configFiles[0] ==> files[j].filename !in ManifestNames
    {
      if files[i].filename in ManifestNames {
        configFiles := configFiles + [i];
      }
      i := i + 1;
    }
  }

  /** The shallow-source-file filter of `buildContext`. */
  method FilterKeyCandidates(files: seq<FileRecord>) returns (rootFiles: seq<FileRecord>)
    ensures rootFiles == KeyCandidates(files)
  {
    rootFiles := [];
    var i := 0;
    while i < |files|
      invariant 0 <= i <= |files|
      invariant rootFiles == KeyCandidates(files[..i])
    {
      assert files[..i + 1][..i] == files[..i];
      if |Segments(files[i].path)| <= 2 && files[i].ext in SourceExtensions {
        rootFiles := rootFiles + [files[i]];
      }
      i := i + 1;
    }
    assert files[..i] == files;
  }

  /** The loop of `buildContext` that reads a ten-line preview of each key file. */
  method PreviewKeyFiles(topFiles: seq<FileRecord>, read: Reader) returns (keyFiles: seq<KeyFile>)
    ensures keyFiles == KeyFileEntries(read, topFiles)
  {
    keyFiles := [];
    var i := 0;
    while i < |topFiles|
      invariant 0 <= i <= |topFiles|
      invariant keyFiles == KeyFileEntries(read, topFiles[..i])
    {
      keyFiles := keyFiles + [KeyFile(topFiles[i].path, ReadFilePreview(read, topFiles[i].path, KeyFilePreviewLines))];
      i := i + 1;
    }
    assert topFiles[..i] == topFiles;
  }

  /** `buildContext(files, language)`: every field of the context from the specification functions. */
  method BuildContext(files: seq<FileRecord>, language: Classification, read: Reader) returns (context: BriefingContext)
    requires OrdinaryDirectoryNames(files)
    ensures context.projectType == language.projectType && context.language == language.language
    ensures context.structure == Render(TreeOf(Paths(files)))
    ensures context.totalFiles == |files|
    ensures match ResolveEntry(files, language.entryPoints)
      case None => context.entryPoint.None? && context.entryContent.None?
      case Some(f) =>
        context.entryPoint == Some(f.path) &&
        context.entryContent == Some(ReadFilePreview(read, f.path, EntryPreviewLines))
    ensures match FirstManifest(files)
      case None => context.dependencies.None?
      case Some(i) => context.dependencies == Some(ReadFilePreview(read, files[i].path, DependencyPreviewLines))
    ensures context.keyFiles == KeyFileEntries(read, TopKeyFiles(files))
  {
    var structure := BuildStructure(files);

    var entryPoint: Option<string> := None;
    var entryContent: Option<string> := None;
    var entryFile := FindEntry(files, language.entryPoints);
    if entryFile.Some? {
      entryPoint := Some(entryFile.value.path);
      entryContent := Some(ReadFilePreview(read, entryFile.value.path, EntryPreviewLines));
    }

    var dependencies: Option<string> := None;
    var configFiles := FindManifests(files);
    if |configFiles| > 0 {
      dependencies := Some(ReadFilePreview(read, files[configFiles[0]].path, DependencyPreviewLines));
    }

    var rootFiles := FilterKeyCandidates(files);
    var topFiles := Take(SortBySizeDesc(rootFiles), MaxKeyFiles);
    var keyFiles := PreviewKeyFiles(topFiles, read);

    context := BriefingContext(language.projectType, language.language, entryPoint, entryContent,
                               structure, keyFiles, dependencies, |files|);
  }
}
