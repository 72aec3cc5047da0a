/**
 * The directory-tree summary of lib/context.js (`buildStructure` and `formatTree`):
 * a trie keyed by path segments, grown file by file in traversal order, and rendered
 * depth-first with every directory (and its subtree) before the files of its level,
 * two spaces of indent per level, and at most 50 file lines per directory.
 */
module Structure {
  import opened Wrappers
  import opened Strings
  import opened Rules
  import opened Detector

  /** A trie node: its sub-directories in first-insertion order, and its files in insertion order. */
  datatype Tree = Tree(dirs: seq<Dir>, files: seq<string>)
  datatype Dir = Dir(name: string, sub: Tree)

  const Empty := Tree([], [])

  /** The most file lines `formatTree` shows for one directory. */
  const MaxFilesShown := 50

  /** The position of the sub-directory called `name`, if there is one. */
  function DirIndex(dirs: seq<Dir>, name: string): (r: Option<nat>)
    ensures r.Some? ==>
      r.value < |dirs| && dirs[r.value].name == name && forall j :: 0 <= j < r.value ==> dirs[j].name != name
    ensures r.None? <==> forall j :: 0 <= j < |dirs| ==> dirs[j].name != name
  {
    Find(dirs, (d: Dir) => d.name == name)
  }

  /** Two directory lists with the same names resolve every name to the same position. */
  lemma DirIndexSameNames(a: seq<Dir>, b: seq<Dir>, name: string)
    requires |a| == |b| && forall j :: 0 <= j < |a| ==> a[j].name == b[j].name
    ensures DirIndex(a, name) == DirIndex(b, name)
  {
  }

  /** Appending a directory does not move the names already present. */
  lemma DirIndexAppend(a: seq<Dir>, d: Dir, name: string)
    ensures DirIndex(a + [d], name) ==
      if DirIndex(a, name).Some? then DirIndex(a, name)
      else if d.name == name then Some(|a|) else None
  {
    var r := DirIndex(a, name);
    var b := a + [d];
    assert forall j :: 0 <= j < |a| ==> b[j] == a[j];
    if r.None? && d.name == name {
      assert b[|a|].name == name;
    }
  }

  /**
   * Adding one file, given as its path segments: descend through the directories named by
   * all but the last segment, creating each one that is missing at the end of its parent's
   * list, and append the last segment to the files of the directory reached.
   */
  function InsertPath(t: Tree, parts: seq<string>): Tree
    requires |parts| >= 1
    decreases |parts|
  {
    if |parts| == 1 then t.(files := t.files + [parts[0]])
    else
      match DirIndex(t.dirs, parts[0])
      case Some(k) => t.(dirs := t.dirs[k := Dir(parts[0], InsertPath(t.dirs[k].sub, parts[1..]))])
      case None => t.(dirs := t.dirs + [Dir(parts[0], InsertPath(Empty, parts[1..]))])
  }

  /** The files listed in the directory reached by following the segments `d`; [] if there is none. */
  function FilesAt(t: Tree, d: seq<string>): seq<string>
    decreases |d|
  {
    if d == [] then t.files
    else
      match DirIndex(t.dirs, d[0])
      case Some(k) => FilesAt(t.dirs[k].sub, d[1..])
      case None => []
  }

  lemma {:induction false} FilesAtEmpty(d: seq<string>)
    ensures FilesAt(Empty, d) == []
  {
  }

  /** Inserting a file adds its name to the end of its own directory's files and nowhere else. */
  lemma {:induction false} InsertPathFilesAt(t: Tree, parts: seq<string>, d: seq<string>)
    requires |parts| >= 1
    ensures FilesAt(InsertPath(t, parts), d) ==
      FilesAt(t, d) + (if parts[..|parts| - 1] == d then [parts[|parts| - 1]] else [])
    decreases |parts|
  {
    var t2 := InsertPath(t, parts);
    if |parts| == 1 {
      if d != [] {
        assert t2.dirs == t.dirs;
      }
    } else if d == [] {
      assert t2.files == t.files;
    } else {
      var n := parts[0];
      var rest := parts[1..];
      assert parts[..|parts| - 1] == [n] + rest[..|rest| - 1];
      assert parts[|parts| - 1] == rest[|rest| - 1];
      assert (parts[..|parts| - 1] == d) <==> (n == d[0] && rest[..|rest| - 1] == d[1..]);
      match DirIndex(t.dirs, n)
      case Some(k) => {
        var sub2 := InsertPath(t.dirs[k].sub, rest);
        var dirs2 := t.dirs[k := Dir(n, sub2)];
        assert t2.dirs == dirs2;
        DirIndexSameNames(t.dirs, dirs2, d[0]);
        if d[0] == n {
          InsertPathFilesAt(t.dirs[k].sub, rest, d[1..]);
        }
      }
      case None => {
        var sub2 := InsertPath(Empty, rest);
        var dirs2 := t.dirs + [Dir(n, sub2)];
        assert t2.dirs == dirs2;
        DirIndexAppend(t.dirs, Dir(n, sub2), d[0]);
        if d[0] == n {
          InsertPathFilesAt(Empty, rest, d[1..]);
          FilesAtEmpty(d[1..]);
        }
      }
    }
  }

  /** The path segments of a file (the separator is fixed to '/'). */
  function Segments(path: string): (parts: seq<string>)
    ensures |parts| >= 1
  {
    Split(path, '/')
  }

  /** The trie of the given paths, inserted in order. */
  function TreeOf(paths: seq<string>): Tree
    decreases |paths|
  {
    if paths == [] then Empty
    else InsertPath(TreeOf(paths[..|paths| - 1]), Segments(paths[|paths| - 1]))
  }

  /** The names, in order, of the files among `paths` whose directory segments are `d`. */
  function FilesIn(paths: seq<string>, d: seq<string>): seq<string>
    decreases |paths|
  {
    if paths == [] then []
    else
      var parts := Segments(paths[|paths| - 1]);
      FilesIn(paths[..|paths| - 1], d) + (if parts[..|parts| - 1] == d then [parts[|parts| - 1]] else [])
  }

  /** Every directory of the trie lists exactly its own files, in traversal order. */
  lemma {:induction false} TreeOfFilesAt(paths: seq<string>, d: seq<string>)
    ensures FilesAt(TreeOf(paths), d) == FilesIn(paths, d)
    decreases |paths|
  {
    if paths == [] {
      FilesAtEmpty(d);
    } else {
      var init := paths[..|paths| - 1];
      var parts := Segments(paths[|paths| - 1]);
      assert TreeOf(paths) == InsertPath(TreeOf(init), parts);
      assert FilesIn(paths, d) == FilesIn(init, d) + (if parts[..|parts| - 1] == d then [parts[|parts| - 1]] else []);
      TreeOfFilesAt(init, d);
      InsertPathFilesAt(TreeOf(init), parts, d);
    }
  }

  /** `files.map(f => f.path)`. */
  function Paths(files: seq<FileRecord>): (ps: seq<string>)
    ensures |ps| == |files| && forall i :: 0 <= i < |files| ==> ps[i] == files[i].path
  {
    seq(|files|, i requires 0 <= i < |files| => files[i].path)
  }

  /**
   * Keys a fresh JavaScript object already answers: `_files`, where the source's trie nodes
   * keep their file lists, and the properties every object inherits from `Object.prototype`.
   */
  const ReservedKeys: seq<string> := ["_files", "constructor", "__proto__", "toString", "toLocaleString",
    "valueOf", "hasOwnProperty", "isPrototypeOf", "propertyIsEnumerable", "__defineGetter__",
    "__defineSetter__", "__lookupGetter__", "__lookupSetter__"]

  /**
   * No directory segment is one of `ReservedKeys`. For such a directory the source's
   * `if (!current[part])` test finds an existing value, so its trie does not get a plain
   * directory node there.
   */
  predicate OrdinaryDirectoryNames(files: seq<FileRecord>) {
    forall i, k :: 0 <= i < |files| && 0 <= k < |ReservedKeys| ==>
      ReservedKeys[k] !in Segments(files[i].path)[..|Segments(files[i].path)| - 1]
  }

  /** The trie-building loop of `buildStructure`. */
  method BuildTree(files: seq<FileRecord>) returns (tree: Tree)
    requires OrdinaryDirectoryNames(files)
    ensures tree == TreeOf(Paths(files))
    ensures forall d :: FilesAt(tree, d) == FilesIn(Paths(files), d)
  {
    tree := Empty;
    var i := 0;
    while i < |files|
      invariant 0 <= i <= |files|
      invariant tree == TreeOf(Paths(files)[..i])
    {
      assert Paths(files)[..i + 1][..i] == Paths(files)[..i];
      tree := InsertPath(tree, Segments(files[i].path));
      i := i + 1;
    }
    assert Paths(files)[..i] == Paths(files);
    forall d ensures FilesAt(tree, d) == FilesIn(Paths(files), d) {
      TreeOfFilesAt(Paths(files), d);
    }
  }

  // ---------------------------------------------------------------- rendering

  /** One line of the rendered tree, at a nesting depth. */
  datatype TreeLine = DirLine(depth: nat, name: string) | FileLine(depth: nat, name: string)

  /** The lines of a node rendered at `depth`: its directory blocks, then at most 50 of its files. */
  function Lines(t: Tree, depth: nat): seq<TreeLine>
    decreases t, 1
  {
    DirBlocks(t, |t.dirs|, depth) + FileLines(Take(t.files, MaxFilesShown), depth)
  }

  /** The blocks of the first `n` sub-directories: each one's line followed by its subtree one level deeper. */
  function DirBlocks(t: Tree, n: nat, depth: nat): seq<TreeLine>
    requires n <= |t.dirs|
    decreases t, 0, n
  {
    if n == 0 then []
    else DirBlocks(t, n - 1, depth) + [DirLine(depth, t.dirs[n - 1].name)] + Lines(t.dirs[n - 1].sub, depth + 1)
  }

  function FileLines(names: seq<string>, depth: nat): (ls: seq<TreeLine>)
    ensures |ls| == |names| && forall i :: 0 <= i < |names| ==> ls[i] == FileLine(depth, names[i])
  {
    seq(|names|, i requires 0 <= i < |names| => FileLine(depth, names[i]))
  }

  /** Two spaces per level of nesting. */
  function Indent(depth: nat): (s: string)
    ensures |s| == 2 * depth && forall i :: 0 <= i < |s| ==> s[i] == ' '
  {
    if depth == 0 then "" else Indent(depth - 1) + "  "
  }

  const FolderIcon := "\U{1F4C1} "
  const FileIcon := "\U{1F4C4} "

  function LineText(l: TreeLine): string {
    match l
    case DirLine(d, name) => Indent(d) + FolderIcon + name + "/\n"
    case FileLine(d, name) => Indent(d) + FileIcon + name + "\n"
  }

  /** A line at depth `d` starts with exactly `2 * d` spaces, then its icon. */
  lemma LineIndent(l: TreeLine)
    ensures var t := LineText(l);
      && |t| > 2 * l.depth
      && (forall i :: 0 <= i < 2 * l.depth ==> t[i] == ' ')
      && t[2 * l.depth] == (if l.DirLine? then FolderIcon[0] else FileIcon[0])
  {
    var icon := if l.DirLine? then FolderIcon else FileIcon;
    var t := LineText(l);
    var ind := Indent(l.depth);
    assert t[..|ind|] == ind && t[|ind|] == icon[0] by {
      if l.DirLine? {
        assert t == ind + (FolderIcon + l.name + "/\n");
      } else {
        assert t == ind + (FileIcon + l.name + "\n");
      }
    }
    assert forall i :: 0 <= i < 2 * l.depth ==> t[i] == t[..|ind|][i];
  }

  /** The text of each line. */
  function LineTexts(ls: seq<TreeLine>): (ts: seq<string>)
    ensures |ts| == |ls| && forall i :: 0 <= i < |ls| ==> ts[i] == LineText(ls[i])
  {
    seq(|ls|, i requires 0 <= i < |ls| => LineText(ls[i]))
  }

  /** The text of a sequence of lines. */
  function Text(ls: seq<TreeLine>): string {
    Concat(LineTexts(ls))
  }

  lemma TextAppend(a: seq<TreeLine>, b: seq<TreeLine>)
    ensures Text(a + b) == Text(a) + Text(b)
  {
    assert LineTexts(a + b) == LineTexts(a) + LineTexts(b);
    ConcatAppend(LineTexts(a), LineTexts(b));
  }

  lemma TextSingle(l: TreeLine)
    ensures Text([l]) == LineText(l)
  {
    assert LineTexts([l]) == [LineText(l)];
    assert [LineText(l)][..0] == [];
    assert Concat([LineText(l)]) == "" + LineText(l);
    assert "" + LineText(l) == LineText(l);
  }

  /** The rendered structure of a trie. */
  function Render(t: Tree): string {
    Text(Lines(t, 0))
  }

  /** One more directory block: its header line, then its subtree one level deeper. */
  lemma DirBlocksStep(t: Tree, i: nat, depth: nat, before: string, block: string)
    requires i < |t.dirs|
    requires before == Text(DirBlocks(t, i, depth))
    requires block == Indent(depth) + FolderIcon + t.dirs[i].name + "/\n" + Text(Lines(t.dirs[i].sub, depth + 1))
    ensures before + block == Text(DirBlocks(t, i + 1, depth))
  {
    var line := DirLine(depth, t.dirs[i].name);
    var head := DirBlocks(t, i, depth) + [line];
    var sub := Lines(t.dirs[i].sub, depth + 1);
    var header := LineText(line);
    assert block == header + Text(sub);
    calc {
      Text(DirBlocks(t, i + 1, depth));
      Text(head + sub);
      { TextAppend(head, sub); }
      Text(head) + Text(sub);
      { TextAppend(DirBlocks(t, i, depth), [line]); TextSingle(line); }
      (before + header) + Text(sub);
      { SeqAssoc(before, header, Text(sub)); }
      before + block;
    }
  }

  /** Concatenation is associative. */
  lemma SeqAssoc<T>(a: seq<T>, b: seq<T>, c: seq<T>)
    ensures (a + b) + c == a + (b + c)
  {
  }




  /** One more file line. */
  lemma FileLinesStep(shown: seq<string>, j: nat, depth: nat)
    requires j < |shown|
    ensures Text(FileLines(shown[..j + 1], depth)) ==
      Text(FileLines(shown[..j], depth)) + (Indent(depth) + FileIcon + shown[j] + "\n")
  {
    assert FileLines(shown[..j + 1], depth) == FileLines(shown[..j], depth) + [FileLine(depth, shown[j])];
    TextAppend(FileLines(shown[..j], depth), [FileLine(depth, shown[j])]);
    TextSingle(FileLine(depth, shown[j]));
  }


  /** `formatTree`, with the recursion and the two accumulating loops of the source. */
  method FormatTree(t: Tree, depth: nat) returns (output: string)
    ensures output == Text(Lines(t, depth))
    decreases t, 1
  {
    output := "";
    var i := 0;
    while i < |t.dirs|
      invariant 0 <= i <= |t.dirs|
      invariant output == Text(DirBlocks(t, i, depth))
    {
      var block := FormatDirBlock(t, i, depth);
      DirBlocksStep(t, i, depth, output, block);
      output := output + block;
      i := i + 1;
    }
    var files := FormatFiles(Take(t.files, MaxFilesShown), depth);
    TextAppend(DirBlocks(t, |t.dirs|, depth), FileLines(Take(t.files, MaxFilesShown), depth));
    output := output + files;
  }

  /** One pass of the first loop of `formatTree`: the directory's line, then its subtree one level deeper. */
  method FormatDirBlock(t: Tree, i: nat, depth: nat) returns (block: string)
    requires i < |t.dirs|
    ensures block == Indent(depth) + FolderIcon + t.dirs[i].name + "/\n" + Text(Lines(t.dirs[i].sub, depth + 1))
    decreases t, 0
  {
    var subtree := FormatTree(t.dirs[i].sub, depth + 1);
    block := Indent(depth) + FolderIcon + t.dirs[i].name + "/\n" + subtree;
  }

  /** The second loop of `formatTree`: one line per shown file name, in order. */
  method FormatFiles(shown: seq<string>, depth: nat) returns (output: string)
    ensures output == Text(FileLines(shown, depth))
  {
    output := "";
    var j := 0;
    assert FileLines(shown[..0], depth) == [];
    while j < |shown|
      invariant 0 <= j <= |shown|
      invariant output == Text(FileLines(shown[..j], depth))
    {
      var line := Indent(depth) + FileIcon + shown[j] + "\n";
      FileLinesStep(shown, j, depth);
      output := output + line;
      j := j + 1;
    }
    assert shown[..j] == shown;
  }

  /** `buildStructure`: the trie of all paths, rendered. */
  method BuildStructure(files: seq<FileRecord>) returns (structure: string)
    requires OrdinaryDirectoryNames(files)
    ensures structure == Render(TreeOf(Paths(files)))
  {
    var tree := BuildTree(files);
    structure := FormatTree(tree, 0);
  }

  // ---------------------------------------------------------------- properties of the rendering

  /** No line of a subtree rendered at `depth` is shallower than `depth`. */
  lemma {:induction false} LinesDepth(t: Tree, depth: nat)
    ensures forall i :: 0 <= i < |Lines(t, depth)| ==> Lines(t, depth)[i].depth >= depth
    decreases t, 1
  {
    DirBlocksDepth(t, |t.dirs|, depth);
  }

  lemma {:induction false} DirBlocksDepth(t: Tree, n: nat, depth: nat)
    requires n <= |t.dirs|
    ensures forall i :: 0 <= i < |DirBlocks(t, n, depth)| ==>
      DirBlocks(t, n, depth)[i].depth > depth || DirBlocks(t, n, depth)[i] == DirLine(depth, DirBlocks(t, n, depth)[i].name)
    decreases t, 0, n
  {
    if n > 0 {
      DirBlocksDepth(t, n - 1, depth);
      LinesDepth(t.dirs[n - 1].sub, depth + 1);
    }
  }

  /**
   * At every level the rendering is the directory blocks and then the file lines: the last
   * min(50, n) lines are the first min(50, n) files of the node in order, at the node's
   * own depth, and every line before them is a directory line of this level or lies deeper.
   */
  lemma DirectoriesBeforeFiles(t: Tree, depth: nat)
    ensures var ls := Lines(t, depth);
      var m := if |t.files| <= MaxFilesShown then |t.files| else MaxFilesShown;
      && m <= |ls|
      && (forall i :: 0 <= i < m ==> ls[|ls| - m + i] == FileLine(depth, t.files[i]))
      && (forall i :: 0 <= i < |ls| - m ==> ls[i].DirLine? || ls[i].depth > depth)
  {
    DirBlocksDepth(t, |t.dirs|, depth);
    BlocksThenFiles(DirBlocks(t, |t.dirs|, depth), t.files, depth);
  }

  /** Lines that are directory lines or deeper, followed by the shown files at `depth`. */
  lemma BlocksThenFiles(d: seq<TreeLine>, files: seq<string>, depth: nat)
    requires forall i :: 0 <= i < |d| ==> d[i].depth > depth || d[i] == DirLine(depth, d[i].name)
    ensures var ls := d + FileLines(Take(files, MaxFilesShown), depth);
      var m := if |files| <= MaxFilesShown then |files| else MaxFilesShown;
      && m <= |ls|
      && (forall i :: 0 <= i < m ==> ls[|ls| - m + i] == FileLine(depth, files[i]))
      && (forall i :: 0 <= i < |ls| - m ==> ls[i].DirLine? || ls[i].depth > depth)
  {
    var f := FileLines(Take(files, MaxFilesShown), depth);
    ShownFileLines(files, depth);
    LinesThenTail(d, f, depth);
  }

  /** The file lines shown at one level are the first (at most 50) files, in order. */
  lemma ShownFileLines(files: seq<string>, depth: nat)
    ensures var f := FileLines(Take(files, MaxFilesShown), depth);
      && |f| == (if |files| <= MaxFilesShown then |files| else MaxFilesShown)
      && forall i :: 0 <= i < |f| ==> f[i] == FileLine(depth, files[i])
  {
  }

  /** Appending `f` after lines that are directory lines or deeper puts `f` at the end. */
  lemma LinesThenTail(d: seq<TreeLine>, f: seq<TreeLine>, depth: nat)
    requires forall i :: 0 <= i < |d| ==> d[i].depth > depth || d[i] == DirLine(depth, d[i].name)
    ensures forall i :: 0 <= i < |f| ==> (d + f)[|d| + i] == f[i]
    ensures forall i :: 0 <= i < |d| ==> (d + f)[i].DirLine? || (d + f)[i].depth > depth
  {
  }


  /** The number of directories in a trie (all levels). */
  function DirCount(t: Tree): nat
    decreases t, 1
  {
    DirCountUpTo(t, |t.dirs|)
  }

  function DirCountUpTo(t: Tree, n: nat): nat
    requires n <= |t.dirs|
    decreases t, 0, n
  {
    if n == 0 then 0 else DirCountUpTo(t, n - 1) + 1 + DirCount(t.dirs[n - 1].sub)
  }

  /** The number of directory lines in a sequence of lines. */
  function DirLineCount(ls: seq<TreeLine>): nat
    decreases |ls|
  {
    if ls == [] then 0 else DirLineCount(ls[..|ls| - 1]) + (if ls[|ls| - 1].DirLine? then 1 else 0)
  }

  lemma {:induction false} DirLineCountAppend(a: seq<TreeLine>, b: seq<TreeLine>)
    ensures DirLineCount(a + b) == DirLineCount(a) + DirLineCount(b)
    decreases |b|
  {
    if b == [] {
      assert a + b == a;
    } else {
      var ab := a + b;
      assert ab[..|ab| - 1] == a + b[..|b| - 1];
      assert ab[|ab| - 1] == b[|b| - 1];
      DirLineCountAppend(a, b[..|b| - 1]);
    }
  }

  lemma {:induction false} FileLinesHaveNoDirLine(names: seq<string>, depth: nat)
    ensures DirLineCount(FileLines(names, depth)) == 0
    decreases |names|
  {
    if names != [] {
      assert FileLines(names, depth)[..|names| - 1] == FileLines(names[..|names| - 1], depth);
      FileLinesHaveNoDirLine(names[..|names| - 1], depth);
    }
  }

  /** Directories are never truncated: every directory of the trie has exactly one line. */
  lemma {:induction false} EveryDirectoryRendered(t: Tree, depth: nat)
    ensures DirLineCount(Lines(t, depth)) == DirCount(t)
    decreases t, 1
  {
    DirBlocksRendered(t, |t.dirs|, depth);
    DirLineCountAppend(DirBlocks(t, |t.dirs|, depth), FileLines(Take(t.files, MaxFilesShown), depth));
    FileLinesHaveNoDirLine(Take(t.files, MaxFilesShown), depth);
  }

  lemma {:induction false} DirBlocksRendered(t: Tree, n: nat, depth: nat)
    requires n <= |t.dirs|
    ensures DirLineCount(DirBlocks(t, n, depth)) == DirCountUpTo(t, n)
    decreases t, 0, n
  {
    if n > 0 {
      var d := t.dirs[n - 1];
      DirBlocksRendered(t, n - 1, depth);
      EveryDirectoryRendered(d.sub, depth + 1);
      DirLineCountAppend(DirBlocks(t, n - 1, depth), [DirLine(depth, d.name)]);
      DirLineCountAppend(DirBlocks(t, n - 1, depth) + [DirLine(depth, d.name)], Lines(d.sub, depth + 1));
      assert DirLineCount([DirLine(depth, d.name)]) == 1;
    }
  }
}
