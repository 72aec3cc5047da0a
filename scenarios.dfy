/**
 * Concrete scenarios for the classifier and the entry-point resolution: small file sets
 * and what the model derives from them.
 */
module Scenarios {
  import opened Wrappers
  import opened Strings
  import opened Rules
  import opened Detector
  import opened Context

  /** A file at the top level or below, with its size. */
  function File(path: string, filename: string, ext: string): FileRecord {
    FileRecord(path, filename, ext, 100)
  }

  /** A Rust manifest beside a Node one and a Django one still makes a Rust project. */
  lemma RustBeatsNodeAndDjango()
    ensures var files := [File("Cargo.toml", "Cargo.toml", ".toml"), File("package.json", "package.json", ".json"),
                          File("manage.py", "manage.py", ".py")];
      DetectLanguage(files).projectType == "Rust project"
  {
    var files := [File("Cargo.toml", "Cargo.toml", ".toml"), File("package.json", "package.json", ".json"),
                  File("manage.py", "manage.py", ".py")];
    assert files[0].filename == "Cargo.toml";
    CargoTomlWins(files);
  }

  /** {Cargo.toml, src/main.rs}: a Rust project whose entry point resolves to src/main.rs. */
  lemma RustScenario()
    ensures var files := [File("Cargo.toml", "Cargo.toml", ".toml"), File("src/main.rs", "main.rs", ".rs")];
      && DetectLanguage(files).projectType == "Rust project"
      && ResolveEntry(files, DetectLanguage(files).entryPoints) == Some(files[1])
  {
    var files := [File("Cargo.toml", "Cargo.toml", ".toml"), File("src/main.rs", "main.rs", ".rs")];
    assert files[0].filename == "Cargo.toml";
    CargoTomlWins(files);
    assert !MatchesEntry(files[0], "src/main.rs");
    assert MatchesEntry(files[1], "src/main.rs");
  }

  /** {manage.py, app/models.py}: a Django application whose first candidate is manage.py itself. */
  lemma DjangoScenario()
    ensures var files := [File("manage.py", "manage.py", ".py"), File("app/models.py", "models.py", ".py")];
      && DetectLanguage(files).projectType == "Django application"
      && ResolveEntry(files, DetectLanguage(files).entryPoints) == Some(files[0])
  {
    var files := [File("manage.py", "manage.py", ".py"), File("app/models.py", "models.py", ".py")];
    assert !HasFilename(files, "Cargo.toml") by {
      assert files[0].filename != "Cargo.toml" && files[1].filename != "Cargo.toml";
    }
    assert Contains(files[0].path, "manage.py") by {
      assert StartsWith(files[0].path, "manage.py");
    }
    ManagePyMakesDjango(files);
    assert EndsWith(files[0].path, "manage.py");
    var c := DetectLanguage(files);
    assert c.entryPoints[0] == "manage.py";
    assert MatchesEntry(files[0], c.entryPoints[0]);
  }

  /** {notes.ipynb}: a research environment without entry points. */
  lemma NotebookScenario(f: FileRecord)
    requires f == File("notes.ipynb", "notes.ipynb", ".ipynb")
    ensures DetectLanguage([f]) == Research
  {
    NotebookEvidence(f);
    NotebooksMakeResearch([f]);
  }

  /** The lone notebook: no manifest, a notebook extension, no application signal. */
  lemma NotebookEvidence(f: FileRecord)
    requires f == File("notes.ipynb", "notes.ipynb", ".ipynb")
    ensures NoManifest([f]) && HasExtension([f], ".ipynb") && !HasClearAppEntrypoint([f])
  {
    assert 'm' !in f.path && 'a' !in f.path && 'C' !in f.path && 'g' !in f.path;
    NotebookNoManifestName(f);
    SignalFreeNotebook(f);
  }

  /** A notebook whose path lacks the letters m, a, C and g carries no application signal. */
  lemma SignalFreeNotebook(f: FileRecord)
    requires 'm' !in f.path && 'a' !in f.path && 'C' !in f.path && 'g' !in f.path
    requires f.ext == ".ipynb"
    ensures !AnyPathContains([f], "manage.py") && HasExtension([f], ".ipynb") && !HasClearAppEntrypoint([f])
  {
    NoSignalWithoutLetters(f.path);
    assert [f][0] == f;
  }

  lemma NotebookNoManifestName(f: FileRecord)
    requires f == File("notes.ipynb", "notes.ipynb", ".ipynb")
    ensures !HasFilename([f], "Cargo.toml") && !HasFilename([f], "pyproject.toml") && !HasFilename([f], "go.mod")
    ensures !HasFilename([f], "requirements.txt") && !HasFilename([f], "Pipfile") && !HasFilename([f], "setup.py")
    ensures !HasFilename([f], "package.json") && !HasFilename([f], "Gemfile")
  {
  }

  /** A path without the letters m, a, C and g names none of the application signals. */
  lemma NoSignalWithoutLetters(path: string)
    requires 'm' !in path && 'a' !in path && 'C' !in path && 'g' !in path
    ensures forall k :: k in AppSignals ==> !Contains(path, k)
  {
    NotContainedWithoutChar(path, "manage.py", 'm');
    NotContainedWithoutChar(path, "app.py", 'a');
    NotContainedWithoutChar(path, "main.py", 'm');
    NotContainedWithoutChar(path, "application.py", 'a');
    NotContainedWithoutChar(path, "package.json", 'a');
    NotContainedWithoutChar(path, "Cargo.toml", 'C');
    NotContainedWithoutChar(path, "go.mod", 'g');
  }

  /** {package.json, next.config.js, pages/index.js}: a Next.js application. */
  lemma NextJsScenario(a: FileRecord, b: FileRecord, c: FileRecord)
    requires a == File("package.json", "package.json", ".json")
    requires b == File("next.config.js", "next.config.js", ".js")
    requires c == File("pages/index.js", "index.js", ".js")
    ensures DetectLanguage([a, b, c]) == NextJs
  {
    NextJsEvidence(a, b, c);
    PackageJsonMakesNode([a, b, c]);
  }

  /** The Next.js file set: no earlier manifest, package.json, and a Next.js configuration file. */
  lemma NextJsEvidence(a: FileRecord, b: FileRecord, c: FileRecord)
    requires a == File("package.json", "package.json", ".json")
    requires b == File("next.config.js", "next.config.js", ".js")
    requires c == File("pages/index.js", "index.js", ".js")
    ensures var files := [a, b, c];
      && !HasFilename(files, "Cargo.toml") && !AnyPathContains(files, "manage.py")
      && !HasFilename(files, "pyproject.toml") && !HasFilename(files, "go.mod")
      && !HasFilename(files, "requirements.txt") && !HasFilename(files, "Pipfile") && !HasFilename(files, "setup.py")
      && HasFilename(files, "package.json") && HasFilename(files, "next.config.js")
  {
    NextJsShape(a, b, c);
    NoEarlierManifest([a, b, c]);
    assert [a, b, c][0].filename == "package.json" && [a, b, c][1].filename == "next.config.js";
  }

  lemma NextJsShape(a: FileRecord, b: FileRecord, c: FileRecord)
    requires a == File("package.json", "package.json", ".json")
    requires b == File("next.config.js", "next.config.js", ".js")
    requires c == File("pages/index.js", "index.js", ".js")
    ensures 'm' !in a.path && 'm' !in b.path && 'm' !in c.path
    ensures a.filename[..1] == "p" && b.filename[..1] == "n" && c.filename[..1] == "i"
    ensures |a.filename| == 12 && |b.filename| == 14 && |c.filename| == 8
  {
  }

  /** Paths without the letter m, and names of 8, 12 or 14 letters starting with p (12 only), n or i: none of the earlier manifests. */
  lemma NoEarlierManifest(files: seq<FileRecord>)
    requires forall i :: 0 <= i < |files| ==> 'm' !in files[i].path
    requires forall i :: 0 <= i < |files| ==>
      |files[i].filename| >= 1 && files[i].filename[..1] in {"p", "n", "i"} && |files[i].filename| in {8, 12, 14}
    requires forall i :: 0 <= i < |files| && files[i].filename[..1] == "p" ==> |files[i].filename| == 12
    ensures !AnyPathContains(files, "manage.py")
    ensures !HasFilename(files, "Cargo.toml") && !HasFilename(files, "pyproject.toml") && !HasFilename(files, "go.mod")
    ensures !HasFilename(files, "requirements.txt") && !HasFilename(files, "Pipfile") && !HasFilename(files, "setup.py")
  {
    NoManagePy(files);
    NotNamed(files, "Cargo.toml");
    NotNamed(files, "pyproject.toml");
    NotNamed(files, "go.mod");
    NotNamed(files, "requirements.txt");
    NotNamed(files, "Pipfile");
    NotNamed(files, "setup.py");
  }

  /** No file is named `name` when every name differs from it in length or first letter. */
  lemma NotNamed(files: seq<FileRecord>, name: string)
    requires name != ""
    requires forall i :: 0 <= i < |files| ==> |files[i].filename| != |name| || files[i].filename[..1] != name[..1]
    ensures !HasFilename(files, name)
  {
  }

  /** Paths without the letter m never contain manage.py. */
  lemma NoManagePy(files: seq<FileRecord>)
    requires forall i :: 0 <= i < |files| ==> 'm' !in files[i].path
    ensures !AnyPathContains(files, "manage.py")
  {
    forall i | 0 <= i < |files| ensures !Contains(files[i].path, "manage.py") {
      NotContainedWithoutChar(files[i].path, "manage.py", 'm');
    }
  }

  /** {a.md, b.md, c.txt}: no tier fires, and the fallback names .md, which occurs twice. */
  lemma FrequencyScenario(a: FileRecord, b: FileRecord, c: FileRecord)
    requires a == File("a.md", "a.md", ".md") && b == File("b.md", "b.md", ".md") && c == File("c.txt", "c.txt", ".txt")
    ensures DetectLanguage([a, b, c]) == Classification("Unknown project", "Files with .md extension", [])
  {
    FrequencyEvidence(a, b, c);
    NoNotebookMeansFallback([a, b, c]);
    FrequencyFallback(a, b, c);
  }

  /** No path holds an n, so none contains manage.py; no name has a manifest's length; no notebook. */
  lemma FrequencyEvidence(a: FileRecord, b: FileRecord, c: FileRecord)
    requires a == File("a.md", "a.md", ".md") && b == File("b.md", "b.md", ".md") && c == File("c.txt", "c.txt", ".txt")
    ensures NoManifest([a, b, c]) && !HasExtension([a, b, c], ".ipynb")
  {
    var files := [a, b, c];
    forall i | 0 <= i < |files| ensures !Contains(files[i].path, "manage.py") {
      NotContainedWithoutChar(files[i].path, "manage.py", 'n');
    }
    ShortNamesNotManifests(files);
  }

  /** Names of four or five characters are none of the manifest names. */
  lemma ShortNamesNotManifests(files: seq<FileRecord>)
    requires forall i :: 0 <= i < |files| ==> |files[i].filename| in {4, 5}
    ensures !HasFilename(files, "Cargo.toml") && !HasFilename(files, "pyproject.toml") && !HasFilename(files, "go.mod")
    ensures !HasFilename(files, "requirements.txt") && !HasFilename(files, "Pipfile") && !HasFilename(files, "setup.py")
    ensures !HasFilename(files, "package.json") && !HasFilename(files, "Gemfile")
  {
  }

  /** The frequency scan over {a.md, b.md, c.txt} settles on .md. */
  lemma FrequencyFallback(a: FileRecord, b: FileRecord, c: FileRecord)
    requires a == File("a.md", "a.md", ".md") && b == File("b.md", "b.md", ".md") && c == File("c.txt", "c.txt", ".txt")
    ensures Fallback([a, b, c]) == Classification("Unknown project", "Files with .md extension", [])
  {
    var files := [a, b, c];
    var exts := [".md", ".md", ".txt"];
    assert Extensions(files) == exts;
    assert exts[..2][..1] == [".md"];
    assert exts[..1][..0] == [];
    assert Scan([".md"]) == ScanState(map[".md" := 1], 1, Some(".md"));
    assert exts[..2] == [".md", ".md"];
    assert [".md", ".md"][..1] == [".md"];
    assert Scan([".md", ".md"]) == ScanState(map[".md" := 2], 2, Some(".md"));
    assert Scan(exts).mostCommon == Some(".md");
  }

  /** Given candidates [A, B] and files matching both, the entry point is the file matching A. */
  lemma EarlierCandidateWins(files: seq<FileRecord>, a: string, b: string, i: nat)
    requires FirstMatchingFile(files, a, i)
    ensures ResolveEntry(files, [a, b]) == Some(files[i])
  {
    assert Find(files, MatchesEntryName(a)) == Some(i);
  }

  /** A string without some character of `sub` does not contain `sub`. */
  lemma {:induction false} NotContainedWithoutChar(s: string, sub: string, c: char)
    requires c in sub && c !in s
    ensures !Contains(s, sub)
    decreases |s|
  {
    if |s| > 0 {
      assert forall j :: 0 <= j < |s[1..]| ==> s[1..][j] == s[j + 1];
      NotContainedWithoutChar(s[1..], sub, c);
    }
  }
}
