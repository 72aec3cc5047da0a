/**
 * The local inference engine of lib/local-briefing.js: from an assembled context it derives the
 * purpose, run command, core files, safe areas, risky files, data flow and first steps, and
 * collects them in the briefing record. lib/briefing.js routes to it when no API key is set.
 */
module LocalBriefing {
  import opened Wrappers
  import opened Strings
  import opened Rules
  import opened Context

  /** A file with the reason it is listed. */
  datatype Labelled = Labelled(file: string, why: string)

  /** The record `generateLocalBriefing` assembles before layout. */
  datatype Briefing = Briefing(
    projectType: string,
    language: string,
    purpose: string,
    entryPoint: string,
    howToRun: string,
    coreFiles: seq<Labelled>,
    safeFiles: seq<string>,
    dangerousFiles: seq<Labelled>,
    dataFlow: string,
    startEditing: seq<string>)

  /** JavaScript truthiness of an optional string: present and not empty. */
  predicate Truthy(s: Option<string>) {
    s.Some? && s.value != ""
  }

  /** `context.dependencies?.toLowerCase() || ''`. */
  function Deps(ctx: BriefingContext): string {
    if ctx.dependencies.Some? then Lower(ctx.dependencies.value) else ""
  }

  /** `context.projectType.toLowerCase()`. */
  function Kind(ctx: BriefingContext): string {
    Lower(ctx.projectType)
  }

  // ---------------------------------------------------------------- purpose

  const UnclearPurpose := "Application (specific purpose unclear from structure)"
  const ExpressPurpose := "REST API server (Express detected)"
  const NextPurpose := "Web application (Next.js detected)"
  const ReactPurpose := "Frontend application (React detected)"
  const VuePurpose := "Frontend application (Vue detected)"
  const FlaskPurpose := "Web service (Flask detected)"
  const DjangoPurpose := "Web application (Django detected)"
  const FastApiPurpose := "API service (FastAPI detected)"
  const WebAppPurpose := "Web application"
  const WebServicePurpose := "Web service"
  const NotebookPurpose := "Jupyter notebooks and Python scripts"
  const RustPurpose := "Rust application"
  const NodePurpose := "Node.js application"
  const PythonPurpose := "Python application"

  /** `guessPurpose`: dependency keywords first, then the project type. */
  function GuessPurpose(ctx: BriefingContext): string {
    var deps := Deps(ctx);
    var kind := Kind(ctx);
    if Contains(deps, "express") then ExpressPurpose
    else if Contains(deps, "next") then NextPurpose
    else if Contains(deps, "react") then ReactPurpose
    else if Contains(deps, "vue") then VuePurpose
    else if Contains(deps, "flask") then FlaskPurpose
    else if Contains(deps, "django") then DjangoPurpose
    else if Contains(deps, "fastapi") then FastApiPurpose
    else if Contains(kind, "next.js") then WebAppPurpose
    else if Contains(kind, "flask") then WebServicePurpose
    else if Contains(kind, "django") then WebAppPurpose
    else if Contains(kind, "research") || Contains(kind, "analysis") then NotebookPurpose
    else if Contains(kind, "rust") then RustPurpose
    else if Contains(kind, "node") then NodePurpose
    else if Contains(kind, "python") then PythonPurpose
    else UnclearPurpose
  }

  /** The dependency keywords of `guessPurpose`, in order, as a rule table. */
  function PurposeByDependency(deps: string): seq<Rule<string>> {
    [ Rule(Contains(deps, "express"), ExpressPurpose),
      Rule(Contains(deps, "next"), NextPurpose),
      Rule(Contains(deps, "react"), ReactPurpose),
      Rule(Contains(deps, "vue"), VuePurpose),
      Rule(Contains(deps, "flask"), FlaskPurpose),
      Rule(Contains(deps, "django"), DjangoPurpose),
      Rule(Contains(deps, "fastapi"), FastApiPurpose) ]
  }

  /** The project-type fragments of `guessPurpose`, in order, as a rule table. */
  function PurposeByType(kind: string): seq<Rule<string>> {
    [ Rule(Contains(kind, "next.js"), WebAppPurpose),
      Rule(Contains(kind, "flask"), WebServicePurpose),
      Rule(Contains(kind, "django"), WebAppPurpose),
      Rule(Contains(kind, "research") || Contains(kind, "analysis"), NotebookPurpose),
      Rule(Contains(kind, "rust"), RustPurpose),
      Rule(Contains(kind, "node"), NodePurpose),
      Rule(Contains(kind, "python"), PythonPurpose) ]
  }

  /** The purpose from the project type alone, as a keyword table. */
  function PurposeFromType(ctx: BriefingContext): string {
    FirstMatch(PurposeByType(Kind(ctx)), UnclearPurpose)
  }

  /**
   * `guessPurpose` is the first match of the dependency table; only when no dependency keyword
   * occurs is the type table consulted, and its default is the "unclear" sentence.
   */
  lemma GuessPurposeIsFirstMatch(ctx: BriefingContext)
    ensures GuessPurpose(ctx) == FirstMatch(PurposeByDependency(Deps(ctx)), PurposeFromType(ctx))
  {
    var d := PurposeByDependency(Deps(ctx));
    var t := PurposeByType(Kind(ctx));
    var fallback := PurposeFromType(ctx);
    assert d[0..] == d;
    FirstMatchFrom(d, fallback, 0);
    FirstMatchFrom(d, fallback, 1);
    FirstMatchFrom(d, fallback, 2);
    FirstMatchFrom(d, fallback, 3);
    FirstMatchFrom(d, fallback, 4);
    FirstMatchFrom(d, fallback, 5);
    FirstMatchFrom(d, fallback, 6);
    FirstMatchFrom(d, fallback, 7);
    assert t[0..] == t;
    FirstMatchFrom(t, UnclearPurpose, 0);
    FirstMatchFrom(t, UnclearPurpose, 1);
    FirstMatchFrom(t, UnclearPurpose, 2);
    FirstMatchFrom(t, UnclearPurpose, 3);
    FirstMatchFrom(t, UnclearPurpose, 4);
    FirstMatchFrom(t, UnclearPurpose, 5);
    FirstMatchFrom(t, UnclearPurpose, 6);
    FirstMatchFrom(t, UnclearPurpose, 7);
  }

  /** A dependency keyword decides the purpose whatever the project type says. */
  lemma DependencyDecidesPurpose(ctx: BriefingContext, k: nat)
    requires k < |PurposeByDependency(Deps(ctx))| && PurposeByDependency(Deps(ctx))[k].fires
    requires forall j :: 0 <= j < k ==> !PurposeByDependency(Deps(ctx))[j].fires
    ensures GuessPurpose(ctx) == PurposeByDependency(Deps(ctx))[k].result
  {
    GuessPurposeIsFirstMatch(ctx);
    FirstMatchAt(PurposeByDependency(Deps(ctx)), PurposeFromType(ctx), k);
  }

  // ---------------------------------------------------------------- run command

  const UnknownRunCommand := "Check README or package.json for run command"
  const NpmDev := "npm install && npm run dev"
  const NpmDevelop := "npm install && npm run develop"
  const NpmStart := "npm install && npm start"
  const FlaskRun := "pip install -r requirements.txt && flask run"
  const DjangoRun := "pip install -r requirements.txt && python manage.py runserver"
  const UvicornRun := "pip install -r requirements.txt && uvicorn main:app"
  const JupyterRun := "Open notebooks with Jupyter (jupyter notebook)"
  const CargoRun := "cargo build && cargo run"
  const PythonRun := "pip install -r requirements.txt && python main.py"

  /** `guessRunCommand`: the first matching fragment of the lower-cased type. */
  function GuessRunCommand(ctx: BriefingContext): string {
    var kind := Kind(ctx);
    if Contains(kind, "next.js") then NpmDev
    else if Contains(kind, "vite") then NpmDev
    else if Contains(kind, "gatsby") then NpmDevelop
    else if Contains(kind, "node") then NpmStart
    else if Contains(kind, "flask") then FlaskRun
    else if Contains(kind, "django") then DjangoRun
    else if Contains(kind, "fastapi") then UvicornRun
    else if Contains(kind, "research") || Contains(kind, "analysis") then JupyterRun
    else if Contains(kind, "rust") then CargoRun
    else if Contains(kind, "python") then PythonRun
    else UnknownRunCommand
  }

  /** The rules of `guessRunCommand`, in order. */
  function RunCommands(kind: string): seq<Rule<string>> {
    [ Rule(Contains(kind, "next.js"), NpmDev),
      Rule(Contains(kind, "vite"), NpmDev),
      Rule(Contains(kind, "gatsby"), NpmDevelop),
      Rule(Contains(kind, "node"), NpmStart),
      Rule(Contains(kind, "flask"), FlaskRun),
      Rule(Contains(kind, "django"), DjangoRun),
      Rule(Contains(kind, "fastapi"), UvicornRun),
      Rule(Contains(kind, "research") || Contains(kind, "analysis"), JupyterRun),
      Rule(Contains(kind, "rust"), CargoRun),
      Rule(Contains(kind, "python"), PythonRun) ]
  }

  /** `guessRunCommand` is the first match of its keyword table over the lower-cased type. */
  lemma GuessRunCommandIsFirstMatch(ctx: BriefingContext)
    ensures GuessRunCommand(ctx) == FirstMatch(RunCommands(Kind(ctx)), UnknownRunCommand)
  {
    var t := RunCommands(Kind(ctx));
    assert t[0..] == t;
    FirstMatchFrom(t, UnknownRunCommand, 0);
    FirstMatchFrom(t, UnknownRunCommand, 1);
    FirstMatchFrom(t, UnknownRunCommand, 2);
    FirstMatchFrom(t, UnknownRunCommand, 3);
    FirstMatchFrom(t, UnknownRunCommand, 4);
    FirstMatchFrom(t, UnknownRunCommand, 5);
    FirstMatchFrom(t, UnknownRunCommand, 6);
    FirstMatchFrom(t, UnknownRunCommand, 7);
    FirstMatchFrom(t, UnknownRunCommand, 8);
    FirstMatchFrom(t, UnknownRunCommand, 9);
    FirstMatchFrom(t, UnknownRunCommand, 10);
  }

  // ---------------------------------------------------------------- data flow

  const UnknownDataFlow := "Check entry point and follow imports to understand flow"
  const PagesFlow := "Browser → pages/ → components/ → API routes → external services"
  const ServerFlow := "HTTP request → routes/ → controllers/ → services/ → database"
  const ViewsFlow := "HTTP request → routes/views → models → database"
  const ComponentFlow := "User interaction → components → state → API calls"
  const NotebookFlow := "Notebooks and scripts; run cells or execute scripts"
  const CrateFlow := "main.rs or lib.rs → modules → dependencies"

  /** `guessDataFlow`: the first matching fragment of the lower-cased type. */
  function GuessDataFlow(ctx: BriefingContext): string {
    var kind := Kind(ctx);
    if Contains(kind, "next.js") then PagesFlow
    else if Contains(kind, "express") || Contains(kind, "node") then
      ServerFlow
    else if Contains(kind, "flask") || Contains(kind, "django") then ViewsFlow
    else if Contains(kind, "react") || Contains(kind, "vue") then ComponentFlow
    else if Contains(kind, "research") || Contains(kind, "analysis") then NotebookFlow
    else if Contains(kind, "rust") then CrateFlow
    else UnknownDataFlow
  }

  /** The rules of `guessDataFlow`, in order. */
  function DataFlows(kind: string): seq<Rule<string>> {
    [ Rule(Contains(kind, "next.js"), PagesFlow),
      Rule(Contains(kind, "express") || Contains(kind, "node"), ServerFlow),
      Rule(Contains(kind, "flask") || Contains(kind, "django"), ViewsFlow),
      Rule(Contains(kind, "react") || Contains(kind, "vue"), ComponentFlow),
      Rule(Contains(kind, "research") || Contains(kind, "analysis"), NotebookFlow),
      Rule(Contains(kind, "rust"), CrateFlow) ]
  }

  /** `guessDataFlow` is the first match of its keyword table over the lower-cased type. */
  lemma GuessDataFlowIsFirstMatch(ctx: BriefingContext)
    ensures GuessDataFlow(ctx) == FirstMatch(DataFlows(Kind(ctx)), UnknownDataFlow)
  {
    var t := DataFlows(Kind(ctx));
    assert t[0..] == t;
    FirstMatchFrom(t, UnknownDataFlow, 0);
    FirstMatchFrom(t, UnknownDataFlow, 1);
    FirstMatchFrom(t, UnknownDataFlow, 2);
    FirstMatchFrom(t, UnknownDataFlow, 3);
    FirstMatchFrom(t, UnknownDataFlow, 4);
    FirstMatchFrom(t, UnknownDataFlow, 5);
    FirstMatchFrom(t, UnknownDataFlow, 6);
  }

  // ---------------------------------------------------------------- core files

  const MaxCoreFiles := 5
  const UnlabelledLimit := 3

  /** The label a key file earns from its lower-cased path: configuration, then routing, then services. */
  function KeyFileLabel(path: string): Option<string> {
    var name := Lower(path);
    if Contains(name, "config") || Contains(name, "settings") then Some("Configuration file")
    else if Contains(name, "route") || Contains(name, "controller") then Some("Request routing")
    else if Contains(name, "api") || Contains(name, "service") then Some("External service integration")
    else None
  }

  /** The list before the key files: the entry point, when there is one. */
  function EntryItems(ctx: BriefingContext): (r: seq<Labelled>)
    ensures |r| <= 1
  {
    if Truthy(ctx.entryPoint) then [Labelled(ctx.entryPoint.value, "Main entry point")] else []
  }

  /** The reason a key file is listed with: its label, or "Important source file". */
  function Reason(k: KeyFile): string {
    KeyFileLabel(k.path).GetOr("Important source file")
  }

  /** One iteration of the key-file loop: a labelled file is always pushed, another only while the list is short. */
  function AddKeyFile(acc: seq<Labelled>, k: KeyFile): seq<Labelled> {
    if KeyFileLabel(k.path).Some? || |acc| < UnlabelledLimit then acc + [Labelled(k.path, Reason(k))] else acc
  }

  /** The list after the loop has visited `keyFiles` (defined on prefixes, like the loop). */
  function CoreList(start: seq<Labelled>, keyFiles: seq<KeyFile>): seq<Labelled>
    decreases |keyFiles|
  {
    if keyFiles == [] then start
    else AddKeyFile(CoreList(start, keyFiles[..|keyFiles| - 1]), keyFiles[|keyFiles| - 1])
  }

  /** `identifyCoreFiles`, as a value: the loop's list cut to five entries. */
  function CoreFiles(ctx: BriefingContext): seq<Labelled> {
    Take(CoreList(EntryItems(ctx), ctx.keyFiles), MaxCoreFiles)
  }

  /** `identifyCoreFiles`: entry point first, then the key files that earn a place. */
  method IdentifyCoreFiles(ctx: BriefingContext) returns (files: seq<Labelled>)
    ensures files == CoreFiles(ctx)
  {
    files := [];
    if ctx.entryPoint.Some? && ctx.entryPoint.value != "" {
      files := files + [Labelled(ctx.entryPoint.value, "Main entry point")];
    }
    var i := 0;
    while i < |ctx.keyFiles|
      invariant 0 <= i <= |ctx.keyFiles|
      invariant files == CoreList(EntryItems(ctx), ctx.keyFiles[..i])
    {
      assert ctx.keyFiles[..i + 1][..i] == ctx.keyFiles[..i];
      var keyFile := ctx.keyFiles[i];
      var filename := Lower(keyFile.path);
      if Contains(filename, "config") || Contains(filename, "settings") {
        files := files + [Labelled(keyFile.path, "Configuration file")];
      } else if Contains(filename, "route") || Contains(filename, "controller") {
        files := files + [Labelled(keyFile.path, "Request routing")];
      } else if Contains(filename, "api") || Contains(filename, "service") {
        files := files + [Labelled(keyFile.path, "External service integration")];
      } else if |files| < 3 {
        files := files + [Labelled(keyFile.path, "Important source file")];
      }
      i := i + 1;
    }
    assert ctx.keyFiles[..i] == ctx.keyFiles;
    files := Take(files, MaxCoreFiles);
  }

  /** The loop only appends: the list after a prefix of the key files is a prefix of the final list. */
  lemma {:induction false} CoreListExtends(start: seq<Labelled>, keyFiles: seq<KeyFile>, n: nat)
    requires n <= |keyFiles|
    ensures var r := CoreList(start, keyFiles);
      var a := CoreList(start, keyFiles[..n]);
      |a| <= |r| && r[..|a|] == a
    decreases |keyFiles| - n
  {
    if n == |keyFiles| {
      assert keyFiles[..n] == keyFiles;
    } else {
      CoreListExtends(start, keyFiles[..|keyFiles| - 1], n);
      assert keyFiles[..|keyFiles| - 1][..n] == keyFiles[..n];
    }
  }

  /** The starting list stays in front, and each key file adds at most one entry. */
  lemma {:induction false} CoreListStart(start: seq<Labelled>, keyFiles: seq<KeyFile>)
    ensures |start| <= |CoreList(start, keyFiles)| <= |start| + |keyFiles|
    ensures CoreList(start, keyFiles)[..|start|] == start
  {
    CoreListExtends(start, keyFiles, 0);
    assert keyFiles[..0] == [];
    CoreListLength(start, keyFiles);
  }

  lemma {:induction false} CoreListLength(start: seq<Labelled>, keyFiles: seq<KeyFile>)
    ensures |CoreList(start, keyFiles)| <= |start| + |keyFiles|
    decreases |keyFiles|
  {
    if keyFiles != [] {
      CoreListLength(start, keyFiles[..|keyFiles| - 1]);
    }
  }

  /** Every key file that earns a label is listed, with that label. */
  lemma {:induction false} CoreListKeepsLabelled(start: seq<Labelled>, keyFiles: seq<KeyFile>, j: nat)
    requires j < |keyFiles| && KeyFileLabel(keyFiles[j].path).Some?
    ensures Labelled(keyFiles[j].path, KeyFileLabel(keyFiles[j].path).value) in CoreList(start, keyFiles)
  {
    var a := CoreList(start, keyFiles[..j + 1]);
    assert keyFiles[..j + 1][..j] == keyFiles[..j];
    assert a[|a| - 1] == Labelled(keyFiles[j].path, KeyFileLabel(keyFiles[j].path).value);
    CoreListExtends(start, keyFiles, j + 1);
    assert CoreList(start, keyFiles)[|a| - 1] == a[|a| - 1];
  }

  /** Every entry after the starting list names a key file, with that file's reason. */
  lemma {:induction false} CoreListOrigin(start: seq<Labelled>, keyFiles: seq<KeyFile>, i: nat)
    requires |start| <= i < |CoreList(start, keyFiles)|
    ensures exists j :: 0 <= j < |keyFiles| && CoreList(start, keyFiles)[i] == Labelled(keyFiles[j].path, Reason(keyFiles[j]))
    decreases |keyFiles|
  {
    var r := CoreList(start, keyFiles);
    if keyFiles == [] {
      assert false;
    } else {
      var init := keyFiles[..|keyFiles| - 1];
      var acc := CoreList(start, init);
      if i < |acc| {
        CoreListOrigin(start, init, i);
        var j :| 0 <= j < |init| && acc[i] == Labelled(init[j].path, Reason(init[j]));
        assert r[i] == acc[i] && keyFiles[j] == init[j];
      } else {
        assert r[i] == Labelled(keyFiles[|keyFiles| - 1].path, Reason(keyFiles[|keyFiles| - 1]));
      }
    }
  }

  /** An unlabelled key file is only listed while the list is shorter than three. */
  lemma {:induction false} CoreListUnlabelledEarly(start: seq<Labelled>, keyFiles: seq<KeyFile>, i: nat)
    requires |start| <= i < |CoreList(start, keyFiles)|
    requires CoreList(start, keyFiles)[i].why == "Important source file"
    ensures i < UnlabelledLimit
    decreases |keyFiles|
  {
    var r := CoreList(start, keyFiles);
    if keyFiles == [] {
      assert false;
    } else {
      var init := keyFiles[..|keyFiles| - 1];
      var acc := CoreList(start, init);
      if i < |acc| {
        assert r[i] == acc[i];
        CoreListUnlabelledEarly(start, init, i);
      }
    }
  }

  /**
   * The core files: at most five; the entry point, when present, comes first as
   * "Main entry point"; every later entry is a key file with its reason; and an entry
   * "Important source file" only stands at one of the first three places.
   */
  lemma CoreFilesSpec(ctx: BriefingContext, i: nat)
    requires |EntryItems(ctx)| <= i < |CoreFiles(ctx)|
    ensures |CoreFiles(ctx)| <= MaxCoreFiles
    ensures Truthy(ctx.entryPoint) ==> CoreFiles(ctx)[0] == Labelled(ctx.entryPoint.value, "Main entry point")
    ensures exists j :: 0 <= j < |ctx.keyFiles| && CoreFiles(ctx)[i] == Labelled(ctx.keyFiles[j].path, Reason(ctx.keyFiles[j]))
    ensures CoreFiles(ctx)[i].why == "Important source file" ==> i < UnlabelledLimit
  {
    var start := EntryItems(ctx);
    var all := CoreList(start, ctx.keyFiles);
    CoreListStart(start, ctx.keyFiles);
    var r := CoreFiles(ctx);
    assert r[i] == all[i];
    CoreListOrigin(start, ctx.keyFiles, i);
    if r[i].why == "Important source file" {
      CoreListUnlabelledEarly(start, ctx.keyFiles, i);
    }
    if Truthy(ctx.entryPoint) {
      assert all[..1] == start;
      assert r[0] == all[0];
    }
  }

  /**
   * Facts about the whole list, for any context: at most five core files, no more than the
   * entry point and the key files together, and the entry point first when there is one.
   */
  lemma CoreFilesBounds(ctx: BriefingContext)
    ensures |CoreFiles(ctx)| <= MaxCoreFiles
    ensures |CoreFiles(ctx)| <= |EntryItems(ctx)| + |ctx.keyFiles|
    ensures Truthy(ctx.entryPoint) ==> CoreFiles(ctx) != [] && CoreFiles(ctx)[0] == Labelled(ctx.entryPoint.value, "Main entry point")
  {
    CoreListStart(EntryItems(ctx), ctx.keyFiles);
    if Truthy(ctx.entryPoint) {
      CoreFilesEntryFirst(ctx);
    }
  }

  /** The entry point, when present, leads the core files. */
  lemma CoreFilesEntryFirst(ctx: BriefingContext)
    requires Truthy(ctx.entryPoint)
    ensures CoreFiles(ctx) != [] && CoreFiles(ctx)[0] == Labelled(ctx.entryPoint.value, "Main entry point")
  {
    var start := EntryItems(ctx);
    CoreListStart(start, ctx.keyFiles);
    var all := CoreList(start, ctx.keyFiles);
    assert all[..1] == start;
    assert CoreFiles(ctx)[0] == all[0];
  }

  // ---------------------------------------------------------------- safe areas

  const MaxSafeAreas := 5

  const SafeDirs: seq<string> := [
    "components/", "styles/", "css/", "public/", "static/",
    "assets/", "images/", "fonts/", "docs/", "tests/",
    "__tests__/", "spec/", "examples/"
  ]

  /** The test a safe directory passes: the structure text names it. */
  function NamedIn(structure: string): string -> bool {
    (d: string) => Contains(structure, d)
  }

  /** `identifySafeAreas`, as a value: the safe directories named in the structure, cut to five. */
  function SafeAreas(ctx: BriefingContext): seq<string> {
    Take(Filter(SafeDirs, NamedIn(Lower(ctx.structure))), MaxSafeAreas)
  }

  /** The loop of `identifySafeAreas`: each directory named in the structure, in list order. */
  method CollectNamedDirs(dirs: seq<string>, structure: string) returns (named: seq<string>)
    ensures named == Filter(dirs, NamedIn(structure))
  {
    named := [];
    var i := 0;
    while i < |dirs|
      invariant 0 <= i <= |dirs|
      invariant named == Filter(dirs[..i], NamedIn(structure))
    {
      assert dirs[..i + 1][..i] == dirs[..i];
      var dir := dirs[i];
      if Contains(structure, dir) {
        named := named + [dir];
      }
      i := i + 1;
    }
    assert dirs[..i] == dirs;
  }

  /** `identifySafeAreas`: the safe directories named in the lower-cased structure, cut to five. */
  method IdentifySafeAreas(ctx: BriefingContext) returns (safe: seq<string>)
    ensures safe == SafeAreas(ctx)
  {
    var named := CollectNamedDirs(SafeDirs, Lower(ctx.structure));
    safe := Take(named, MaxSafeAreas);
  }

  /**
   * The safe areas: at most five safe directories, each named in the lower-cased structure,
   * in list order; when fewer than five are listed, every safe directory named there is listed.
   * The list is the start of the filtered safe directories.
   */
  lemma SafeAreasSpec(ctx: BriefingContext)
    ensures |SafeAreas(ctx)| <= MaxSafeAreas
    ensures forall i :: 0 <= i < |SafeAreas(ctx)| ==> SafeAreas(ctx)[i] in SafeDirs && Contains(Lower(ctx.structure), SafeAreas(ctx)[i])
    ensures forall i, j :: 0 <= i < j < |SafeAreas(ctx)| ==> FromIncreasingPositions(SafeDirs, SafeAreas(ctx), i, j)
    ensures |SafeAreas(ctx)| < MaxSafeAreas ==>
      forall d :: d in SafeDirs && Contains(Lower(ctx.structure), d) ==> d in SafeAreas(ctx)
    ensures SafeAreas(ctx) == Filter(SafeDirs, NamedIn(Lower(ctx.structure)))[..|SafeAreas(ctx)|]
  {
    var structure := Lower(ctx.structure);
    var p := NamedIn(structure);
    var all := Filter(SafeDirs, p);
    FilterKeepsOrder(SafeDirs, p);
    var r := SafeAreas(ctx);
    assert r == all[..|r|];
    forall i | 0 <= i < |r| ensures r[i] in SafeDirs && Contains(structure, r[i]) {
      assert r[i] == all[i] && all[i] in all;
    }
    forall i, j | 0 <= i < j < |r| ensures FromIncreasingPositions(SafeDirs, r, i, j) {
      assert FromIncreasingPositions(SafeDirs, all, i, j);
      assert r[i] == all[i] && r[j] == all[j];
    }
    if |r| < MaxSafeAreas {
      assert r == all;
    }
  }

  // ---------------------------------------------------------------- dangerous files

  const MaxPatternEntries := 4

  datatype Pattern = Pattern(pattern: string, reason: string)

  const DangerousPatterns: seq<Pattern> := [
    Pattern("config", "Configuration affects entire app"),
    Pattern("database", "Data layer changes break features"),
    Pattern("auth", "Security-critical code"),
    Pattern("middleware", "Affects all requests"),
    Pattern("settings", "Global application settings"),
    Pattern(".env", "Environment variables"),
    Pattern("package.json", "Dependencies"),
    Pattern("requirements.txt", "Python dependencies")
  ]

  const EntryPointRisk := "Main entry point - breaks everything if misconfigured"

  /** The entry for a matched pattern: a pattern without a dot names a directory, with a trailing '/'. */
  function PatternEntry(p: Pattern): (r: Labelled)
    ensures '.' in p.pattern ==> r.file == p.pattern
    ensures '.' !in p.pattern ==> r.file == p.pattern + "/"
    ensures r.why == p.reason
  {
    Labelled(p.pattern + (if '.' in p.pattern then "" else "/"), p.reason)
  }

  function PatternEntries(ps: seq<Pattern>): (r: seq<Labelled>)
    ensures |r| == |ps| && forall i :: 0 <= i < |ps| ==> r[i] == PatternEntry(ps[i])
  {
    seq(|ps|, i requires 0 <= i < |ps| => PatternEntry(ps[i]))
  }

  /** The test a risk pattern passes: the structure text names it. */
  function PatternIn(structure: string): Pattern -> bool {
    (p: Pattern) => Contains(structure, p.pattern)
  }

  lemma PatternEntriesAppend(ps: seq<Pattern>, p: Pattern)
    ensures PatternEntries(ps + [p]) == PatternEntries(ps) + [PatternEntry(p)]
  {
    assert forall i :: 0 <= i < |ps| ==> (ps + [p])[i] == ps[i];
  }

  /** The patterns the lower-cased structure names, in pattern order, at most four. */
  function MatchedPatterns(ctx: BriefingContext): seq<Pattern> {
    Take(Filter(DangerousPatterns, PatternIn(Lower(ctx.structure))), MaxPatternEntries)
  }

  /** Some listed file contains the entry-point path as a substring. */
  predicate MentionsEntry(ds: seq<Labelled>, entry: string) {
    exists i :: 0 <= i < |ds| && Contains(ds[i].file, entry)
  }

  /** The entry point appended to `ds`, when present and no listed file contains it. */
  function WithEntry(ds: seq<Labelled>, entryPoint: Option<string>): seq<Labelled> {
    if Truthy(entryPoint) && !MentionsEntry(ds, entryPoint.value) then ds + [Labelled(entryPoint.value, EntryPointRisk)]
    else ds
  }

  /** `identifyDangerousFiles`, as a value. */
  function DangerousFiles(ctx: BriefingContext): seq<Labelled> {
    WithEntry(PatternEntries(MatchedPatterns(ctx)), ctx.entryPoint)
  }

  /** One step of the pattern loop: a matching pattern joins the cut list only while it is short. */
  lemma TakeFilterStep(ps: seq<Pattern>, i: nat, p: Pattern -> bool)
    requires i < |ps|
    ensures var before := Take(Filter(ps[..i], p), MaxPatternEntries);
      Take(Filter(ps[..i + 1], p), MaxPatternEntries) ==
        if p(ps[i]) && |before| < MaxPatternEntries then before + [ps[i]] else before
  {
    var f := Filter(ps[..i], p);
    var added := if p(ps[i]) then [ps[i]] else [];
    assert ps[..i + 1][..i] == ps[..i];
    assert Filter(ps[..i + 1], p) == f + added;
    TakeAppend(f, added, MaxPatternEntries);
  }

  /** The pattern loop of `identifyDangerousFiles` over a pattern list: a match is pushed only while fewer than four are listed. */
  method CollectPatternEntries(patterns: seq<Pattern>, structure: string) returns (dangerous: seq<Labelled>)
    ensures dangerous == PatternEntries(Take(Filter(patterns, PatternIn(structure)), MaxPatternEntries))
  {
    dangerous := [];
    ghost var matched: seq<Pattern> := [];
    var i := 0;
    while i < |patterns|
      invariant 0 <= i <= |patterns|
      invariant matched == Take(Filter(patterns[..i], PatternIn(structure)), MaxPatternEntries)
      invariant dangerous == PatternEntries(matched)
      invariant |dangerous| == |matched|
    {
      var item := patterns[i];
      TakeFilterStep(patterns, i, PatternIn(structure));
      assert PatternIn(structure)(item) == Contains(structure, item.pattern);
      if Contains(structure, item.pattern) && |dangerous| < 4 {
        PatternEntriesAppend(matched, item);
        dangerous := dangerous + [Labelled(item.pattern + (if '.' in item.pattern then "" else "/"), item.reason)];
        matched := matched + [item];
      }
      i := i + 1;
    }
    assert patterns[..i] == patterns;
  }

  /** The dedup step of `identifyDangerousFiles`: the entry point is appended unless a listed file contains it. */
  method AppendEntry(ds: seq<Labelled>, entryPoint: Option<string>) returns (dangerous: seq<Labelled>)
    ensures dangerous == WithEntry(ds, entryPoint)
  {
    dangerous := ds;
    if entryPoint.Some? && entryPoint.value != "" {
      var entry := entryPoint.value;
      var covered := false;
      var j := 0;
      while j < |ds|
        invariant 0 <= j <= |ds|
        invariant covered <==> exists m :: 0 <= m < j && Contains(ds[m].file, entry)
      {
        if Contains(ds[j].file, entry) {
          covered := true;
        }
        j := j + 1;
      }
      if !covered {
        dangerous := ds + [Labelled(entry, EntryPointRisk)];
      }
    }
  }

  /** `identifyDangerousFiles`: up to four matched patterns, then the entry point unless already covered. */
  method IdentifyDangerousFiles(ctx: BriefingContext) returns (dangerous: seq<Labelled>)
    ensures dangerous == DangerousFiles(ctx)
  {
    var patterns := CollectPatternEntries(DangerousPatterns, Lower(ctx.structure));
    dangerous := AppendEntry(patterns, ctx.entryPoint);
  }

  /**
   * The risky files: at most four pattern entries, from patterns the lower-cased structure
   * names and in pattern order, then the entry point exactly when it is present and no pattern
   * entry's file contains it; so at most five entries.
   */
  lemma DangerousFilesSpec(ctx: BriefingContext)
    ensures |DangerousFiles(ctx)| <= MaxPatternEntries + 1
    ensures var ms := MatchedPatterns(ctx);
      && |ms| <= MaxPatternEntries
      && (forall i :: 0 <= i < |ms| ==> ms[i] in DangerousPatterns && Contains(Lower(ctx.structure), ms[i].pattern))
      && (forall i, j :: 0 <= i < j < |ms| ==> FromIncreasingPositions(DangerousPatterns, ms, i, j))
      && DangerousFiles(ctx)[..|ms|] == PatternEntries(ms)
    ensures var ms := MatchedPatterns(ctx);
      |ms| < MaxPatternEntries ==>
        forall q :: q in DangerousPatterns && Contains(Lower(ctx.structure), q.pattern) ==> q in ms
    ensures var ms := MatchedPatterns(ctx);
      |DangerousFiles(ctx)| == |ms| + 1 <==> Truthy(ctx.entryPoint) && !MentionsEntry(PatternEntries(ms), ctx.entryPoint.value)
    ensures |DangerousFiles(ctx)| == MatchedCount(ctx) + 1 ==>
      DangerousFiles(ctx)[MatchedCount(ctx)] == Labelled(ctx.entryPoint.value, EntryPointRisk)
  {
    var structure := Lower(ctx.structure);
    var p := PatternIn(structure);
    var all := Filter(DangerousPatterns, p);
    FilterKeepsOrder(DangerousPatterns, p);
    var ms := MatchedPatterns(ctx);
    assert ms == all[..|ms|];
    forall i | 0 <= i < |ms| ensures ms[i] in DangerousPatterns && Contains(structure, ms[i].pattern) {
      assert ms[i] == all[i] && all[i] in all;
    }
    forall i, j | 0 <= i < j < |ms| ensures FromIncreasingPositions(DangerousPatterns, ms, i, j) {
      assert FromIncreasingPositions(DangerousPatterns, all, i, j);
      assert ms[i] == all[i] && ms[j] == all[j];
    }
    if |ms| < MaxPatternEntries {
      assert ms == all;
    }
  }

  /** The number of pattern entries among the risky files. */
  function MatchedCount(ctx: BriefingContext): nat {
    |MatchedPatterns(ctx)|
  }

  // ---------------------------------------------------------------- start steps

  /** The fixed texts of the start steps. */
  const FindEntryStep := "Find the entry point (check package.json or main file)"
  const StructureStep := "Look at folder structure to understand organization"
  const ConfigStep := "Check configuration files for environment setup"
  const RoutesStep := "Review routes/endpoints to understand API surface"
  const SafeAreasStep := "Start with safe areas (components, styles) for small changes"

  /** `generateStartSteps`: always four steps; the first names the entry point when there is one,
      the last depends on whether the project is an API or a server. */
  method GenerateStartSteps(ctx: BriefingContext) returns (steps: seq<string>)
    ensures |steps| == 4
    ensures steps[0] == if Truthy(ctx.entryPoint) then "Read " + ctx.entryPoint.value + " to understand initialization"
                        else FindEntryStep
    ensures steps[1] == StructureStep && steps[2] == ConfigStep
    ensures steps[3] == if Contains(Kind(ctx), "api") || Contains(Kind(ctx), "server") then RoutesStep else SafeAreasStep
  {
    var first: string;
    if ctx.entryPoint.Some? && ctx.entryPoint.value != "" {
      first := "Read " + ctx.entryPoint.value + " to understand initialization";
    } else {
      first := FindEntryStep;
    }
    var kind := Lower(ctx.projectType);
    var last: string;
    if Contains(kind, "api") || Contains(kind, "server") {
      last := RoutesStep;
    } else {
      last := SafeAreasStep;
    }
    steps := [first, StructureStep, ConfigStep, last];
  }

  // ---------------------------------------------------------------- the briefing

  /** What the briefing says when no entry point was found. */
  const NotDetected := "Not detected"

  /** `generateLocalBriefing` before layout: every field of the record from its rule. */
  method GenerateLocalBriefing(ctx: BriefingContext) returns (b: Briefing)
    ensures b.projectType == ctx.projectType && b.language == ctx.language
    ensures b.purpose == GuessPurpose(ctx)
    ensures b.entryPoint == if Truthy(ctx.entryPoint) then ctx.entryPoint.value else NotDetected
    ensures b.howToRun == GuessRunCommand(ctx)
    ensures b.coreFiles == CoreFiles(ctx)
    ensures b.safeFiles == SafeAreas(ctx)
    ensures b.dangerousFiles == DangerousFiles(ctx)
    ensures b.dataFlow == GuessDataFlow(ctx)
    ensures |b.startEditing| == 4
    ensures b.startEditing[0] == if Truthy(ctx.entryPoint) then "Read " + ctx.entryPoint.value + " to understand initialization"
                                 else FindEntryStep
    ensures b.startEditing[1] == StructureStep && b.startEditing[2] == ConfigStep
    ensures b.startEditing[3] == if Contains(Kind(ctx), "api") || Contains(Kind(ctx), "server") then RoutesStep else SafeAreasStep
  {
    var coreFiles := IdentifyCoreFiles(ctx);
    var safeFiles := IdentifySafeAreas(ctx);
    var dangerousFiles := IdentifyDangerousFiles(ctx);
    var startEditing := GenerateStartSteps(ctx);
    b := Briefing(
      ctx.projectType,
      ctx.language,
      GuessPurpose(ctx),
      if ctx.entryPoint.Some? && ctx.entryPoint.value != "" then ctx.entryPoint.value else NotDetected,
      GuessRunCommand(ctx),
      coreFiles,
      safeFiles,
      dangerousFiles,
      GuessDataFlow(ctx),
      startEditing);
  }

  /**
   * `generateBriefing`'s routing: without an API key (absent or empty) the local engine
   * answers; with one, the remote service does, which is outside this model (`None`).
   */
  method GenerateBriefing(ctx: BriefingContext, apiKey: Option<string>) returns (b: Option<Briefing>)
    ensures b.Some? <==> !Truthy(apiKey)
    ensures b.Some? ==> b.value.projectType == ctx.projectType && b.value.language == ctx.language
    ensures b.Some? ==> b.value.purpose == GuessPurpose(ctx)
    ensures b.Some? ==> b.value.entryPoint == if Truthy(ctx.entryPoint) then ctx.entryPoint.value else NotDetected
    ensures b.Some? ==> b.value.howToRun == GuessRunCommand(ctx)
    ensures b.Some? ==> b.value.coreFiles == CoreFiles(ctx)
    ensures b.Some? ==> b.value.safeFiles == SafeAreas(ctx)
    ensures b.Some? ==> b.value.dangerousFiles == DangerousFiles(ctx)
    ensures b.Some? ==> b.value.dataFlow == GuessDataFlow(ctx)
    ensures b.Some? ==> |b.value.startEditing| == 4
    ensures b.Some? ==> b.value.startEditing[0] == if Truthy(ctx.entryPoint) then "Read " + ctx.entryPoint.value + " to understand initialization"
                                                   else FindEntryStep
    ensures b.Some? ==> b.value.startEditing[1] == StructureStep && b.value.startEditing[2] == ConfigStep
    ensures b.Some? ==> b.value.startEditing[3] == if Contains(Kind(ctx), "api") || Contains(Kind(ctx), "server") then RoutesStep else SafeAreasStep
  {
    if apiKey.None? || apiKey.value == "" {
      var local := GenerateLocalBriefing(ctx);
      b := Some(local);
    } else {
      b := None;
    }
  }
}

