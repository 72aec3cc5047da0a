/**
 * The project classifier of lib/detector.js: a total function from the scanned file
 * records to a classification (type label, language label, ordered entry-point candidates).
 * The source is an if-chain of short-circuiting tiers; each if-chain here is proved equal
 * to the first match of an explicit ordered rule table (module Rules).
 */
module Detector {
  import opened Wrappers
  import opened Strings
  import opened Rules

  /** One scanned file: its relative path, base name, extension (with the dot, or "") and size. */
  datatype FileRecord = FileRecord(path: string, filename: string, ext: string, size: nat)

  /** The result of classification. */
  datatype Classification = Classification(projectType: string, language: string, entryPoints: seq<string>)

  // ---------------------------------------------------------------- evidence queries

  /** `filenames.includes(name)`. */
  predicate HasFilename(files: seq<FileRecord>, name: string) {
    exists i :: 0 <= i < |files| && files[i].filename == name
  }

  /** `files.some(f => f.path.includes(sub))`. */
  predicate AnyPathContains(files: seq<FileRecord>, sub: string) {
    exists i :: 0 <= i < |files| && Contains(files[i].path, sub)
  }

  /** `extensions.includes(ext)`. */
  predicate HasExtension(files: seq<FileRecord>, ext: string) {
    exists i :: 0 <= i < |files| && files[i].ext == ext
  }

  /** `files.map(f => f.ext)`. */
  function Extensions(files: seq<FileRecord>): (exts: seq<string>)
    ensures |exts| == |files| && forall i :: 0 <= i < |files| ==> exts[i] == files[i].ext
  {
    seq(|files|, i requires 0 <= i < |files| => files[i].ext)
  }

  /** `found?.path || default`: the path of the found record unless it is missing or "". */
  function PathOr(files: seq<FileRecord>, found: Option<nat>, default: string): string {
    if found.Some? && found.value < |files| && files[found.value].path != "" then files[found.value].path
    else default
  }

  // ---------------------------------------------------------------- fixed classifications

  const Rust := Classification("Rust project", "Rust", ["src/main.rs", "src/lib.rs", "src/bin"])
  const Go := Classification("Go project", "Go", ["main.go", "cmd/main.go"])
  const Ruby := Classification("Ruby project", "Ruby", ["config.ru", "app.rb"])
  const Research := Classification("Research / analysis environment", "Python/Jupyter", [])
  const FlaskApp := Classification("Flask application", "Python", ["app.py", "application.py", "wsgi.py", "asgi.py"])
  const FastApi := Classification("FastAPI application", "Python", ["main.py", "wsgi.py", "asgi.py"])
  const GenericPython := Classification("Python project", "Python", ["main.py", "app.py", "__main__.py", "wsgi.py", "asgi.py"])

  /** The Django classification; its first candidate is the first path ending in manage.py. */
  function Django(files: seq<FileRecord>): (c: Classification)
    ensures c.projectType == "Django application" && c.language == "Python"
    ensures |c.entryPoints| == 3 && c.entryPoints[1..] == ["wsgi.py", "asgi.py"]
    ensures match Find(files, (f: FileRecord) => EndsWith(f.path, "manage.py"))
      case None => c.entryPoints[0] == "manage.py"
      case Some(i) => c.entryPoints[0] == files[i].path
  {
    var manage := Find(files, (f: FileRecord) => EndsWith(f.path, "manage.py"));
    assert manage.Some? ==> files[manage.value].path != "";
    Classification("Django application", "Python", [PathOr(files, manage, "manage.py"), "wsgi.py", "asgi.py"])
  }

  /** The base Node.js entry-point candidates (with `src/index.js` listed twice, as in the source). */
  const NodeEntryPoints: seq<string> := [
    "app/page.tsx", "app/page.js", "app/layout.tsx", "app/layout.js",
    "pages/index.js", "pages/index.tsx", "src/pages/index.js",
    "src/main.ts", "src/main.js", "src/index.ts", "src/index.js",
    "index.js", "server.js", "app.js", "src/index.js"
  ]

  const NextJs := Classification("Next.js application", "JavaScript/TypeScript", NodeEntryPoints)
  const Vite := Classification("Vite application", "JavaScript/TypeScript",
    ["src/main.js", "src/main.tsx", "src/main.ts", "index.html"] + NodeEntryPoints)
  const Gatsby := Classification("Gatsby site", "JavaScript/TypeScript",
    ["gatsby-config.js", "src/pages/index.js"] + NodeEntryPoints)
  const GenericNode := Classification("Node.js project", "JavaScript/TypeScript", NodeEntryPoints)

  // ---------------------------------------------------------------- Python sub-classifier

  const RouteIndicators: seq<string> := ["routes", "controllers", "api", "views", "blueprints"]

  /** An `app/` package initialiser exists, and some path names a routing module. */
  predicate HasFlaskModuleLayout(files: seq<FileRecord>) {
    (exists i :: 0 <= i < |files| && Contains(files[i].path, "__init__.py")
                 && (Contains(files[i].path, "app/") || Contains(files[i].path, "app\\")))
    && (exists i :: 0 <= i < |files| && ContainsAny(Lower(files[i].path), RouteIndicators))
  }

  /** The Flask-service classification; its last candidate is the found `app/__init__.py` path. */
  function FlaskService(files: seq<FileRecord>): (c: Classification)
    ensures c.projectType == "Flask web service" && c.language == "Python"
    ensures |c.entryPoints| == 3 && c.entryPoints[..2] == ["wsgi.py", "asgi.py"]
    ensures match Find(files, (f: FileRecord) => Contains(f.path, "app/__init__.py") || Contains(f.path, "app\\__init__.py"))
      case None => c.entryPoints[2] == "app/__init__.py"
      case Some(i) => c.entryPoints[2] == files[i].path
  {
    var appInit := Find(files, (f: FileRecord) =>
      Contains(f.path, "app/__init__.py") || Contains(f.path, "app\\__init__.py"));
    assert appInit.Some? ==> files[appInit.value].path != "";
    Classification("Flask web service", "Python", ["wsgi.py", "asgi.py", PathOr(files, appInit, "app/__init__.py")])
  }

  /**
   * Without manage.py, app.py or application.py, a path holding `app/__init__.py` and a path
   * naming a routing module in any letter case make a Flask web service. Its last candidate
   * is the first path holding the package initialiser, at or before the given one.
   */
  lemma FlaskLayoutMakesService(files: seq<FileRecord>, i: nat, j: nat, route: string)
    requires !AnyPathContains(files, "manage.py") && !HasFilename(files, "app.py") && !HasFilename(files, "application.py")
    requires i < |files| && Contains(files[i].path, "app/__init__.py")
    requires j < |files| && Contains(files[j].path, route) && Lower(route) in RouteIndicators
    ensures HasFlaskModuleLayout(files)
    ensures DetectPythonFramework(files) == FlaskService(files)
    ensures exists m ::
      0 <= m <= i && DetectPythonFramework(files).entryPoints[2] == files[m].path &&
      (Contains(files[m].path, "app/__init__.py") || Contains(files[m].path, "app\\__init__.py"))
  {
    FlaskLayoutHolds(files, i, j, route);
    FlaskServiceFindsInit(files, i);
  }

  /** The two tests of `hasFlaskModuleLayout` pass, the route name matched in any letter case. */
  lemma FlaskLayoutHolds(files: seq<FileRecord>, i: nat, j: nat, route: string)
    requires i < |files| && Contains(files[i].path, "app/__init__.py")
    requires j < |files| && Contains(files[j].path, route) && Lower(route) in RouteIndicators
    ensures HasFlaskModuleLayout(files)
  {
    assert "app/__init__.py" == "app/" + "__init__.py";
    ContainsHalves(files[i].path, "app/", "__init__.py");
    LowerContains(files[j].path, route);
    var k :| 0 <= k < |RouteIndicators| && RouteIndicators[k] == Lower(route);
    assert ContainsAny(Lower(files[j].path), RouteIndicators);
  }

  /** A path holding `app/__init__.py` makes the service's last candidate such a path, found no later. */
  lemma FlaskServiceFindsInit(files: seq<FileRecord>, i: nat)
    requires i < |files| && Contains(files[i].path, "app/__init__.py")
    ensures exists m ::
      0 <= m <= i && FlaskService(files).entryPoints[2] == files[m].path &&
      (Contains(files[m].path, "app/__init__.py") || Contains(files[m].path, "app\\__init__.py"))
  {
    var found := Find(files, (f: FileRecord) => Contains(f.path, "app/__init__.py") || Contains(f.path, "app\\__init__.py"));
    assert found.Some? && found.value <= i;
  }


  /** `detectPythonFramework`: Django, then Flask, then a Flask module layout, then FastAPI. */
  function DetectPythonFramework(files: seq<FileRecord>): (c: Classification)
    ensures c.language == "Python"
    ensures |c.entryPoints| >= 3
  {
    if AnyPathContains(files, "manage.py") then Django(files)
    else if HasFilename(files, "app.py") || HasFilename(files, "application.py") then FlaskApp
    else if HasFlaskModuleLayout(files) then FlaskService(files)
    else if HasFilename(files, "main.py") then FastApi
    else GenericPython
  }

  /** The Python sub-classifier as an ordered rule table. */
  function PythonRules(files: seq<FileRecord>): seq<Rule<Classification>> {
    [ Rule(AnyPathContains(files, "manage.py"), Django(files)),
      Rule(HasFilename(files, "app.py") || HasFilename(files, "application.py"), FlaskApp),
      Rule(HasFlaskModuleLayout(files), FlaskService(files)),
      Rule(HasFilename(files, "main.py"), FastApi) ]
  }

  /** The Python sub-classifier is the first match of its rule table. */
  lemma PythonIsFirstMatch(files: seq<FileRecord>)
    ensures DetectPythonFramework(files) == FirstMatch(PythonRules(files), GenericPython)
  {
    var rules := PythonRules(files);
    assert rules[0..] == rules;
    FirstMatchFrom(rules, GenericPython, 0);
    FirstMatchFrom(rules, GenericPython, 1);
    FirstMatchFrom(rules, GenericPython, 2);
    FirstMatchFrom(rules, GenericPython, 3);
    FirstMatchFrom(rules, GenericPython, 4);
  }

  // ---------------------------------------------------------------- Node sub-classifier

  /** `filenames.some(f => f.includes('vite.config'))`. */
  predicate HasViteConfig(files: seq<FileRecord>) {
    exists i :: 0 <= i < |files| && Contains(files[i].filename, "vite.config")
  }

  /** `detectNodeFramework`: Next.js, then Vite, then Gatsby, else generic Node.js. */
  function DetectNodeFramework(files: seq<FileRecord>): (c: Classification)
    ensures c.language == "JavaScript/TypeScript"
    ensures exists k :: 0 <= k <= 4 && k <= |c.entryPoints| && c.entryPoints[k..] == NodeEntryPoints
  {
    if HasFilename(files, "next.config.js") || HasFilename(files, "next.config.mjs") then
      assert NextJs.entryPoints[0..] == NodeEntryPoints;
      NextJs
    else if HasViteConfig(files) then
      assert Vite.entryPoints[4..] == NodeEntryPoints;
      Vite
    else if HasFilename(files, "gatsby-config.js") then
      assert Gatsby.entryPoints[2..] == NodeEntryPoints;
      Gatsby
    else
      assert GenericNode.entryPoints[0..] == NodeEntryPoints;
      GenericNode
  }

  /** The Node sub-classifier as an ordered rule table. */
  function NodeRules(files: seq<FileRecord>): seq<Rule<Classification>> {
    [ Rule(HasFilename(files, "next.config.js") || HasFilename(files, "next.config.mjs"), NextJs),
      Rule(HasViteConfig(files), Vite),
      Rule(HasFilename(files, "gatsby-config.js"), Gatsby) ]
  }

  /** The Node sub-classifier is the first match of its rule table. */
  lemma NodeIsFirstMatch(files: seq<FileRecord>)
    ensures DetectNodeFramework(files) == FirstMatch(NodeRules(files), GenericNode)
  {
    var rules := NodeRules(files);
    assert rules[0..] == rules;
    FirstMatchFrom(rules, GenericNode, 0);
    FirstMatchFrom(rules, GenericNode, 1);
    FirstMatchFrom(rules, GenericNode, 2);
    FirstMatchFrom(rules, GenericNode, 3);
  }

  // ---------------------------------------------------------------- most common extension

  /** How often `x` occurs in `s`. */
  function Count(s: seq<string>, x: string): nat {
    multiset(s)[x]
  }

  /** The variables of the frequency scan: the counts dictionary and the running maximum. */
  datatype ScanState = ScanState(counts: map<string, nat>, max: nat, mostCommon: Option<string>)

  /** One iteration of the scan: empty extensions are skipped; a strictly greater count wins. */
  function ScanStep(st: ScanState, ext: string): ScanState {
    if ext == "" then st
    else
      var c := (if ext in st.counts then st.counts[ext] else 0) + 1;
      if c > st.max then ScanState(st.counts[ext := c], c, Some(ext))
      else st.(counts := st.counts[ext := c])
  }

  /** The scan state after the whole of `exts`, processed left to right. */
  function Scan(exts: seq<string>): ScanState
    decreases |exts|
  {
    if exts == [] then ScanState(map[], 0, None)
    else ScanStep(Scan(exts[..|exts| - 1]), exts[|exts| - 1])
  }

  /** `getMostCommonExtension`. */
  function MostCommonExtension(exts: seq<string>): Option<string> {
    Scan(exts).mostCommon
  }

  /** `e` was the first non-empty value to reach `m` occurrences: some prefix of `exts` holds `m` of `e` and fewer of every other. */
  ghost predicate FirstToReach(exts: seq<string>, e: string, m: nat) {
    exists j :: 0 <= j <= |exts| && Count(exts[..j], e) == m &&
      forall x :: x != "" && x != e ==> Count(exts[..j], x) < m
  }

  /** What the scan state means after processing `exts`. */
  ghost predicate ScanInv(exts: seq<string>, st: ScanState) {
    && (forall x :: x in st.counts <==> x != "" && Count(exts, x) > 0)
    && (forall x :: x in st.counts ==> st.counts[x] == Count(exts, x))
    && (forall x :: x != "" ==> Count(exts, x) <= st.max)
    && (st.mostCommon.None? <==> st.max == 0)
    && (st.mostCommon.Some? ==>
          st.mostCommon.value != "" && Count(exts, st.mostCommon.value) == st.max &&
          FirstToReach(exts, st.mostCommon.value, st.max))
  }

  /** A witness prefix for `FirstToReach` stays a witness when the scan goes on. */
  lemma FirstToReachExtend(exts: seq<string>, ext: string, e: string, m: nat)
    requires FirstToReach(exts, e, m)
    ensures FirstToReach(exts + [ext], e, m)
  {
    var j :| 0 <= j <= |exts| && Count(exts[..j], e) == m &&
      forall x :: x != "" && x != e ==> Count(exts[..j], x) < m;
    assert (exts + [ext])[..j] == exts[..j];
  }

  lemma ScanStepInv(exts: seq<string>, st: ScanState, ext: string)
    requires ScanInv(exts, st)
    ensures ScanInv(exts + [ext], ScanStep(st, ext))
  {
    if ext != "" && Count(exts + [ext], ext) > st.max {
      ScanStepNewMax(exts, st, ext);
    } else {
      ScanStepSameMax(exts, st, ext);
    }
  }

  /** An iteration whose count beats the maximum: `ext` becomes the first to reach the new maximum. */
  lemma ScanStepNewMax(exts: seq<string>, st: ScanState, ext: string)
    requires ScanInv(exts, st)
    requires ext != "" && Count(exts + [ext], ext) > st.max
    ensures ScanInv(exts + [ext], ScanStep(st, ext))
  {
    var s2 := exts + [ext];
    assert multiset(s2) == multiset(exts) + multiset{ext};
    var c := Count(s2, ext);
    assert s2[..|s2|] == s2;
    assert forall x :: x != "" && x != ext ==> Count(s2, x) == Count(exts, x) <= st.max < c;
    assert FirstToReach(s2, ext, c);
  }

  /** An iteration that skips an empty extension or does not beat the maximum keeps the winner. */
  lemma ScanStepSameMax(exts: seq<string>, st: ScanState, ext: string)
    requires ScanInv(exts, st)
    requires ext == "" || Count(exts + [ext], ext) <= st.max
    ensures ScanInv(exts + [ext], ScanStep(st, ext))
  {
    var s2 := exts + [ext];
    assert multiset(s2) == multiset(exts) + multiset{ext};
    if st.mostCommon.Some? {
      FirstToReachExtend(exts, ext, st.mostCommon.value, st.max);
    }
  }


  lemma {:induction false} ScanInvHolds(exts: seq<string>)
    ensures ScanInv(exts, Scan(exts))
    decreases |exts|
  {
    if exts == [] {
    } else {
      var init := exts[..|exts| - 1];
      ScanInvHolds(init);
      ScanStepInv(init, Scan(init), exts[|exts| - 1]);
      assert init + [exts[|exts| - 1]] == exts;
    }
  }

  /**
   * The most common extension: none exactly when every extension is empty; otherwise a
   * non-empty extension of maximal count, and, among those of that count, the first to
   * reach it during the scan.
   */
  lemma MostCommonExtensionSpec(exts: seq<string>)
    ensures MostCommonExtension(exts).None? <==> forall i :: 0 <= i < |exts| ==> exts[i] == ""
    ensures MostCommonExtension(exts).Some? ==>
      var e := MostCommonExtension(exts).value;
      e != "" && (forall x :: x != "" ==> Count(exts, x) <= Count(exts, e)) &&
      FirstToReach(exts, e, Count(exts, e))
  {
    ScanInvHolds(exts);
    var st := Scan(exts);
    if st.mostCommon.None? {
      forall i | 0 <= i < |exts| ensures exts[i] == "" {
        assert exts[i] in multiset(exts);
        assert Count(exts, exts[i]) > 0;
      }
    } else {
      assert st.mostCommon.value in multiset(exts);
      var i :| 0 <= i < |exts| && exts[i] == st.mostCommon.value;
    }
  }

  /** `getMostCommonExtension` as the source writes it: a loop over a counts dictionary. */
  method GetMostCommonExtension(exts: seq<string>) returns (mostCommon: Option<string>)
    ensures mostCommon == MostCommonExtension(exts)
  {
    var counts: map<string, nat> := map[];
    var max := 0;
    mostCommon := None;
    var i := 0;
    while i < |exts|
      invariant 0 <= i <= |exts|
      invariant Scan(exts[..i]) == ScanState(counts, max, mostCommon)
    {
      var ext := exts[i];
      assert exts[..i + 1][..i] == exts[..i];
      if ext != "" {
        var c := (if ext in counts then counts[ext] else 0) + 1;
        counts := counts[ext := c];
        if c > max {
          max := c;
          mostCommon := Some(ext);
        }
      }
      i := i + 1;
    }
    assert exts[..i] == exts;
  }

  // ---------------------------------------------------------------- the classifier

  const AppSignals: seq<string> := ["manage.py", "app.py", "main.py", "application.py", "package.json", "Cargo.toml", "go.mod"]

  /** Some path names one of the application signals. */
  predicate HasClearAppEntrypoint(files: seq<FileRecord>) {
    exists i :: 0 <= i < |files| && ContainsAny(files[i].path, AppSignals)
  }

  /**
   * With no manifest, a path naming an application signal rules the research tier out even
   * when notebooks are present, and the extension fallback decides.
   */
  lemma AppSignalMeansFallback(files: seq<FileRecord>, i: nat, signal: string)
    requires NoManifest(files)
    requires i < |files| && signal in AppSignals && Contains(files[i].path, signal)
    ensures HasClearAppEntrypoint(files)
    ensures DetectLanguage(files) == Fallback(files)
  {
    var k :| 0 <= k < |AppSignals| && AppSignals[k] == signal;
    assert ContainsAny(files[i].path, AppSignals);
  }

  /** The generic classification by most common extension. */
  function Fallback(files: seq<FileRecord>): (c: Classification)
    ensures c.projectType == "Unknown project" && c.entryPoints == []
    ensures (forall i :: 0 <= i < |files| ==> files[i].ext == "") <==> c.language == "Mixed"
  {
    var ext := MostCommonExtension(Extensions(files));
    MostCommonExtensionSpec(Extensions(files));
    if ext.Some? then
      assert ("Files with " + ext.value + " extension")[0] == 'F';
      Classification("Unknown project", "Files with " + ext.value + " extension", [])
    else Classification("Unknown project", "Mixed", [])
  }

  /** `detectLanguage`: the tiers of lib/detector.js in their order. */
  function DetectLanguage(files: seq<FileRecord>): (c: Classification)
    ensures c.entryPoints == [] ==> c == Research || c.projectType == "Unknown project"
  {
    // Tier 1: runtime authority
    if HasFilename(files, "Cargo.toml") then Rust
    else if AnyPathContains(files, "manage.py") then Django(files)
    else if HasFilename(files, "pyproject.toml") then DetectPythonFramework(files)
    else if HasFilename(files, "go.mod") then Go
    // Tier 2: application manifests
    else if HasFilename(files, "requirements.txt") || HasFilename(files, "Pipfile") || HasFilename(files, "setup.py") then
      DetectPythonFramework(files)
    // Tier 3: Node / tooling manifest
    else if HasFilename(files, "package.json") then DetectNodeFramework(files)
    else if HasFilename(files, "Gemfile") then Ruby
    // Notebooks without an application entry point
    else if HasExtension(files, ".ipynb") && !HasClearAppEntrypoint(files) then Research
    else Fallback(files)
  }

  /** The tiers of `detectLanguage` as one ordered rule table. */
  function DetectorRules(files: seq<FileRecord>): seq<Rule<Classification>> {
    [ Rule(HasFilename(files, "Cargo.toml"), Rust),
      Rule(AnyPathContains(files, "manage.py"), Django(files)),
      Rule(HasFilename(files, "pyproject.toml"), DetectPythonFramework(files)),
      Rule(HasFilename(files, "go.mod"), Go),
      Rule(HasFilename(files, "requirements.txt") || HasFilename(files, "Pipfile") || HasFilename(files, "setup.py"),
           DetectPythonFramework(files)),
      Rule(HasFilename(files, "package.json"), DetectNodeFramework(files)),
      Rule(HasFilename(files, "Gemfile"), Ruby),
      Rule(HasExtension(files, ".ipynb") && !HasClearAppEntrypoint(files), Research) ]
  }

  /** `detectLanguage` is the first match of its tier table, with the extension fallback as default. */
  lemma DetectLanguageIsFirstMatch(files: seq<FileRecord>)
    ensures DetectLanguage(files) == FirstMatch(DetectorRules(files), Fallback(files))
  {
    var rules := DetectorRules(files);
    assert rules[0..] == rules;
    FirstMatchFrom(rules, Fallback(files), 0);
    FirstMatchFrom(rules, Fallback(files), 1);
    FirstMatchFrom(rules, Fallback(files), 2);
    FirstMatchFrom(rules, Fallback(files), 3);
    FirstMatchFrom(rules, Fallback(files), 4);
    FirstMatchFrom(rules, Fallback(files), 5);
    FirstMatchFrom(rules, Fallback(files), 6);
    FirstMatchFrom(rules, Fallback(files), 7);
    FirstMatchFrom(rules, Fallback(files), 8);
  }

  /** A rule of the tier table decides the classification exactly when every earlier rule fails. */
  lemma DetectLanguageTier(files: seq<FileRecord>, k: nat)
    requires k < |DetectorRules(files)| && DetectorRules(files)[k].fires
    requires forall j :: 0 <= j < k ==> !DetectorRules(files)[j].fires
    ensures DetectLanguage(files) == DetectorRules(files)[k].result
  {
    DetectLanguageIsFirstMatch(files);
    FirstMatchAt(DetectorRules(files), Fallback(files), k);
  }

  /** When no tier fires, the extension fallback decides. */
  lemma DetectLanguageFallback(files: seq<FileRecord>)
    requires forall j :: 0 <= j < |DetectorRules(files)| ==> !DetectorRules(files)[j].fires
    ensures DetectLanguage(files) == Fallback(files)
  {
    DetectLanguageIsFirstMatch(files);
    FirstMatchNone(DetectorRules(files), Fallback(files));
  }

  /** Cargo.toml wins over every other manifest. */
  lemma CargoTomlWins(files: seq<FileRecord>)
    requires HasFilename(files, "Cargo.toml")
    ensures DetectLanguage(files) == Rust
    ensures Rust.entryPoints == ["src/main.rs", "src/lib.rs", "src/bin"]
  {
    DetectLanguageTier(files, 0);
  }

  /**
   * Without Cargo.toml, a path containing manage.py makes a Django application whose first
   * candidate is the first path ending in manage.py, or "manage.py" when none ends so.
   */
  lemma ManagePyMakesDjango(files: seq<FileRecord>)
    requires !HasFilename(files, "Cargo.toml") && AnyPathContains(files, "manage.py")
    ensures DetectLanguage(files).projectType == "Django application"
    ensures (exists i :: 0 <= i < |files| && EndsWith(files[i].path, "manage.py")) ==>
      exists i :: 0 <= i < |files| && EndsWith(files[i].path, "manage.py") &&
        DetectLanguage(files).entryPoints[0] == files[i].path &&
        forall j :: 0 <= j < i ==> !EndsWith(files[j].path, "manage.py")
    ensures (forall i :: 0 <= i < |files| ==> !EndsWith(files[i].path, "manage.py")) ==>
      DetectLanguage(files).entryPoints[0] == "manage.py"
  {
    DetectLanguageTier(files, 1);
    var manage := Find(files, (f: FileRecord) => EndsWith(f.path, "manage.py"));
    if manage.Some? {
      assert EndsWith(files[manage.value].path, "manage.py");
    }
  }

  /** None of the manifests the tiers look for is present. */
  predicate NoManifest(files: seq<FileRecord>) {
    && !HasFilename(files, "Cargo.toml") && !AnyPathContains(files, "manage.py")
    && !HasFilename(files, "pyproject.toml") && !HasFilename(files, "go.mod")
    && !HasFilename(files, "requirements.txt") && !HasFilename(files, "Pipfile") && !HasFilename(files, "setup.py")
    && !HasFilename(files, "package.json") && !HasFilename(files, "Gemfile")
  }

  /** With package.json and none of the earlier manifests, the Node sub-classifier decides. */
  lemma PackageJsonMakesNode(files: seq<FileRecord>)
    requires !HasFilename(files, "Cargo.toml") && !AnyPathContains(files, "manage.py")
    requires !HasFilename(files, "pyproject.toml") && !HasFilename(files, "go.mod")
    requires !HasFilename(files, "requirements.txt") && !HasFilename(files, "Pipfile") && !HasFilename(files, "setup.py")
    requires HasFilename(files, "package.json")
    ensures DetectLanguage(files) == DetectNodeFramework(files)
    ensures DetectLanguage(files).language == "JavaScript/TypeScript"
  {
  }

  /**
   * With no manifest, a notebook and no application signal in any path make a research
   * environment without entry points.
   */
  lemma NotebooksMakeResearch(files: seq<FileRecord>)
    requires NoManifest(files)
    requires HasExtension(files, ".ipynb") && !HasClearAppEntrypoint(files)
    ensures DetectLanguage(files) == Research
    ensures Research.projectType == "Research / analysis environment" && Research.entryPoints == []
  {
  }

  /** With no manifest and no notebook, the extension fallback decides. */
  lemma NoNotebookMeansFallback(files: seq<FileRecord>)
    requires NoManifest(files) && !HasExtension(files, ".ipynb")
    ensures DetectLanguage(files) == Fallback(files)
  {
  }

  /**
   * The fallback names the most common non-empty extension: one whose count no other
   * extension exceeds, and the first to reach that count in traversal order.
   */
  lemma FallbackNamesMostCommon(files: seq<FileRecord>)
    requires exists i :: 0 <= i < |files| && files[i].ext != ""
    ensures exists x ::
      && x != ""
      && Fallback(files).language == "Files with " + x + " extension"
      && (forall y :: y != "" ==> Count(Extensions(files), y) <= Count(Extensions(files), x))
      && FirstToReach(Extensions(files), x, Count(Extensions(files), x))
  {
    var exts := Extensions(files);
    MostCommonExtensionSpec(exts);
    var i :| 0 <= i < |files| && files[i].ext != "";
    assert exts[i] != "";
    var x := MostCommonExtension(exts).value;
    assert Fallback(files).language == "Files with " + x + " extension";
  }
}
