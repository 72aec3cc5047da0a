# A verified model of the local project-briefing pipeline

The repository scans a project directory and writes an orientation briefing for a newcomer:
what kind of project it is, how to run it, which files matter, which are safe to edit and which
are risky. Without an API key, the whole briefing comes from a local rule-based pipeline with
three stages:

1. **Classifier** (`lib/detector.js`). It maps the scanned file records to a project type, a
   language label and an ordered list of entry-point candidates. It works through ordered tiers
   that stop at the first match: runtime manifests, then Python manifests, then `package.json`,
   then `Gemfile`, then a notebook heuristic, then a most-common-extension fallback. It also has
   Python and Node sub-classifiers.
2. **Context assembler** (`lib/context.js`). It resolves the entry point, takes an excerpt of
   the first dependency manifest, picks up to five large shallow source files, and renders the
   directory tree.
3. **Local inference** (`lib/local-briefing.js`). It applies first-match substring tables for
   purpose, run command and data flow. It builds capped lists of core files, safe areas and
   risky files, and produces four start steps. `lib/briefing.js` routes to this engine when no
   API key is set.

The Dafny modules follow those files:

| module | file | models |
|---|---|---|
| `Wrappers` | `wrappers.dfy` | `Option`, for JavaScript `null`/`undefined` |
| `Strings` | `strings.dfy` | `includes`, `startsWith`, `endsWith`, `toLowerCase`, `split`/`join` on one character, `slice`, and the line truncation of `readFilePreview` |
| `Rules` | `rules.dfy` | ordered first-match rule tables, `find` and `filter`. These are the reference definitions the if-chains are proved against. |
| `Detector` | `detector.dfy` | `lib/detector.js` |
| `Structure` | `structure.dfy` | `buildStructure` and `formatTree` of `lib/context.js` |
| `Context` | `context.dfy` | `buildContext` and `readFilePreview` of `lib/context.js` |
| `LocalBriefing` | `briefing.dfy` | `lib/local-briefing.js`, and the key routing of `lib/briefing.js` |
| `Scenarios` | `scenarios.dfy` | concrete file sets and what the model derives from them |

How each source function is modelled:

- **Pure if-chains become functions.** This covers `detectLanguage`, `detectPythonFramework`,
  `detectNodeFramework`, `guessPurpose`, `guessRunCommand` and `guessDataFlow`. Each is proved
  equal to the first match of an explicit ordered rule table.
- **Loops become methods.** This covers `getMostCommonExtension`, the loops of `buildContext`,
  `buildStructure`, `formatTree`, `identifyCoreFiles`, `identifySafeAreas` and
  `identifyDangerousFiles`. Each method carries loop invariants and is proved equal to a
  specification function. The properties the source promises are then proved about those
  functions as lemmas. `formatTree` is three methods: `FormatTree` holds the directory loop,
  `FormatDirBlock` renders one directory and recurses, and `FormatFiles` holds the file loop.
- **Loop-free steps stay methods too.** `generateStartSteps` and `generateLocalBriefing` have no
  loop. They are methods whose `ensures` give every element or field of the result.
- **File contents are a parameter.** They are a function `read: string -> Option<string>`, where
  `None` is a file that cannot be read.
- **The briefing is a record.** It is the record built at lib/local-briefing.js:9-20, before
  text layout.

Entry-point resolution uses a raw `endsWith` (lib/context.js:21), so candidate `index.js` also
matches `src/myindex.js`. The model keeps that raw suffix test.

The model keeps the code's other loose tests too. Django detection is a substring test on the
path (lib/detector.js:18). The risky-file dedup test asks whether a listed file contains the
entry point as a substring (lib/local-briefing.js:157).

## Model

| member | source | states |
|---|---|---|
| `Detector.DetectLanguageIsFirstMatch` | lib/detector.js:7-56 | `detectLanguage` is the first match of the ordered tier table: Cargo.toml, a path containing manage.py, pyproject.toml, go.mod, requirements.txt/Pipfile/setup.py, package.json, Gemfile, notebooks without an app signal. The extension fallback is the default. |
| `Detector.DetectLanguageTier` | lib/detector.js:15-47 | a tier decides the classification exactly when it fires and every earlier tier does not |
| `Detector.DetectLanguageFallback` | lib/detector.js:49-55 | when no tier fires, the most-common-extension fallback decides |
| `Detector.DetectLanguage` | lib/detector.js:7-56 | an empty entry-point list occurs only for the research environment or an unknown project |
| `Detector.CargoTomlWins` | lib/detector.js:15-17 | a file named Cargo.toml gives a Rust project with candidates src/main.rs, src/lib.rs, src/bin, whatever else is present |
| `Detector.ManagePyMakesDjango` | lib/detector.js:18-21 | without Cargo.toml, a path containing manage.py gives a Django application. Its first candidate is the first path ending in manage.py; if no path ends so, it is the literal "manage.py". |
| `Detector.Django` | lib/detector.js:19-20 | the Django classification is a Python "Django application" with three candidates. The first is the found manage.py path, or "manage.py" when there is none. Then come "wsgi.py" and "asgi.py". |
| `Detector.PackageJsonMakesNode` | lib/detector.js:35-37 | with package.json and none of the earlier manifests, the Node sub-classifier decides and the language is JavaScript/TypeScript |
| `Detector.NotebooksMakeResearch` | lib/detector.js:44-47 | with no manifest, an .ipynb extension and no path naming an app signal give the research environment with no entry points |
| `Detector.AppSignalMeansFallback` | lib/detector.js:99-102 | with no manifest, a path containing one of the app signals (manage.py, app.py, main.py, application.py, package.json, Cargo.toml, go.mod) rules out the research environment even beside notebooks, and the extension fallback decides |
| `Detector.NoNotebookMeansFallback` | lib/detector.js:44-55 | with no manifest and no .ipynb extension, the extension fallback decides |
| `Detector.PythonIsFirstMatch` | lib/detector.js:61-81 | the Python sub-classifier is first-match: Django, then app.py/application.py (Flask application), then a Flask module layout (Flask web service), then main.py (FastAPI). The default is the generic Python project with five candidates. |
| `Detector.DetectPythonFramework` | lib/detector.js:61-81 | every Python classification has language Python and at least three candidates |
| `Detector.FlaskService` | lib/detector.js:72-74 | the Flask web service has candidates wsgi.py, asgi.py, then the first path containing app/__init__.py or app\\__init__.py, or the literal "app/__init__.py" when there is none |
| `Detector.FlaskLayoutMakesService` | lib/detector.js:86-94 | without manage.py, app.py or application.py, a path containing app/__init__.py and a path naming routes, controllers, api, views or blueprints in any letter case make a Flask web service, whose last candidate is the first path holding the package initialiser |
| `Detector.NodeIsFirstMatch` | lib/detector.js:107-126 | the Node sub-classifier is first-match: next.config.js/.mjs, then a filename containing vite.config, then gatsby-config.js. The default is the generic Node.js project. |
| `Detector.DetectNodeFramework` | lib/detector.js:107-126 | every Node classification is JavaScript/TypeScript, and its candidates end with the base list after at most four prepended ones |
| `Detector.GetMostCommonExtension` | lib/detector.js:128-143 | the counting loop over a dictionary returns the scan's result |
| `Detector.MostCommonExtensionSpec` | lib/detector.js:128-143 | the result is null exactly when every extension is empty. Otherwise it is a non-empty extension of maximal count, and the first to reach that count (strict `>`). |
| `Detector.ScanStepInv` | lib/detector.js:133-140 | one loop iteration keeps the meaning of counts, max and mostCommon |
| `Detector.ScanInvHolds` | lib/detector.js:128-143 | the scan state after any prefix means what the loop variables mean |
| `Detector.Fallback` | lib/detector.js:50-55 | the fallback is an unknown project with no candidates. Its language is "Mixed" exactly when every extension is empty. |
| `Detector.FallbackNamesMostCommon` | lib/detector.js:50-55 | when some extension is non-empty, the fallback language names a most common extension, the first to reach that count |
| `Structure.BuildTree` | lib/context.js:63-83 | the trie-building loop yields the trie of the paths. Every directory lists exactly its own files, in traversal order. |
| `Structure.InsertPathFilesAt` | lib/context.js:66-82 | inserting a file appends its name to its own directory and changes no other directory's files |
| `Structure.TreeOfFilesAt` | lib/context.js:63-83 | in the trie of a path list, each directory holds the files whose path names it, in order |
| `Structure.DirIndexAppend` | lib/context.js:78 | creating a missing directory at the end of its parent does not move existing ones |
| `Structure.FormatTree` | lib/context.js:86-102 | the recursive rendering yields the text of the line list: the directory loop accumulates one block per directory, then the shown file lines follow |
| `Structure.FormatDirBlock` | lib/context.js:92-93 | one pass of the directory loop appends the directory's line, then its subtree rendered two spaces deeper |
| `Structure.FormatFiles` | lib/context.js:96-98 | the file loop appends one line per shown file name, in order |
| `Structure.BuildStructure` | lib/context.js:63-85 | the rendered structure is the rendering of the trie of all paths |
| `Structure.DirectoriesBeforeFiles` | lib/context.js:87-99 | at every level the directory blocks come first. The last min(50, n) lines are the first min(50, n) files in order. Every earlier line is a directory line of that level or lies deeper. |
| `Structure.LinesDepth` | lib/context.js:92-95 | no line of a subtree rendered at depth d is shallower than d |
| `Structure.LineIndent` | lib/context.js:93-98 | a line at depth d starts with exactly 2·d spaces and then its icon |
| `Structure.Indent` | lib/context.js:94 | the indent at depth d is 2·d spaces |
| `Structure.EveryDirectoryRendered` | lib/context.js:92-95 | directories are never truncated: the rendering has one directory line per directory of the trie |
| `Strings.TakeLinesSpec` | lib/context.js:110-111 | for n > 0 the lines of the truncated text are exactly the first n lines of the text. The truncated text is a prefix of the text, and it is the whole text when that has fewer than n line breaks. |
| `Strings.LowerContains` | lib/detector.js:90-93 | lower-casing a text keeps every occurrence, lower-cased: an upper-case route name still counts |
| `Strings.JoinSplit` | lib/context.js:110-111 | joining the split parts gives back the text |
| `Context.ReadFilePreview` | lib/context.js:107-115 | an unreadable file gives the placeholder. Otherwise, for n > 0, the lines of the result are exactly the first n lines of the content. The result is a prefix of the content, and it is the whole content when that is short enough. |
| `Context.ResolveEntrySpec` | lib/context.js:20-27 | no entry point exactly when no file matches any candidate. Otherwise it is the first file (in traversal order) matching the earliest candidate that any file matches. |
| `Context.FindEntry` | lib/context.js:20-27 | the search loop with its `break` yields the resolved entry |
| `Context.FindManifests` | lib/context.js:30-37 | the manifest filter is empty exactly when no file has a manifest name. Its first element is the first such file. |
| `Context.FirstManifest` | lib/context.js:30-37 | the dependency file is the first file, in traversal order, with one of the seven manifest names |
| `Context.KeyCandidates` | lib/context.js:40-43 | the candidates are exactly the input's files with at most two path segments and a source extension, each taken no more often than the input holds it |
| `Context.KeyCandidatesInOrder` | lib/context.js:40-43 | the candidates are the input's candidate files in traversal order with their multiplicity: candidate i is the file at position pos[i], the positions increase, and every candidate position is among them |
| `Context.FilterKeyCandidates` | lib/context.js:40-43 | the filter loop yields the key-file candidates |
| `Context.SortBySizeDescSpec` | lib/context.js:46-47 | the sort yields a size-descending permutation that keeps the traversal order among equal sizes |
| `Context.TopKeyFilesCount` | lib/context.js:46-48 | there are min(candidates, 5) key files |
| `Context.TopKeyFilesAreCandidates` | lib/context.js:40-48 | each key file is a shallow source file taken from the candidates, none repeated |
| `Context.TopKeyFilesSorted` | lib/context.js:46-48 | key files are listed largest first |
| `Context.TopKeyFilesLargest` | lib/context.js:46-48 | no unchosen candidate is larger than the smallest chosen one |
| `Context.TopKeyFilesStable` | lib/context.js:46-48 | among files of equal size, the chosen ones are the earliest in traversal order |
| `Context.PreviewKeyFiles` | lib/context.js:50-55 | each key file is recorded with its path and a ten-line preview, in order |
| `Context.BuildContext` | lib/context.js:7-58 | every field of the context: the type and language labels, the rendered structure, `totalFiles` equal to the input length, the entry point with a 50-line preview or null, the first manifest's 30-line preview or null, and the key files |
| `LocalBriefing.GuessPurposeIsFirstMatch` | lib/local-briefing.js:28-51 | the purpose is the first dependency keyword hit (express, next, react, vue, flask, django, fastapi). Only when none hits does the type table decide, with the "unclear" sentence as default. |
| `LocalBriefing.DependencyDecidesPurpose` | lib/local-briefing.js:32-39 | a dependency keyword decides the purpose whatever the type says |
| `LocalBriefing.GuessRunCommandIsFirstMatch` | lib/local-briefing.js:56-71 | the run command is the first match over the lower-cased type, in source order, with the README default |
| `LocalBriefing.GuessDataFlowIsFirstMatch` | lib/local-briefing.js:170-193 | the data flow is the first match over next.js, express/node, flask/django, react/vue, research/analysis, rust, with the fixed fallback |
| `LocalBriefing.IdentifyCoreFiles` | lib/local-briefing.js:76-103 | the loop yields the core-file list |
| `LocalBriefing.CoreFilesSpec` | lib/local-briefing.js:79-102 | at most five core files. The entry point comes first as "Main entry point". Every later entry is a key file with its label. An "Important source file" entry stands only at one of the first three places. |
| `LocalBriefing.CoreFilesEntryFirst` | lib/local-briefing.js:80-85 | when there is an entry point, it leads the core files |
| `LocalBriefing.CoreFilesBounds` | lib/local-briefing.js:79-102 | for any context: at most five core files, no more than the entry point and the key files together, and the entry point first when there is one |
| `LocalBriefing.CoreListKeepsLabelled` | lib/local-briefing.js:91-96 | every key file whose path names config/settings, route/controller or api/service is listed with that label, in that priority |
| `LocalBriefing.CoreListStart` | lib/local-briefing.js:79-100 | the entry item stays in front, and each key file adds at most one entry |
| `LocalBriefing.IdentifySafeAreas` | lib/local-briefing.js:108-126 | the loop yields the safe areas |
| `LocalBriefing.SafeAreasSpec` | lib/local-briefing.js:108-126 | at most five safe areas, each one of the 13 safe directories that the lower-cased structure names, in list order. When fewer than five are listed, every named safe directory is listed. The list is the first part of the filtered safe directories |
| `LocalBriefing.CollectPatternEntries` | lib/local-briefing.js:147-154 | the pattern loop pushes a match only while fewer than four are listed, in pattern order |
| `LocalBriefing.PatternEntry` | lib/local-briefing.js:150 | a pattern without '.' names a directory with a trailing '/'; one with '.' is kept as is |
| `LocalBriefing.AppendEntry` | lib/local-briefing.js:156-162 | the entry point is appended exactly when it is present and no listed file contains it |
| `LocalBriefing.IdentifyDangerousFiles` | lib/local-briefing.js:131-165 | the method yields the risky-file list |
| `LocalBriefing.DangerousFilesSpec` | lib/local-briefing.js:131-165 | at most four pattern entries, from named patterns, in pattern order. When fewer than four are listed, every named pattern is listed. Then the entry point, exactly when present and not contained in a pattern entry. So at most five entries. |
| `LocalBriefing.GenerateStartSteps` | lib/local-briefing.js:198-218 | always four steps. The first depends on whether there is an entry point, the second and third are fixed, and the fourth depends on the type naming api or server. |
| `LocalBriefing.GenerateLocalBriefing` | lib/local-briefing.js:8-20 | every field of the briefing record. The entry point shows "Not detected" when there is none. The four start steps are those of `generateStartSteps`: the entry point or a search for one, structure, configuration, then routes for an API or server and safe areas otherwise. |
| `LocalBriefing.GenerateBriefing` | lib/briefing.js:13-15 | the local engine answers exactly when the API key is absent or empty. Its briefing then has every field that `generateLocalBriefing` gives, including all four start steps. |
| `Rules.FirstFiringSpec` | lib/detector.js:15-55 | the first firing row has no firing row before it |
| `Rules.FilterKeepsOrder` | lib/local-briefing.js:119-123 | filtering keeps the input order |
| `Rules.FilterPositionsSpec` | lib/local-briefing.js:119-123 | the filter is a strictly increasing index map into its input that covers every passing position, so order holds even among equal elements |
| `Scenarios.RustBeatsNodeAndDjango` | lib/detector.js:15-17 | {Cargo.toml, package.json, manage.py} is a Rust project |
| `Scenarios.RustScenario` | lib/context.js:20-27 | {Cargo.toml, src/main.rs} is a Rust project whose entry point is src/main.rs |
| `Scenarios.DjangoScenario` | lib/detector.js:18-21 | {manage.py, app/models.py} is a Django application whose entry point is manage.py |
| `Scenarios.NotebookScenario` | lib/detector.js:44-47 | {notes.ipynb} is a research environment |
| `Scenarios.NextJsScenario` | lib/detector.js:115-117 | {package.json, next.config.js, pages/index.js} is a Next.js application |
| `Scenarios.FrequencyScenario` | lib/detector.js:7-56 | {a.md, b.md, c.txt} fires no tier and is classified as an unknown project in "Files with .md extension" with no candidates |
| `Scenarios.EarlierCandidateWins` | lib/context.js:20-26 | with candidates [A, B], a file matching A wins even when files match B |

## Left out

- File scanning (lib/scanner.js) is not part of this model. Its output, the list of file records, is the model's input. Sizes are unbounded naturals; the scanner's 1 MiB cap is not modelled.
- File reading is the `read` parameter, keyed by the relative path. The source reads by absolute path; the two name the same file.
- The remote briefing in lib/briefing.js is not modelled: the SDK call, async/await, parsing of the reply, the environment lookup and `formatBriefing`. `LocalBriefing.GenerateBriefing` takes the key as a parameter and yields `None` on the remote path.
- `formatLocalBriefing` (lib/local-briefing.js:223-276) is text layout with padding and icons and is not modelled. `LocalBriefing.GenerateLocalBriefing` yields the record it lays out.
- cli.js and the demo scripts are argument parsing, console output, git and process I/O, and are not modelled.
- Strings.Lower: lower-cases ASCII letters only. JavaScript `toLowerCase` also folds non-ASCII letters, so `Detector.HasFlaskModuleLayout` and the `LocalBriefing` tables agree with the source only on ASCII text.
- Context.SortBySizeDesc: the in-place `Array.prototype.sort` is a stable insertion sort on a value sequence, so sorting in place is not modelled. The sorted array is a filtered copy, so the input list is unchanged in both.
- Structure.BuildTree: the trie is a value datatype, rebuilt by recursive insertion. The walk of a `current` pointer through shared mutable objects is not modelled.
- Structure.Lines: directories render in first-insertion order. JavaScript `Object.keys` lists integer-like names (such as `2024/`) first in numeric order, and this is not modelled.
- Structure.BuildStructure and Context.BuildContext: require that no directory segment is `_files` or a name a plain JavaScript object inherits (`constructor`, `__proto__`, `toString`, `toLocaleString`, `valueOf`, `hasOwnProperty`, `isPrototypeOf`, `propertyIsEnumerable` and the four `__define`/`__lookup` accessors). The source keeps a node's files under `_files`, and lib/context.js:78 takes an inherited property for an existing directory: `constructor/a.js` renders nothing there, and `__proto__/` writes onto every object. The model does not capture what the source prints for such paths.
- The path separator is fixed to '/'. `Detector.HasFlaskModuleLayout` and `Detector.FlaskService` still test the backslash forms, as the source does.

