/** The heuristic analyzer behind the test-summary route: each file's
    extension picks one of four handlers, and each handler turns substring
    checks on the file text into an ordered list of test summaries. */
module Analyzer {
  import opened Strings
  import opened Sequences
  import opened TestCases

  /** A selected file together with its decoded content. */
  datatype SourceFile = SourceFile(name: string, path: string, content: string)

  /** One record a handler may push: everything but the file path. */
  datatype Entry = Entry(tag: string, title: string, description: string, framework: string, kind: string, priority: string)

  /** The summary a handler pushes for `entry` on the file at `path`. */
  function Record(path: string, entry: Entry): TestSummary
  {
    TestSummary(SummaryId(path, entry.tag), entry.title, entry.description, entry.framework, entry.kind, path, entry.priority)
  }

  /** The summaries for a list of entries, in order. */
  function Records(path: string, entries: seq<Entry>): (r: seq<TestSummary>)
    ensures |r| == |entries|
  {
    seq(|entries|, i requires 0 <= i < |entries| => Record(path, entries[i]))
  }

  /** The tags of a list of entries, in order. */
  function EntryTags(entries: seq<Entry>): (tags: seq<string>)
    ensures |tags| == |entries|
  {
    seq(|entries|, i requires 0 <= i < |entries| => entries[i].tag)
  }

  /** A handler's pushes: entry `k` is pushed iff `flags[k]`, in the order of `entries`. */
  function Emitted(path: string, entries: seq<Entry>, flags: seq<bool>): seq<TestSummary>
    requires |entries| == |flags|
  {
    Records(path, Select(flags, entries))
  }

  /** `file.name.split(".").pop()?.toLowerCase()`. */
  function Extension(name: string): string
  {
    ToLower(AfterLast(name, '.'))
  }

  // The texts of the catalogs. They are named constants so that the verifier
  // handles each as one term rather than letter by letter.

  const RenderTitle := " - Render Test"
  const RenderDescriptionHead := "Test that "
  const RenderDescriptionTail := " renders without crashing and displays expected content"
  const PropsTitle := " - Props Test"
  const PropsDescription := "Test component behavior with different prop combinations and edge cases"
  const StateTitle := " - State Management Test"
  const StateDescription := "Test state updates and component re-rendering with useState hooks"
  const EventsTitle := " - Event Handling Test"
  const EventsDescription := "Test user interactions and event handlers (clicks, form submissions, etc.)"
  const EffectsTitle := " - Side Effects Test"
  const EffectsDescription := "Test useEffect hooks, API calls, and cleanup functions"

  const FunctionsTitle := " - Function Tests"
  const ModuleFunctionsDescription := "Test exported functions with various inputs and edge cases"
  const AsyncTitle := " - Async Operations Test"
  const AsyncDescription := "Test asynchronous functions, promises, and error handling"
  const ApiTitle := " - API Integration Test"
  const ApiDescription := "Test API calls, network requests, and response handling"

  const PythonFunctionsDescription := "Test Python functions with pytest framework"
  const ClassesTitle := " - Class Tests"
  const ClassesDescription := "Test class methods, initialization, and inheritance"
  const SeleniumTitle := " - Selenium Tests"
  const SeleniumDescription := "Test web automation and browser interactions"

  const JUnitTitle := " - JUnit Tests"
  const JUnitDescription := "Test Java class methods and business logic"
  const SpringTitle := " - Spring Integration Tests"
  const SpringDescription := "Test Spring components and web layer"

  /** The five records of the React handler, in the order it pushes them. */
  function ReactCatalog(name: string): seq<Entry>
  {
    [ Entry("render", name + RenderTitle, RenderDescriptionHead + name + RenderDescriptionTail, ReactFramework, UnitTest, "High"),
      Entry("props", name + PropsTitle, PropsDescription, ReactFramework, UnitTest, "High"),
      Entry("state", name + StateTitle, StateDescription, ReactFramework, UnitTest, "Medium"),
      Entry("events", name + EventsTitle, EventsDescription, ReactFramework, IntegrationTest, "High"),
      Entry("effects", name + EffectsTitle, EffectsDescription, ReactFramework, IntegrationTest, "Medium") ]
  }

  /** The three records of the module handler, in push order. */
  function ModuleCatalog(name: string): seq<Entry>
  {
    [ Entry("functions", name + FunctionsTitle, ModuleFunctionsDescription, JestFramework, UnitTest, "High"),
      Entry("async", name + AsyncTitle, AsyncDescription, JestFramework, IntegrationTest, "High"),
      Entry("api", name + ApiTitle, ApiDescription, JestMswFramework, IntegrationTest, "Medium") ]
  }

  /** The three records of the Python handler, in push order. */
  function PythonCatalog(name: string): seq<Entry>
  {
    [ Entry("functions", name + FunctionsTitle, PythonFunctionsDescription, PytestFramework, UnitTest, "High"),
      Entry("classes", name + ClassesTitle, ClassesDescription, PytestFramework, UnitTest, "High"),
      Entry("selenium", name + SeleniumTitle, SeleniumDescription, PytestSeleniumFramework, E2ETest, "Medium") ]
  }

  /** The two records of the Java handler, in push order. */
  function JavaCatalog(name: string): seq<Entry>
  {
    [ Entry("junit", name + JUnitTitle, JUnitDescription, JUnitFramework, UnitTest, "High"),
      Entry("spring", name + SpringTitle, SpringDescription, SpringFramework, IntegrationTest, "Medium") ]
  }

  /** The checks of `analyzeReactComponent`, one per catalog entry: render always, then
      props (`props` or a typed binding), state (`useState`), events (an `on...=` attribute)
      and effects (`useEffect`). The source also computes whether the file has `&&` or
      `?` but never uses the result. */
  function ReactFlags(c: string, m: Matchers): (flags: seq<bool>)
    ensures |flags| == 5 && flags[0]
  {
    [true, Contains(c, "props") || m.typedBinding(c), Contains(c, "useState"), m.eventAttribute(c), Contains(c, "useEffect")]
  }

  /** `analyzeReactComponent`. */
  function AnalyzeReactComponent(file: SourceFile, m: Matchers): seq<TestSummary>
  {
    Emitted(file.path, ReactCatalog(StripExtension(file.name, ComponentExtensions)), ReactFlags(file.content, m))
  }

  /** The checks of `analyzeJSModule`: functions (an export declaration), async
      (`async` or `await`) and api (`fetch`, `axios` or `http`). */
  function ModuleFlags(c: string, m: Matchers): (flags: seq<bool>)
    ensures |flags| == 3
  {
    [m.exportDeclaration(c), Contains(c, "async") || Contains(c, "await"), Contains(c, "fetch") || Contains(c, "axios") || Contains(c, "http")]
  }

  /** `analyzeJSModule`: no baseline summary. */
  function AnalyzeJSModule(file: SourceFile, m: Matchers): seq<TestSummary>
  {
    Emitted(file.path, ModuleCatalog(StripExtension(file.name, ModuleExtensions)), ModuleFlags(file.content, m))
  }

  /** The checks of `analyzePythonFile`: functions (`def `), classes (`class `) and
      selenium (`selenium` or `webdriver`). The source also computes whether the file
      mentions `requests` or `urllib` but never uses the result. */
  function PythonFlags(c: string): (flags: seq<bool>)
    ensures |flags| == 3
  {
    [Contains(c, "def "), Contains(c, "class "), Contains(c, "selenium") || Contains(c, "webdriver")]
  }

  /** `analyzePythonFile`; the name loses its first `.py`, wherever it occurs. */
  function AnalyzePythonFile(file: SourceFile): seq<TestSummary>
  {
    Emitted(file.path, PythonCatalog(ReplaceFirst(file.name, ".py", "")), PythonFlags(file.content))
  }

  /** The checks of `analyzeJavaFile`: junit (`class ` together with `public ` or
      `private `) and spring (`@Controller` or `@Service`). */
  function JavaFlags(c: string): (flags: seq<bool>)
    ensures |flags| == 2
  {
    [Contains(c, "class ") && (Contains(c, "public ") || Contains(c, "private ")), Contains(c, "@Controller") || Contains(c, "@Service")]
  }

  /** `analyzeJavaFile`; the name loses its first `.java`. */
  function AnalyzeJavaFile(file: SourceFile): seq<TestSummary>
  {
    Emitted(file.path, JavaCatalog(ReplaceFirst(file.name, ".java", "")), JavaFlags(file.content))
  }

  /** The extensions the dispatch recognises. */
  const AnalyzedExtensions: set<string> := {"tsx", "jsx", "ts", "js", "py", "java"}

  /** The body of the `forEach` in `generateTestSummaries`: dispatch on the extension. */
  function SummariesFor(file: SourceFile, m: Matchers): (r: seq<TestSummary>)
    ensures Extension(file.name) !in AnalyzedExtensions ==> r == []
  {
    var ext := Extension(file.name);
    if ext == "tsx" || ext == "jsx" then AnalyzeReactComponent(file, m)
    else if ext == "ts" || ext == "js" then AnalyzeJSModule(file, m)
    else if ext == "py" then AnalyzePythonFile(file)
    else if ext == "java" then AnalyzeJavaFile(file)
    else []
  }

  /** The summaries of all files: each file's summaries, in file order. */
  function AllSummaries(files: seq<SourceFile>, m: Matchers): seq<TestSummary>
  {
    ConcatMap(file => SummariesFor(file, m), files)
  }

  /** `generateTestSummaries`: the `forEach` loop that pushes each file's summaries. */
  method GenerateTestSummaries(files: seq<SourceFile>, m: Matchers) returns (summaries: seq<TestSummary>)
    ensures summaries == AllSummaries(files, m)
  {
    summaries := [];
    for i := 0 to |files|
      invariant summaries == AllSummaries(files[..i], m)
    {
      assert files[..i + 1][..i] == files[..i];
      summaries := summaries + SummariesFor(files[i], m);
    }
    assert files[..|files|] == files;
  }

  // ---------------------------------------------------------------------------
  // Properties of the handlers

  /** Taking tags commutes with selecting entries. */
  lemma {:induction false} SelectEntryTags(flags: seq<bool>, entries: seq<Entry>)
    requires |flags| == |entries|
    ensures EntryTags(Select(flags, entries)) == Select(flags, EntryTags(entries))
    decreases |entries|
  {
    if entries != [] {
      SelectEntryTags(flags[1..], entries[1..]);
      assert EntryTags(entries)[1..] == EntryTags(entries[1..]);
      var head := if flags[0] then [entries[0]] else [];
      assert EntryTags(head + Select(flags[1..], entries[1..])) == EntryTags(head) + EntryTags(Select(flags[1..], entries[1..]));
    }
  }

  /** `s` is the record of some catalog entry, and its id ends with that entry's tag. */
  ghost predicate FromCatalog(s: TestSummary, path: string, entries: seq<Entry>, tags: seq<string>)
  {
    exists k :: 0 <= k < |entries| && k < |tags| && s == Record(path, entries[k]) && TagOf(s.id) == tags[k]
  }

  /** Every summary a handler emits is the record of a catalog entry, and its id ends
      with that entry's tag. */
  lemma EmittedOrigin(path: string, entries: seq<Entry>, flags: seq<bool>, tags: seq<string>)
    requires |entries| == |flags| && EntryTags(entries) == tags
    requires forall k :: 0 <= k < |tags| ==> '-' !in tags[k]
    ensures var r := Emitted(path, entries, flags);
      forall i :: 0 <= i < |r| ==> FromCatalog(r[i], path, entries, tags)
  {
    var chosen := Select(flags, entries);
    var r := Emitted(path, entries, flags);
    SelectSubset(flags, entries);
    forall i | 0 <= i < |r| ensures FromCatalog(r[i], path, entries, tags) {
      assert r[i] == Record(path, chosen[i]);
      assert chosen[i] in chosen;
      var k :| 0 <= k < |entries| && entries[k] == chosen[i];
      assert tags[k] == chosen[i].tag;
      SummaryIdParts(path, chosen[i].tag);
      assert r[i] == Record(path, entries[k]) && TagOf(r[i].id) == tags[k];
    }
  }

  /** The tags of what a handler emits are the flagged catalog tags, in catalog order. */
  lemma EmittedTags(path: string, entries: seq<Entry>, flags: seq<bool>, tags: seq<string>)
    requires |entries| == |flags| && EntryTags(entries) == tags
    requires forall k :: 0 <= k < |tags| ==> '-' !in tags[k]
    ensures Tags(Emitted(path, entries, flags)) == Select(flags, tags)
  {
    var chosen := Select(flags, entries);
    var r := Emitted(path, entries, flags);
    EmittedOrigin(path, entries, flags, tags);
    forall i | 0 <= i < |r| ensures Tags(r)[i] == EntryTags(chosen)[i] {
      assert FromCatalog(r[i], path, entries, tags);
      var k :| 0 <= k < |entries| && k < |tags| && r[i] == Record(path, entries[k]) && TagOf(r[i].id) == tags[k];
    }
    SelectEntryTags(flags, entries);
  }

  /** What every handler returns, for a catalog whose tags `tags` are distinct and free
      of `-`: the tags of the summaries are the flagged tags in catalog order, a tag
      appears exactly when its flag is set, every summary belongs to the file and is
      the record of a catalog entry, and no two summaries share an id. */
  lemma HandlerShape(path: string, entries: seq<Entry>, flags: seq<bool>, tags: seq<string>)
    requires |entries| == |flags| && EntryTags(entries) == tags
    requires UsableTags(tags)
    ensures var r := Emitted(path, entries, flags);
      && |r| <= |entries|
      && Tags(r) == Select(flags, tags)
      && (forall k :: 0 <= k < |tags| ==> (tags[k] in Tags(r) <==> flags[k]))
      && OfFile(r, path) && DistinctIds(r)
      && forall s :: s in r ==> FromCatalog(s, path, entries, tags)
  {
    var r := Emitted(path, entries, flags);
    EmittedOrigin(path, entries, flags, tags);
    EmittedTags(path, entries, flags, tags);
    forall k | 0 <= k < |tags| ensures tags[k] in Tags(r) <==> flags[k] {
      SelectMember(flags, tags, k);
    }
    SelectDistinct(flags, tags);
    DistinctTagsDistinctIds(r);
  }

  /** Tags that can serve a catalog: no two alike, and none holding the `-` that ends a path in an id. */
  predicate UsableTags(tags: seq<string>)
  {
    Distinct(tags) && forall k :: 0 <= k < |tags| ==> '-' !in tags[k]
  }

  /** The four catalogs' tag lists are usable. */
  lemma CatalogTagsUsable()
    ensures UsableTags(ReactTags) && UsableTags(ModuleTags) && UsableTags(PythonTags) && UsableTags(JavaTags)
  {
    assert UsableTags(ReactTags);
    assert UsableTags(ModuleTags);
    assert UsableTags(PythonTags);
  }

  /** Every entry of the catalog has a High or Medium priority. */
  predicate KnownPriorities(entries: seq<Entry>)
  {
    forall k :: 0 <= k < |entries| ==> entries[k].priority in {"High", "Medium"}
  }

  const ReactTags: seq<string> := ["render", "props", "state", "events", "effects"]

  /** The React catalog: the tags of `ReactTags`, all with the React Testing Library framework. */
  lemma ReactCatalogFacts(name: string)
    ensures var entries := ReactCatalog(name);
      && EntryTags(entries) == ReactTags && KnownPriorities(entries)
      && forall k :: 0 <= k < |entries| ==> entries[k].framework == ReactFramework
  {
  }

  /** The React handler's tags are those of `ReactTags` whose check in `ReactFlags`
      succeeds, in that order, and its summaries have distinct ids of the file. */
  lemma ReactComponentShape(file: SourceFile, m: Matchers)
    ensures var r := AnalyzeReactComponent(file, m);
      var flags := ReactFlags(file.content, m);
      && Tags(r) == Select(flags, ReactTags)
      && (forall k :: 0 <= k < 5 ==> (ReactTags[k] in Tags(r) <==> flags[k]))
      && OfFile(r, file.path) && DistinctIds(r)
  {
    var name := StripExtension(file.name, ComponentExtensions);
    ReactCatalogFacts(name);
    CatalogTagsUsable();
    HandlerShape(file.path, ReactCatalog(name), ReactFlags(file.content, m), ReactTags);
  }

  /** The React handler always returns the render summary first, and at most five. */
  lemma ReactComponentRenderFirst(file: SourceFile, m: Matchers)
    ensures var r := AnalyzeReactComponent(file, m);
      && 1 <= |r| <= 5
      && r[0].id == SummaryId(file.path, "render")
      && r[0].title == StripExtension(file.name, ComponentExtensions) + RenderTitle
  {
    var entries := ReactCatalog(StripExtension(file.name, ComponentExtensions));
    assert Select(ReactFlags(file.content, m), entries)[0] == entries[0];
  }

  /** Every React summary uses the React Testing Library framework and a High or Medium priority. */
  lemma ReactComponentFields(file: SourceFile, m: Matchers)
    ensures forall s :: s in AnalyzeReactComponent(file, m) ==> s.framework == ReactFramework && s.priority in {"High", "Medium"}
  {
    var name := StripExtension(file.name, ComponentExtensions);
    var entries := ReactCatalog(name);
    var r := AnalyzeReactComponent(file, m);
    ReactCatalogFacts(name);
    CatalogTagsUsable();
    EmittedOrigin(file.path, entries, ReactFlags(file.content, m), ReactTags);
    forall s | s in r ensures s.framework == ReactFramework && s.priority in {"High", "Medium"} {
      var i :| 0 <= i < |r| && r[i] == s;
      assert FromCatalog(r[i], file.path, entries, ReactTags);
    }
  }

  const ModuleTags: seq<string> := ["functions", "async", "api"]

  /** The module catalog: the tags of `ModuleTags`; only the api entry uses "Jest + MSW". */
  lemma ModuleCatalogFacts(name: string)
    ensures var entries := ModuleCatalog(name);
      && EntryTags(entries) == ModuleTags && KnownPriorities(entries)
      && forall k :: 0 <= k < |entries| ==> (entries[k].framework == JestMswFramework <==> ModuleTags[k] == "api")
  {
  }

  /** The module handler has no baseline: it returns at most three summaries, those of
      `ModuleTags` whose check in `ModuleFlags` succeeds, in that order; exactly the api
      summary uses the "Jest + MSW" framework. */
  lemma JSModuleShape(file: SourceFile, m: Matchers)
    ensures var r := AnalyzeJSModule(file, m);
      var flags := ModuleFlags(file.content, m);
      && |r| <= 3
      && Tags(r) == Select(flags, ModuleTags)
      && (forall k :: 0 <= k < 3 ==> (ModuleTags[k] in Tags(r) <==> flags[k]))
      && OfFile(r, file.path) && DistinctIds(r)
      && (forall s :: s in r ==> (s.framework == JestMswFramework <==> TagOf(s.id) == "api"))
      && forall s :: s in r ==> s.priority in {"High", "Medium"}
  {
    var name := StripExtension(file.name, ModuleExtensions);
    ModuleCatalogFacts(name);
    CatalogTagsUsable();
    HandlerShape(file.path, ModuleCatalog(name), ModuleFlags(file.content, m), ModuleTags);
  }

  const PythonTags: seq<string> := ["functions", "classes", "selenium"]

  /** The Python catalog: the tags of `PythonTags`; only the selenium entry is an E2E test. */
  lemma PythonCatalogFacts(name: string)
    ensures var entries := PythonCatalog(name);
      && EntryTags(entries) == PythonTags && KnownPriorities(entries)
      && forall k :: 0 <= k < |entries| ==> (entries[k].kind == E2ETest <==> PythonTags[k] == "selenium")
  {
  }

  /** The Python handler returns the summaries of `PythonTags` whose check in
      `PythonFlags` succeeds, in that order; exactly the selenium summary is an E2E test. */
  lemma PythonFileShape(file: SourceFile)
    ensures var r := AnalyzePythonFile(file);
      var flags := PythonFlags(file.content);
      && |r| <= 3
      && Tags(r) == Select(flags, PythonTags)
      && (forall k :: 0 <= k < 3 ==> (PythonTags[k] in Tags(r) <==> flags[k]))
      && OfFile(r, file.path) && DistinctIds(r)
      && (forall s :: s in r ==> (s.kind == E2ETest <==> TagOf(s.id) == "selenium"))
      && forall s :: s in r ==> s.priority in {"High", "Medium"}
  {
    var name := ReplaceFirst(file.name, ".py", "");
    PythonCatalogFacts(name);
    CatalogTagsUsable();
    HandlerShape(file.path, PythonCatalog(name), PythonFlags(file.content), PythonTags);
  }

  const JavaTags: seq<string> := ["junit", "spring"]

  /** The Java catalog: the tags of `JavaTags`. */
  lemma JavaCatalogFacts(name: string)
    ensures var entries := JavaCatalog(name);
      EntryTags(entries) == JavaTags && KnownPriorities(entries)
  {
  }

  /** The Java handler returns the summaries of `JavaTags` whose check in `JavaFlags`
      succeeds, in that order. */
  lemma JavaFileShape(file: SourceFile)
    ensures var r := AnalyzeJavaFile(file);
      var flags := JavaFlags(file.content);
      && |r| <= 2
      && Tags(r) == Select(flags, JavaTags)
      && (forall k :: 0 <= k < 2 ==> (JavaTags[k] in Tags(r) <==> flags[k]))
      && OfFile(r, file.path) && DistinctIds(r)
      && forall s :: s in r ==> s.priority in {"High", "Medium"}
  {
    var name := ReplaceFirst(file.name, ".java", "");
    JavaCatalogFacts(name);
    CatalogTagsUsable();
    HandlerShape(file.path, JavaCatalog(name), JavaFlags(file.content), JavaTags);
  }

  // ---------------------------------------------------------------------------
  // Properties of the whole analysis

  /** Every summary of a file belongs to it, has a known priority, and no two share an id. */
  lemma SummariesForShape(file: SourceFile, m: Matchers)
    ensures var r := SummariesFor(file, m);
      && OfFile(r, file.path) && DistinctIds(r)
      && forall s :: s in r ==> s.priority in {"High", "Medium"}
  {
    var ext := Extension(file.name);
    if ext == "tsx" || ext == "jsx" {
      ReactComponentShape(file, m);
      ReactComponentFields(file, m);
    } else if ext == "ts" || ext == "js" {
      JSModuleShape(file, m);
    } else if ext == "py" {
      PythonFileShape(file);
    } else if ext == "java" {
      JavaFileShape(file);
    }
  }

  /** The analysis of a list of files is the concatenation of the analyses of its parts. */
  lemma AllSummariesAppend(a: seq<SourceFile>, b: seq<SourceFile>, m: Matchers)
    ensures AllSummaries(a + b, m) == AllSummaries(a, m) + AllSummaries(b, m)
  {
    ConcatMapAppend(file => SummariesFor(file, m), a, b);
  }

  /** Every summary of the whole analysis belongs to one of the files and has a known priority. */
  lemma AllSummariesOrigin(files: seq<SourceFile>, m: Matchers)
    ensures forall s :: s in AllSummaries(files, m) ==>
      s.priority in {"High", "Medium"} &&
      (exists k :: 0 <= k < |files| && s.file == files[k].path) &&
      s.id == SummaryId(s.file, TagOf(s.id))
  {
    forall s | s in AllSummaries(files, m)
      ensures s.priority in {"High", "Medium"}
      ensures exists k :: 0 <= k < |files| && s.file == files[k].path
      ensures s.id == SummaryId(s.file, TagOf(s.id))
    {
      SummaryOrigin(files, m, s);
    }
  }

  lemma SummaryOrigin(files: seq<SourceFile>, m: Matchers, s: TestSummary)
    requires s in AllSummaries(files, m)
    ensures s.priority in {"High", "Medium"}
    ensures exists k :: 0 <= k < |files| && s.file == files[k].path
    ensures s.id == SummaryId(s.file, TagOf(s.id))
  {
    ConcatMapOrigin(file => SummariesFor(file, m), files, s);
    var k :| 0 <= k < |files| && s in SummariesFor(files[k], m);
    SummariesForShape(files[k], m);
  }

  /** Files with pairwise distinct paths get pairwise distinct summary ids. */
  lemma {:induction false} AllSummariesDistinctIds(files: seq<SourceFile>, m: Matchers)
    requires forall i, j :: 0 <= i < j < |files| ==> files[i].path != files[j].path
    ensures DistinctIds(AllSummaries(files, m))
    decreases |files|
  {
    if files != [] {
      var init := files[..|files| - 1];
      var last := files[|files| - 1];
      assert AllSummaries(files, m) == AllSummaries(init, m) + SummariesFor(last, m);
      AllSummariesDistinctIds(init, m);
      SummariesForShape(last, m);
      AppendFileDistinctIds(init, last, m);
    }
  }

  /** Adding the summaries of a file whose path no earlier file has keeps the ids distinct. */
  lemma AppendFileDistinctIds(init: seq<SourceFile>, last: SourceFile, m: Matchers)
    requires forall k :: 0 <= k < |init| ==> init[k].path != last.path
    requires DistinctIds(AllSummaries(init, m))
    ensures DistinctIds(AllSummaries(init, m) + SummariesFor(last, m))
  {
    var a := AllSummaries(init, m);
    var b := SummariesFor(last, m);
    AllSummariesOrigin(init, m);
    SummariesForShape(last, m);
    forall i, j | 0 <= i < |a| && 0 <= j < |b| ensures a[i].id != b[j].id {
      assert a[i] in a;
      DistinctAcross(init, last, a[i], b[j]);
    }
    DistinctIdsAppend(a, b);
  }

  /** A summary of an earlier file and one of a later file with another path differ in id. */
  lemma DistinctAcross(init: seq<SourceFile>, last: SourceFile, x: TestSummary, y: TestSummary)
    requires (exists k :: 0 <= k < |init| && x.file == init[k].path) && forall k :: 0 <= k < |init| ==> init[k].path != last.path
    requires x.id == SummaryId(x.file, TagOf(x.id)) && y.file == last.path && y.id == SummaryId(y.file, TagOf(y.id))
    ensures x.id != y.id
  {
    if x.id == y.id {
      SummaryIdInjective(x.file, TagOf(x.id), y.file, TagOf(y.id));
    }
  }

  /** Concatenating two lists without duplicate ids, and without an id in common, gives a
      list without duplicate ids. */
  lemma DistinctIdsAppend(a: seq<TestSummary>, b: seq<TestSummary>)
    requires DistinctIds(a) && DistinctIds(b)
    requires forall i, j :: 0 <= i < |a| && 0 <= j < |b| ==> a[i].id != b[j].id
    ensures DistinctIds(a + b)
  {
    forall i, j | 0 <= i < j < |a + b| ensures (a + b)[i].id != (a + b)[j].id {
      if j < |a| {
        assert (a + b)[i] == a[i] && (a + b)[j] == a[j];
      } else if i >= |a| {
        assert (a + b)[i] == b[i - |a|] && (a + b)[j] == b[j - |a|];
      } else {
        assert (a + b)[i] == a[i] && (a + b)[j] == b[j - |a|];
      }
    }
  }

  // ---------------------------------------------------------------------------
  // The route's input handling

  /** What the content fetch returned for one requested file. */
  datatype Fetch = Fetched(file: SourceFile) | FetchFailed

  /** The route's responses. */
  datatype SummariesResponse =
    | Unauthorized                                       // 401
    | NoFiles                                            // 400 "No files provided"
    | GenerationFailed                                   // 500 "Failed to generate test cases"
    | SummaryList(summaries: seq<TestSummary>, totalFiles: nat)

  /** The files of a list of fetches that all succeeded. */
  function FetchedFiles(fetches: seq<Fetch>): (files: seq<SourceFile>)
    requires forall i :: 0 <= i < |fetches| ==> fetches[i].Fetched?
    ensures |files| == |fetches| && forall i :: 0 <= i < |fetches| ==> files[i] == fetches[i].file
  {
    seq(|fetches|, i requires 0 <= i < |fetches| => fetches[i].file)
  }

  /** The summary route: 401 without a session token, 400 for an empty file list,
      500 when any content fetch fails, and otherwise the analysis of all files. */
  function SummariesRoute(hasToken: bool, fetches: seq<Fetch>, m: Matchers): (r: SummariesResponse)
    ensures !hasToken ==> r == Unauthorized
    ensures hasToken && fetches == [] ==> r == NoFiles
    ensures r == GenerationFailed <==> hasToken && fetches != [] && exists i :: 0 <= i < |fetches| && fetches[i].FetchFailed?
    ensures r.SummaryList? <==> hasToken && fetches != [] && forall i :: 0 <= i < |fetches| ==> fetches[i].Fetched?
    ensures r.SummaryList? ==>
      && (forall i :: 0 <= i < |fetches| ==> fetches[i].Fetched?)
      && r.totalFiles == |fetches|
      && r.summaries == AllSummaries(FetchedFiles(fetches), m)
  {
    if !hasToken then Unauthorized
    else if fetches == [] then NoFiles
    else if exists i :: 0 <= i < |fetches| && fetches[i].FetchFailed? then GenerationFailed
    else SummaryList(AllSummaries(FetchedFiles(fetches), m), |fetches|)
  }
}
