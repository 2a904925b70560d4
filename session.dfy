/** The home page's session: the files picked for analysis, the mock
    summaries and mock test code it generates on the client, and the
    collection of generated tests, kept as the fields of one object whose
    handlers update them. */
module Session {
  import opened Strings
  import opened Sequences
  import opened TestCases
  import opened Analyzer
  import opened Renderer

  /** An entry of the repository file listing (`size` is not used). */
  datatype FileItem = FileItem(name: string, path: string, kind: string)

  /** The repository the user picked (the fields the page reads). */
  datatype Repository = Repository(name: string, fullName: string)

  /** The mock test code, by template; each carries the names it interpolates. */
  datatype MockCode =
    | ReactMock(component: string)
    | PytestMock(component: string, className: string)
    | JUnitMock(component: string, field: string)
    | GenericMock(title: string, component: string)

  /** A generated test: the summary, its code and the test file name. */
  datatype GeneratedTest = GeneratedTest(summary: TestSummary, code: MockCode, fileName: string)

  /** The page's tabs: "repositories", "files" and "tests". */
  datatype Tab = RepositoriesTab | FilesTab | TestsTab

  /** The badge variants `getPriorityColor` returns. */
  datatype BadgeVariant = Destructive | DefaultVariant | Secondary

  // ---------------------------------------------------------------------------
  // The file list

  /** `/\.(tsx?|jsx?|py|java)$/`: the name ends in one of the six source extensions (case-sensitive). */
  predicate HasListedExtension(name: string)
  {
    exists k :: 0 <= k < |SourceExtensions| && EndsWith(name, "." + SourceExtensions[k])
  }

  /** The file-list filter of `handleRepositorySelect`. */
  predicate IsListed(item: FileItem)
  {
    item.kind == "file" && HasListedExtension(item.name)
  }

  /** The entries of a listing that the page shows. */
  function ListedFiles(items: seq<FileItem>): seq<FileItem>
  {
    Filter(IsListed, items)
  }

  /** The listing keeps exactly the code files, their number of occurrences and their order. */
  lemma ListedFilesShape(items: seq<FileItem>, x: FileItem)
    ensures var r := ListedFiles(items);
      && (forall i :: 0 <= i < |r| ==> r[i].kind == "file" && HasListedExtension(r[i].name))
      && multiset(r)[x] == (if IsListed(x) then multiset(items)[x] else 0)
      && IsSubseq(r, items)
  {
    FilterCount(IsListed, items, x);
    FilterSubseq(IsListed, items);
  }

  /** A listed name loses its extension when the page names its test file or component,
      and a name the page does not list keeps it. */
  lemma ListedIffStripped(name: string)
    ensures HasListedExtension(name) <==> StripExtension(name, SourceExtensions) != name
  {
    if HasListedExtension(name) {
      var k :| 0 <= k < |SourceExtensions| && EndsWith(name, "." + SourceExtensions[k]);
      StripShortens(name, SourceExtensions, k);
    }
  }

  /** Every listed file reaches one of the analyzer's four handlers. */
  lemma ListedFilesAnalyzed(item: FileItem)
    requires IsListed(item)
    ensures Extension(item.name) in AnalyzedExtensions
  {
    var k :| 0 <= k < |SourceExtensions| && EndsWith(item.name, "." + SourceExtensions[k]);
    var e := SourceExtensions[k];
    SourceExtensionsLower(k);
    var n := item.name;
    var head := n[..|n| - |e| - 1];
    assert n == head + ['.'] + e;
    AfterLastOfJoin(head, '.', e);
  }

  /** The six source extensions are lower case and hold no `.`. */
  lemma SourceExtensionsLower(k: nat)
    requires k < |SourceExtensions|
    ensures '.' !in SourceExtensions[k] && ToLower(SourceExtensions[k]) == SourceExtensions[k]
    ensures SourceExtensions[k] in AnalyzedExtensions
  {
  }

  // ---------------------------------------------------------------------------
  // Mock summaries

  /** The records the mock generator pushes for a file with extension `ext` and base name `base`. */
  function MockEntries(ext: string, base: string): (entries: seq<Entry>)
  {
    if ext == "tsx" || ext == "jsx" then
      [ Entry("render", base + RenderTitle, RenderDescriptionHead + base + RenderDescriptionTail, ReactFramework, UnitTest, "High"),
        Entry("props", base + PropsTitle, PropsDescription, ReactFramework, UnitTest, "High") ]
    else if ext == "py" then
      [ Entry("functions", base + FunctionsTitle, PythonFunctionsDescription, PytestFramework, UnitTest, "High") ]
    else if ext == "java" then
      [ Entry("junit", base + JUnitTitle, JUnitDescription, JUnitFramework, UnitTest, "High") ]
    else
      [ Entry("functions", base + FunctionsTitle, ModuleFunctionsDescription, JestFramework, UnitTest, "High") ]
  }

  /** The records the mock generator pushes for a file at `path`, by extension and base name. */
  function MockRecords(path: string, ext: string, base: string): seq<TestSummary>
  {
    Records(path, MockEntries(ext, base))
  }

  /** The `flatMap` body of `generateTestSummaries`. */
  function MockSummariesFor(file: FileItem): seq<TestSummary>
  {
    MockRecords(file.path, Extension(file.name), StripExtension(file.name, SourceExtensions))
  }

  /** The mock summaries of the selected files. */
  function MockSummaries(files: seq<FileItem>): seq<TestSummary>
  {
    ConcatMap(MockSummariesFor, files)
  }

  /** The catalog and the flags with which the analyzer would push exactly the mock records. */
  function MockCatalog(ext: string, base: string): seq<Entry>
  {
    if ext == "tsx" || ext == "jsx" then ReactCatalog(base)
    else if ext == "py" then PythonCatalog(base)
    else if ext == "java" then JavaCatalog(base)
    else ModuleCatalog(base)
  }

  function MockFlags(ext: string): (flags: seq<bool>)
  {
    if ext == "tsx" || ext == "jsx" then [true, true, false, false, false]
    else if ext == "py" then [true, false, false]
    else if ext == "java" then [true, false]
    else [true, false, false]
  }

  /** The number of leading catalog records the mock generator pushes. */
  function MockCount(ext: string): nat
  {
    if ext == "tsx" || ext == "jsx" then 2 else 1
  }

  /** The catalog tags that go with `MockCatalog`. */
  function MockCatalogTags(ext: string): seq<string>
  {
    if ext == "tsx" || ext == "jsx" then ReactTags
    else if ext == "py" then PythonTags
    else if ext == "java" then JavaTags
    else ModuleTags
  }

  /** The mock records are the leading records of the analyzer's catalog for the same
      kind of file: render and props for a component, the first Python, Java or module
      record otherwise. */
  lemma MockIsCatalogPrefix(ext: string, base: string)
    ensures MockCount(ext) <= |MockCatalog(ext, base)|
    ensures MockEntries(ext, base) == MockCatalog(ext, base)[..MockCount(ext)]
  {
    if ext == "tsx" || ext == "jsx" {
      ReactPrefix(ext, base);
    } else if ext == "py" {
      PythonPrefix(ext, base);
    } else if ext == "java" {
      JavaPrefix(ext, base);
    } else {
      ModulePrefix(ext, base);
    }
  }

  lemma ReactPrefix(ext: string, base: string)
    requires ext == "tsx" || ext == "jsx"
    ensures MockEntries(ext, base) == ReactCatalog(base)[..2]
  {
  }

  lemma PythonPrefix(ext: string, base: string)
    requires ext == "py"
    ensures MockEntries(ext, base) == PythonCatalog(base)[..1]
  {
  }

  lemma JavaPrefix(ext: string, base: string)
    requires ext == "java"
    ensures MockEntries(ext, base) == JavaCatalog(base)[..1]
  {
  }

  lemma ModulePrefix(ext: string, base: string)
    requires ext != "tsx" && ext != "jsx" && ext != "py" && ext != "java"
    ensures MockEntries(ext, base) == ModuleCatalog(base)[..1]
  {
  }

  /** The mock records are exactly what the analyzer's handler would push for the same
      file if only its first check (two checks for a component) held. */
  lemma MockIsAnalyzerSelection(ext: string, base: string)
    ensures |MockCatalog(ext, base)| == |MockFlags(ext)|
    ensures MockEntries(ext, base) == Select(MockFlags(ext), MockCatalog(ext, base))
  {
    MockCatalogFacts(ext, base);
    MockIsCatalogPrefix(ext, base);
    SelectLeading(MockFlags(ext), MockCatalog(ext, base), MockCount(ext));
  }

  /** A file's mock records are the analyzer's emitted records for that selection. */
  lemma MockRecordsEmitted(path: string, ext: string, base: string)
    ensures |MockCatalog(ext, base)| == |MockFlags(ext)|
    ensures MockRecords(path, ext, base) == Emitted(path, MockCatalog(ext, base), MockFlags(ext))
  {
    MockIsAnalyzerSelection(ext, base);
  }

  /** Every mock record is a High-priority unit test, with the framework of its kind of file. */
  lemma MockEntriesFacts(ext: string, base: string)
    ensures var e := MockEntries(ext, base);
      && |e| == MockCount(ext)
      && (forall i :: 0 <= i < |e| ==> e[i].priority == "High" && e[i].kind == UnitTest)
      && e[0].framework == MockFramework(ext)
  {
  }

  /** The framework of a kind of file's mock records. */
  function MockFramework(ext: string): string
  {
    if ext == "tsx" || ext == "jsx" then ReactFramework
    else if ext == "py" then PytestFramework
    else if ext == "java" then JUnitFramework
    else JestFramework
  }

  /** The tags of a kind of file's mock records. */
  function MockTags(ext: string): seq<string>
  {
    if ext == "tsx" || ext == "jsx" then ["render", "props"]
    else if ext == "py" then ["functions"]
    else if ext == "java" then ["junit"]
    else ["functions"]
  }

  /** One file's mock summaries: two (render, props) for a component, one otherwise,
      all of that file, each with its own id, all High-priority unit tests. */
  lemma MockSummariesForShape(file: FileItem)
    ensures var r := MockSummariesFor(file);
      var ext := Extension(file.name);
      && Tags(r) == MockTags(ext)
      && r[0].framework == MockFramework(ext)
      && OfFile(r, file.path) && DistinctIds(r)
      && forall i :: 0 <= i < |r| ==> r[i].priority == "High" && r[i].kind == UnitTest
  {
    var ext := Extension(file.name);
    var base := StripExtension(file.name, SourceExtensions);
    MockRecordsIds(file.path, ext, base);
    MockRecordsFields(file.path, ext, base);
  }

  /** The ids of the mock records: the mock tags, after the file's path. */
  lemma MockRecordsIds(path: string, ext: string, base: string)
    ensures var r := MockRecords(path, ext, base);
      Tags(r) == MockTags(ext) && OfFile(r, path) && DistinctIds(r)
  {
    MockRecordsEmitted(path, ext, base);
    MockCatalogFacts(ext, base);
    CatalogTagsUsable();
    HandlerShape(path, MockCatalog(ext, base), MockFlags(ext), MockCatalogTags(ext));
    MockTagSelection(ext);
  }

  /** The number, priority, type and framework of the mock records. */
  lemma MockRecordsFields(path: string, ext: string, base: string)
    ensures var r := MockRecords(path, ext, base);
      && |r| == MockCount(ext)
      && r[0].framework == MockFramework(ext)
      && forall i :: 0 <= i < |r| ==> r[i].priority == "High" && r[i].kind == UnitTest
  {
    MockEntriesFacts(ext, base);
  }

  lemma MockCatalogFacts(ext: string, base: string)
    ensures EntryTags(MockCatalog(ext, base)) == MockCatalogTags(ext)
    ensures |MockCatalog(ext, base)| == |MockFlags(ext)|
  {
    if ext == "tsx" || ext == "jsx" {
      ReactCatalogFacts(base);
    } else if ext == "py" {
      PythonCatalogFacts(base);
    } else if ext == "java" {
      JavaCatalogFacts(base);
    } else {
      ModuleCatalogFacts(base);
    }
  }

  lemma MockTagSelection(ext: string)
    ensures |MockFlags(ext)| == |MockCatalogTags(ext)|
    ensures Select(MockFlags(ext), MockCatalogTags(ext)) == MockTags(ext)
  {
    SelectLeading(MockFlags(ext), MockCatalogTags(ext), MockCount(ext));
  }

  /** The mock generator keeps the order of the selected files: the summaries of a
      concatenation of selections are the summaries of each part. */
  lemma MockSummariesAppend(a: seq<FileItem>, b: seq<FileItem>)
    ensures MockSummaries(a + b) == MockSummaries(a) + MockSummaries(b)
  {
    ConcatMapAppend(MockSummariesFor, a, b);
  }

  /** Every mock summary is one of a selected file's, and describes that file. */
  lemma MockSummariesOrigin(files: seq<FileItem>, s: TestSummary)
    requires s in MockSummaries(files)
    ensures exists k :: 0 <= k < |files| && s in MockSummariesFor(files[k]) && s.file == files[k].path
  {
    ConcatMapOrigin(MockSummariesFor, files, s);
    var k :| 0 <= k < |files| && s in MockSummariesFor(files[k]);
    MockSummariesForShape(files[k]);
  }

  // ---------------------------------------------------------------------------
  // Mock test code

  /** The component name of `generateMockTestCode`: the last path segment without its
      extension, or "Component" when that is empty. */
  function MockComponentName(file: string): (name: string)
    ensures name != []
  {
    OrElse(StripExtension(AfterLast(file, '/'), SourceExtensions), "Component")
  }

  /** The component name and the test file's base name differ only in their fallback. */
  lemma ComponentNameVsBaseName(file: string)
    ensures var stripped := StripExtension(AfterLast(file, '/'), SourceExtensions);
      && (stripped != [] ==> MockComponentName(file) == TestBaseName(file) == stripped)
      && (stripped == [] ==> MockComponentName(file) == "Component" && TestBaseName(file) == "test")
  {
  }

  /** `generateMockTestCode`: case-sensitive checks for "React", then "pytest", then "JUnit". */
  function MockTestCode(summary: TestSummary): (code: MockCode)
    ensures code.component == MockComponentName(summary.file)
  {
    var name := MockComponentName(summary.file);
    if Contains(summary.framework, "React") then ReactMock(name)
    else if Contains(summary.framework, "pytest") then PytestMock(name, UpperFirst(name))
    else if Contains(summary.framework, "JUnit") then JUnitMock(name, ToLower(name))
    else GenericMock(summary.title, name)
  }

  /** The template follows the checks in priority order, and a later check only counts
      when every earlier one failed. */
  lemma MockTestCodeDispatch(summary: TestSummary)
    ensures var code := MockTestCode(summary);
      var f := summary.framework;
      && (code.ReactMock? <==> Contains(f, "React"))
      && (code.PytestMock? <==> !Contains(f, "React") && Contains(f, "pytest"))
      && (code.JUnitMock? <==> !Contains(f, "React") && !Contains(f, "pytest") && Contains(f, "JUnit"))
      && (code.GenericMock? <==> !Contains(f, "React") && !Contains(f, "pytest") && !Contains(f, "JUnit"))
      && (code.PytestMock? ==> code.className == UpperFirst(code.component))
      && (code.JUnitMock? ==> code.field == ToLower(code.component))
      && (code.GenericMock? ==> code.title == summary.title)
  {
  }

  /** On the mock summaries, the template follows the file's extension: React for a
      component, pytest for Python, JUnit for Java, and the generic one for any other
      file, although that summary names Jest. */
  lemma MockCodeOfMockSummaries(file: FileItem, s: TestSummary)
    requires s in MockSummariesFor(file)
    ensures var ext := Extension(file.name);
      var code := MockTestCode(s);
      && (code.ReactMock? <==> ext == "tsx" || ext == "jsx")
      && (code.PytestMock? <==> ext == "py")
      && (code.JUnitMock? <==> ext == "java")
      && (code.GenericMock? <==> ext != "tsx" && ext != "jsx" && ext != "py" && ext != "java")
  {
    var ext := Extension(file.name);
    var r := MockSummariesFor(file);
    MockSummariesForShape(file);
    var i :| 0 <= i < |r| && r[i] == s;
    assert s.framework == r[0].framework by {
      assert |Records(file.path, MockEntries(ext, StripExtension(file.name, SourceExtensions)))| == |r|;
    }
    MockTestCodeDispatch(s);
    FrameworkChecks();
  }

  /** The case-sensitive checks on the four framework names the mock generator uses. */
  lemma FrameworkChecks()
    ensures Contains(ReactFramework, "React")
    ensures !Contains(PytestFramework, "React") && Contains(PytestFramework, "pytest")
    ensures !Contains(JUnitFramework, "React") && !Contains(JUnitFramework, "pytest") && Contains(JUnitFramework, "JUnit")
    ensures !Contains(JestFramework, "React") && !Contains(JestFramework, "pytest") && !Contains(JestFramework, "JUnit")
  {
    ReactNameAt7();
    ContainsAt(ReactFramework, "React", 7);
    FrameworkLetters();
    MissingChar(PytestFramework, "React", 'R');
    PrefixContains(PytestFramework, "pytest");
    MissingChar(JUnitFramework, "React", 'R');
    MissingChar(JUnitFramework, "pytest", 'y');
    PrefixContains(JUnitFramework, "JUnit");
    MissingChar(JestFramework, "React", 'R');
    MissingChar(JestFramework, "pytest", 'y');
    MissingChar(JestFramework, "JUnit", 'U');
  }

  /** Letter fact about a constant: "React" starts at index 7 of the React framework name. */
  lemma ReactNameAt7()
    ensures OccursAt(ReactFramework, "React", 7)
  {
    assert ReactFramework[7..12] == "React";
  }

  /** Letter facts about the demo framework-name constants. */
  lemma FrameworkLetters()
    ensures 'R' !in PytestFramework && 'R' !in JUnitFramework && 'y' !in JUnitFramework
    ensures JUnitFramework[..5] == "JUnit"
    ensures 'R' !in JestFramework && 'y' !in JestFramework && 'U' !in JestFramework
  {
  }

  // ---------------------------------------------------------------------------
  // Priorities

  /** `getPriorityColor`, on the lower-cased priority. */
  function PriorityColor(priority: string): (v: BadgeVariant)
  {
    match ToLower(priority)
    case "high" => Destructive
    case "medium" => DefaultVariant
    case "low" => Secondary
    case _ => DefaultVariant
  }

  /** The mapping ignores case: "high" in any case is destructive, "low" secondary, and
      everything else, "medium" included, the default variant. */
  lemma PriorityColorIff(priority: string)
    ensures PriorityColor(priority) == Destructive <==> ToLower(priority) == "high"
    ensures PriorityColor(priority) == Secondary <==> ToLower(priority) == "low"
    ensures PriorityColor(priority) == DefaultVariant <==> ToLower(priority) != "high" && ToLower(priority) != "low"
  {
  }

  /** The analyzer's two priorities are shown as destructive and default. */
  lemma AnalyzerPriorityColors()
    ensures PriorityColor("High") == Destructive && PriorityColor("Medium") == DefaultVariant
  {
    assert ToLower("High") == "high";
    assert ToLower("Medium") == "medium";
  }

  // ---------------------------------------------------------------------------
  // The generated-test collection

  /** The filter predicate `t => t.summary.id !== id`. */
  function OtherId(id: string): GeneratedTest -> bool
  {
    (t: GeneratedTest) => t.summary.id != id
  }

  /** `[...prev.filter((t) => t.summary.id !== summary.id), newTest]`. */
  function Upsert(tests: seq<GeneratedTest>, t: GeneratedTest): seq<GeneratedTest>
  {
    Filter(OtherId(t.summary.id), tests) + [t]
  }

  /** No two generated tests share a summary id. */
  ghost predicate UniqueTestIds(tests: seq<GeneratedTest>)
  {
    forall i, j :: 0 <= i < j < |tests| ==> tests[i].summary.id != tests[j].summary.id
  }

  /** After the upsert the new test is the last entry and the only one with its id, and
      the other tests keep their order and number. */
  lemma UpsertShape(tests: seq<GeneratedTest>, t: GeneratedTest)
    ensures var r := Upsert(tests, t);
      && |r| <= |tests| + 1 && r[|r| - 1] == t
      && (forall i :: 0 <= i < |r| - 1 ==> r[i].summary.id != t.summary.id)
      && Filter(OtherId(t.summary.id), r) == Filter(OtherId(t.summary.id), tests)
  {
    var q := OtherId(t.summary.id);
    var kept := Filter(q, tests);
    var r := Upsert(tests, t);
    assert forall i :: 0 <= i < |r| - 1 ==> r[i] == kept[i];
    FilterAppend(q, kept, [t]);
    FilterAll(q, kept);
    assert Filter(q, [t]) == [] by {
      assert !q(t);
    }
  }

  /** The upsert keeps summary ids unique. */
  lemma UpsertKeepsUnique(tests: seq<GeneratedTest>, t: GeneratedTest)
    requires UniqueTestIds(tests)
    ensures UniqueTestIds(Upsert(tests, t))
  {
    var q := OtherId(t.summary.id);
    var kept := Filter(q, tests);
    FilterSubseq(q, tests);
    SubseqUnique(kept, tests);
    UpsertShape(tests, t);
  }

  /** A subsequence of a sequence with unique ids has unique ids. */
  lemma {:induction false} SubseqUnique(s: seq<GeneratedTest>, t: seq<GeneratedTest>)
    requires IsSubseq(s, t) && UniqueTestIds(t)
    ensures UniqueTestIds(s)
    decreases |t|
  {
    if s != [] {
      assert t != [];
      assert UniqueTestIds(t[1..]) by {
        forall i, j | 0 <= i < j < |t| - 1 ensures t[1..][i].summary.id != t[1..][j].summary.id {
          assert t[1..][i] == t[i + 1] && t[1..][j] == t[j + 1];
        }
      }
      if s[0] == t[0] && IsSubseq(s[1..], t[1..]) {
        SubseqUnique(s[1..], t[1..]);
        SubseqMembers(s[1..], t[1..]);
        forall j | 0 < j < |s| ensures s[0].summary.id != s[j].summary.id {
          assert s[j] == s[1..][j - 1];
          var k :| 0 <= k < |t[1..]| && t[1..][k] == s[j];
          assert t[k + 1] == s[j];
        }
        assert forall i, j :: 0 < i < j < |s| ==> s[1..][i - 1] == s[i] && s[1..][j - 1] == s[j];
      } else {
        SubseqUnique(s, t[1..]);
      }
    }
  }

  /** Every entry of a subsequence is an entry of the whole. */
  lemma {:induction false} SubseqMembers<T>(s: seq<T>, t: seq<T>)
    requires IsSubseq(s, t)
    ensures forall j :: 0 <= j < |s| ==> exists k :: 0 <= k < |t| && t[k] == s[j]
    decreases |t|
  {
    if s != [] {
      if s[0] == t[0] && IsSubseq(s[1..], t[1..]) {
        SubseqMembers(s[1..], t[1..]);
        forall j | 1 <= j < |s| ensures exists k :: 0 <= k < |t| && t[k] == s[j] {
          assert s[j] == s[1..][j - 1];
          var k :| 0 <= k < |t[1..]| && t[1..][k] == s[1..][j - 1];
          assert t[k + 1] == s[j];
        }
        assert t[0] == s[0];
      } else {
        SubseqMembers(s, t[1..]);
        forall j | 0 <= j < |s| ensures exists k :: 0 <= k < |t| && t[k] == s[j] {
          var k :| 0 <= k < |t[1..]| && t[1..][k] == s[j];
          assert t[k + 1] == s[j];
        }
      }
    }
  }

  /** Last write wins: generating a test again for the same summary id replaces the
      earlier one, as if it had never been generated. */
  lemma UpsertLastWins(tests: seq<GeneratedTest>, t1: GeneratedTest, t2: GeneratedTest)
    requires t1.summary.id == t2.summary.id
    ensures Upsert(Upsert(tests, t1), t2) == Upsert(tests, t2)
  {
    var q := OtherId(t2.summary.id);
    var kept := Filter(q, tests);
    FilterAppend(q, kept, [t1]);
    FilterAll(q, kept);
    assert Filter(q, [t1]) == [] by {
      assert !q(t1);
    }
  }

  // ---------------------------------------------------------------------------
  // Selected files

  /** The filter predicate `f => f.path !== path`. */
  function OtherPath(path: string): FileItem -> bool
  {
    (f: FileItem) => f.path != path
  }

  /** `prev.filter((f) => f.path !== file.path)`. */
  function WithoutPath(files: seq<FileItem>, path: string): seq<FileItem>
  {
    Filter(OtherPath(path), files)
  }

  /** Unchecking a file removes every entry with its path, and keeps every other entry
      as often as before and in the same order. */
  lemma WithoutPathShape(files: seq<FileItem>, path: string, x: FileItem)
    ensures var r := WithoutPath(files, path);
      && (forall i :: 0 <= i < |r| ==> r[i].path != path)
      && multiset(r)[x] == (if x.path != path then multiset(files)[x] else 0)
      && IsSubseq(r, files)
  {
    FilterCount(OtherPath(path), files, x);
    FilterSubseq(OtherPath(path), files);
  }

  // ---------------------------------------------------------------------------
  // The page state

  /** The values of the page's state hooks that the handlers below read or set. */
  datatype PageState = PageState(
    isAuthenticated: bool,
    user: Option<string>,
    selectedRepository: Option<Repository>,
    files: seq<FileItem>,
    selectedFiles: seq<FileItem>,
    testSummaries: seq<TestSummary>,
    generatedTests: seq<GeneratedTest>,
    activeTab: Tab,
    selectedSummary: Option<TestSummary>,
    generatedCode: Option<MockCode>,
    generatedFileName: string,
    showCodeDialog: bool)

  /** The state of the hooks when the page mounts. */
  const InitialState := PageState(false, None, None, [], [], [], [], RepositoriesTab, None, None, "", false)

  /** `handleLogout`: once the logout request returns (`reached`), authentication, the
      user, the repository, the selection, the summaries and the generated tests are
      reset; when the request throws, nothing changes. */
  function Logout(st: PageState, reached: bool): PageState
  {
    if reached then
      st.(isAuthenticated := false, user := None, selectedRepository := None,
          selectedFiles := [], testSummaries := [], generatedTests := [])
    else st
  }

  /** `handleRepositorySelect`: the repository is set, the selection, summaries and
      generated tests are cleared and the files tab opens; when the listing arrives
      (`listing` is `None` when the request fails), the file list becomes its listed
      code files. */
  function SelectRepository(st: PageState, repo: Repository, listing: Option<seq<FileItem>>): PageState
  {
    st.(selectedRepository := Some(repo), selectedFiles := [], testSummaries := [], generatedTests := [],
        activeTab := FilesTab,
        files := if listing.Some? then ListedFiles(listing.value) else st.files)
  }

  /** `handleFileSelect`: checking appends the file (no de-duplication); unchecking
      drops every entry with its path. */
  function SelectFile(st: PageState, file: FileItem, checked: bool): PageState
  {
    st.(selectedFiles := if checked then st.selectedFiles + [file] else WithoutPath(st.selectedFiles, file.path))
  }

  /** `generateTestSummaries`: nothing happens without a selection; otherwise the tests
      tab opens and the summaries become the mock summaries of the selection. */
  function SummarizeSelection(st: PageState): PageState
  {
    if st.selectedFiles == [] then st
    else st.(activeTab := TestsTab, testSummaries := MockSummaries(st.selectedFiles))
  }

  /** `generateTestCode`: the mock code and the test file name are shown, and the new
      test replaces any earlier one with the same summary id at the end of the collection. */
  function GenerateCode(st: PageState, summary: TestSummary): PageState
  {
    var code := MockTestCode(summary);
    var fileName := TestFileName(summary.file, summary.framework);
    st.(selectedSummary := Some(summary), generatedCode := Some(code), generatedFileName := fileName,
        showCodeDialog := true, generatedTests := Upsert(st.generatedTests, GeneratedTest(summary, code, fileName)))
  }

  /** Logging out clears the selection and everything generated from it, and signs out. */
  lemma LogoutResets(st: PageState)
    ensures var r := Logout(st, true);
      && !r.isAuthenticated && r.user.None? && r.selectedRepository.None?
      && r.selectedFiles == [] && r.testSummaries == [] && r.generatedTests == []
      && r.files == st.files && r.activeTab == st.activeTab
  {
  }

  /** Picking a repository clears the selection and everything generated from it, and
      keeps the sign-in. */
  lemma SelectRepositoryResets(st: PageState, repo: Repository, listing: Option<seq<FileItem>>)
    ensures var r := SelectRepository(st, repo, listing);
      && r.selectedRepository == Some(repo) && r.selectedFiles == [] && r.testSummaries == []
      && r.generatedTests == [] && r.activeTab == FilesTab
      && r.isAuthenticated == st.isAuthenticated && r.user == st.user
      && (listing.Some? ==> forall i :: 0 <= i < |r.files| ==> IsListed(r.files[i]))
  {
  }

  /** Checking a file and unchecking it again leaves no entry with its path; when the
      file was not selected before, the selection is as it was. */
  lemma CheckThenUncheck(st: PageState, file: FileItem)
    requires forall i :: 0 <= i < |st.selectedFiles| ==> st.selectedFiles[i].path != file.path
    ensures SelectFile(SelectFile(st, file, true), file, false) == st
  {
    var q := OtherPath(file.path);
    FilterAppend(q, st.selectedFiles, [file]);
    FilterAll(q, st.selectedFiles);
    assert Filter(q, [file]) == [] by {
      assert !q(file);
    }
  }

  /** Generating a test keeps the collection keyed by summary id, and shows the test it stored. */
  lemma GenerateCodeKeepsUnique(st: PageState, summary: TestSummary)
    requires UniqueTestIds(st.generatedTests)
    ensures var r := GenerateCode(st, summary);
      && UniqueTestIds(r.generatedTests)
      && r.generatedTests[|r.generatedTests| - 1] == GeneratedTest(summary, r.generatedCode.value, r.generatedFileName)
  {
    var code := MockTestCode(summary);
    var fileName := TestFileName(summary.file, summary.framework);
    UpsertKeepsUnique(st.generatedTests, GeneratedTest(summary, code, fileName));
  }

  /** The page. Its state hooks are held together in `state`; each handler replaces the
      hooks it sets and leaves the others as they were. */
  class HomePage {
    var state: PageState

    /** The collection of generated tests is keyed by summary id. */
    ghost predicate Valid()
      reads this
    {
      UniqueTestIds(state.generatedTests)
    }

    constructor ()
      ensures state == InitialState && Valid()
    {
      state := InitialState;
    }

    method HandleLogout(reached: bool)
      requires Valid()
      modifies this
      ensures state == Logout(old(state), reached) && Valid()
    {
      if reached {
        state := state.(isAuthenticated := false, user := None, selectedRepository := None);
        state := state.(selectedFiles := [], testSummaries := [], generatedTests := []);
      }
    }

    method HandleRepositorySelect(repo: Repository, listing: Option<seq<FileItem>>)
      requires Valid()
      modifies this
      ensures state == SelectRepository(old(state), repo, listing) && Valid()
    {
      state := state.(selectedRepository := Some(repo), selectedFiles := [], testSummaries := [], generatedTests := []);
      state := state.(activeTab := FilesTab);
      if listing.Some? {
        state := state.(files := ListedFiles(listing.value));
      }
    }

    method HandleFileSelect(file: FileItem, checked: bool)
      requires Valid()
      modifies this
      ensures state == SelectFile(old(state), file, checked) && Valid()
    {
      if checked {
        state := state.(selectedFiles := state.selectedFiles + [file]);
      } else {
        state := state.(selectedFiles := WithoutPath(state.selectedFiles, file.path));
      }
    }

    method GenerateTestSummaries()
      requires Valid()
      modifies this
      ensures state == SummarizeSelection(old(state)) && Valid()
    {
      if state.selectedFiles == [] {
        return;
      }
      state := state.(activeTab := TestsTab);
      state := state.(testSummaries := MockSummaries(state.selectedFiles));
    }

    method GenerateTestCode(summary: TestSummary)
      requires Valid()
      modifies this
      ensures state == GenerateCode(old(state), summary) && Valid()
    {
      state := state.(selectedSummary := Some(summary));
      var mockCode := MockTestCode(summary);
      var fileName := TestFileName(summary.file, summary.framework);
      state := state.(generatedCode := Some(mockCode), generatedFileName := fileName, showCodeDialog := true);
      var newTest := GeneratedTest(summary, mockCode, fileName);
      UpsertKeepsUnique(state.generatedTests, newTest);
      state := state.(generatedTests := Upsert(state.generatedTests, newTest));
    }
  }
}
