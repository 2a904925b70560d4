/** The test-code route: it picks a renderer from the lower-cased framework name and
    names the test file by a separate, case-sensitive rule. */
module Renderer {
  import opened Strings
  import opened Sequences
  import opened TestCases
  import opened Templates

  // ---------------------------------------------------------------------------
  // Renderer dispatch

  datatype RendererKind = ReactRenderer | JestRenderer | PytestRenderer | JUnitRenderer | GenericRenderer

  /** `generateTestCode`'s choice, on the lower-cased framework name: jest and react,
      then jest, then pytest, then junit, otherwise the generic renderer. */
  function RendererFor(framework: string): (k: RendererKind)
    ensures var f := ToLower(framework);
      && (k == ReactRenderer <==> Contains(f, "jest") && Contains(f, "react"))
      && (k == JestRenderer <==> Contains(f, "jest") && !Contains(f, "react"))
      && (k == PytestRenderer <==> !Contains(f, "jest") && Contains(f, "pytest"))
      && (k == JUnitRenderer <==> !Contains(f, "jest") && !Contains(f, "pytest") && Contains(f, "junit"))
  {
    var f := ToLower(framework);
    if Contains(f, "jest") && Contains(f, "react") then ReactRenderer
    else if Contains(f, "jest") then JestRenderer
    else if Contains(f, "pytest") then PytestRenderer
    else if Contains(f, "junit") then JUnitRenderer
    else GenericRenderer
  }

  // ---------------------------------------------------------------------------
  // File naming

  /** The last `/` segment of the path without one trailing source extension, or `"test"` when that is empty. */
  function TestBaseName(file: string): (base: string)
    ensures base != [] && '/' !in base
    ensures var last := AfterLast(file, '/');
      base == "test" || (|base| <= |last| && base == last[..|base|])
  {
    var last := AfterLast(file, '/');
    var stripped := StripExtension(last, SourceExtensions);
    NotInPrefix(last, |stripped|, '/');
    OrElse(stripped, "test")
  }

  /** `getTestFileName`: the case-sensitive checks give Jest priority over pytest over JUnit. */
  function TestFileName(file: string, framework: string): (name: string)
  {
    var base := TestBaseName(file);
    if Contains(framework, "Jest") then base + ".test.js"
    else if Contains(framework, "pytest") then "test_" + base + ".py"
    else if Contains(framework, "JUnit") then base + "Test.java"
    else base + ".test.js"
  }

  /** The test file name is one of the three forms around the base name, chosen by the
      case-sensitive checks, and holds no `/`: it names a file directly in its directory. */
  lemma TestFileNameShape(file: string, framework: string)
    ensures var name := TestFileName(file, framework);
      var base := TestBaseName(file);
      && '/' !in name
      && (name == base + ".test.js" <==> Contains(framework, "Jest") || (!Contains(framework, "pytest") && !Contains(framework, "JUnit")))
      && (name == "test_" + base + ".py" <==> !Contains(framework, "Jest") && Contains(framework, "pytest"))
      && (name == base + "Test.java" <==> !Contains(framework, "Jest") && !Contains(framework, "pytest") && Contains(framework, "JUnit"))
  {
    var base := TestBaseName(file);
    var name := TestFileName(file, framework);
    var js := base + ".test.js";
    var py := "test_" + base + ".py";
    var java := base + "Test.java";
    assert js[|js| - 1] == 's' && py[|py| - 1] == 'y' && java[|java| - 1] == 'a';
    assert js != py && js != java && py != java;
  }

  /** A path's last segment is what follows its last `/`. */
  lemma LastSegment(dir: string, name: string)
    requires '/' !in name
    ensures AfterLast(dir + "/" + name, '/') == name
  {
    assert dir + "/" + name == dir + ['/'] + name;
    AfterLastOfJoin(dir, '/', name);
  }

  /** The base name of `dir/b.e` is `b` when `.e` is the first source extension the
      segment ends with. */
  lemma BaseNameWith(dir: string, b: string, k: nat, ext: string)
    requires b != [] && '/' !in b && k < |SourceExtensions| && ext == "." + SourceExtensions[k]
    requires forall j :: 0 <= j < k ==> !EndsWith(b + ext, "." + SourceExtensions[j])
    ensures TestBaseName(dir + "/" + b + ext) == b
  {
    var name := b + ext;
    assert dir + "/" + b + ext == dir + "/" + name;
    LastSegment(dir, name);
    StrippedName(b, k, ext);
  }

  lemma StrippedName(b: string, k: nat, ext: string)
    requires k < |SourceExtensions| && ext == "." + SourceExtensions[k]
    requires forall j :: 0 <= j < k ==> !EndsWith(b + ext, "." + SourceExtensions[j])
    ensures StripExtension(b + ext, SourceExtensions) == b
  {
    var name := b + ext;
    assert EndsWith(name, ext);
    StripExtensionAt(name, SourceExtensions, k);
    assert name[..|b|] == b;
  }

  /** The base-name rule for every path: when `.e` is the first source extension the last
      segment ends with, the base name is the segment without `.e`, or "test" when nothing
      is left. */
  lemma TestBaseNameRule(file: string, k: nat)
    requires k < |SourceExtensions|
    requires EndsWith(AfterLast(file, '/'), "." + SourceExtensions[k])
    requires forall j :: 0 <= j < k ==> !EndsWith(AfterLast(file, '/'), "." + SourceExtensions[j])
    ensures var last := AfterLast(file, '/');
      TestBaseName(file) == OrElse(last[..|last| - |SourceExtensions[k]| - 1], "test")
  {
    StripExtensionAt(AfterLast(file, '/'), SourceExtensions, k);
  }

  /** A last segment that ends in no source extension is kept whole, or "test" when empty. */
  lemma TestBaseNameNoExtension(file: string)
    requires forall k :: 0 <= k < |SourceExtensions| ==> !EndsWith(AfterLast(file, '/'), "." + SourceExtensions[k])
    ensures TestBaseName(file) == OrElse(AfterLast(file, '/'), "test")
  {
  }

  /** Example: a segment without `.`, such as `Makefile`, keeps its whole name. */
  lemma DotlessSegmentBaseName(dir: string, b: string)
    requires b != [] && '/' !in b && '.' !in b
    ensures TestBaseName(dir + "/" + b) == b
  {
    LastSegment(dir, b);
    forall k | 0 <= k < |SourceExtensions|
      ensures !EndsWith(b, "." + SourceExtensions[k])
    {
      EndsWithDot(b, SourceExtensions[k]);
    }
    TestBaseNameNoExtension(dir + "/" + b);
  }

  /** A text that ends with `.e` holds a `.`. */
  lemma EndsWithDot(s: string, e: string)
    ensures EndsWith(s, "." + e) ==> '.' in s
  {
    if EndsWith(s, "." + e) {
      assert s[|s| - |e| - 1] == ("." + e)[0];
    }
  }

  /** Example: a path without `/`, such as `App.tsx`, is its own last segment. */
  lemma RootLevelBaseName(b: string)
    requires b != [] && '/' !in b
    ensures TestBaseName(b + ".tsx") == b
  {
    assert '/' !in b + ".tsx";
    AfterLastNoSep(b + ".tsx", '/');
    StrippedName(b, 0, ".tsx");
  }

  /** Example: a segment that is only an extension, such as `.py`, gives "test". */
  lemma ExtensionOnlyBaseName(dir: string)
    ensures TestBaseName(dir + "/.py") == "test"
  {
    assert dir + "/.py" == dir + "/" + ".py";
    LastSegment(dir, ".py");
    LastCharDiffers(".py", ".tsx");
    LastCharDiffers(".py", ".jsx");
    LastCharDiffers(".py", ".ts");
    LastCharDiffers(".py", ".js");
    TestBaseNameRule(dir + "/.py", 4);
  }

  /** Example: a `.tsx` component keeps the name before its extension. */
  lemma ComponentBaseName(dir: string, b: string)
    requires b != [] && '/' !in b
    ensures TestBaseName(dir + "/" + b + ".tsx") == b
  {
    BaseNameWith(dir, b, 0, ".tsx");
  }

  /** Example: only the last extension is stripped: `b.test.ts` has the base name `b.test`. */
  lemma OneExtensionStripped(dir: string, b: string)
    requires b != [] && '/' !in b
    ensures TestBaseName(dir + "/" + b + ".test.ts") == b + ".test"
  {
    var n := b + ".test";
    assert dir + "/" + n + ".ts" == dir + "/" + b + ".test.ts";
    LastCharDiffers(n + ".ts", ".tsx");
    LastCharDiffers(n + ".ts", ".jsx");
    BaseNameWith(dir, n, 2, ".ts");
  }

  /** Example: a `.py` module keeps the name before its extension. */
  lemma PythonBaseName(dir: string, b: string)
    requires b != [] && '/' !in b
    ensures TestBaseName(dir + "/" + b + ".py") == b
  {
    var name := b + ".py";
    LastCharDiffers(name, ".tsx");
    LastCharDiffers(name, ".jsx");
    LastCharDiffers(name, ".ts");
    LastCharDiffers(name, ".js");
    BaseNameWith(dir, b, 4, ".py");
  }

  /** Example: a `.java` class keeps the name before its extension. */
  lemma JavaBaseName(dir: string, b: string)
    requires b != [] && '/' !in b
    ensures TestBaseName(dir + "/" + b + ".java") == b
  {
    var name := b + ".java";
    LastCharDiffers(name, ".tsx");
    LastCharDiffers(name, ".jsx");
    LastCharDiffers(name, ".ts");
    LastCharDiffers(name, ".js");
    LastCharDiffers(name, ".py");
    BaseNameWith(dir, b, 5, ".java");
  }

  /** Example: a path that ends in `/` has an empty last segment and the base name "test". */
  lemma EmptySegmentBaseName(dir: string)
    ensures TestBaseName(dir + "/") == "test"
  {
    LastSegment(dir, "");
    assert dir + "/" + "" == dir + "/";
  }

  /** The React framework name passes the case-sensitive Jest check. */
  lemma ReactNameIsJest()
    ensures Contains(ReactFramework, "Jest")
  {
    PrefixContains(ReactFramework, "Jest");
  }

  /** "pytest" fails the Jest check and passes the pytest check. */
  lemma PytestNameChecks()
    ensures !Contains(PytestFramework, "Jest") && Contains(PytestFramework, "pytest")
  {
    assert 'J' !in PytestFramework;
    MissingChar(PytestFramework, "Jest", 'J');
    PrefixContains(PytestFramework, "pytest");
  }

  /** "JUnit 5 + Spring Test" fails the Jest and pytest checks and passes the JUnit check. */
  lemma SpringNameChecks()
    ensures !Contains(SpringFramework, "Jest") && !Contains(SpringFramework, "pytest")
    ensures Contains(SpringFramework, "JUnit")
  {
    SpringNameFacts();
    SecondCharDiffers(SpringFramework, "Jest");
    NotContainsFirstOnly(SpringFramework, "Jest");
    MissingChar(SpringFramework, "pytest", 'y');
    PrefixContains(SpringFramework, "JUnit");
  }

  lemma SpringNameFacts()
    ensures SpringFramework[1] == 'U' && SpringFramework[..5] == "JUnit"
    ensures forall i :: 1 <= i < |SpringFramework| ==> SpringFramework[i] != 'J'
    ensures 'y' !in SpringFramework
  {
  }

  /** A lower-case "junit" fails all three case-sensitive checks. */
  lemma LowerJUnitChecks()
    ensures !Contains("junit", "Jest") && !Contains("junit", "pytest") && !Contains("junit", "JUnit")
  {
    MissingChar("junit", "Jest", 'J');
    MissingChar("junit", "pytest", 'p');
    MissingChar("junit", "JUnit", 'J');
  }

  /** Example: a component under the React framework name gets `.test.js`. */
  lemma JestFileNameExample(dir: string, b: string)
    requires b != [] && '/' !in b
    ensures TestFileName(dir + "/" + b + ".tsx", ReactFramework) == b + ".test.js"
  {
    ComponentBaseName(dir, b);
    ReactNameIsJest();
  }

  /** Example: a Python module under pytest gets the `test_` prefix. */
  lemma PytestFileNameExample(dir: string, b: string)
    requires b != [] && '/' !in b
    ensures TestFileName(dir + "/" + b + ".py", PytestFramework) == "test_" + b + ".py"
  {
    PythonBaseName(dir, b);
    PytestNameChecks();
  }

  /** Example: a Java class under the Spring framework name gets the `Test.java` suffix. */
  lemma JUnitFileNameExample(dir: string, b: string)
    requires b != [] && '/' !in b
    ensures TestFileName(dir + "/" + b + ".java", SpringFramework) == b + "Test.java"
  {
    JavaBaseName(dir, b);
    SpringNameChecks();
  }

  /** Example: a path ending in `/` under pytest gives `test_test.py`. */
  lemma EmptySegmentFileName(dir: string)
    ensures TestFileName(dir + "/", PytestFramework) == "test_test.py"
  {
    EmptySegmentBaseName(dir);
    PytestNameChecks();
  }

  /** Example: the naming checks are case-sensitive: a Java class under a lower-case "junit"
      falls back to `.test.js`. */
  lemma CaseSensitiveFileName(dir: string, b: string)
    requires b != [] && '/' !in b
    ensures TestFileName(dir + "/" + b + ".java", "junit") == b + ".test.js"
  {
    JavaBaseName(dir, b);
    LowerJUnitChecks();
  }

  // ---------------------------------------------------------------------------
  // The whole route

  /** `generateTestCode`: the renderer `RendererFor` picks, applied to the summary; only
      the Jest renderer uses the names extracted from the file content. */
  function TestCode(summary: TestSummary, content: string, m: Matchers): (code: seq<Block>)
    ensures RendererFor(summary.framework) == ReactRenderer ==> code == ReactTestCode(summary)
    ensures RendererFor(summary.framework) == JestRenderer ==> code == JestTestCode(summary, m.exportedNames(content))
    ensures RendererFor(summary.framework) == PytestRenderer ==> code == PytestTestCode(summary)
    ensures RendererFor(summary.framework) == JUnitRenderer ==> code == JUnitTestCode(summary)
    ensures RendererFor(summary.framework) == GenericRenderer ==> code == GenericTestCode(summary)
  {
    match RendererFor(summary.framework)
    case ReactRenderer => ReactTestCode(summary)
    case JestRenderer => JestTestCode(summary, m.exportedNames(content))
    case PytestRenderer => PytestTestCode(summary)
    case JUnitRenderer => JUnitTestCode(summary)
    case GenericRenderer => GenericTestCode(summary)
  }

  /** The React, pytest, JUnit and generic renderers do not read the file content. */
  lemma ContentIndependent(summary: TestSummary, c1: string, c2: string, m1: Matchers, m2: Matchers)
    requires RendererFor(summary.framework) != JestRenderer
    ensures TestCode(summary, c1, m1) == TestCode(summary, c2, m2)
  {
  }

  /** The route's responses. */
  datatype CodeResponse =
    | Unauthorized                                       // 401
    | NoSummary                                          // 400 "No test summary provided"
    | CodeFailed                                         // 500 "Failed to generate test code"
    | CodeResult(testCode: seq<Block>, fileName: string)

  /** The code route: 401 without a session token, 400 without a summary, 500 when the
      content fetch fails, and otherwise the rendered code and the test file name.
      `content` is `None` when the fetch failed. */
  function CodeRoute(hasToken: bool, summary: Option<TestSummary>, content: Option<string>, m: Matchers): (r: CodeResponse)
    ensures !hasToken ==> r == Unauthorized
    ensures hasToken && summary.None? ==> r == NoSummary
    ensures r == CodeFailed <==> hasToken && summary.Some? && content.None?
    ensures r.CodeResult? <==> hasToken && summary.Some? && content.Some?
    ensures r.CodeResult? ==> r.testCode == TestCode(summary.value, content.value, m)
    ensures r.CodeResult? ==> r.fileName == TestFileName(summary.value.file, summary.value.framework)
  {
    if !hasToken then Unauthorized
    else if summary.None? then NoSummary
    else if content.None? then CodeFailed
    else CodeResult(TestCode(summary.value, content.value, m), TestFileName(summary.value.file, summary.value.framework))
  }
}
