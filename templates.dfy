/** The code templates of the test-code route. Each renderer starts from a fixed
    header, appends the fixed blocks whose tag occurs in the summary id, and (except
    pytest) closes the suite. */
module Templates {
  import opened Strings
  import opened Sequences
  import opened TestCases

  /** One template block of generated test code. The text of each block is fixed in
      the source; a block here records only which block it is and the identifiers
      spliced into it. */
  datatype Block =
    | ReactHeader(component: string, importPath: string)      // imports and `describe('<component>', () => {`
    | ReactRenderTests(component: string)                     // 'renders without crashing', 'displays expected content'
    | ReactPropsTests(component: string)                      // 'handles props correctly', 'handles missing props gracefully'
    | ReactEventTests(component: string)                      // 'handles click events'
    | ReactStateTests(component: string)                      // 'updates state correctly'
    | JestHeader(functions: seq<string>, importPath: string, moduleName: string)
    | JestFunctionSuite(functionName: string)                 // `describe('<name>', ...)` with two tests
    | JestAsyncTests(target: string)                          // 'handles async operations', 'handles async errors'
    | CloseDescribe                                           // "\n});"
    | PytestHeader(moduleName: string, className: string)     // `import pytest`, `from <module> import *`, `class Test<Class>:`
    | PytestFunctionTests
    | PytestClassTests
    | PytestSeleniumTests
    | JUnitHeader(className: string, field: string)           // imports, `class <Class>Test {`, the field and `setUp`
    | JUnitBasicTests(field: string)
    | JUnitSpringTests(field: string)
    | CloseClass                                              // "\n}"
    | GenericTests(title: string, framework: string, kind: string)

  // ---------------------------------------------------------------------------
  // The React renderer

  /** The component name: the last path segment without `.tsx`/`.jsx`, or "Component". */
  function ComponentName(file: string): (name: string)
    ensures name != [] && '/' !in name
  {
    var last := AfterLast(file, '/');
    var stripped := StripExtension(last, ComponentExtensions);
    assert '/' !in stripped by {
      if stripped != last {
        var k :| 0 <= k < |ComponentExtensions| && stripped + "." + ComponentExtensions[k] == last;
        assert forall i :: 0 <= i < |stripped| ==> stripped[i] == last[i];
      }
    }
    OrElse(stripped, "Component")
  }

  /** The optional React blocks, in the order they are appended: each one whose tag occurs in the id. */
  function ReactBlocks(id: string, component: string): seq<Block>
  {
    Optional(Contains(id, "render"), ReactRenderTests(component))
      + (Optional(Contains(id, "props"), ReactPropsTests(component))
      + (Optional(Contains(id, "events"), ReactEventTests(component))
      + Optional(Contains(id, "state"), ReactStateTests(component))))
  }

  /** The React template for a component name, an import path and an id: the header,
      each optional block whose tag the id contains, and the closing line. */
  function ReactCode(component: string, importPath: string, id: string): seq<Block>
  {
    [ReactHeader(component, importPath)]
      + Optional(Contains(id, "render"), ReactRenderTests(component))
      + Optional(Contains(id, "props"), ReactPropsTests(component))
      + Optional(Contains(id, "events"), ReactEventTests(component))
      + Optional(Contains(id, "state"), ReactStateTests(component))
      + [CloseDescribe]
  }

  /** What `generateReactTestCode` builds: the header, the blocks whose tag occurs in the id, the closing line. */
  function ReactTestCode(summary: TestSummary): seq<Block>
  {
    ReactCode(ComponentName(summary.file), StripExtension(summary.file, ComponentExtensions), summary.id)
  }

  /** `generateReactTestCode`, appending block by block. */
  method GenerateReactTestCode(summary: TestSummary) returns (code: seq<Block>)
    ensures code == ReactTestCode(summary)
  {
    code := AppendReactBlocks(ComponentName(summary.file), StripExtension(summary.file, ComponentExtensions), summary.id);
  }

  /** The body of `generateReactTestCode` once the names are computed. */
  method AppendReactBlocks(component: string, importPath: string, id: string) returns (code: seq<Block>)
    ensures code == ReactCode(component, importPath, id)
  {
    code := [ReactHeader(component, importPath)];
    if Contains(id, "render") {
      code := code + [ReactRenderTests(component)];
    }
    if Contains(id, "props") {
      code := code + [ReactPropsTests(component)];
    }
    if Contains(id, "events") {
      code := code + [ReactEventTests(component)];
    }
    if Contains(id, "state") {
      code := code + [ReactStateTests(component)];
    }
    code := code + [CloseDescribe];
  }

  /** Each optional React block is present exactly when the id contains its tag. */
  lemma ReactBlocksMember(id: string, component: string)
    ensures var middle := ReactBlocks(id, component);
      && (ReactRenderTests(component) in middle <==> Contains(id, "render"))
      && (ReactPropsTests(component) in middle <==> Contains(id, "props"))
      && (ReactEventTests(component) in middle <==> Contains(id, "events"))
      && (ReactStateTests(component) in middle <==> Contains(id, "state"))
  {
    OptionalIn(Contains(id, "render"), ReactRenderTests(component));
    OptionalIn(Contains(id, "props"), ReactPropsTests(component));
    OptionalIn(Contains(id, "events"), ReactEventTests(component));
    OptionalIn(Contains(id, "state"), ReactStateTests(component));
  }

  /** The optional React blocks keep the order render, props, events, state. */
  lemma ReactBlocksInOrder(id: string, component: string)
    ensures IsSubseq(ReactBlocks(id, component),
      [ReactRenderTests(component), ReactPropsTests(component), ReactEventTests(component), ReactStateTests(component)])
  {
    var all := [ReactRenderTests(component), ReactPropsTests(component), ReactEventTests(component), ReactStateTests(component)];
    var d := Optional(Contains(id, "state"), ReactStateTests(component));
    SubseqOptionalCons(Contains(id, "state"), all[3], [], []);
    assert d + [] == d && [all[3]] + [] == all[3..];
    SubseqOptionalCons(Contains(id, "events"), all[2], d, all[3..]);
    assert [all[2]] + all[3..] == all[2..];
    SubseqOptionalCons(Contains(id, "props"), all[1], Optional(Contains(id, "events"), all[2]) + d, all[2..]);
    assert [all[1]] + all[2..] == all[1..];
    SubseqOptionalCons(Contains(id, "render"), all[0], Optional(Contains(id, "props"), all[1]) + (Optional(Contains(id, "events"), all[2]) + d), all[1..]);
    assert [all[0]] + all[1..] == all;
  }

  /** React output starts with the header and ends with the closing line; what lies
      between is the optional blocks. */
  lemma ReactCodeFrame(component: string, importPath: string, id: string)
    ensures var code := ReactCode(component, importPath, id);
      && 2 <= |code| <= 6
      && code[0] == ReactHeader(component, importPath)
      && code[|code| - 1] == CloseDescribe
      && code[1..|code| - 1] == ReactBlocks(id, component)
  {
    OptionalIn(Contains(id, "render"), ReactRenderTests(component));
    OptionalIn(Contains(id, "props"), ReactPropsTests(component));
    OptionalIn(Contains(id, "events"), ReactEventTests(component));
    OptionalIn(Contains(id, "state"), ReactStateTests(component));
    var code := ReactCode(component, importPath, id);
    assert code == [ReactHeader(component, importPath)] + ReactBlocks(id, component) + [CloseDescribe];
  }

  /** Each optional block is in the React output exactly when the id contains its tag.
      There is no block for the effects tag. */
  lemma ReactCodeHas(component: string, importPath: string, id: string)
    ensures var code := ReactCode(component, importPath, id);
      && (ReactRenderTests(component) in code <==> Contains(id, "render"))
      && (ReactPropsTests(component) in code <==> Contains(id, "props"))
      && (ReactEventTests(component) in code <==> Contains(id, "events"))
      && (ReactStateTests(component) in code <==> Contains(id, "state"))
  {
    ReactCodeFrame(component, importPath, id);
    ReactBlocksMember(id, component);
    var code := ReactCode(component, importPath, id);
    InFrame(code, ReactRenderTests(component));
    InFrame(code, ReactPropsTests(component));
    InFrame(code, ReactEventTests(component));
    InFrame(code, ReactStateTests(component));
  }

  /** Example: the blocks are chosen by substrings of the whole id, path included: the props
      summary of a file under a `render/` directory also gets the render block. */
  lemma IdPathSelectsBlocks(summary: TestSummary)
    requires summary.file == "src/render/App.tsx" && summary.id == SummaryId(summary.file, "props")
    ensures ReactRenderTests(ComponentName(summary.file)) in ReactTestCode(summary)
  {
    assert OccursAt(summary.id, "render", 4);
    ContainsAt(summary.id, "render", 4);
    ReactCodeHas(ComponentName(summary.file), StripExtension(summary.file, ComponentExtensions), summary.id);
  }

  // ---------------------------------------------------------------------------
  // The Jest renderer

  /** The module name: the last path segment without `.ts`/`.js`, or "module". */
  function ModuleName(file: string): (name: string)
    ensures name != []
  {
    OrElse(StripExtension(AfterLast(file, '/'), ModuleExtensions), "module")
  }

  /** `functions[0] || "asyncFunction"`: the function the async tests call. */
  function AsyncTarget(functions: seq<string>): (target: string)
    ensures functions == [] ==> target == "asyncFunction"
    ensures functions != [] && functions[0] != [] ==> target == functions[0]
    ensures functions != [] && functions[0] == [] ==> target == "asyncFunction"
  {
    if functions == [] then "asyncFunction" else OrElse(functions[0], "asyncFunction")
  }

  /** One `describe` suite per exported name, in order. */
  function Suites(functions: seq<string>): (r: seq<Block>)
    ensures |r| == |functions| && forall i :: 0 <= i < |functions| ==> r[i] == JestFunctionSuite(functions[i])
  {
    seq(|functions|, i requires 0 <= i < |functions| => JestFunctionSuite(functions[i]))
  }

  /** What `generateJestTestCode` builds from the names the export pattern extracts. */
  function JestTestCode(summary: TestSummary, functions: seq<string>): seq<Block>
  {
    JestCode(functions, StripExtension(summary.file, ModuleExtensions), ModuleName(summary.file), summary.id)
  }

  /** The Jest template for the extracted names, an import path, a module name and an id. */
  function JestCode(functions: seq<string>, importPath: string, moduleName: string, id: string): seq<Block>
  {
    [JestHeader(functions, importPath, moduleName)]
      + Suites(functions)
      + Optional(Contains(id, "async"), JestAsyncTests(AsyncTarget(functions)))
      + [CloseDescribe]
  }

  /** `generateJestTestCode`: the header, a suite per name appended in a loop, the async block, the closing line. */
  method GenerateJestTestCode(summary: TestSummary, functions: seq<string>) returns (code: seq<Block>)
    ensures code == JestTestCode(summary, functions)
  {
    code := AppendJestBlocks(functions, StripExtension(summary.file, ModuleExtensions), ModuleName(summary.file), summary.id);
  }

  /** The body of `generateJestTestCode` once the names are computed. */
  method AppendJestBlocks(functions: seq<string>, importPath: string, moduleName: string, id: string) returns (code: seq<Block>)
    ensures code == JestCode(functions, importPath, moduleName, id)
  {
    code := [JestHeader(functions, importPath, moduleName)];
    for i := 0 to |functions|
      invariant code == [JestHeader(functions, importPath, moduleName)] + Suites(functions[..i])
    {
      assert Suites(functions[..i + 1]) == Suites(functions[..i]) + [JestFunctionSuite(functions[i])];
      code := code + [JestFunctionSuite(functions[i])];
    }
    assert functions[..|functions|] == functions;
    if Contains(id, "async") {
      code := code + [JestAsyncTests(AsyncTarget(functions))];
    }
    code := code + [CloseDescribe];
  }

  /** Jest output has one suite per exported name, in content order, right after the
      header; the async block comes after them exactly when the id contains "async". */
  lemma JestCodeShape(functions: seq<string>, importPath: string, moduleName: string, id: string)
    ensures var code := JestCode(functions, importPath, moduleName, id);
      && |code| == |functions| + 2 + (if Contains(id, "async") then 1 else 0)
      && code[0] == JestHeader(functions, importPath, moduleName)
      && (forall i :: 0 <= i < |functions| ==> code[i + 1] == JestFunctionSuite(functions[i]))
      && (code[|functions| + 1] == JestAsyncTests(AsyncTarget(functions)) <==> Contains(id, "async"))
      && code[|code| - 1] == CloseDescribe
  {
    var code := JestCode(functions, importPath, moduleName, id);
    var o := Optional(Contains(id, "async"), JestAsyncTests(AsyncTarget(functions)));
    assert code == [JestHeader(functions, importPath, moduleName)] + Suites(functions) + o + [CloseDescribe];
    OptionalIn(Contains(id, "async"), JestAsyncTests(AsyncTarget(functions)));
    assert code[|functions| + 1] == if Contains(id, "async") then o[0] else CloseDescribe;
  }

  // ---------------------------------------------------------------------------
  // The pytest renderer

  /** The imported module: the first `.py` removed, then the first `/` turned into `.`. */
  function PytestModuleName(file: string): string
  {
    ReplaceFirst(ReplaceFirst(file, ".py", ""), "/", ".")
  }

  /** The test class suffix: the last segment without its first `.py` (or "module"), first letter upper-cased. */
  function PytestClassName(file: string): (name: string)
    ensures name != []
  {
    UpperFirst(OrElse(ReplaceFirst(AfterLast(file, '/'), ".py", ""), "module"))
  }

  /** The optional pytest blocks: each one whose tag occurs in the id. */
  function PytestBlocks(id: string): seq<Block>
  {
    Optional(Contains(id, "functions"), PytestFunctionTests)
      + (Optional(Contains(id, "classes"), PytestClassTests)
      + Optional(Contains(id, "selenium"), PytestSeleniumTests))
  }

  /** What `generatePytestCode` builds: the header, then the blocks whose tag occurs in the id. */
  function PytestTestCode(summary: TestSummary): seq<Block>
  {
    PytestCode(PytestModuleName(summary.file), PytestClassName(summary.file), summary.id)
  }

  /** The pytest template for a module name, a class name and an id. */
  function PytestCode(moduleName: string, className: string, id: string): seq<Block>
  {
    [PytestHeader(moduleName, className)]
      + Optional(Contains(id, "functions"), PytestFunctionTests)
      + Optional(Contains(id, "classes"), PytestClassTests)
      + Optional(Contains(id, "selenium"), PytestSeleniumTests)
  }

  /** `generatePytestCode`, appending block by block. */
  method GeneratePytestCode(summary: TestSummary) returns (code: seq<Block>)
    ensures code == PytestTestCode(summary)
  {
    code := AppendPytestBlocks(PytestModuleName(summary.file), PytestClassName(summary.file), summary.id);
  }

  /** The body of `generatePytestCode` once the names are computed. */
  method AppendPytestBlocks(moduleName: string, className: string, id: string) returns (code: seq<Block>)
    ensures code == PytestCode(moduleName, className, id)
  {
    code := [PytestHeader(moduleName, className)];
    if Contains(id, "functions") {
      code := code + [PytestFunctionTests];
    }
    if Contains(id, "classes") {
      code := code + [PytestClassTests];
    }
    if Contains(id, "selenium") {
      code := code + [PytestSeleniumTests];
    }
  }

  /** Pytest output starts with the header, has no closing block, and each optional
      block is present exactly when the id contains its tag. */
  lemma PytestCodeShape(moduleName: string, className: string, id: string)
    ensures var code := PytestCode(moduleName, className, id);
      && 1 <= |code| <= 4
      && code[0] == PytestHeader(moduleName, className)
      && code[1..] == PytestBlocks(id)
      && (PytestFunctionTests in code <==> Contains(id, "functions"))
      && (PytestClassTests in code <==> Contains(id, "classes"))
      && (PytestSeleniumTests in code <==> Contains(id, "selenium"))
      && CloseDescribe !in code && CloseClass !in code
  {
    OptionalIn(Contains(id, "functions"), PytestFunctionTests);
    OptionalIn(Contains(id, "classes"), PytestClassTests);
    OptionalIn(Contains(id, "selenium"), PytestSeleniumTests);
    var code := PytestCode(moduleName, className, id);
    assert code[1..] == PytestBlocks(id);
  }

  /** The optional pytest blocks keep the order functions, classes, selenium. */
  lemma PytestBlocksInOrder(id: string)
    ensures IsSubseq(PytestBlocks(id), [PytestFunctionTests, PytestClassTests, PytestSeleniumTests])
  {
    var all := [PytestFunctionTests, PytestClassTests, PytestSeleniumTests];
    var c := Optional(Contains(id, "selenium"), PytestSeleniumTests);
    SubseqOptionalCons(Contains(id, "selenium"), all[2], [], []);
    assert c + [] == c && [all[2]] + [] == all[2..];
    SubseqOptionalCons(Contains(id, "classes"), all[1], c, all[2..]);
    assert [all[1]] + all[2..] == all[1..];
    SubseqOptionalCons(Contains(id, "functions"), all[0], Optional(Contains(id, "classes"), all[1]) + c, all[1..]);
    assert [all[0]] + all[1..] == all;
  }

  // ---------------------------------------------------------------------------
  // The JUnit renderer

  /** The tested class: the last segment without its first `.java`, or "TestClass". */
  function JUnitClassName(file: string): (name: string)
    ensures name != []
  {
    OrElse(ReplaceFirst(AfterLast(file, '/'), ".java", ""), "TestClass")
  }

  /** The optional JUnit blocks, on the lower-cased class name as the field. */
  function JUnitBlocks(id: string, field: string): seq<Block>
  {
    Optional(Contains(id, "junit"), JUnitBasicTests(field)) + Optional(Contains(id, "spring"), JUnitSpringTests(field))
  }

  /** What `generateJUnitCode` builds: the header with `setUp`, the optional blocks, the closing brace. */
  function JUnitTestCode(summary: TestSummary): seq<Block>
  {
    JUnitCode(JUnitClassName(summary.file), summary.id)
  }

  /** The JUnit template for a class name and an id; the field is the lower-cased class name. */
  function JUnitCode(className: string, id: string): seq<Block>
  {
    var field := ToLower(className);
    [JUnitHeader(className, field)]
      + Optional(Contains(id, "junit"), JUnitBasicTests(field))
      + Optional(Contains(id, "spring"), JUnitSpringTests(field))
      + [CloseClass]
  }

  /** `generateJUnitCode`, appending block by block. */
  method GenerateJUnitCode(summary: TestSummary) returns (code: seq<Block>)
    ensures code == JUnitTestCode(summary)
  {
    code := AppendJUnitBlocks(JUnitClassName(summary.file), summary.id);
  }

  /** The body of `generateJUnitCode` once the class name is computed. */
  method AppendJUnitBlocks(className: string, id: string) returns (code: seq<Block>)
    ensures code == JUnitCode(className, id)
  {
    var field := ToLower(className);
    code := [JUnitHeader(className, field)];
    if Contains(id, "junit") {
      code := code + [JUnitBasicTests(field)];
    }
    if Contains(id, "spring") {
      code := code + [JUnitSpringTests(field)];
    }
    code := code + [CloseClass];
  }

  /** JUnit output always has the header with `setUp` first and the closing brace last;
      what lies between is the optional blocks. */
  lemma JUnitCodeFrame(className: string, id: string)
    ensures var code := JUnitCode(className, id);
      var field := ToLower(className);
      && 2 <= |code| <= 4
      && code[0] == JUnitHeader(className, field)
      && code[|code| - 1] == CloseClass
      && code[1..|code| - 1] == JUnitBlocks(id, field)
  {
    var field := ToLower(className);
    OptionalIn(Contains(id, "junit"), JUnitBasicTests(field));
    OptionalIn(Contains(id, "spring"), JUnitSpringTests(field));
    var code := JUnitCode(className, id);
    assert code == [JUnitHeader(className, field)] + JUnitBlocks(id, field) + [CloseClass];
  }

  /** The basic and Spring blocks are in the JUnit output exactly when the id contains their tag. */
  lemma JUnitCodeHas(className: string, id: string)
    ensures var code := JUnitCode(className, id);
      var field := ToLower(className);
      && (JUnitBasicTests(field) in code <==> Contains(id, "junit"))
      && (JUnitSpringTests(field) in code <==> Contains(id, "spring"))
  {
    var field := ToLower(className);
    OptionalIn(Contains(id, "junit"), JUnitBasicTests(field));
    OptionalIn(Contains(id, "spring"), JUnitSpringTests(field));
    var code := JUnitCode(className, id);
    assert code == [JUnitHeader(className, field)] + JUnitBlocks(id, field) + [CloseClass];
  }

  /** The basic block, when present, comes before the Spring block. */
  lemma JUnitBlocksInOrder(id: string, field: string)
    ensures IsSubseq(JUnitBlocks(id, field), [JUnitBasicTests(field), JUnitSpringTests(field)])
  {
    var b := Optional(Contains(id, "spring"), JUnitSpringTests(field));
    SubseqOptionalCons(Contains(id, "spring"), JUnitSpringTests(field), [], []);
    assert b + [] == b;
    SubseqOptionalCons(Contains(id, "junit"), JUnitBasicTests(field), b, [JUnitSpringTests(field)]);
  }

  // ---------------------------------------------------------------------------
  // The generic renderer

  /** `generateGenericTestCode`: a single block naming the title, framework and type. The
      template is constant apart from those three fields, so its contract spells them out. */
  function GenericTestCode(summary: TestSummary): (code: seq<Block>)
    ensures |code| == 1 && code[0].GenericTests?
    ensures code[0].title == summary.title && code[0].framework == summary.framework && code[0].kind == summary.kind
  {
    [GenericTests(summary.title, summary.framework, summary.kind)]
  }
}
