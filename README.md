# GitTestify core, modelled in Dafny

GitTestify is a web app. A user signs in with GitHub, picks a repository and some of its
source files, and gets proposed test cases ("test summaries") and test code for those files.
The generated tests can then be committed to a new branch with a pull request. This project
models the app's logic and proves properties of it:

- **the analyzer** (`Analyzer`, analyzer.dfy). This is the summary route. It dispatches each
  file on the lower-cased text after its last `.`. Four handlers (React component, JS/TS
  module, Python, Java) each check the file content and push records from a fixed catalog.
  The route answers 401, 400, 500 or the summaries.
- **the renderer** (`Templates`, `Renderer`, `Dispatch`). This is the test-code route. It picks
  a template from the lower-cased framework name. The template's optional blocks are chosen by
  substrings of the summary id. The route names the test file with a separate, case-sensitive
  rule.
- **the client session** (`Session`, session.dfy). These are the home page's handlers: logout,
  repository selection with its file filter, file (un)checking, the demo summary generator, mock
  code generation, the generated-test collection keyed by summary id, and priority badges.
- **the file browser** (`FileBrowser`). It covers the code-file test, the selection toggle, the
  expanded-directory set, and when a tree node loads its children.
- **the pull-request route** (`PullRequest`, create_pr.dfy). It validates the request, then
  makes the GitHub calls in order: read the repository, read its default branch's head, create
  the branch, write one file per test, open the pull request. A failed read, a refused branch
  creation or a failed pull request ends the route with 500 at that step. All file writes go out
  even when one of them throws. A write that throws fails the route, but a write's status is
  never checked.

Shared pieces:

- `Strings`: text operations, including `includes`, `split("/").pop()`, the extension regexes
  and lower-casing.
- `Sequences`: `filter`, selection by flags, `flatMap`.
- `TestCases`: the test summary record and its id `${path}-${tag}`.

Regular-expression tests that go beyond a fixed substring are taken as given functions. These
are the analyzer's `\w+:\s*\w+`, `on\w+=` and `export\s+(…)`, and the Jest name extraction.
They are bundled in `TestCases.Matchers`. Template text is modelled as `Templates.Block`
values. Each value names one fixed block of the template and carries the names the source
interpolates into it. The upstream GitHub API appears as a parameter: a function from each
call to its reply.

The model keeps these behaviours of the code, some of them surprising:

- The Python and Java handlers strip the first `.py` / `.java`, wherever it occurs in the name.
- The demo generator builds its base name from the whole file name, not its last segment.
- In the pull-request route only a write that throws fails the route; write statuses are not
  checked.
- A branch-creation error whose message contains "already exists" is tolerated.
- Template blocks are chosen by substrings of the whole summary id, path included.
- The analyzer proposes an "effects" test for React components, but the React template has no
  block for it.
- A tree node stores the listing route's whole reply object `{ files }` as its children. That
  object has no `length`, so an answered load is never requested again and no child is ever
  listed.

## Model

| member | source | states |
|---|---|---|
| TestCases.SummaryIdParts | app/api/generate-tests/route.ts:102-158 | the tag of `${path}-${tag}` (tag without `-`) is recovered from the id, and the id starts with the path |
| TestCases.SummaryIdInjective | app/api/generate-tests/route.ts:102-158 | ids of tags without `-` determine both path and tag |
| TestCases.DistinctTagsDistinctIds | app/api/generate-tests/route.ts:91-160 | summaries of one file with distinct tags have distinct ids |
| Analyzer.ReactFlags | app/api/generate-tests/route.ts:96-100 | the React handler makes five checks, and the first (render) always holds |
| Analyzer.Extension | app/api/generate-tests/route.ts:60 | `split(".").pop()?.toLowerCase()`: the lower-cased text after the last `.` (properties in FileBrowser.WholeNameTested, FileBrowser.ExtensionTested) |
| Analyzer.ModuleFlags | app/api/generate-tests/route.ts:168-170 | the module handler makes three checks (exports, async, api) |
| Analyzer.PythonFlags | app/api/generate-tests/route.ts:215-218 | the Python handler makes three checks (functions, classes, selenium) |
| Analyzer.JavaFlags | app/api/generate-tests/route.ts:263-265 | the Java handler makes two checks (class with methods, Spring) |
| Analyzer.AnalyzeReactComponent | app/api/generate-tests/route.ts:91-160 | the React handler: the React catalog records whose check holds, in push order (properties in Analyzer.ReactComponentShape, Analyzer.ReactComponentRenderFirst, Analyzer.ReactComponentFields) |
| Analyzer.AnalyzeJSModule | app/api/generate-tests/route.ts:163-208 | the module handler, with no baseline record (properties in Analyzer.JSModuleShape) |
| Analyzer.AnalyzePythonFile | app/api/generate-tests/route.ts:211-256 | the Python handler on the name without its first `.py` (properties in Analyzer.PythonFileShape) |
| Analyzer.AnalyzeJavaFile | app/api/generate-tests/route.ts:259-291 | the Java handler on the name without its first `.java` (properties in Analyzer.JavaFileShape) |
| Analyzer.SummariesFor | app/api/generate-tests/route.ts:60-85 | a file whose extension is none of tsx, jsx, ts, js, py, java gets no summary |
| Analyzer.AllSummaries | app/api/generate-tests/route.ts:56-89 | each file's summaries, in file order (properties in Analyzer.AllSummariesAppend, Analyzer.AllSummariesOrigin, Analyzer.AllSummariesDistinctIds) |
| Analyzer.GenerateTestSummaries | app/api/generate-tests/route.ts:56-89 | the `forEach` loop returns each file's summaries, in file order |
| Analyzer.SelectEntryTags | app/api/generate-tests/route.ts:102-158 | taking tags commutes with selecting the checked catalog entries |
| Analyzer.EmittedOrigin | app/api/generate-tests/route.ts:91-160 | every pushed summary is a catalog record for the file, and its id ends with that record's tag |
| Analyzer.EmittedTags | app/api/generate-tests/route.ts:91-160 | the tags pushed are exactly the checked catalog tags, in catalog order |
| Analyzer.HandlerShape | app/api/generate-tests/route.ts:91-291 | a handler returns at most its catalog's size, all of the file, with distinct ids, and an entry appears iff its check holds |
| Analyzer.CatalogTagsUsable | app/api/generate-tests/route.ts:102-289 | the four catalogs' tags are pairwise distinct and free of `-` |
| Analyzer.ReactCatalogFacts | app/api/generate-tests/route.ts:102-158 | React catalog: tags render, props, state, events, effects; React Testing Library framework; High/Medium priorities |
| Analyzer.ReactComponentShape | app/api/generate-tests/route.ts:91-160 | React summaries are the catalog records whose check holds, in order |
| Analyzer.ReactComponentRenderFirst | app/api/generate-tests/route.ts:102-111 | a React component always gets 1 to 5 summaries, the render summary first |
| Analyzer.ReactComponentFields | app/api/generate-tests/route.ts:102-158 | every React summary uses the React Testing Library framework and a High or Medium priority |
| Analyzer.ModuleCatalogFacts | app/api/generate-tests/route.ts:172-206 | module catalog: tags functions, async, api; only api uses "Jest + MSW" |
| Analyzer.JSModuleShape | app/api/generate-tests/route.ts:163-208 | a module gets at most three summaries, exactly those whose check holds; none without a check |
| Analyzer.PythonCatalogFacts | app/api/generate-tests/route.ts:220-254 | Python catalog: tags functions, classes, selenium; only selenium is an E2E test |
| Analyzer.PythonFileShape | app/api/generate-tests/route.ts:211-256 | a Python file gets the records whose check holds, named after the name without its first `.py` |
| Analyzer.JavaCatalogFacts | app/api/generate-tests/route.ts:267-289 | Java catalog: tags junit, spring |
| Analyzer.JavaFileShape | app/api/generate-tests/route.ts:259-291 | a Java file gets the junit record iff it has `class ` and `public `/`private `, and the spring record iff `@Controller`/`@Service` |
| Analyzer.SummariesForShape | app/api/generate-tests/route.ts:59-86 | every summary of a file belongs to it, has a High/Medium priority, and no two share an id |
| Analyzer.AllSummariesAppend | app/api/generate-tests/route.ts:56-89 | analysing a + b is analysing a, then b |
| Analyzer.AllSummariesOrigin | app/api/generate-tests/route.ts:56-89 | every summary belongs to a requested file, has a known priority and its id is `${file}-${tag}` |
| Analyzer.SummaryOrigin | app/api/generate-tests/route.ts:56-89 | the same fact for one summary |
| Analyzer.AllSummariesDistinctIds | app/api/generate-tests/route.ts:56-89 | files with distinct paths get pairwise distinct summary ids |
| Analyzer.AppendFileDistinctIds | app/api/generate-tests/route.ts:59-86 | one more file with a new path keeps the ids distinct |
| Analyzer.DistinctAcross | app/api/generate-tests/route.ts:59-86 | summaries of files with different paths differ in id |
| Analyzer.DistinctIdsAppend | app/api/generate-tests/route.ts:66-84 | pushing a list without duplicate or shared ids keeps ids distinct |
| Analyzer.FetchedFiles | app/api/generate-tests/route.ts:19-41 | the successfully fetched files, one per request, in request order |
| Analyzer.SummariesRoute | app/api/generate-tests/route.ts:5-54 | 401 without token; 400 for no files; 500 iff some fetch failed; a summary list iff the request is authorised, non-empty and every fetch succeeded, holding the summaries of the fetched files and the file count |
| Templates.ComponentName | app/api/generate-test-code/route.ts:83-87 | the component name is non-empty and has no `/` |
| Templates.ReactTestCode | app/api/generate-test-code/route.ts:82-158 | the React template on the component name and import path of the summary's file (properties in Templates.ReactCodeFrame, Templates.ReactCodeHas, Templates.ReactBlocksInOrder) |
| Templates.GenerateReactTestCode | app/api/generate-test-code/route.ts:82-158 | the React code built block by block equals the React template for the summary |
| Templates.AppendReactBlocks | app/api/generate-test-code/route.ts:90-158 | the appends produce header, the blocks selected by the id, closing line |
| Templates.ReactBlocksMember | app/api/generate-test-code/route.ts:97-153 | each optional React block is present iff the id contains render / props / events / state |
| Templates.ReactBlocksInOrder | app/api/generate-test-code/route.ts:97-153 | the optional React blocks keep the order render, props, events, state |
| Templates.ReactCodeFrame | app/api/generate-test-code/route.ts:90-158 | React output starts with the header and ends with the closing line |
| Templates.ReactCodeHas | app/api/generate-test-code/route.ts:97-153 | each optional block is in the React output iff the id contains its tag |
| Templates.IdPathSelectsBlocks | app/api/generate-test-code/route.ts:97 | the checks look at the whole id, so a props summary of `src/render/App.tsx` also gets the render block |
| Templates.ModuleName | app/api/generate-test-code/route.ts:162-166 | the module name is non-empty |
| Templates.AsyncTarget | app/api/generate-test-code/route.ts:198 | the async tests call the first extracted name, or `asyncFunction` when there is none or it is empty |
| Templates.Suites | app/api/generate-test-code/route.ts:180-193 | one suite per extracted name, in order |
| Templates.JestTestCode | app/api/generate-test-code/route.ts:161-210 | the Jest template on the extracted names, the import path and the module name (properties in Templates.JestCodeShape) |
| Templates.GenerateJestTestCode | app/api/generate-test-code/route.ts:161-210 | the Jest code built in the loop equals the Jest template |
| Templates.AppendJestBlocks | app/api/generate-test-code/route.ts:177-210 | header, a suite per name, the async block iff the id contains "async", closing line |
| Templates.JestCodeShape | app/api/generate-test-code/route.ts:177-210 | Jest output has one suite per name in order after the header, the async block iff "async" is in the id, and the closing line last |
| Templates.PytestModuleName | app/api/generate-test-code/route.ts:214 | the first `.py` removed, then the first `/` turned into `.` |
| Templates.PytestClassName | app/api/generate-test-code/route.ts:215 | the pytest class suffix is non-empty |
| Templates.PytestTestCode | app/api/generate-test-code/route.ts:213-259 | the pytest template on the module and class names (properties in Templates.PytestCodeShape, Templates.PytestBlocksInOrder) |
| Templates.GeneratePytestCode | app/api/generate-test-code/route.ts:213-259 | the pytest code built block by block equals the pytest template |
| Templates.AppendPytestBlocks | app/api/generate-test-code/route.ts:217-259 | header, then the blocks the id selects |
| Templates.PytestCodeShape | app/api/generate-test-code/route.ts:217-259 | pytest output starts with the header, has no closing block, and has each optional block iff the id contains functions / classes / selenium |
| Templates.PytestBlocksInOrder | app/api/generate-test-code/route.ts:222-258 | the optional pytest blocks keep the order functions, classes, selenium |
| Templates.JUnitClassName | app/api/generate-test-code/route.ts:263 | the JUnit class name is non-empty |
| Templates.JUnitTestCode | app/api/generate-test-code/route.ts:262-318 | the JUnit template on the class name (properties in Templates.JUnitCodeFrame, Templates.JUnitCodeHas, Templates.JUnitBlocksInOrder) |
| Templates.GenerateJUnitCode | app/api/generate-test-code/route.ts:262-318 | the JUnit code built block by block equals the JUnit template |
| Templates.AppendJUnitBlocks | app/api/generate-test-code/route.ts:265-318 | header with setUp, the blocks the id selects, closing brace |
| Templates.JUnitCodeFrame | app/api/generate-test-code/route.ts:265-318 | JUnit output has the header first and the closing brace last |
| Templates.JUnitCodeHas | app/api/generate-test-code/route.ts:279-314 | the basic and Spring blocks are present iff the id contains junit / spring |
| Templates.JUnitBlocksInOrder | app/api/generate-test-code/route.ts:279-314 | the basic block comes before the Spring block |
| Templates.GenericTestCode | app/api/generate-test-code/route.ts:321-337 | the generic code is one block naming the summary's title, framework and type |
| Renderer.RendererFor | app/api/generate-test-code/route.ts:66-80 | on the lower-cased framework: React iff jest and react, Jest iff jest without react, pytest iff pytest without jest, JUnit iff junit without jest or pytest |
| Renderer.TestBaseName | app/api/generate-test-code/route.ts:49-53 | the base name has no `/`, and is "test" or a prefix of the last path segment (the rule for every path is in Renderer.TestBaseNameRule and Renderer.TestBaseNameNoExtension) |
| Renderer.TestFileName | app/api/generate-test-code/route.ts:48-64 | `getTestFileName`, also at app/page.tsx:370-386 (properties in Renderer.TestFileNameShape) |
| Renderer.TestBaseNameRule | app/api/generate-test-code/route.ts:49-53 | for every path: when `.e` is the first source extension the last segment ends with, the base name is the segment without `.e`, or "test" when that is empty |
| Renderer.TestBaseNameNoExtension | app/api/generate-test-code/route.ts:49-53 | for every path whose last segment ends in no source extension, the base name is that segment, or "test" when it is empty |
| Renderer.DotlessSegmentBaseName | app/api/generate-test-code/route.ts:49-53 | example: a segment without `.` (`dir/Makefile`) keeps its whole name |
| Renderer.RootLevelBaseName | app/api/generate-test-code/route.ts:49-53 | example: a path without `/` (`App.tsx`) is its own segment and gives `App` |
| Renderer.ExtensionOnlyBaseName | app/api/generate-test-code/route.ts:49-53 | example: a segment that is only an extension (`dir/.py`) gives "test" |
| Renderer.TestFileNameShape | app/api/generate-test-code/route.ts:48-64 | the test file name is `<base>.test.js` when "Jest" is in the framework or no check holds, else `test_<base>.py` for "pytest", else `<base>Test.java` for "JUnit" |
| Renderer.BaseNameWith | app/api/generate-test-code/route.ts:49-53 | `dir/b.e` has base name `b` when `.e` is the first source extension it ends with |
| Renderer.StrippedName | app/api/generate-test-code/route.ts:53 | the extension regex removes exactly that trailing extension |
| Renderer.ComponentBaseName | app/api/generate-test-code/route.ts:49-53 | `dir/b.tsx` has base name `b` |
| Renderer.OneExtensionStripped | app/api/generate-test-code/route.ts:53 | only the last extension is removed: `b.test.ts` gives `b.test` |
| Renderer.PythonBaseName | app/api/generate-test-code/route.ts:49-53 | `dir/b.py` has base name `b` |
| Renderer.JavaBaseName | app/api/generate-test-code/route.ts:49-53 | `dir/b.java` has base name `b` |
| Renderer.EmptySegmentBaseName | app/api/generate-test-code/route.ts:53 | a path ending in `/` has base name "test" |
| Renderer.ReactNameIsJest | app/api/generate-test-code/route.ts:55 | the React framework name passes the Jest check |
| Renderer.PytestNameChecks | app/api/generate-test-code/route.ts:55-58 | "pytest" fails the Jest check and passes the pytest check |
| Renderer.SpringNameChecks | app/api/generate-test-code/route.ts:55-60 | "JUnit 5 + Spring Test" reaches the JUnit naming |
| Renderer.LowerJUnitChecks | app/api/generate-test-code/route.ts:55-63 | lower-case "junit" fails all three case-sensitive checks |
| Renderer.JestFileNameExample | app/api/generate-test-code/route.ts:48-56 | `dir/b.tsx` under React Testing Library gives `b.test.js` |
| Renderer.PytestFileNameExample | app/api/generate-test-code/route.ts:48-58 | `dir/b.py` under pytest gives `test_b.py` |
| Renderer.JUnitFileNameExample | app/api/generate-test-code/route.ts:48-60 | `dir/b.java` under the Spring name gives `bTest.java` |
| Renderer.EmptySegmentFileName | app/api/generate-test-code/route.ts:48-58 | a path ending in `/` under pytest gives `test_test.py` |
| Renderer.CaseSensitiveFileName | app/api/generate-test-code/route.ts:55-63 | `dir/b.java` under "junit" falls through to `b.test.js` |
| Renderer.ContentIndependent | app/api/generate-test-code/route.ts:66-80 | every renderer except Jest ignores the file content |
| Renderer.TestCode | app/api/generate-test-code/route.ts:66-80 | the code is the template of the renderer `RendererFor` picks: React, Jest on the extracted export names, pytest, JUnit or generic |
| Renderer.CodeRoute | app/api/generate-test-code/route.ts:7-45 | 401 without token; 400 without summary; 500 iff the content fetch fails; otherwise `TestCode` of the summary and content, and `TestFileName` of its file and framework |
| Dispatch.ReactFrameworkRenderer | app/api/generate-test-code/route.ts:67-70 | "Jest + React Testing Library" reaches the React renderer |
| Dispatch.JestFrameworkRenderer | app/api/generate-test-code/route.ts:67-72 | "Jest" and "Jest + MSW" reach the Jest renderer |
| Dispatch.PytestFrameworkRenderer | app/api/generate-test-code/route.ts:67-74 | "pytest" reaches the pytest renderer |
| Dispatch.PytestSeleniumFrameworkRenderer | app/api/generate-test-code/route.ts:67-74 | "pytest + Selenium" reaches the pytest renderer |
| Dispatch.JUnitFrameworkRenderer | app/api/generate-test-code/route.ts:67-76 | "JUnit 5" reaches the JUnit renderer |
| Dispatch.JUnitSpringFrameworkRenderer | app/api/generate-test-code/route.ts:67-76 | "JUnit 5 + Spring Test" reaches the JUnit renderer |
| Dispatch.AnalyzerFrameworksRendered | app/api/generate-test-code/route.ts:66-80 | no framework the analyzer assigns falls through to the generic renderer |
| Dispatch.AnalyzerSummaryTemplates | app/api/generate-test-code/route.ts:66-80 | a summary with any analyzer framework is rendered with its family's template: React, Jest (both Jest names), pytest (both), JUnit (both) |
| Dispatch.NotJest | app/api/generate-test-code/route.ts:71-75 | a lower-cased name starting "ju" with no other `j` does not contain "jest" |
| Session.ListedFilesShape | app/page.tsx:152-154 | the file list keeps exactly the listed entries, their multiplicity and their order |
| Session.ListedIffStripped | app/page.tsx:153 | a name passes the file filter iff the extension regex changes it |
| Session.ListedFilesAnalyzed | app/page.tsx:153 | every listed file reaches one of the analyzer's handlers |
| Session.SourceExtensionsLower | app/page.tsx:153 | the six listed extensions are lower case, without `.`, and analysed |
| Session.ListedFiles | app/page.tsx:152-154 | the entries the page keeps: files whose name ends in a source extension (properties in Session.ListedFilesShape) |
| Session.MockEntries | app/page.tsx:183-233 | the demo records per extension (properties in Session.MockIsCatalogPrefix, Session.MockEntriesFacts) |
| Session.MockSummaries | app/page.tsx:177-237 | the `flatMap` over the selected files (properties in Session.MockSummariesAppend, Session.MockSummariesOrigin) |
| Session.MockIsCatalogPrefix | app/page.tsx:177-237 | the demo records are the leading records of the analyzer catalog for the same extension |
| Session.ReactPrefix | app/page.tsx:183-203 | a tsx/jsx file gets the React catalog's render and props records |
| Session.PythonPrefix | app/page.tsx:204-213 | a py file gets the Python catalog's functions record |
| Session.JavaPrefix | app/page.tsx:214-223 | a java file gets the Java catalog's junit record |
| Session.ModulePrefix | app/page.tsx:224-233 | any other file gets the module catalog's functions record |
| Session.MockIsAnalyzerSelection | app/page.tsx:177-237 | the demo records are a check selection of the analyzer catalog |
| Session.MockRecordsEmitted | app/page.tsx:177-237 | the demo summaries are what an analyzer handler emits for that selection |
| Session.MockEntriesFacts | app/page.tsx:183-233 | every demo record is a High-priority unit test with the framework of its kind of file |
| Session.MockSummariesForShape | app/page.tsx:177-237 | render and props for a component, one summary otherwise; ids `${path}-${tag}`, all of the file |
| Session.MockRecordsIds | app/page.tsx:186-226 | the demo ids are the mock tags after the file's path |
| Session.MockRecordsFields | app/page.tsx:183-233 | the number, priority, type and framework of the demo records |
| Session.MockCatalogFacts | app/page.tsx:177-237 | the catalog tags and flag count that go with a kind of file |
| Session.MockTagSelection | app/page.tsx:177-237 | selecting the catalog tags by the demo flags gives the demo tags |
| Session.MockSummariesAppend | app/page.tsx:177 | `flatMap` keeps file order: a + b gives a's summaries then b's |
| Session.MockSummariesOrigin | app/page.tsx:177-237 | each demo summary is one of a selected file's and describes it |
| Session.MockComponentName | app/page.tsx:277-281 | the mock component name is non-empty |
| Session.ComponentNameVsBaseName | app/page.tsx:277-281 | the component name and the test file base name differ only in their fallback |
| Session.MockTestCode | app/page.tsx:276-368 | the mock code interpolates the component name |
| Session.MockTestCodeDispatch | app/page.tsx:283-362 | React template iff "React" is in the framework; pytest template iff "pytest" without "React"; JUnit template iff "JUnit" without either; otherwise the generic one |
| Session.MockCodeOfMockSummaries | app/page.tsx:177-362 | on demo summaries the template follows the file's extension |
| Session.FrameworkChecks | app/page.tsx:283-335 | the case-sensitive checks on the demo framework names |
| Session.PriorityColor | app/page.tsx:439-450 | the badge variant on the lower-cased priority (properties in Session.PriorityColorIff) |
| Session.PriorityColorIff | app/page.tsx:439-450 | "high" in any case is destructive, "low" secondary, anything else default |
| Session.AnalyzerPriorityColors | app/page.tsx:439-450 | High is destructive and Medium default |
| Session.Upsert | app/page.tsx:268 | drop every test with the new test's summary id, then append it (properties in Session.UpsertShape, Session.UpsertLastWins) |
| Session.UpsertShape | app/page.tsx:268 | after adding, the new test is last and the only one with its id; the others keep their order |
| Session.UpsertKeepsUnique | app/page.tsx:268 | the collection stays keyed by summary id |
| Session.SubseqUnique | app/page.tsx:268 | filtering a list with unique ids keeps them unique |
| Session.UpsertLastWins | app/page.tsx:268 | generating again for one summary id replaces the earlier test |
| Session.WithoutPath | app/page.tsx:165 | drop every entry with the path (properties in Session.WithoutPathShape) |
| Session.WithoutPathShape | app/page.tsx:165 | unchecking drops every entry with the path and keeps all others in order |
| Session.Logout | app/page.tsx:115-127 | `handleLogout`'s new state; unchanged when the request throws (properties in Session.LogoutResets) |
| Session.SelectRepository | app/page.tsx:141-159 | `handleRepositorySelect`'s new state (properties in Session.SelectRepositoryResets) |
| Session.SelectFile | app/page.tsx:161-167 | `handleFileSelect`'s new state: append, or drop every entry with the path (properties in Session.CheckThenUncheck) |
| Session.SummarizeSelection | app/page.tsx:169-246 | `generateTestSummaries`'s new state: nothing without a selection, otherwise the tests tab and the demo summaries |
| Session.GenerateCode | app/page.tsx:248-274 | `generateTestCode`'s new state (properties in Session.GenerateCodeKeepsUnique) |
| Session.LogoutResets | app/page.tsx:115-127 | logout signs out and clears repository, selection, summaries and generated tests |
| Session.SelectRepositoryResets | app/page.tsx:141-159 | picking a repository clears selection, summaries and tests, opens the files tab, and sets the listed files when the listing arrives |
| Session.CheckThenUncheck | app/page.tsx:161-167 | checking then unchecking a new file restores the state |
| Session.GenerateCodeKeepsUnique | app/page.tsx:248-274 | generating code keeps ids unique and shows the stored test |
| Session.HomePage.constructor | app/page.tsx:62-90 | the page starts signed out with nothing selected |
| Session.HomePage.HandleLogout | app/page.tsx:115-127 | the state becomes `Logout` of the old one; ids stay unique |
| Session.HomePage.HandleRepositorySelect | app/page.tsx:141-159 | the state becomes `SelectRepository` of the old one |
| Session.HomePage.HandleFileSelect | app/page.tsx:161-167 | the state becomes `SelectFile` of the old one |
| Session.HomePage.GenerateTestSummaries | app/page.tsx:169-246 | the state becomes `SummarizeSelection` of the old one |
| Session.HomePage.GenerateTestCode | app/page.tsx:248-274 | the state becomes `GenerateCode` of the old one; ids stay unique |
| FileBrowser.FileIconIffCodeFile | components/file-browser.tsx:86-100 | the code icon is shown iff the file is a code file |
| FileBrowser.IsCodeFile | components/file-browser.tsx:96-100 | the lower-cased extension is one of the twelve code extensions |
| FileBrowser.FileIcon | components/file-browser.tsx:86-94 | the code icon for a code extension, the plain icon otherwise |
| FileBrowser.WholeNameTested | components/file-browser.tsx:96-100 | a name without `.` is tested as a whole |
| FileBrowser.BareExtensionIsCode | components/file-browser.tsx:96-100 | a name that is just a code extension (`c`, `go`) is a code file |
| FileBrowser.ExtensionTested | components/file-browser.tsx:96-100 | `stem.ext` is a code file iff lower-cased `ext` is one of the twelve code extensions |
| FileBrowser.CodeFileIgnoresCase | components/file-browser.tsx:96-100 | the test ignores case |
| FileBrowser.AnalyzedAreCode | components/file-browser.tsx:96-100 | every extension the analyzer handles is a code extension |
| FileBrowser.ListedAreCode | components/file-browser.tsx:96-100 | every file the page lists can be selected in the browser |
| FileBrowser.ToggleFile | components/file-browser.tsx:193-199 | remove every occurrence of a selected path, append any other (properties in FileBrowser.ToggleFileShape) |
| FileBrowser.ToggleFileShape | components/file-browser.tsx:193-199 | toggling a selected path removes it and keeps the rest; any other path is appended |
| FileBrowser.ToggleFileFlips | components/file-browser.tsx:193-199 | a path is selected after the toggle iff it was not before |
| FileBrowser.ToggleAbsentTwice | components/file-browser.tsx:193-199 | toggling an unselected path twice restores the selection |
| FileBrowser.TogglePresentTwice | components/file-browser.tsx:193-199 | toggling a selected path twice moves it to the end and drops its duplicates |
| FileBrowser.ClearSelection | components/file-browser.tsx:211-213 | clearing leaves nothing selected |
| FileBrowser.ToggleAfterClear | components/file-browser.tsx:193-213 | after clearing, a toggle selects that path alone |
| FileBrowser.ToggleDir | components/file-browser.tsx:201-209 | delete `path` from the set when present, add it otherwise (properties in FileBrowser.ToggleDirFlips) |
| FileBrowser.ToggleDirFlips | components/file-browser.tsx:201-209 | the directory toggle flips `path` and no other path |
| FileBrowser.ToggleDirTwice | components/file-browser.tsx:201-209 | toggling a directory twice restores the set |
| FileBrowser.Browser.constructor | components/file-browser.tsx:168 | no directory is expanded at first |
| FileBrowser.Browser.HandleDirToggle | components/file-browser.tsx:201-209 | the expanded set becomes its toggle at `path` |
| FileBrowser.Length | components/file-browser.tsx:80 | `children.length`: 0 for the initial array, undefined for the stored reply object |
| FileBrowser.ClickLoads | components/file-browser.tsx:77-84 | a click asks for children of a directory that was collapsed, shows `length === 0` and is not loading |
| FileBrowser.ChildrenAfter | components/file-browser.tsx:60-75 | an answered load stores the reply object; otherwise the children stay |
| FileBrowser.AnsweredLoadIsFinal | components/file-browser.tsx:60-84 | after an answered load, even of an empty directory, no later click asks for the children again |
| FileBrowser.FailedLoadRetried | components/file-browser.tsx:60-84 | after a failed load, the next expanding click asks again |
| FileBrowser.ShowsChildren | components/file-browser.tsx:144 | an expanded directory lists children when `children.length > 0` |
| FileBrowser.ChildrenNeverShown | components/file-browser.tsx:144 | no node ever lists children: the length is 0 before a load and undefined after one |
| FileBrowser.TreeNode.constructor | components/file-browser.tsx:55-57 | a node starts with no children and not loading |
| FileBrowser.TreeNode.LoadChildren | components/file-browser.tsx:60-75 | a request goes out iff the node is a directory not loading; an answered request stores the reply as the children, a failed one leaves them |
| FileBrowser.TreeNode.HandleDirClick | components/file-browser.tsx:77-84 | a directory click toggles its expansion, and asks for children iff it was collapsed, its children have length 0 and it is not loading |
| PullRequest.Status | app/api/github/create-pr/route.ts:10-118 | status 200 iff the pull request was created |
| PullRequest.Complete | app/api/github/create-pr/route.ts:15-17 | repository, branch name and title non-empty, and at least one test |
| PullRequest.BranchReady | app/api/github/create-pr/route.ts:63-70 | the route goes on after an ok branch creation, or an error whose message contains "already exists" |
| PullRequest.WriteCall | app/api/github/create-pr/route.ts:73-89 | the write of `tests/<fileName>` with message `Add <title>` on the new branch |
| PullRequest.Writes | app/api/github/create-pr/route.ts:73-89 | one write per test |
| PullRequest.Workflow | app/api/github/create-pr/route.ts:5-120 | the route: 401, then 500 for an unparsable body, then 400, then the upstream steps |
| PullRequest.Upstream | app/api/github/create-pr/route.ts:20-115 | the upstream steps with their early 500s (properties in PullRequest.CallOrder, PullRequest.UpstreamCreatedIff) |
| PullRequest.CreatePullRequest | app/api/github/create-pr/route.ts:5-120 | the imperative route makes the calls and returns the outcome of the workflow |
| PullRequest.UnauthorizedIff | app/api/github/create-pr/route.ts:7-11 | 401 iff the token is missing or empty, and then no call is made |
| PullRequest.MissingFieldsIff | app/api/github/create-pr/route.ts:13-17 | 400 iff a token is there and a required field is missing or empty, with no call |
| PullRequest.ValidationFirst | app/api/github/create-pr/route.ts:7-20 | no upstream call happens before both checks pass |
| PullRequest.CallOrder | app/api/github/create-pr/route.ts:20-115 | the calls go repository, ref, branch creation, one write per test, pull request |
| PullRequest.BranchRef | app/api/github/create-pr/route.ts:35-62 | the ref read is the default branch's, and the branch `refs/heads/<name>` is created at its sha |
| PullRequest.BranchExistsTolerated | app/api/github/create-pr/route.ts:63-70 | the route goes on past branch creation iff it succeeded or its error message contains "already exists" |
| PullRequest.WritesShape | app/api/github/create-pr/route.ts:73-91 | one write per test in order, to `tests/<fileName>` on the new branch, with message `Add <title>` |
| PullRequest.PullRequestCall | app/api/github/create-pr/route.ts:94-108 | the pull request goes from the new branch into the default branch with the given title and body |
| PullRequest.ThrewFails | app/api/github/create-pr/route.ts:116-118 | any call that throws ends in 500 |
| PullRequest.WriteStatusIgnored | app/api/github/create-pr/route.ts:91 | the status and body of write replies do not matter, only whether they threw |
| PullRequest.CreatedIff | app/api/github/create-pr/route.ts:5-120 | the route succeeds iff validation passes and the upstream steps end in a pull request; the pull request call is then the last of 4 + n calls |
| PullRequest.UpstreamCreatedIff | app/api/github/create-pr/route.ts:20-115 | the upstream steps end in a pull request iff the repository and ref replies are ok and parse, the ref has a sha, the branch is ready (created, or "already exists"), no write throws and the pull request reply is ok and parses; the route then answers with that reply |

## Left out

- I/O: sessions, cookies, `fetch` and JSON parsing are parameters. Each GitHub reply is a
  value of the model, and a fetched file is given as its decoded content. Base64 encoding and
  decoding are not modelled; a written file's content is the code before encoding.
- Regular expressions other than fixed-text tests (`\w+:\s*\w+`, `on\w+=`, the export
  patterns, and the Jest name extraction) are given functions in `TestCases.Matchers`. Their
  matching is not modelled.
- Template text: each template block is a `Templates.Block` value, not its literal text.
- Case mapping (`toLowerCase`, `toUpperCase`) covers ASCII letters only.
- Concurrency: `Promise.all` in both routes is modelled as calls one after the other, and async
  interleaving of page handlers and of a tree node's `loadChildren` is not modelled. The
  `setTimeout` delays in the page are left out, because they change nothing but timing.
- `openPRDialog` and `createPullRequest` on the page: their defaults depend on the clock, and
  the request they send is the pull-request route's body, which `PullRequest` models.
- The sign-in check, the repository and file listing routes, the authentication routes and the
  GitHub client library are not part of this model.
- The page's loading flags (`isGenerating`, `isGeneratingCode`, `loading`), its JSX, and the
  browser's rendering and root-listing error state are left out.
- `FileItem.size` and the repository fields the page does not read are left out.
- PullRequest: `default_branch` is taken as a string the repository reply always has. When
  it is missing, the code puts the text "undefined" into the ref URL and sends no `base`; the
  model does not single out that case. A missing `description` is modelled as the empty
  string, so the model's pull request has an empty `body` where the code sends none. A reply
  without `object` is modelled as `sha == None`, which ends the route with 500, as the
  `TypeError` the code throws does. An `object` without `sha` is treated the same way, where
  the code would send an undefined `sha` on.
- Analyzer.SummariesRoute: the summary route also answers 400 when `files` is missing or is not an
  array. The model's request always holds a list of files, so only the empty-list case of that
  400 is modelled.
- FileBrowser.TreeNode.LoadChildren: the listing route ignores `path` and always returns the
  repository's root listing. The model takes the reply's array as a parameter; what the
  listing route itself returns is not part of this model.
- Analyzer.SummariesFor: the non-string `file.name` case (where `split` throws) is left out;
  names are strings.
- Analyzer.SummariesRoute, Renderer.CodeRoute: a file or summary whose `path`, `id`, `file`
  or `framework` is missing or not a string makes the code throw inside its `try`, which
  answers 500. The model's records always hold strings, so that 500 is not modelled.
