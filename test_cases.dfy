/** The records shared by the analyzer, the renderer and the page: test
    summaries, their ids, and the regular-expression tests the model takes
    as given. */
module TestCases {
  import opened Strings
  import opened Sequences

  /** A proposed test case: metadata only, no code. */
  datatype TestSummary = TestSummary(
    id: string,
    title: string,
    description: string,
    framework: string,
    kind: string,        // the `type` field: "Unit Test", "Integration Test" or "E2E Test"
    file: string,        // path of the analysed file
    priority: string)

  // The test types and framework names the analyzer assigns. They are named constants
  // so that the verifier handles each as one term rather than letter by letter.
  const UnitTest := "Unit Test"
  const IntegrationTest := "Integration Test"
  const E2ETest := "E2E Test"
  const ReactFramework := "Jest + React Testing Library"
  const JestFramework := "Jest"
  const JestMswFramework := "Jest + MSW"
  const PytestFramework := "pytest"
  const PytestSeleniumFramework := "pytest + Selenium"
  const JUnitFramework := "JUnit 5"
  const SpringFramework := "JUnit 5 + Spring Test"

  /** The id `${path}-${tag}` every summary is given. */
  function SummaryId(path: string, tag: string): string
  {
    path + "-" + tag
  }

  /** The tag of an id: the text after its last `-`. */
  function TagOf(id: string): string
  {
    AfterLast(id, '-')
  }

  /** A tag without `-` is recovered from the id, and the id starts with the path. */
  lemma SummaryIdParts(path: string, tag: string)
    requires '-' !in tag
    ensures TagOf(SummaryId(path, tag)) == tag
    ensures |SummaryId(path, tag)| == |path| + 1 + |tag| && SummaryId(path, tag)[..|path|] == path
  {
    AfterLastOfJoin(path, '-', tag);
  }

  /** Ids of tags without `-` determine both the path and the tag. */
  lemma SummaryIdInjective(p1: string, t1: string, p2: string, t2: string)
    requires '-' !in t1 && '-' !in t2
    requires SummaryId(p1, t1) == SummaryId(p2, t2)
    ensures p1 == p2 && t1 == t2
  {
    SummaryIdParts(p1, t1);
    SummaryIdParts(p2, t2);
  }

  /** Every summary describes file `path` and has the id `${path}-${tag}` of its own tag. */
  ghost predicate OfFile(r: seq<TestSummary>, path: string)
  {
    forall i :: 0 <= i < |r| ==> r[i].file == path && r[i].id == SummaryId(path, TagOf(r[i].id))
  }

  /** The tags of a list of summaries, in order. */
  function Tags(r: seq<TestSummary>): (tags: seq<string>)
    ensures |tags| == |r|
  {
    seq(|r|, i requires 0 <= i < |r| => TagOf(r[i].id))
  }

  /** No two summaries share an id. */
  ghost predicate DistinctIds(r: seq<TestSummary>)
  {
    forall i, j :: 0 <= i < j < |r| ==> r[i].id != r[j].id
  }

  /** Summaries of one file with distinct tags have distinct ids. */
  lemma DistinctTagsDistinctIds(r: seq<TestSummary>)
    requires Distinct(Tags(r))
    ensures DistinctIds(r)
  {
    forall i, j | 0 <= i < j < |r| ensures r[i].id != r[j].id {
      assert Tags(r)[i] != Tags(r)[j];
    }
  }

  /** The regular-expression tests of the source, taken as given functions of
      the file content (their `\w` and `\s` classes are not modelled):
      typedBinding      — /\w+:\s*\w+/ matches
      eventAttribute    — /on\w+=/g matches
      exportDeclaration — /export\s+(function\s+\w+|const\s+\w+|class\s+\w+)/g matches
      exportedNames     — the names /export\s+(?:function\s+(\w+)|const\s+(\w+))/g
                          and /(\w+)$/ extract, in content order. */
  datatype Matchers = Matchers(
    typedBinding: string -> bool,
    eventAttribute: string -> bool,
    exportDeclaration: string -> bool,
    exportedNames: string -> seq<string>)
}
