/** Which renderer each framework name the analyzer assigns reaches. The framework
    names are lower-cased first; each fact about a lower-cased name is proved on its
    own, so that every proof handles one literal text at a time. */
module Dispatch {
  import opened Strings
  import opened TestCases
  import opened Renderer
  import opened Templates

  // The analyzer's framework names, lower-cased as `generateTestCode` does.
  const ReactLowered := "jest + react testing library"
  const JestLowered := "jest"
  const JestMswLowered := "jest + msw"
  const PytestLowered := "pytest"
  const PytestSeleniumLowered := "pytest + selenium"
  const JUnitLowered := "junit 5"
  const SpringLowered := "junit 5 + spring test"

  /** Lower-casing the analyzer's framework names. */
  lemma ReactLowerCase()
    ensures ToLower(ReactFramework) == ReactLowered
  {
  }

  lemma JestLowerCase()
    ensures ToLower(JestFramework) == JestLowered && ToLower(JestMswFramework) == JestMswLowered
  {
  }

  lemma PytestLowerCase()
    ensures ToLower(PytestFramework) == PytestLowered
  {
  }

  lemma PytestSeleniumLowerCase()
    ensures ToLower(PytestSeleniumFramework) == PytestSeleniumLowered
  {
  }

  lemma JUnitLowerCase()
    ensures ToLower(JUnitFramework) == JUnitLowered
  {
  }

  lemma SpringLowerCase()
    ensures ToLower(SpringFramework) == SpringLowered
  {
  }

  /** A lower-cased name that starts with "ju" and has no other `j` does not contain "jest",
      although "junit" begins with the same letter. */
  lemma NotJest(f: string)
    requires |f| >= 2 && f[1] == 'u'
    requires forall i :: 1 <= i < |f| ==> f[i] != 'j'
    ensures !Contains(f, "jest")
  {
    SecondCharDiffers(f, "jest");
    NotContainsFirstOnly(f, "jest");
  }

  /** The React Testing Library framework name goes to the React renderer. */
  lemma ReactFrameworkRenderer()
    ensures RendererFor(ReactFramework) == ReactRenderer
  {
    ReactLowerCase();
    ReactNameFacts();
  }

  /** "jest + react testing library" contains "jest" and "react". */
  lemma ReactNameFacts()
    ensures Contains(ReactLowered, "jest") && Contains(ReactLowered, "react")
  {
    PrefixContains(ReactLowered, "jest");
    ReactAt7();
    ContainsAt(ReactLowered, "react", 7);
  }

  /** Letter fact about a constant: "react" starts at index 7 of the lower-cased React name. */
  lemma ReactAt7()
    ensures OccursAt(ReactLowered, "react", 7)
  {
    assert ReactLowered[7..12] == "react";
  }

  /** Plain Jest, and Jest with MSW, go to the Jest renderer. */
  lemma JestFrameworkRenderer()
    ensures RendererFor(JestFramework) == JestRenderer
    ensures RendererFor(JestMswFramework) == JestRenderer
  {
    JestLowerCase();
    PrefixContains(JestLowered, "jest");
    PrefixContains(JestMswLowered, "jest");
    NoR();
    MissingChar(JestLowered, "react", 'r');
    MissingChar(JestMswLowered, "react", 'r');
  }

  /** Letter fact about constants: the Jest names hold no `r`. */
  lemma NoR()
    ensures 'r' !in JestLowered && 'r' !in JestMswLowered
  {
  }

  /** "pytest" goes to the pytest renderer. */
  lemma PytestFrameworkRenderer()
    ensures RendererFor(PytestFramework) == PytestRenderer
  {
    PytestLowerCase();
    NoJ();
    MissingChar(PytestLowered, "jest", 'j');
    PrefixContains(PytestLowered, "pytest");
  }

  /** "pytest + Selenium" goes to the pytest renderer. */
  lemma PytestSeleniumFrameworkRenderer()
    ensures RendererFor(PytestSeleniumFramework) == PytestRenderer
  {
    PytestSeleniumLowerCase();
    SeleniumNameFacts();
    MissingChar(PytestSeleniumLowered, "jest", 'j');
    PrefixContains(PytestSeleniumLowered, "pytest");
  }

  /** Letter fact about a constant: "pytest" holds no `j`. */
  lemma NoJ()
    ensures 'j' !in PytestLowered
  {
  }

  /** Letter facts about a constant: the Selenium name holds no `j` and starts with "pytest". */
  lemma SeleniumNameFacts()
    ensures 'j' !in PytestSeleniumLowered && PytestSeleniumLowered[..6] == "pytest"
  {
  }

  /** "JUnit 5" goes to the JUnit renderer. */
  lemma JUnitFrameworkRenderer()
    ensures RendererFor(JUnitFramework) == JUnitRenderer
  {
    JUnitLowerCase();
    JUnitNameFacts();
    NotJest(JUnitLowered);
    MissingChar(JUnitLowered, "pytest", 'y');
    PrefixContains(JUnitLowered, "junit");
  }

  /** Letter facts about a constant: the lower-cased JUnit name. */
  lemma JUnitNameFacts()
    ensures JUnitLowered[0] == 'j' && JUnitLowered[1] == 'u'
    ensures forall i :: 1 <= i < |JUnitLowered| ==> JUnitLowered[i] != 'j'
    ensures 'y' !in JUnitLowered && JUnitLowered[..5] == "junit"
  {
  }

  /** "JUnit 5 + Spring Test" goes to the JUnit renderer. */
  lemma JUnitSpringFrameworkRenderer()
    ensures RendererFor(SpringFramework) == JUnitRenderer
  {
    SpringLowerCase();
    SpringNameStart();
    SpringNoJ();
    NotJest(SpringLowered);
    SpringNoY();
    MissingChar(SpringLowered, "pytest", 'y');
    PrefixContains(SpringLowered, "junit");
  }

  /** Letter facts about a constant: the lower-cased Spring name starts with "junit". */
  lemma SpringNameStart()
    ensures SpringLowered[0] == 'j' && SpringLowered[1] == 'u' && SpringLowered[..5] == "junit"
  {
  }

  /** Letter fact about a constant: no `j` after the first letter of the Spring name. */
  lemma SpringNoJ()
    ensures forall i :: 1 <= i < |SpringLowered| ==> SpringLowered[i] != 'j'
  {
  }

  /** Letter fact about a constant: the Spring name holds no `y`. */
  lemma SpringNoY()
    ensures 'y' !in SpringLowered
  {
  }

  /** No framework name the analyzer assigns falls through to the generic renderer:
      each reaches the renderer of its own family. */
  lemma AnalyzerFrameworksRendered()
    ensures RendererFor(ReactFramework) == ReactRenderer
    ensures RendererFor(JestFramework) == JestRenderer && RendererFor(JestMswFramework) == JestRenderer
    ensures RendererFor(PytestFramework) == PytestRenderer && RendererFor(PytestSeleniumFramework) == PytestRenderer
    ensures RendererFor(JUnitFramework) == JUnitRenderer && RendererFor(SpringFramework) == JUnitRenderer
  {
    ReactFrameworkRenderer();
    JestFrameworkRenderer();
    PytestFrameworkRenderer();
    PytestSeleniumFrameworkRenderer();
    JUnitFrameworkRenderer();
    JUnitSpringFrameworkRenderer();
  }

  /** The code route renders a summary of each framework the analyzer assigns with the
      template of that framework's family. */
  lemma AnalyzerSummaryTemplates(summary: TestSummary, content: string, m: Matchers)
    ensures summary.framework == ReactFramework ==> TestCode(summary, content, m) == ReactTestCode(summary)
    ensures summary.framework == JestFramework || summary.framework == JestMswFramework
      ==> TestCode(summary, content, m) == JestTestCode(summary, m.exportedNames(content))
    ensures summary.framework == PytestFramework || summary.framework == PytestSeleniumFramework
      ==> TestCode(summary, content, m) == PytestTestCode(summary)
    ensures summary.framework == JUnitFramework || summary.framework == SpringFramework
      ==> TestCode(summary, content, m) == JUnitTestCode(summary)
  {
    AnalyzerFrameworksRendered();
  }
}
