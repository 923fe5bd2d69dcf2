/**
 * The metadata attributes a test method can carry, and how the adapter turns
 * them into labels, links and a description of the test result.  The
 * attributes are given as a list, in the order reflection returns them,
 * instead of being read by reflection.
 */
module Attributes {
  import opened Wrappers
  import opened Sequences
  import opened Results

  /** The names of the labels the reporting library's label factories produce. */
  const FEATURE := "feature"
  const OWNER := "owner"
  const SUITE := "suite"
  const SUB_SUITE := "subSuite"
  const EPIC := "epic"
  const TAG := "tag"
  const SEVERITY := "severity"
  const PARENT_SUITE := "parentSuite"
  const STORY := "story"
  const THREAD := "thread"
  const HOST := "host"
  const TEST_CLASS := "testClass"
  const TEST_METHOD := "testMethod"
  const PACKAGE := "package"

  datatype SeverityLevel = Normal | Blocker | Critical | Minor | Trivial

  /** The text a severity label carries: the level's name. */
  function SeverityName(s: SeverityLevel): string {
    match s
    case Normal => "normal"
    case Blocker => "blocker"
    case Critical => "critical"
    case Minor => "minor"
    case Trivial => "trivial"
  }

  /** Each severity level is written as its own text, so the label tells the levels apart. */
  lemma SeverityNameInjective(a: SeverityLevel, b: SeverityLevel)
    ensures SeverityName(a) == SeverityName(b) <==> a == b
  {
  }

  /** One attribute on a test method; `OtherAllureInfo` is a metadata attribute none of the cases handles. */
  datatype AllureAttribute =
    | AllureFeature(features: seq<string>)
    | AllureLink(link: Link)
    | AllureIssue(issueLink: Link)
    | AllureOwner(owner: string)
    | AllureSuite(suite: string)
    | AllureSubSuite(subSuite: string)
    | AllureEpic(epic: string)
    | AllureTag(tags: seq<string>)
    | AllureSeverity(severity: SeverityLevel)
    | AllureParentSuite(parentSuite: string)
    | AllureStory(stories: seq<string>)
    | AllureDescription(description: string)
    | AllureLabel(labelName: string, value: string)
    | OtherAllureInfo

  /** The five labels every test result starts with. */
  function InitialLabels(thread: string, host: string, className: string, displayName: string): seq<Label> {
    [Label(THREAD, thread), Label(HOST, host), Label(TEST_CLASS, className),
     Label(TEST_METHOD, displayName), Label(PACKAGE, className)]
  }

  /** One label called `name` per value, in the order of the values. */
  function Labeled(name: string, values: seq<string>): seq<Label> {
    if values == [] then []
    else Labeled(name, values[..|values| - 1]) + [Label(name, Last(values))]
  }

  /** The labels one attribute adds. */
  function LabelsOf(a: AllureAttribute): seq<Label> {
    match a
    case AllureFeature(features) => Labeled(FEATURE, features)
    case AllureOwner(owner) => [Label(OWNER, owner)]
    case AllureSuite(suite) => [Label(SUITE, suite)]
    case AllureSubSuite(subSuite) => [Label(SUB_SUITE, subSuite)]
    case AllureEpic(epic) => [Label(EPIC, epic)]
    case AllureTag(tags) => Labeled(TAG, tags)
    case AllureSeverity(severity) => [Label(SEVERITY, SeverityName(severity))]
    case AllureParentSuite(parentSuite) => [Label(PARENT_SUITE, parentSuite)]
    case AllureStory(stories) => Labeled(STORY, stories)
    case AllureLabel(labelName, value) => [Label(labelName, value)]
    case _ => []
  }

  /** The links one attribute adds. */
  function LinksOf(a: AllureAttribute): seq<Link> {
    match a
    case AllureLink(link) => [link]
    case AllureIssue(issueLink) => [issueLink]
    case _ => []
  }

  /** The labels a list of attributes adds, attribute by attribute. */
  function AttributeLabels(attrs: seq<AllureAttribute>): seq<Label> {
    if attrs == [] then []
    else AttributeLabels(attrs[..|attrs| - 1]) + LabelsOf(Last(attrs))
  }

  /** The links a list of attributes adds, attribute by attribute. */
  function AttributeLinks(attrs: seq<AllureAttribute>): seq<Link> {
    if attrs == [] then []
    else AttributeLinks(attrs[..|attrs| - 1]) + LinksOf(Last(attrs))
  }

  /** The description after the attributes are applied to a test whose description was `d`. */
  function DescriptionAfter(attrs: seq<AllureAttribute>, d: Option<string>): Option<string> {
    if attrs == [] then d
    else if Last(attrs).AllureDescription? then Some(Last(attrs).description)
    else DescriptionAfter(attrs[..|attrs| - 1], d)
  }

  /** `Labeled` makes exactly one label per value, named `name`, at the value's position. */
  lemma {:induction false} LabeledAt(name: string, values: seq<string>)
    ensures |Labeled(name, values)| == |values|
    ensures forall i | 0 <= i < |values| :: Labeled(name, values)[i] == Label(name, values[i])
  {
    if values != [] {
      LabeledAt(name, values[..|values| - 1]);
    }
  }

  /** The labels of a concatenation are the labels of each part, in order. */
  lemma {:induction false} AttributeLabelsAppend(a: seq<AllureAttribute>, b: seq<AllureAttribute>)
    ensures AttributeLabels(a + b) == AttributeLabels(a) + AttributeLabels(b)
  {
    if b != [] {
      var b' := b[..|b| - 1];
      assert (a + b)[..|a + b| - 1] == a + b';
      assert Last(a + b) == Last(b);
      AttributeLabelsAppend(a, b');
    } else {
      assert a + b == a;
    }
  }

  /**
   * The labels of one attribute sit in the result right after the labels of
   * the attributes before it: labels appear in attribute order.
   */
  lemma LabelsInAttributeOrder(a: seq<AllureAttribute>, x: AllureAttribute, b: seq<AllureAttribute>)
    ensures AttributeLabels(a + [x] + b) == AttributeLabels(a) + LabelsOf(x) + AttributeLabels(b)
  {
    AttributeLabelsAppend(a + [x], b);
    AttributeLabelsAppend(a, [x]);
    assert [x][..0] == [];
  }

  /** A description attribute adds no label. */
  lemma DescriptionAddsNoLabel(a: seq<AllureAttribute>, text: string, b: seq<AllureAttribute>)
    ensures AttributeLabels(a + [AllureDescription(text)] + b) == AttributeLabels(a + b)
  {
    LabelsInAttributeOrder(a, AllureDescription(text), b);
    AttributeLabelsAppend(a, b);
  }

  /** A feature, tag or story attribute yields one label per value, in the order given. */
  lemma MultiValuedLabels(a: AllureAttribute)
    requires a.AllureFeature? || a.AllureTag? || a.AllureStory?
    ensures var values := if a.AllureFeature? then a.features else if a.AllureTag? then a.tags else a.stories;
            var name := if a.AllureFeature? then FEATURE else if a.AllureTag? then TAG else STORY;
            |LabelsOf(a)| == |values| &&
            forall i | 0 <= i < |values| :: LabelsOf(a)[i] == Label(name, values[i])
  {
    match a
    case AllureFeature(fs) => LabeledAt(FEATURE, fs);
    case AllureTag(ts) => LabeledAt(TAG, ts);
    case AllureStory(ss) => LabeledAt(STORY, ss);
  }

  /** The description is the text of the last description attribute in the list. */
  lemma {:induction false} LastDescriptionWins(attrs: seq<AllureAttribute>, d: Option<string>, k: nat)
    requires k < |attrs| && attrs[k].AllureDescription?
    requires forall j | k < j < |attrs| :: !attrs[j].AllureDescription?
    ensures DescriptionAfter(attrs, d) == Some(attrs[k].description)
  {
    if k < |attrs| - 1 {
      var init := attrs[..|attrs| - 1];
      assert init[k] == attrs[k];
      LastDescriptionWins(init, d, k);
    }
  }

  /** Without a description attribute the description is left as it was. */
  lemma {:induction false} DescriptionKept(attrs: seq<AllureAttribute>, d: Option<string>)
    requires forall j | 0 <= j < |attrs| :: !attrs[j].AllureDescription?
    ensures DescriptionAfter(attrs, d) == d
  {
    if attrs != [] {
      var init := attrs[..|attrs| - 1];
      assert forall j | 0 <= j < |init| :: init[j] == attrs[j];
      DescriptionKept(init, d);
    }
  }

  /**
   * Applies the attributes to a test result in list order: labels and
   * links are appended, and a description attribute replaces the description.
   */
  method UpdateTestDataFromAttributes(testResult: TestResult, attributes: seq<AllureAttribute>)
    modifies testResult`labels, testResult`links, testResult.exec`description
    ensures testResult.labels == old(testResult.labels) + AttributeLabels(attributes)
    ensures testResult.links == old(testResult.links) + AttributeLinks(attributes)
    ensures testResult.exec.description == DescriptionAfter(attributes, old(testResult.exec.description))
  {
    for i := 0 to |attributes|
      invariant testResult.labels == old(testResult.labels) + AttributeLabels(attributes[..i])
      invariant testResult.links == old(testResult.links) + AttributeLinks(attributes[..i])
      invariant testResult.exec.description == DescriptionAfter(attributes[..i], old(testResult.exec.description))
    {
      assert attributes[..i + 1][..i] == attributes[..i];
      assert Last(attributes[..i + 1]) == attributes[i];
      ApplyAttribute(testResult, attributes[i]);
    }
    assert attributes[..|attributes|] == attributes;
  }

  /** The body of the attribute loop: the case analysis on one attribute. */
  method ApplyAttribute(testResult: TestResult, a: AllureAttribute)
    modifies testResult`labels, testResult`links, testResult.exec`description
    ensures testResult.labels == old(testResult.labels) + LabelsOf(a)
    ensures testResult.links == old(testResult.links) + LinksOf(a)
    ensures testResult.exec.description == if a.AllureDescription? then Some(a.description) else old(testResult.exec.description)
  {
    match a
    case AllureFeature(features) =>
      AddLabels(testResult, FEATURE, features);
    case AllureLink(link) =>
      testResult.links := testResult.links + [link];
    case AllureIssue(issueLink) =>
      testResult.links := testResult.links + [issueLink];
    case AllureOwner(owner) =>
      testResult.labels := testResult.labels + [Label(OWNER, owner)];
    case AllureSuite(suite) =>
      testResult.labels := testResult.labels + [Label(SUITE, suite)];
    case AllureSubSuite(subSuite) =>
      testResult.labels := testResult.labels + [Label(SUB_SUITE, subSuite)];
    case AllureEpic(epic) =>
      testResult.labels := testResult.labels + [Label(EPIC, epic)];
    case AllureTag(tags) =>
      AddLabels(testResult, TAG, tags);
    case AllureSeverity(severity) =>
      testResult.labels := testResult.labels + [Label(SEVERITY, SeverityName(severity))];
    case AllureParentSuite(parentSuite) =>
      testResult.labels := testResult.labels + [Label(PARENT_SUITE, parentSuite)];
    case AllureStory(stories) =>
      AddLabels(testResult, STORY, stories);
    case AllureDescription(description) =>
      testResult.exec.description := Some(description);
    case AllureLabel(labelName, value) =>
      testResult.labels := testResult.labels + [Label(labelName, value)];
    case OtherAllureInfo =>
  }

  /** The inner `foreach` of the feature, tag and story cases: one label per value. */
  method AddLabels(testResult: TestResult, name: string, values: seq<string>)
    modifies testResult`labels
    ensures testResult.labels == old(testResult.labels) + Labeled(name, values)
  {
    for j := 0 to |values|
      invariant testResult.labels == old(testResult.labels) + Labeled(name, values[..j])
    {
      assert values[..j + 1][..j] == values[..j];
      testResult.labels := testResult.labels + [Label(name, values[j])];
    }
    assert values[..|values|] == values;
  }
}
