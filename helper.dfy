/**
 * The result-tree builder of one test execution.  The execution keeps the
 * items (steps and fixtures) that are open, innermost last; starting an item
 * attaches it to the tree and pushes it, finishing it removes it from the
 * open list and records its outcome.
 */
module AllureXunitHelper {
  import opened Wrappers
  import opened Sequences
  import opened Text
  import opened Results
  import opened Attributes

  /** The exceptions the model distinguishes: `InvalidOperation` is what `Last` throws on an empty list. */
  datatype Exception = InvalidOperation | UserException(id: int)

  /** `Guid.ToString()`: 32 hex digits and four hyphens. */
  const GUID_LENGTH := 36
  type GuidText = s: string | |s| == GUID_LENGTH witness "00000000-0000-0000-0000-000000000000"

  /** `Guid.ToString("N")`: 32 hex digits. */
  const GUID_DIGITS := 32
  type GuidDigits = s: string | |s| == GUID_DIGITS witness "00000000000000000000000000000000"

  /** The reporting library's suffix for attachment file names. */
  const ATTACHMENT_FILE_SUFFIX := "-attachment"

  /** A unique id for a test or container: the GUID text, a hyphen, then the name. */
  function NewUuid(guid: GuidText, name: string): (uuid: string)
    ensures |uuid| == GUID_LENGTH + 1 + |name|
    ensures uuid[..GUID_LENGTH] == guid && uuid[GUID_LENGTH] == '-'
    ensures uuid[GUID_LENGTH + 1..] == name
  {
    guid + "-" + name
  }

  /** Ids with different GUIDs or different names are different. */
  lemma NewUuidInjective(g1: GuidText, n1: string, g2: GuidText, n2: string)
    ensures NewUuid(g1, n1) == NewUuid(g2, n2) <==> g1 == g2 && n1 == n2
  {
  }

  /** The file name of an attachment: the GUID digits, the attachment suffix, then the extension. */
  function AttachmentSource(guid: GuidDigits, extension: string): (source: string)
    ensures |source| == GUID_DIGITS + |ATTACHMENT_FILE_SUFFIX| + |extension|
    ensures source[..GUID_DIGITS] == guid
    ensures source[GUID_DIGITS..GUID_DIGITS + |ATTACHMENT_FILE_SUFFIX|] == ATTACHMENT_FILE_SUFFIX
    ensures source[GUID_DIGITS + |ATTACHMENT_FILE_SUFFIX|..] == extension
  {
    guid + ATTACHMENT_FILE_SUFFIX + extension
  }

  /** Attachments written under different GUIDs go to different files. */
  lemma AttachmentSourceInjective(g1: GuidDigits, e1: string, g2: GuidDigits, e2: string)
    ensures AttachmentSource(g1, e1) == AttachmentSource(g2, e2) <==> g1 == g2 && e1 == e2
  {
  }

  /** The state of one test execution: its open items, its container and its test result. */
  class ExecutionContext {
    /** The open steps and fixtures, innermost last. */
    var open: seq<ExecutableItem>
    const container: TestResultContainer
    const test: TestResult

    /**
     * The open list holds no item twice, never holds the test itself, and
     * holds only items that are still running.
     */
    ghost predicate Valid()
      reads this, open
    {
      Distinct(open) && test.exec !in open &&
      forall x | x in open :: x.stage == Some(Running)
    }

    /** Where a new step or attachment goes: the innermost open item, or the test result when none is open. */
    function Target(): ExecutableItem
      reads this
    {
      if open == [] then test.exec else Last(open)
    }

    /** A new step or attachment goes to the test result exactly when nothing is open, and otherwise to an open item. */
    lemma TargetChoice()
      requires Valid()
      ensures Target() == test.exec <==> open == []
      ensures open != [] ==> Target() in open && Target() == open[|open| - 1]
    {
    }

    /** The open items other than the innermost one. */
    ghost function Outer(): seq<ExecutableItem>
      reads this
    {
      if open == [] then [] else open[..|open| - 1]
    }

    /**
     * The start of a test: its container and its result record with the five
     * standard labels followed by what the method's attributes add, and an
     * empty open list.
     */
    constructor (containerGuid: GuidText, className: string, testGuid: GuidText, displayName: string,
                 thread: string, host: string, attributes: seq<AllureAttribute>)
      ensures Valid() && open == []
      ensures fresh(container) && container.uuid == NewUuid(containerGuid, className)
      ensures container.name == className && container.befores == None && container.afters == None
      ensures fresh(test) && fresh(test.exec) && test.uuid == NewUuid(testGuid, displayName)
      ensures test.exec.name == displayName && test.historyId == displayName && test.fullName == displayName
      ensures test.labels == InitialLabels(thread, host, className, displayName) + AttributeLabels(attributes)
      ensures test.links == AttributeLinks(attributes)
      ensures test.exec.description == DescriptionAfter(attributes, None)
      ensures test.exec.status == None && test.exec.statusDetails == null
      ensures test.exec.steps == None && test.exec.attachments == None
    {
      container := new TestResultContainer(NewUuid(containerGuid, className), className);
      test := new TestResult(NewUuid(testGuid, displayName), displayName,
                             InitialLabels(thread, host, className, displayName));
      open := [];
      new;
      UpdateTestDataFromAttributes(test, attributes);
    }

    /** Records a running before-fixture on the container and opens it. */
    method StartBeforeFixture(name: string, start: int) returns (ghost fixture: ExecutableItem)
      requires Valid()
      modifies this`open, container`befores
      ensures Valid()
      ensures fresh(fixture) && fixture.kind == FixtureItem && fixture.name == name && fixture.start == start
      ensures fixture.stage == Some(Running) && fixture.status == None
      ensures fixture.steps == None && fixture.attachments == None
      ensures container.befores == Some(old(container.befores).GetOr([]) + [fixture])
      ensures open == old(open) + [fixture]
    {
      var f := new ExecutableItem.Started(FixtureItem, name, start);
      container.befores := Some(container.befores.GetOr([]) + [f]);
      open := open + [f];
      fixture := f;
    }

    /** Records a running after-fixture on the container and opens it. */
    method StartAfterFixture(name: string, start: int) returns (ghost fixture: ExecutableItem)
      requires Valid()
      modifies this`open, container`afters
      ensures Valid()
      ensures fresh(fixture) && fixture.kind == FixtureItem && fixture.name == name && fixture.start == start
      ensures fixture.stage == Some(Running) && fixture.status == None
      ensures fixture.steps == None && fixture.attachments == None
      ensures container.afters == Some(old(container.afters).GetOr([]) + [fixture])
      ensures open == old(open) + [fixture]
    {
      var f := new ExecutableItem.Started(FixtureItem, name, start);
      container.afters := Some(container.afters.GetOr([]) + [f]);
      open := open + [f];
      fixture := f;
    }

    /** Attaches a running step to the innermost open item (or the test result) and opens it. */
    method StartStep(name: string, start: int) returns (ghost step: ExecutableItem)
      requires Valid()
      modifies this`open, Target()`steps
      ensures Valid()
      ensures fresh(step) && step.kind == StepItem && step.name == name && step.start == start
      ensures step.stage == Some(Running) && step.status == None
      ensures step.steps == None && step.attachments == None
      ensures old(Target()).steps == Some(old(Target().steps).GetOr([]) + [step])
      ensures open == old(open) + [step]
    {
      var s := new ExecutableItem.Started(StepItem, name, start);
      var parent := Target();
      parent.steps := Some(parent.steps.GetOr([]) + [s]);
      open := open + [s];
      step := s;
    }

    /** Closes `step`: drops it from the open list and records it as finished with `status`. */
    method Finish(step: ExecutableItem, status: Status, stop: int)
      requires Valid()
      modifies this`open, step`stage, step`stop, step`status
      ensures Valid()
      ensures open == Remove(old(open), step) && step !in open
      ensures step.stage == Some(Finished) && step.stop == stop && step.status == Some(status)
    {
      RemoveDistinct(open, step);
      ghost var before := open;
      open := Remove(open, step);
      step.stage := Some(Finished);
      step.stop := stop;
      step.status := Some(status);
      forall x | x in open ensures x.stage == Some(Running) {
        assert x in before && x != step;
      }
    }

    /** Closes `step` as passed. */
    method PassStep(step: ExecutableItem, stop: int)
      requires Valid()
      modifies this`open, step`stage, step`stop, step`status
      ensures Valid()
      ensures open == Remove(old(open), step) && step !in open
      ensures step.stage == Some(Finished) && step.stop == stop && step.status == Some(Passed)
    {
      Finish(step, Passed, stop);
    }

    /** Closes `step` as failed. */
    method FailStep(step: ExecutableItem, stop: int)
      requires Valid()
      modifies this`open, step`stage, step`stop, step`status
      ensures Valid()
      ensures open == Remove(old(open), step) && step !in open
      ensures step.stage == Some(Finished) && step.stop == stop && step.status == Some(Failed)
    {
      Finish(step, Failed, stop);
    }

    /** Closes the innermost open item as passed; with nothing open, `Last` throws. */
    method PassCurrentStep(stop: int) returns (error: Option<Exception>)
      requires Valid()
      modifies this`open, Target()`stage, Target()`stop, Target()`status
      ensures Valid()
      ensures old(open) == [] ==> error == Some(InvalidOperation) && open == [] && unchanged(test.exec)
      ensures old(open) != [] ==> error == None && open == old(open)[..|old(open)| - 1]
      ensures old(open) != [] ==> var step := old(Last(open));
        step.stage == Some(Finished) && step.stop == stop && step.status == Some(Passed)
    {
      if open == [] {
        return Some(InvalidOperation);
      }
      RemoveLast(open);
      PassStep(Last(open), stop);
      error := None;
    }

    /** Closes the innermost open item as failed; with nothing open, `Last` throws. */
    method FailCurrentStep(stop: int) returns (error: Option<Exception>)
      requires Valid()
      modifies this`open, Target()`stage, Target()`stop, Target()`status
      ensures Valid()
      ensures old(open) == [] ==> error == Some(InvalidOperation) && open == [] && unchanged(test.exec)
      ensures old(open) != [] ==> error == None && open == old(open)[..|old(open)| - 1]
      ensures old(open) != [] ==> var step := old(Last(open));
        step.stage == Some(Finished) && step.stop == stop && step.status == Some(Failed)
    {
      if open == [] {
        return Some(InvalidOperation);
      }
      RemoveLast(open);
      FailStep(Last(open), stop);
      error := None;
    }

    /**
     * Records an attachment on the innermost open item, or on the test result
     * when nothing is open.  Writing the bytes to the results directory is
     * not part of this model.
     */
    method AddAttachment(name: string, mimeType: string, guid: GuidDigits, extension: string)
      requires Valid()
      modifies Target()`attachments
      ensures Valid()
      ensures old(Target()).attachments ==
        Some(old(Target().attachments).GetOr([]) + [Attachment(name, mimeType, AttachmentSource(guid, extension))])
    {
      var source := AttachmentSource(guid, extension);
      var target := Target();
      target.attachments := Some(target.attachments.GetOr([]) + [Attachment(name, mimeType, source)]);
    }

    /** Records the test as failed, with the joined stack traces and messages. */
    method MarkTestCaseAsFailed(stackTraces: seq<string>, messages: seq<string>)
      requires Valid()
      modifies test.exec`statusDetails, test.exec`status, test.exec.statusDetails
      ensures Valid()
      ensures test.exec.status == Some(Failed) && test.exec.statusDetails != null
      ensures old(test.exec.statusDetails) != null ==> test.exec.statusDetails == old(test.exec.statusDetails)
      ensures old(test.exec.statusDetails) == null ==> fresh(test.exec.statusDetails)
      ensures test.exec.statusDetails.trace == Some(Join('\n', stackTraces))
      ensures test.exec.statusDetails.message == Some(Join('\n', messages))
    {
      var details := test.exec.statusDetails;
      if details == null {
        details := new StatusDetails();
        test.exec.statusDetails := details;
      }
      details.trace := Some(Join('\n', stackTraces));
      details.message := Some(Join('\n', messages));
      test.exec.status := Some(Failed);
    }

    /** Records the test as passed, with its output as the message. */
    method MarkTestCaseAsPassed(output: string)
      requires Valid()
      modifies test.exec`statusDetails, test.exec`status, test.exec.statusDetails
      ensures Valid()
      ensures test.exec.status == Some(Passed) && test.exec.statusDetails != null
      ensures old(test.exec.statusDetails) != null ==>
        test.exec.statusDetails == old(test.exec.statusDetails) &&
        test.exec.statusDetails.trace == old(test.exec.statusDetails.trace)
      ensures old(test.exec.statusDetails) == null ==>
        fresh(test.exec.statusDetails) && test.exec.statusDetails.trace == None
      ensures test.exec.statusDetails.message == Some(output)
    {
      var details := test.exec.statusDetails;
      if details == null {
        details := new StatusDetails();
        test.exec.statusDetails := details;
      }
      details.message := Some(output);
      test.exec.status := Some(Passed);
    }
  
    /**
     * A step started inside a before-fixture becomes the fixture's child, not
     * the test's; closing both innermost-first restores the open list.
     */
    method StepInsideFixture(fixtureName: string, stepName: string, t0: int, t1: int, t2: int, t3: int)
      returns (ghost fixture: ExecutableItem, ghost step: ExecutableItem)
      requires Valid()
      modifies this`open, container`befores, set x | x in open
      ensures Valid() && open == old(open)
      ensures container.befores == Some(old(container.befores).GetOr([]) + [fixture])
      ensures fixture.kind == FixtureItem && fixture.steps == Some([step])
      ensures step.kind == StepItem && step.name == stepName
      ensures fixture.status == Some(Passed) && step.status == Some(Passed)
      ensures unchanged(test.exec) && forall x | x in old(open) :: unchanged(x)
    {
      fixture := StartBeforeFixture(fixtureName, t0);
      assert Target() == fixture && fixture.steps == None;
      step := StartStep(stepName, t1);
      assert [] + [step] == [step];
      var e1 := PassCurrentStep(t2);
      var e2 := PassCurrentStep(t3);
    }
  }
}
