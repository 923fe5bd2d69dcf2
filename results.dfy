/**
 * The report records the adapter builds: steps, fixtures, test results and
 * their container, as the Allure reporting library defines them.  Only the
 * members the result-tree builder reads or writes are modelled.
 */
module Results {
  import opened Wrappers

  datatype Stage = Scheduled | Running | Finished | Pending | Interrupted

  datatype Status = Failed | Broken | Passed | Skipped

  datatype Label = Label(name: string, value: string)

  datatype Link = Link(name: string, kind: string, url: string)

  /** A file attached to a step or test: its display name, MIME type and file name in the results directory. */
  datatype Attachment = Attachment(name: string, mimeType: string, source: string)

  /** Which record an executable item is: a step, a before/after fixture, or the body of a test result. */
  datatype ItemKind = StepItem | FixtureItem | TestItem

  /** The `message` and `trace` shown for a test's outcome. */
  class StatusDetails {
    var message: Option<string>
    var trace: Option<string>

    constructor ()
      ensures message == None && trace == None
    {
      message, trace := None, None;
    }
  }

  /**
   * An executable item: a step, a fixture, or the part of a test result that
   * holds its status, nested steps and attachments.  The list-valued members
   * may be absent (null) until something is first added to them.  The name,
   * kind and start time are fixed when the item is created: nothing in the
   * adapter assigns them later.
   */
  class ExecutableItem {
    const kind: ItemKind
    const name: string
    const start: int
    var stage: Option<Stage>
    var stop: int
    var status: Option<Status>
    var statusDetails: StatusDetails?
    var description: Option<string>
    var steps: Option<seq<ExecutableItem>>
    var attachments: Option<seq<Attachment>>

    /** A step or fixture created by the adapter: named, running, started at `start`. */
    constructor Started(kind: ItemKind, name: string, start: int)
      ensures this.kind == kind && this.name == name && this.start == start
      ensures stage == Some(Running) && stop == 0 && status == None
      ensures statusDetails == null && description == None
      ensures steps == None && attachments == None
    {
      this.kind, this.name, this.start := kind, name, start;
      stage, stop, status := Some(Running), 0, None;
      statusDetails, description := null, None;
      steps, attachments := None, None;
    }

    /** The body of a fresh test result: only its name is set. */
    constructor OfTest(name: string)
      ensures kind == TestItem && this.name == name && start == 0
      ensures stage == None && stop == 0 && status == None
      ensures statusDetails == null && description == None
      ensures steps == None && attachments == None
    {
      kind, this.name, start := TestItem, name, 0;
      stage, stop, status := None, 0, None;
      statusDetails, description := null, None;
      steps, attachments := None, None;
    }
  }

  /** A test result: its executable part `exec` plus the identity, labels and links of the test. */
  class TestResult {
    const exec: ExecutableItem
    var uuid: string
    var historyId: string
    var fullName: string
    var labels: seq<Label>
    var links: seq<Link>

    constructor (uuid: string, name: string, labels: seq<Label>)
      ensures fresh(exec) && exec.kind == TestItem && exec.name == name
      ensures exec.stage == None && exec.status == None && exec.statusDetails == null
      ensures exec.description == None && exec.steps == None && exec.attachments == None
      ensures this.uuid == uuid && historyId == name && fullName == name
      ensures this.labels == labels && links == []
    {
      exec := new ExecutableItem.OfTest(name);
      this.uuid, historyId, fullName := uuid, name, name;
      this.labels, links := labels, [];
    }
  }

  /** The container of a test class: it owns the before and after fixtures. */
  class TestResultContainer {
    const uuid: string
    const name: string
    var befores: Option<seq<ExecutableItem>>
    var afters: Option<seq<ExecutableItem>>

    constructor (uuid: string, name: string)
      ensures this.uuid == uuid && this.name == name
      ensures befores == None && afters == None
    {
      this.uuid, this.name := uuid, name;
      befores, afters := None, None;
    }
  }
}
