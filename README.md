# Allure.XUnit result-tree builder in Dafny

This project models the part of the Allure adapter for xUnit that builds the
in-memory report of one test execution. The adapter keeps a list of the
currently open executable items (steps and fixtures), innermost last. It
records events on three objects: the open list, the test's result, and the
test class's container.

- **Starting a step** appends a running step to the `steps` of the innermost
  open item. When nothing is open, the step goes to the test result instead.
  The step is then pushed onto the open list.
- **Starting a before or after fixture** appends a running fixture to the
  container's `befores` or `afters` and pushes it.
- **Passing or failing** an item removes it from the open list (.NET
  `List.Remove`) and marks it finished, with a stop time and a status. The
  parameterless forms act on the innermost item and throw on an empty list,
  as `Last()` does.
- **Adding an attachment** appends one record to the innermost open item, or
  to the test result when nothing is open.
- **Recording the test's outcome** sets the status and fills the status
  details. An existing details object is reused.
- **Mapping attributes to labels** (`UpdateTestDataFromAttributes`) appends
  labels and links and sets the description, in attribute order.
- **The wrappers `Steps.Step`, `Steps.Before` and `Steps.After`** start an
  item, run the user's function, then pass the item when the function returns
  or fail it and rethrow when it throws.

Files and modules:

- `wrappers.dfy` (`Wrappers`): `Option`, standing in for C# null.
- `sequences.dfy` (`Sequences`): `List.Remove`, `Last`, and their lemmas.
- `text.dfy` (`Text`): `string.Join`, and `Split`, which undoes it on parts free of the separator.
- `results.dfy` (`Results`): the report records as classes.
  - `ExecutableItem` stands for steps, fixtures and the test's own
    executable part.
  - `TestResult` holds one `ExecutableItem` (`exec`) in place of C#
    inheritance.
  - `TestResultContainer` is the container.
- `attributes.dfy` (`Attributes`): the metadata attributes as a datatype and
  the label, link and description mapping.
- `helper.dfy` (`AllureXunitHelper`): the class `ExecutionContext`. It holds
  the open list (`open`), `container` and `test` of one execution, and
  implements the builder's operations as methods.
- `steps.dfy` (`Steps`): `Current` and the wrappers.

The user's function is modelled as a script (`Action`). A script is a
sequence of calls back into this API, ending in a return or a throw. The
calls are:

- a nested wrapped step or fixture;
- an attachment;
- a direct start or a parameterless pass/fail;
- a try/catch around a sub-script.

A script is `Balanced` when it opens and closes items only through the
wrappers. For balanced bodies the model proves:

- the wrapper returns the body's value, or rethrows its exception
  (`ActionOutcome`);
- the open list is restored;
- the new item is finished, passed or failed to match;
- a step is the last child of the item that was innermost before the call;
- outer open items are left untouched.

For every script the model proves that the open-list invariant is preserved,
and that the fixture lists only grow.

`ExecutionContext.Valid()` is the invariant that every method keeps. The
open list has no duplicates and never holds the test result. Every open item
is still running.

## Model

| member | source | states |
|---|---|---|
| Sequences.Remove | src/Allure.XUnit/AllureXunitHelper.cs:139 | `List.Remove` leaves the list alone when the item is absent; otherwise the list is one element shorter |
| Sequences.RemoveMultiset | src/Allure.XUnit/AllureXunitHelper.cs:139 | when the item is present, `List.Remove` takes exactly one occurrence of it out of the list's multiset of elements |
| Sequences.RemoveSplits | src/Allure.XUnit/AllureXunitHelper.cs:153 | removal keeps the elements before and after the first occurrence, in their order |
| Sequences.RemoveAppended | src/Allure.XUnit/AllureXunitHelper.cs:128-134 | removing an item just pushed onto a list that did not hold it gives the earlier list back (start then pass restores the open list) |
| Sequences.RemoveLast | src/Allure.XUnit/AllureXunitHelper.cs:132-135 | on a list without duplicates, removing `Last()` drops exactly the last element |
| Sequences.RemoveDistinct | src/Allure.XUnit/AllureXunitHelper.cs:137-158 | on a list without duplicates, removal leaves no duplicates and exactly the other items |
| Text.Join | src/Allure.XUnit/AllureXunitHelper.cs:62-63 | `string.Join` of no parts is empty; otherwise the joined text starts with the first part |
| Text.SplitJoin | src/Allure.XUnit/AllureXunitHelper.cs:62-63 | when no part contains `'\n'`, splitting the joined traces or messages at `'\n'` gives the parts back |
| Text.JoinLength | src/Allure.XUnit/AllureXunitHelper.cs:62-63 | the joined text holds all characters of the parts plus one separator between each pair |
| Attributes.SeverityNameInjective | src/Allure.XUnit/AllureXunitHelper.cs:253-254 | each severity level gives its own label value, so the label tells the levels apart |
| Attributes.LabeledAt | src/Allure.XUnit/AllureXunitHelper.cs:214-217 | the inner loop makes one label per value, with the given name, at the value's position |
| Attributes.AttributeLabelsAppend | src/Allure.XUnit/AllureXunitHelper.cs:209-281 | the labels of a concatenation of attribute lists are the labels of each list in order |
| Attributes.LabelsInAttributeOrder | src/Allure.XUnit/AllureXunitHelper.cs:209-281 | one attribute's labels come right after the labels of all attributes before it |
| Attributes.DescriptionAddsNoLabel | src/Allure.XUnit/AllureXunitHelper.cs:269-271 | a description attribute anywhere in the list adds no label |
| Attributes.MultiValuedLabels | src/Allure.XUnit/AllureXunitHelper.cs:213-267 | feature, tag and story attributes add one `feature`/`tag`/`story` label per value, in order |
| Attributes.LastDescriptionWins | src/Allure.XUnit/AllureXunitHelper.cs:269-271 | the description is the text of the last description attribute |
| Attributes.DescriptionKept | src/Allure.XUnit/AllureXunitHelper.cs:205-282 | without a description attribute the description is unchanged |
| Attributes.UpdateTestDataFromAttributes | src/Allure.XUnit/AllureXunitHelper.cs:205-282 | the loop appends the attributes' labels and links after the existing ones and sets the description, keeping the earlier labels as a prefix |
| Attributes.ApplyAttribute | src/Allure.XUnit/AllureXunitHelper.cs:211-280 | one attribute: appends its labels and links, and sets the description only for a description attribute |
| Attributes.AddLabels | src/Allure.XUnit/AllureXunitHelper.cs:245-249 | the `foreach` over values appends `Labeled(name, values)` |
| AllureXunitHelper.NewUuid | src/Allure.XUnit/AllureXunitHelper.cs:192-196 | the id is the 36-character GUID text, then `-`, then the name |
| AllureXunitHelper.NewUuidInjective | src/Allure.XUnit/AllureXunitHelper.cs:192-196 | two ids are equal exactly when their GUIDs and their names are equal |
| AllureXunitHelper.AttachmentSource | src/Allure.XUnit/AllureXunitHelper.cs:162 | the file name is the 32 GUID digits, then the attachment suffix, then the extension |
| AllureXunitHelper.AttachmentSourceInjective | src/Allure.XUnit/AllureXunitHelper.cs:162 | file names are equal exactly when GUIDs and extensions are equal |
| AllureXunitHelper.ExecutionContext.TargetChoice | src/Allure.XUnit/AllureXunitHelper.cs:120-124 | the parent of a new step (and the owner of a new attachment, lines 165-172) is the test result exactly when nothing is open, and otherwise the last open item |
| AllureXunitHelper.ExecutionContext.constructor | src/Allure.XUnit/AllureXunitHelper.cs:35-57 | a new execution: empty open list (as `AllureXunitTestCase.RunAsync` sets it), container and test ids from `NewUuid`, the five initial labels followed by the attributes' labels |
| AllureXunitHelper.ExecutionContext.StartBeforeFixture | src/Allure.XUnit/AllureXunitHelper.cs:82-95 | a fresh running fixture is appended to `befores`, which is created when null; `afters` and all steps are untouched; the fixture is pushed |
| AllureXunitHelper.ExecutionContext.StartAfterFixture | src/Allure.XUnit/AllureXunitHelper.cs:97-110 | the same for `afters`, leaving `befores` untouched |
| AllureXunitHelper.ExecutionContext.StartStep | src/Allure.XUnit/AllureXunitHelper.cs:112-130 | a fresh running step becomes the last child of the innermost open item, or of the test result when none is open; the open list grows by exactly that step |
| AllureXunitHelper.ExecutionContext.Finish | src/Allure.XUnit/AllureXunitHelper.cs:137-144 | the item is removed from the open list and finished with the stop time and status; only those fields change |
| AllureXunitHelper.ExecutionContext.PassStep | src/Allure.XUnit/AllureXunitHelper.cs:137-144 | removes the item (`List.Remove`) and marks it finished and passed at `stop`; no child list changes |
| AllureXunitHelper.ExecutionContext.FailStep | src/Allure.XUnit/AllureXunitHelper.cs:151-158 | removes the item and marks it finished and failed at `stop` |
| AllureXunitHelper.ExecutionContext.PassCurrentStep | src/Allure.XUnit/AllureXunitHelper.cs:132-135 | passes the innermost item and pops it; with nothing open, throws `InvalidOperation` and changes nothing |
| AllureXunitHelper.ExecutionContext.FailCurrentStep | src/Allure.XUnit/AllureXunitHelper.cs:146-149 | fails the innermost item and pops it; with nothing open, throws `InvalidOperation` and changes nothing |
| AllureXunitHelper.ExecutionContext.AddAttachment | src/Allure.XUnit/AllureXunitHelper.cs:160-179 | exactly one attachment `{name, type, source}` is appended to the innermost open item, or to the test result; the list is created when null |
| AllureXunitHelper.ExecutionContext.MarkTestCaseAsFailed | src/Allure.XUnit/AllureXunitHelper.cs:59-65 | status failed; trace and message are the `'\n'`-joined stack traces and messages; an existing details object is reused, otherwise a fresh one is made |
| AllureXunitHelper.ExecutionContext.MarkTestCaseAsPassed | src/Allure.XUnit/AllureXunitHelper.cs:67-72 | status passed; the message is the output; an existing details object and its trace are kept |
| AllureXunitHelper.ExecutionContext.StepInsideFixture | src/Allure.XUnit/AllureXunitHelper.cs:120-127 | a step started while a fixture is innermost becomes that fixture's only child, and the test result is untouched |
| Results.ExecutableItem.Started | src/Allure.XUnit/AllureXunitHelper.cs:84-89 | a new step or fixture has the given name and start time, is running, and has no status, children or attachments (also lines 114-119) |
| Results.ExecutableItem.OfTest | src/Allure.XUnit/AllureXunitHelper.cs:40-45 | the executable part of a new test result holds only its name |
| Results.TestResult.constructor | src/Allure.XUnit/AllureXunitHelper.cs:40-54 | a new test result has the given id, its name as history id and full name, the given labels and no links |
| Results.TestResultContainer.constructor | src/Allure.XUnit/AllureXunitHelper.cs:184-188 | a new container has the given id and name and no fixture lists |
| Results.StatusDetails.constructor | src/Allure.XUnit/AllureXunitHelper.cs:61 | the details object that `??= new()` creates has no message and no trace |
| Steps.Current | src/Allure.XUnit/Steps.cs:14 | null exactly when nothing is open, otherwise the last open item |
| Steps.DiscardOutcome | src/Allure.XUnit/Steps.cs:62-67 | the `Action` wrapper keeps a body balanced, keeps its exception, and turns a normal return into null; it starts a fixture exactly when the body does |
| Steps.Run | src/Allure.XUnit/Steps.cs:44 | running a balanced user function restores the open list, ends as `ActionOutcome` says, and leaves outer open items alone; any function keeps the invariant and only grows the fixture lists, and one that starts no fixture (`NoFixtures`) leaves the container unchanged |
| Steps.Perform | src/Allure.XUnit/Steps.cs:44 | one statement of the user function: the same guarantees, with `CallError` as its exception |
| Steps.Execute | src/Allure.XUnit/Steps.cs:39-54 | after a balanced body, the innermost item is passed (on return) or failed (on throw) and popped, and the body's value or exception is passed on unchanged; a body that starts no fixture leaves the container unchanged |
| Steps.Step | src/Allure.XUnit/Steps.cs:56-60 | for a balanced body: the open list is restored, the result or exception is the body's, the step is the new last child of the previous innermost item (only its `steps` change: its attachments, stage, stop, status, status details and description stay as they were), finished, passed or failed to match; outer open items are untouched; when the body starts no fixture, the container is unchanged, so the step goes nowhere but its parent's `steps` |
| Steps.Before | src/Allure.XUnit/Steps.cs:85-89 | the same discipline; the fixture goes to `befores`, no step or test result changes; when the body starts no fixture, `befores` gains exactly the fixture (and is created when null) and `afters` is unchanged |
| Steps.After | src/Allure.XUnit/Steps.cs:111-115 | the same discipline; the fixture goes to `afters`; when the body starts no fixture, `afters` gains exactly the fixture (and is created when null) and `befores` is unchanged |
| Steps.StepAction | src/Allure.XUnit/Steps.cs:62-67 | the `Action` form: every guarantee of `Step`, with a null result in place of the body's value |
| Steps.StepNamed | src/Allure.XUnit/Steps.cs:76-77 | records one passed step with no children and no attachments as the last child of the innermost item; the open list, the container, the parent's other fields (attachments, stage, stop, status, status details, description), the outer open items and (when something is open) the test result are unchanged |
| Steps.BeforeAction | src/Allure.XUnit/Steps.cs:91-96 | the `Action` form: every guarantee of `Before`, with a null result |
| Steps.AfterAction | src/Allure.XUnit/Steps.cs:117-122 | the `Action` form: every guarantee of `After`, with a null result |

Some functions are plain definitions with no contract of their own. Other
rows state what they do:

- `Sequences.Last` (`Last()`, lines 134 and 148) is covered by the
  `PassCurrentStep` and `FailCurrentStep` rows.
- `ExecutionContext.Target` is covered by the `TargetChoice`, `StartStep` and
  `AddAttachment` rows.
- `Attributes.InitialLabels` (lines 46-53) is covered by the constructor row.
- `Attributes.SeverityName` is covered by the `SeverityNameInjective` and
  `ApplyAttribute` rows.

## Left out

- Per-context isolation through `AsyncLocal`: one execution context is modelled. Concurrency belongs to the runtime.
- The reporting library's lifecycle calls are not modelled. These include
  starting, stopping and writing test cases and containers, and
  `FinishTestCase`. They are the library's own persistence.
- AddAttachment stands for an awaited call whose file write succeeds. In the
  source the bytes are written first (line 163), so a failed write throws
  before any attachment is recorded. The model's `AddAttachment` and the
  script's `Attach` are atomic and never throw.
- File I/O is not modelled. This covers writing the attachment bytes, all of
  `AllureAttachments.cs`, and the MIME type lookup. The attachment's content
  parameter is therefore dropped.
- The static constructor's environment-variable setup and `Log` output are I/O.
- The current time, `Guid.NewGuid`, and the thread and host labels are
  parameters. The script carries them for nested calls.
- Reflection over the test method is replaced by a list of attribute values
  (`AllureAttribute`).
- The async overloads of `Step`, `Before` and `After` are left out. They
  repeat the synchronous logic.
- `AllureLabelAttribute` is a data holder, modelled as the `AllureLabel`
  case. The example tests are not part of this model.
- Name, kind and start time are `const` fields. The adapter sets them only
  when it creates an item. The `stage` and `status` fields are `Option`s,
  and `None` means this code has not assigned them (a new test result's
  executable part starts with both `None`). The library's enum defaults are
  outside the model.
- `links` of a test result is assumed to start empty. The source appends to
  it without a null check, and the library initialises it.
- `string.Join` over null elements is not modelled. The parts are strings.
- Steps.Run: for a script that starts or finishes items directly (not
  `Balanced`), only the invariant, the fixture-list growth and the origin of
  open items are stated. Which items are finished then is not stated. In
  particular, the wrapper's `FailStep()` acts on whatever is innermost, which
  need not be the item the wrapper started.
  For a script that starts fixtures, which fixtures it adds to the container
  is not listed, only that `befores` and `afters` grow.
- Steps.Perform: the same limitation as `Run` for unbalanced statements.
- Steps.Execute: for an unbalanced body, only the invariant, the fixture-list growth and the origin of open items are stated. For a balanced body, the children the body adds to the new item are not listed. For a body that starts fixtures, which fixtures it adds to the container is not listed, only that `befores` and `afters` grow.
- Steps.Step: for an unbalanced body, only the invariant, the fixture-list growth and the origin of open items are stated. For a balanced body, the children the body adds to the new item are not listed. For a body that starts fixtures, which fixtures it adds to the container is not listed, only that `befores` and `afters` grow.
- Steps.Before: for an unbalanced body, only the invariant, the fixture-list growth and the origin of open items are stated. For a balanced body, the children the body adds to the new item are not listed. For a body that starts fixtures, which fixtures it adds to the container is not listed, only that `befores` and `afters` grow.
- Steps.After: for an unbalanced body, only the invariant, the fixture-list growth and the origin of open items are stated. For a balanced body, the children the body adds to the new item are not listed. For a body that starts fixtures, which fixtures it adds to the container is not listed, only that `befores` and `afters` grow.
- Steps.StepAction: for an unbalanced body, the same facts as for the `Func` form are stated: the invariant, the fixture-list growth and the origin of open items. For a balanced body, the children the body adds to the new item are not listed. For a body that starts fixtures, which fixtures it adds to the container is not listed, only that `befores` and `afters` grow.
- Steps.BeforeAction: for an unbalanced body, the same facts as for the `Func` form are stated: the invariant, the fixture-list growth and the origin of open items. For a balanced body, the children the body adds to the new item are not listed. For a body that starts fixtures, which fixtures it adds to the container is not listed, only that `befores` and `afters` grow.
- Steps.AfterAction: for an unbalanced body, the same facts as for the `Func` form are stated: the invariant, the fixture-list growth and the origin of open items. For a balanced body, the children the body adds to the new item are not listed. For a body that starts fixtures, which fixtures it adds to the container is not listed, only that `befores` and `afters` grow.
- The user's function is limited to the calls `Action` can express. Arbitrary
  C# code, including code that reaches the report objects directly, is not
  modelled.
