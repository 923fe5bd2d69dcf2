/**
 * The user-facing wrappers: `Step`, `Before` and `After` open an item, run
 * the user's function, then close the item as passed when it returns or as
 * failed when it throws, and rethrow.
 *
 * The user's function is modelled as a script of what it does with this
 * API: nested wrapped steps and fixtures, attachments, direct calls to the
 * builder's start and finish operations, a try/catch, and finally a return
 * or a throw.  Timestamps and GUIDs are carried by the script.
 */
module Steps {
  import opened Wrappers
  import opened Sequences
  import opened Results
  import opened AllureXunitHelper

  /** What a user function can return: null or some object. */
  datatype Value = Null | Object(id: int)

  /** How a call ends: with a value, or by throwing. */
  datatype Outcome = Returned(value: Value) | Threw(error: Exception)

  /** Which wrapper a nested call uses. */
  datatype Wrapper = AsStep | AsBefore | AsAfter

  /** The body of a user function. */
  datatype Action =
    | Return(value: Value)
    | Raise(error: Exception)
    | Then(call: Call, rest: Action)

  /** One statement of a user function. */
  datatype Call =
    | Wrapped(wrapper: Wrapper, name: string, start: int, stop: int, body: Action)
    | Attach(name: string, mimeType: string, guid: GuidDigits, extension: string)
    | Open(opener: Wrapper, openName: string, openStart: int)
    | Close(passed: bool, closeStop: int)
    | TryCatch(tried: Action)

  /** An action that opens and closes items only through the wrappers, at any depth. */
  predicate Balanced(a: Action) {
    match a
    case Return(_) => true
    case Raise(_) => true
    case Then(c, rest) => BalancedCall(c) && Balanced(rest)
  }

  predicate BalancedCall(c: Call) {
    match c
    case Wrapped(_, _, _, _, body) => Balanced(body)
    case Attach(_, _, _, _) => true
    case Open(_, _, _) => false
    case Close(_, _) => false
    case TryCatch(tried) => Balanced(tried)
  }

  /** An action that starts no fixture, at any depth. */
  predicate NoFixtures(a: Action) {
    match a
    case Return(_) => true
    case Raise(_) => true
    case Then(c, rest) => NoFixturesCall(c) && NoFixtures(rest)
  }

  predicate NoFixturesCall(c: Call) {
    match c
    case Wrapped(w, _, _, _, body) => w == AsStep && NoFixtures(body)
    case Open(w, _, _) => w == AsStep
    case TryCatch(tried) => NoFixtures(tried)
    case _ => true
  }

  /** How a balanced action ends: wrappers rethrow what their bodies throw. */
  function ActionOutcome(a: Action): Outcome {
    match a
    case Return(v) => Returned(v)
    case Raise(e) => Threw(e)
    case Then(c, rest) =>
      match CallError(c)
      case Some(e) => Threw(e)
      case None => ActionOutcome(rest)
  }

  /** The exception a balanced statement throws, if any. */
  function CallError(c: Call): Option<Exception> {
    match c
    case Wrapped(_, _, _, _, body) =>
      if ActionOutcome(body).Threw? then Some(ActionOutcome(body).error) else None
    case _ => None
  }

  /** The wrapper of the `Action` overloads: run the action, then return null. */
  function Discard(a: Action): Action {
    match a
    case Return(_) => Return(Null)
    case Raise(e) => Raise(e)
    case Then(c, rest) => Then(c, Discard(rest))
  }

  /** The `Action` wrapper keeps the body balanced and its exception, and returns null otherwise. */
  lemma {:induction false} DiscardOutcome(a: Action)
    ensures Balanced(Discard(a)) == Balanced(a)
    ensures NoFixtures(Discard(a)) == NoFixtures(a)
    ensures ActionOutcome(Discard(a)) == if ActionOutcome(a).Threw? then ActionOutcome(a) else Returned(Null)
  {
    match a
    case Return(_) =>
    case Raise(_) =>
    case Then(c, rest) => DiscardOutcome(rest);
  }

  /** `Steps.Current`: the innermost open item, or null. */
  function Current(ctx: ExecutionContext): (item: ExecutableItem?)
    reads ctx
    ensures item == null <==> ctx.open == []
    ensures item != null ==> item == Last(ctx.open) && item == ctx.Target()
  {
    if ctx.open == [] then null else Last(ctx.open)
  }

  /** Runs a user function body. */
  method Run(ctx: ExecutionContext, a: Action) returns (o: Outcome)
    requires ctx.Valid()
    modifies ctx, ctx.test.exec, ctx.container, set x | x in ctx.open
    ensures ctx.Valid()
    ensures forall x | x in ctx.open :: x in old(ctx.open) || fresh(x)
    ensures old(ctx.container.befores).GetOr([]) <= ctx.container.befores.GetOr([])
    ensures old(ctx.container.afters).GetOr([]) <= ctx.container.afters.GetOr([])
    ensures Balanced(a) ==> ctx.open == old(ctx.open) && o == ActionOutcome(a)
    ensures Balanced(a) ==> forall x | x in old(ctx.Outer()) :: unchanged(x)
    ensures Balanced(a) && old(ctx.open) != [] ==> unchanged(ctx.test.exec)
    ensures !a.Then? ==> unchanged(ctx) && unchanged(ctx.test.exec) && unchanged(ctx.container)
    ensures !a.Then? ==> forall x | x in ctx.open :: unchanged(x)
    ensures NoFixtures(a) ==> unchanged(ctx.container)
    decreases a, 0
  {
    if a.Return? {
      o := Returned(a.value);
    } else if a.Raise? {
      o := Threw(a.error);
    } else {
      var error := Perform(ctx, a.call);
      if error.Some? {
        o := Threw(error.value);
      } else {
        label mid:
        o := Run(ctx, a.rest);
        if Balanced(a) {
          assert old@mid(ctx.Outer()) == old(ctx.Outer());
          forall x | x in old(ctx.Outer()) ensures unchanged(x) {
            assert unchanged@mid(x);
          }
        }
      }
    }
  }

  /** Runs one statement of a user function; returns the exception it throws, if any. */
  method Perform(ctx: ExecutionContext, c: Call) returns (error: Option<Exception>)
    requires ctx.Valid()
    modifies ctx, ctx.test.exec, ctx.container, set x | x in ctx.open
    ensures ctx.Valid()
    ensures forall x | x in ctx.open :: x in old(ctx.open) || fresh(x)
    ensures old(ctx.container.befores).GetOr([]) <= ctx.container.befores.GetOr([])
    ensures old(ctx.container.afters).GetOr([]) <= ctx.container.afters.GetOr([])
    ensures BalancedCall(c) ==> ctx.open == old(ctx.open) && error == CallError(c)
    ensures BalancedCall(c) ==> forall x | x in old(ctx.Outer()) :: unchanged(x)
    ensures BalancedCall(c) && old(ctx.open) != [] ==> unchanged(ctx.test.exec)
    ensures NoFixturesCall(c) ==> unchanged(ctx.container)
    decreases c, 0
  {
    match c
    case Wrapped(wrapper, name, start, stop, body) =>
      var o;
      ghost var item;
      match wrapper {
        case AsStep => o, item := Step(ctx, name, start, stop, body);
        case AsBefore => o, item := Before(ctx, name, start, stop, body);
        case AsAfter => o, item := After(ctx, name, start, stop, body);
      }
      error := if o.Threw? then Some(o.error) else None;
    case Attach(name, mimeType, guid, extension) =>
      ctx.AddAttachment(name, mimeType, guid, extension);
      error := None;
    case Open(opener, name, start) =>
      match opener {
        case AsStep => var _ := ctx.StartStep(name, start);
        case AsBefore => var _ := ctx.StartBeforeFixture(name, start);
        case AsAfter => var _ := ctx.StartAfterFixture(name, start);
      }
      error := None;
    case Close(passed, stop) =>
      if passed {
        error := ctx.PassCurrentStep(stop);
      } else {
        error := ctx.FailCurrentStep(stop);
      }
    case TryCatch(tried) =>
      var _ := Run(ctx, tried);
      error := None;
  }

  /**
   * `Execute`: runs the body, then passes the innermost open item when it
   * returns, or fails it and rethrows when it throws.  When the body left no
   * item open, `PassStep()`/`FailStep()` throw instead.
   */
  method Execute(ctx: ExecutionContext, body: Action, stop: int) returns (o: Outcome)
    requires ctx.Valid() && ctx.open != []
    modifies ctx, ctx.test.exec, ctx.container, set x | x in ctx.open
    ensures ctx.Valid()
    ensures forall x | x in ctx.open :: x in old(ctx.open) || fresh(x)
    ensures old(ctx.container.befores).GetOr([]) <= ctx.container.befores.GetOr([])
    ensures old(ctx.container.afters).GetOr([]) <= ctx.container.afters.GetOr([])
    ensures Balanced(body) ==> ctx.open == old(ctx.Outer()) && o == ActionOutcome(body)
    ensures Balanced(body) ==> var item := old(Last(ctx.open));
      item.stage == Some(Finished) && item.stop == stop &&
      item.status == Some(if o.Returned? then Passed else Failed)
    ensures Balanced(body) ==> forall x | x in old(ctx.Outer()) :: unchanged(x)
    ensures Balanced(body) ==> unchanged(ctx.test.exec)
    ensures !body.Then? ==> var item := old(Last(ctx.open));
      item.steps == old(item.steps) && item.attachments == old(item.attachments)
    ensures !body.Then? ==> unchanged(ctx.container)
    ensures NoFixtures(body) ==> unchanged(ctx.container)
    decreases body, 1
  {
    ghost var item := Last(ctx.open);
    var r := Run(ctx, body);
    match r
    case Threw(e) =>
      var error := ctx.FailCurrentStep(stop);
      o := if error.Some? then Threw(error.value) else Threw(e);
    case Returned(v) =>
      var error := ctx.PassCurrentStep(stop);
      o := if error.Some? then Threw(error.value) else Returned(v);
  }

  /** `Steps.Step(name, f)`: `f` runs inside a new step that becomes a child of the innermost open item. */
  method Step(ctx: ExecutionContext, name: string, start: int, stop: int, body: Action)
    returns (o: Outcome, ghost step: ExecutableItem)
    requires ctx.Valid()
    modifies ctx, ctx.test.exec, ctx.container, set x | x in ctx.open
    ensures ctx.Valid()
    ensures forall x | x in ctx.open :: x in old(ctx.open) || fresh(x)
    ensures old(ctx.container.befores).GetOr([]) <= ctx.container.befores.GetOr([])
    ensures old(ctx.container.afters).GetOr([]) <= ctx.container.afters.GetOr([])
    ensures fresh(step) && step.kind == StepItem && step.name == name && step.start == start
    ensures Balanced(body) ==> ctx.open == old(ctx.open) && o == ActionOutcome(body)
    ensures Balanced(body) ==> old(ctx.Target()).steps == Some(old(ctx.Target().steps).GetOr([]) + [step])
    ensures Balanced(body) ==> var parent := old(ctx.Target());
      parent.attachments == old(parent.attachments) && parent.stage == old(parent.stage) &&
      parent.status == old(parent.status) && parent.stop == old(parent.stop) &&
      parent.statusDetails == old(parent.statusDetails) && parent.description == old(parent.description)
    ensures Balanced(body) ==>
      step.stage == Some(Finished) && step.stop == stop &&
      step.status == Some(if o.Returned? then Passed else Failed)
    ensures Balanced(body) ==> forall x | x in old(ctx.Outer()) :: unchanged(x)
    ensures Balanced(body) && old(ctx.open) != [] ==> unchanged(ctx.test.exec)
    ensures !body.Then? ==> step.steps == None && step.attachments == None
    ensures !body.Then? ==> unchanged(ctx.container)
    ensures NoFixtures(body) ==> unchanged(ctx.container)
    decreases body, 2
  {
    step := ctx.StartStep(name, start);
    o := Execute(ctx, body, stop);
  }

  /** `Steps.Before(name, f)`: `f` runs inside a new before-fixture of the container. */
  method Before(ctx: ExecutionContext, name: string, start: int, stop: int, body: Action)
    returns (o: Outcome, ghost fixture: ExecutableItem)
    requires ctx.Valid()
    modifies ctx, ctx.test.exec, ctx.container, set x | x in ctx.open
    ensures ctx.Valid()
    ensures forall x | x in ctx.open :: x in old(ctx.open) || fresh(x)
    ensures old(ctx.container.befores).GetOr([]) + [fixture] <= ctx.container.befores.GetOr([])
    ensures old(ctx.container.afters).GetOr([]) <= ctx.container.afters.GetOr([])
    ensures fresh(fixture) && fixture.kind == FixtureItem && fixture.name == name && fixture.start == start
    ensures Balanced(body) ==> ctx.open == old(ctx.open) && o == ActionOutcome(body)
    ensures Balanced(body) ==>
      fixture.stage == Some(Finished) && fixture.stop == stop &&
      fixture.status == Some(if o.Returned? then Passed else Failed)
    ensures Balanced(body) ==> forall x | x in old(ctx.open) :: unchanged(x)
    ensures Balanced(body) ==> unchanged(ctx.test.exec)
    ensures NoFixtures(body) ==> ctx.container.befores == Some(old(ctx.container.befores).GetOr([]) + [fixture])
    ensures NoFixtures(body) ==> ctx.container.afters == old(ctx.container.afters)
    decreases body, 2
  {
    fixture := ctx.StartBeforeFixture(name, start);
    o := Execute(ctx, body, stop);
  }

  /** `Steps.After(name, f)`: `f` runs inside a new after-fixture of the container. */
  method After(ctx: ExecutionContext, name: string, start: int, stop: int, body: Action)
    returns (o: Outcome, ghost fixture: ExecutableItem)
    requires ctx.Valid()
    modifies ctx, ctx.test.exec, ctx.container, set x | x in ctx.open
    ensures ctx.Valid()
    ensures forall x | x in ctx.open :: x in old(ctx.open) || fresh(x)
    ensures old(ctx.container.befores).GetOr([]) <= ctx.container.befores.GetOr([])
    ensures old(ctx.container.afters).GetOr([]) + [fixture] <= ctx.container.afters.GetOr([])
    ensures fresh(fixture) && fixture.kind == FixtureItem && fixture.name == name && fixture.start == start
    ensures Balanced(body) ==> ctx.open == old(ctx.open) && o == ActionOutcome(body)
    ensures Balanced(body) ==>
      fixture.stage == Some(Finished) && fixture.stop == stop &&
      fixture.status == Some(if o.Returned? then Passed else Failed)
    ensures Balanced(body) ==> forall x | x in old(ctx.open) :: unchanged(x)
    ensures Balanced(body) ==> unchanged(ctx.test.exec)
    ensures NoFixtures(body) ==> ctx.container.afters == Some(old(ctx.container.afters).GetOr([]) + [fixture])
    ensures NoFixtures(body) ==> ctx.container.befores == old(ctx.container.befores)
    decreases body, 2
  {
    fixture := ctx.StartAfterFixture(name, start);
    o := Execute(ctx, body, stop);
  }

  /** `Steps.Step(name, action)` for an action without a result: the step's call returns null. */
  method StepAction(ctx: ExecutionContext, name: string, start: int, stop: int, action: Action)
    returns (o: Outcome, ghost step: ExecutableItem)
    requires ctx.Valid()
    modifies ctx, ctx.test.exec, ctx.container, set x | x in ctx.open
    ensures ctx.Valid()
    ensures forall x | x in ctx.open :: x in old(ctx.open) || fresh(x)
    ensures old(ctx.container.befores).GetOr([]) <= ctx.container.befores.GetOr([])
    ensures old(ctx.container.afters).GetOr([]) <= ctx.container.afters.GetOr([])
    ensures fresh(step) && step.kind == StepItem && step.name == name && step.start == start
    ensures Balanced(action) ==> ctx.open == old(ctx.open)
    ensures Balanced(action) ==>
      o == if ActionOutcome(action).Threw? then ActionOutcome(action) else Returned(Null)
    ensures Balanced(action) ==> old(ctx.Target()).steps == Some(old(ctx.Target().steps).GetOr([]) + [step])
    ensures Balanced(action) ==> var parent := old(ctx.Target());
      parent.attachments == old(parent.attachments) && parent.stage == old(parent.stage) &&
      parent.status == old(parent.status) && parent.stop == old(parent.stop) &&
      parent.statusDetails == old(parent.statusDetails) && parent.description == old(parent.description)
    ensures Balanced(action) ==>
      step.stage == Some(Finished) && step.stop == stop &&
      step.status == Some(if o.Returned? then Passed else Failed)
    ensures Balanced(action) ==> forall x | x in old(ctx.Outer()) :: unchanged(x)
    ensures Balanced(action) && old(ctx.open) != [] ==> unchanged(ctx.test.exec)
    ensures !action.Then? ==> step.steps == None && step.attachments == None
    ensures !action.Then? ==> unchanged(ctx.container)
    ensures NoFixtures(action) ==> unchanged(ctx.container)
  {
    DiscardOutcome(action);
    o, step := Step(ctx, name, start, stop, Discard(action));
  }

  /** `Steps.Step(name)`: records one passed step with no children under the innermost open item. */
  method StepNamed(ctx: ExecutionContext, name: string, start: int, stop: int)
    returns (ghost step: ExecutableItem)
    requires ctx.Valid()
    modifies ctx, ctx.test.exec, ctx.container, set x | x in ctx.open
    ensures ctx.Valid() && ctx.open == old(ctx.open)
    ensures fresh(step) && step.kind == StepItem && step.name == name && step.start == start
    ensures old(ctx.Target()).steps == Some(old(ctx.Target().steps).GetOr([]) + [step])
    ensures var parent := old(ctx.Target());
      parent.attachments == old(parent.attachments) && parent.stage == old(parent.stage) &&
      parent.status == old(parent.status) && parent.stop == old(parent.stop) &&
      parent.statusDetails == old(parent.statusDetails) && parent.description == old(parent.description)
    ensures step.stage == Some(Finished) && step.stop == stop && step.status == Some(Passed)
    ensures step.steps == None && step.attachments == None
    ensures forall x | x in old(ctx.Outer()) :: unchanged(x)
    ensures old(ctx.open) != [] ==> unchanged(ctx.test.exec)
    ensures unchanged(ctx.container)
  {
    var o;
    o, step := Step(ctx, name, start, stop, Discard(Return(Null)));
    assert o == Returned(Null);
  }

  /** `Steps.Before(name, action)` for an action without a result. */
  method BeforeAction(ctx: ExecutionContext, name: string, start: int, stop: int, action: Action)
    returns (o: Outcome, ghost fixture: ExecutableItem)
    requires ctx.Valid()
    modifies ctx, ctx.test.exec, ctx.container, set x | x in ctx.open
    ensures ctx.Valid()
    ensures forall x | x in ctx.open :: x in old(ctx.open) || fresh(x)
    ensures old(ctx.container.befores).GetOr([]) + [fixture] <= ctx.container.befores.GetOr([])
    ensures old(ctx.container.afters).GetOr([]) <= ctx.container.afters.GetOr([])
    ensures fresh(fixture) && fixture.kind == FixtureItem && fixture.name == name && fixture.start == start
    ensures Balanced(action) ==> ctx.open == old(ctx.open)
    ensures Balanced(action) ==>
      o == if ActionOutcome(action).Threw? then ActionOutcome(action) else Returned(Null)
    ensures Balanced(action) ==>
      fixture.stage == Some(Finished) && fixture.stop == stop &&
      fixture.status == Some(if o.Returned? then Passed else Failed)
    ensures Balanced(action) ==> forall x | x in old(ctx.open) :: unchanged(x)
    ensures Balanced(action) ==> unchanged(ctx.test.exec)
    ensures NoFixtures(action) ==> ctx.container.befores == Some(old(ctx.container.befores).GetOr([]) + [fixture])
    ensures NoFixtures(action) ==> ctx.container.afters == old(ctx.container.afters)
  {
    DiscardOutcome(action);
    o, fixture := Before(ctx, name, start, stop, Discard(action));
  }

  /** `Steps.After(name, action)` for an action without a result. */
  method AfterAction(ctx: ExecutionContext, name: string, start: int, stop: int, action: Action)
    returns (o: Outcome, ghost fixture: ExecutableItem)
    requires ctx.Valid()
    modifies ctx, ctx.test.exec, ctx.container, set x | x in ctx.open
    ensures ctx.Valid()
    ensures forall x | x in ctx.open :: x in old(ctx.open) || fresh(x)
    ensures old(ctx.container.afters).GetOr([]) + [fixture] <= ctx.container.afters.GetOr([])
    ensures old(ctx.container.befores).GetOr([]) <= ctx.container.befores.GetOr([])
    ensures fresh(fixture) && fixture.kind == FixtureItem && fixture.name == name && fixture.start == start
    ensures Balanced(action) ==> ctx.open == old(ctx.open)
    ensures Balanced(action) ==>
      o == if ActionOutcome(action).Threw? then ActionOutcome(action) else Returned(Null)
    ensures Balanced(action) ==>
      fixture.stage == Some(Finished) && fixture.stop == stop &&
      fixture.status == Some(if o.Returned? then Passed else Failed)
    ensures Balanced(action) ==> forall x | x in old(ctx.open) :: unchanged(x)
    ensures Balanced(action) ==> unchanged(ctx.test.exec)
    ensures NoFixtures(action) ==> ctx.container.afters == Some(old(ctx.container.afters).GetOr([]) + [fixture])
    ensures NoFixtures(action) ==> ctx.container.befores == old(ctx.container.befores)
  {
    DiscardOutcome(action);
    o, fixture := After(ctx, name, start, stop, Discard(action));
  }
}
