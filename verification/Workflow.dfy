/** What a run executes: an ordered step list, and the parts of the world the engine only calls. */
module Workflow {
  import opened Base
  import opened Json
  import Retry

  datatype StepKind = LlmCall | HttpRequest | DbWrite | Notify | ConditionalBranch | ApprovalGate

  datatype Step = Step(id: StepId, position: nat, kind: StepKind, name: string, config: Json)

  /** Where a branch goes; a target that names nothing resolvable carries the error it leads to. */
  datatype BranchTarget =
    | GotoPosition(position: int)
    | GotoStep(id: StepId)
    | Continue
    | End
    | Unresolvable(message: Message)

  datatype StepResult = StepResult(output: Json, branch: Option<BranchTarget>)

  // ---------------------------------------------------------------- template context

  datatype RunInfo = RunInfo(id: string, workflowId: string, orgId: string)

  datatype Entry = Entry(output: Json, name: string, kind: StepKind)

  datatype NamedEntry = NamedEntry(position: int, entry: Entry)

  /** Everything a template can name. `steps` is kept in ascending position, as integer keys are. */
  datatype Context = Context(trigger: Json, previous: Option<Json>, steps: seq<NamedEntry>, run: RunInfo)

  /** `ctx.steps[String(position)] = entry` (integer keys enumerate in ascending order). */
  function PutEntry(steps: seq<NamedEntry>, position: int, entry: Entry): seq<NamedEntry> {
    if steps == [] || position < steps[0].position then [NamedEntry(position, entry)] + steps
    else if position == steps[0].position then [NamedEntry(position, entry)] + steps[1..]
    else [steps[0]] + PutEntry(steps[1..], position, entry)
  }

  /** The context after one more step has completed. */
  function Extended(ctx: Context, step: Step, output: Json): Context {
    ctx.(steps := PutEntry(ctx.steps, step.position, Entry(output, step.name, step.kind)),
         previous := Some(output))
  }

  function EmptyContext(w: World): Context {
    Context(w.trigger, None, [], w.run)
  }

  // ---------------------------------------------------------------- the world of one run

  /**
    The fixed inputs of a run. `store(v)` is what a jsonb column hands back once `v` was written to
    it: the same value up to the order of keys. `body(step, config, ctx)(k)` is what attempt `k` of the
    step's body does; quantifying over worlds quantifies over every behaviour of the outside services.
   */
  datatype World = World(
    steps: seq<Step>,
    run: RunInfo,
    trigger: Json,
    resolve: (Json, Context) -> Json,
    policy: Json -> Retry.Policy,
    store: Json -> Json,
    body: (Step, Json, Context) -> (nat -> Retry.Attempt<StepResult>),
    delay: (Step, Json, nat) -> int)

  /** Ids are primary keys; positions are unique in a workflow and the list is loaded in order. */
  ghost predicate ValidSteps(steps: seq<Step>) {
    && (forall i, j :: 0 <= i < j < |steps| ==> steps[i].id != steps[j].id)
    && (forall i, j :: 0 <= i < j < |steps| ==> steps[i].position < steps[j].position)
  }

  function Tried(w: World, step: Step, config: Json, ctx: Context): Retry.Tried<StepResult> {
    Retry.Outcome(w.body(step, config, ctx), Retry.Limit(w.policy(config)), 1)
  }

  // ---------------------------------------------------------------- where a branch goes

  datatype Destination = Index(index: nat) | EndOfRun | Invalid(message: Message)

  /** `steps.findIndex(wanted)`. */
  function FirstWhere(steps: seq<Step>, wanted: Step -> bool): (r: Option<nat>)
    ensures r.Some? ==> r.value < |steps| && wanted(steps[r.value]) && forall j :: 0 <= j < r.value ==> !wanted(steps[j])
    ensures r.None? ==> forall j :: 0 <= j < |steps| ==> !wanted(steps[j])
  {
    if steps == [] then None
    else if wanted(steps[0]) then Some(0)
    else
      match FirstWhere(steps[1..], wanted)
      case None => None
      case Some(i) => Some(i + 1)
  }

  function FindId(steps: seq<Step>, id: StepId): (r: Option<nat>)
    ensures r.Some? ==> r.value < |steps| && steps[r.value].id == id
    ensures r.None? ==> forall s :: s in steps ==> s.id != id
  {
    FirstWhere(steps, (s: Step) => s.id == id)
  }

  /** `resolveBranchTarget`: the index a branch names, which may lie behind it. */
  function ResolveTarget(steps: seq<Step>, target: BranchTarget, current: nat): (d: Destination)
    ensures d.Index? && !target.Continue? ==> d.index < |steps|
  {
    match target
    case End => EndOfRun
    case Continue => Index(current + 1)
    case Unresolvable(e) => Invalid(e)
    case GotoStep(id) =>
      (match FindId(steps, id)
       case None => Invalid(NoSuchStep(id))
       case Some(i) => Index(i))
    case GotoPosition(p) =>
      match FirstWhere(steps, (s: Step) => s.position == p)
      case None => Invalid(NoSuchPosition(p))
      case Some(i) => Index(i)
  }

  /** The route after the step at `current`: no branch moves one on, and a jump back is refused. */
  function Route(steps: seq<Step>, branch: Option<BranchTarget>, current: nat): (d: Destination)
    requires current < |steps|
    ensures d.Index? ==> current < d.index <= |steps|
  {
    match branch
    case None => Index(current + 1)
    case Some(target) =>
      match ResolveTarget(steps, target, current)
      case Index(i) => if i <= current then Invalid(Backwards(steps[current].position)) else Index(i)
      case other => other
  }

  /** The step at `j` is the one a branch names; no branch and `continue` name the next. */
  predicate Names(steps: seq<Step>, branch: Option<BranchTarget>, current: nat, j: nat) {
    match branch
    case None => j == current + 1
    case Some(Continue) => j == current + 1
    case Some(End) => false
    case Some(Unresolvable(_)) => false
    case Some(GotoStep(id)) => j < |steps| && steps[j].id == id
    case Some(GotoPosition(p)) => j < |steps| && steps[j].position == p
  }

  /** A route leads exactly to the named step, when there is one further on; `end` ends the run, and nothing else does. */
  lemma {:induction false} RouteExactly(steps: seq<Step>, branch: Option<BranchTarget>, current: nat, j: nat)
    requires ValidSteps(steps) && current < |steps|
    ensures Route(steps, branch, current) == Index(j) <==> Names(steps, branch, current, j) && j > current
    ensures Route(steps, branch, current) == EndOfRun <==> branch == Some(End)
    ensures Route(steps, branch, current).Invalid? <==>
      branch != Some(End) && forall i: nat :: Names(steps, branch, current, i) ==> i <= current
  {
    if branch.Some? && (branch.value.GotoStep? || branch.value.GotoPosition?) {
      var target := ResolveTarget(steps, branch.value, current);
      forall i: nat | Names(steps, branch, current, i) ensures target == Index(i) {
        assert steps[i] in steps;
      }
      assert target.Index? ==> Names(steps, branch, current, target.index);
    } else {
      assert branch == None || branch == Some(Continue) ==> Names(steps, branch, current, current + 1);
    }
  }

  /** A refusal says what is wrong: no such step or position, or a target that does not lie ahead. */
  lemma {:induction false} RefusedWhy(steps: seq<Step>, branch: Option<BranchTarget>, current: nat)
    requires ValidSteps(steps) && current < |steps| && Route(steps, branch, current).Invalid?
    ensures var why := Route(steps, branch, current).message;
      branch.Some? &&
      match branch.value
      case GotoStep(id) =>
        why == if exists i :: 0 <= i < |steps| && steps[i].id == id then Backwards(steps[current].position) else NoSuchStep(id)
      case GotoPosition(p) =>
        why == if exists i :: 0 <= i < |steps| && steps[i].position == p then Backwards(steps[current].position) else NoSuchPosition(p)
      case Unresolvable(e) => why == e
      case _ => false
  {
    if branch.value.GotoStep? && FindId(steps, branch.value.id).None? {
      assert forall i :: 0 <= i < |steps| ==> steps[i] in steps;
    }
  }

  /** The first index whose position is at least `from`, or the end of the list. */
  function FirstFrom(steps: seq<Step>, from: int): (i: nat)
    ensures i <= |steps|
    ensures i < |steps| ==> steps[i].position >= from
    ensures forall j :: 0 <= j < i ==> steps[j].position < from
  {
    match FirstWhere(steps, (s: Step) => s.position >= from)
    case Some(i) => i
    case None => |steps|
  }

  /** The position stored when the gate at `index` pauses the run. */
  function PositionAfter(steps: seq<Step>, index: nat): int
    requires index < |steps|
  {
    if index + 1 < |steps| then steps[index + 1].position else steps[index].position + 1
  }

  /** A resume starts at exactly the step behind the gate, also when the gate is last. */
  lemma {:induction false} ResumeStartsBehindGate(steps: seq<Step>, gate: nat)
    requires ValidSteps(steps) && gate < |steps|
    ensures FirstFrom(steps, PositionAfter(steps, gate)) == gate + 1
  {
    assert steps[gate].position < PositionAfter(steps, gate);
    assert gate + 1 < |steps| ==> steps[gate + 1].position == PositionAfter(steps, gate);
  }
}
