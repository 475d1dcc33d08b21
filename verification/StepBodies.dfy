/**
  The world with the engine's own parts filled in: configs resolved by templates, policies read off
  the config, conditional branches decided on the live context (`runStepBody` in
  packages/engine/src/core/engine.ts). What the outside services answer stays an input.
 */
module StepBodies {
  import opened Base
  import opened Json
  import opened Workflow
  import opened ReferenceRun
  import opened RunContext
  import opened Conditions
  import ContextLaws
  import Jsonb
  import Retry
  import Templates
  import TemplateLaws

  /** What a step of another kind does, given its resolved config alone: `service(step, config)(attempt)`. */
  datatype Surroundings = Surroundings(
    host: Host,
    service: (Step, Json) -> (nat -> Retry.Attempt<StepResult>),
    jitter: (Step, Json, nat) -> real,
    defaults: Retry.Policy)

  // ---------------------------------------------------------------- reading a config

  function FieldOf(value: Option<Json>, key: string): Option<Json> {
    match value
    case Some(Obj(fields)) => Templates.Lookup(fields, key)
    case _ => None
  }

  /** Whether the host language takes the value for true. */
  predicate Truthy(value: Option<Json>) {
    match value
    case None => false
    case Some(Null) => false
    case Some(Bool(b)) => b
    case Some(Num(n)) => n != 0
    case Some(Str(s)) => s != ""
    case _ => true
  }

  function OperatorOf(name: string): Option<Operator> {
    match name
    case "exists" => Some(Exists)
    case "not_exists" => Some(NotExists)
    case "is_true" => Some(IsTrue)
    case "is_false" => Some(IsFalse)
    case "equals" => Some(Equals)
    case "not_equals" => Some(NotEquals)
    case "contains" => Some(Contains)
    case "not_contains" => Some(NotContains)
    case "matches" => Some(Matches)
    case "in" => Some(IsIn)
    case "gt" => Some(Gt)
    case "gte" => Some(Gte)
    case "lt" => Some(Lt)
    case "lte" => Some(Lte)
    case _ => None
  }

  function NameOf(operator: Operator): string {
    match operator
    case Exists => "exists"
    case NotExists => "not_exists"
    case IsTrue => "is_true"
    case IsFalse => "is_false"
    case Equals => "equals"
    case NotEquals => "not_equals"
    case Contains => "contains"
    case NotContains => "not_contains"
    case Matches => "matches"
    case IsIn => "in"
    case Gt => "gt"
    case Gte => "gte"
    case Lt => "lt"
    case Lte => "lte"
  }

  /** A name stands for one operator, and an operator has one name. */
  lemma {:induction false} OperatorNames(name: string, operator: Operator)
    ensures OperatorOf(name) == Some(operator) <==> name == NameOf(operator)
  {
  }

  lemma {:induction false} EqualsIsKnown()
    ensures OperatorOf("equals") == Some(Equals)
  {
    OperatorNames("equals", Equals);
  }

  function TargetOf(target: Json): BranchTarget {
    match target
    case Obj(fields) =>
      var action, id := Templates.Lookup(fields, "action"), Templates.Lookup(fields, "goto_step_id");
      var position := Templates.Lookup(fields, "goto_position");
      if action.Some? then (if action == Some(Str("end")) then End else Continue)
      else if id.Some? then (if id.value.Str? then GotoStep(id.value.s) else Unresolvable(Text("no such step")))
      else if position.Some? && position.value.Num? then GotoPosition(position.value.n)
      else Unresolvable(Text("no such position"))
    case _ => Unresolvable(Text("not a target"))
  }

  function NumberOf(value: Option<Json>): Option<int> {
    match value
    case Some(Num(n)) => Some(n)
    case _ => None
  }

  function PolicyOf(cfg: Json, defaults: Retry.Policy): Retry.Policy {
    Retry.ResolvePolicy(NumberOf(FieldOf(Some(cfg), "max_attempts")), NumberOf(FieldOf(Some(cfg), "base_delay_ms")), defaults)
  }

  // ---------------------------------------------------------------- conditional_branch

  function BranchOutput(matched: bool, path: Json, operator: Json, expected: Json, resolved: Json, taken: Json): Json {
    Obj([Field("matched", Bool(matched)), Field("path", path), Field("operator", operator),
         Field("expected", expected), Field("resolved", resolved), Field("taken", taken)])
  }

  /** The `conditional_branch` case of `runStepBody`. */
  function BranchBody(host: Host, cfg: Json, ctx: Context): (result: Retry.Attempt<StepResult>)
    ensures result.Returned? ==>
              && result.value.output.Obj? && |result.value.output.fields| == 6
              && result.value.output.fields[0].key == "matched" && result.value.output.fields[1].key == "path"
  {
    var condition := FieldOf(Some(cfg), "condition");
    var path, operator := FieldOf(condition, "path"), FieldOf(condition, "operator");
    if !Truthy(path) || !Truthy(operator) then Retry.Threw(Text("condition.path and condition.operator"), true)
    else if !path.value.Str? then Retry.Threw(Text("path is not a string"), false)
    else if !operator.value.Str? || OperatorOf(operator.value.s).None? then Retry.Threw(Text("unsupported operator"), false)
    else
      var c := Condition(path.value.s, OperatorOf(operator.value.s).value, FieldOf(condition, "value"));
      var matched := Evaluate(host, c, AsJson(ctx));
      var branch := FieldOf(Some(cfg), if matched then "on_true" else "on_false");
      if !Truthy(branch) then Retry.Threw(Text("missing target"), true)
      else
        var resolved := Templates.Resolved(AsJson(ctx), c.path).UnwrapOr(Null);
        var output := BranchOutput(matched, path.value, operator.value, c.value.UnwrapOr(Null), resolved, branch.value);
        Retry.Returned(StepResult(output, Some(TargetOf(branch.value))))
  }

  function BodyOf(x: Surroundings, step: Step, cfg: Json, ctx: Context): nat -> Retry.Attempt<StepResult> {
    match step.kind
    case ConditionalBranch => (k: nat) => BranchBody(x.host, cfg, ctx)
    case ApprovalGate => (k: nat) => Retry.Threw(Text("approval_gate must be handled by the engine loop"), true)
    case _ => x.service(step, cfg)
  }

  function Concrete(steps: seq<Step>, run: RunInfo, trigger: Json, x: Surroundings): World {
    World(
      steps, run, trigger,
      (config: Json, ctx: Context) => Templates.Filled(config, AsJson(ctx)),
      (cfg: Json) => PolicyOf(cfg, x.defaults),
      (v: Json) => Jsonb.Column(v),
      (step: Step, cfg: Json, ctx: Context) => BodyOf(x, step, cfg, ctx),
      (step: Step, cfg: Json, k: nat) =>
        Retry.BackoffDelay(k, PolicyOf(cfg, x.defaults).baseDelayMs, x.jitter(step, cfg, k)))
  }

  // ---------------------------------------------------------------- what a branch decides on

  /** The output of the last completed step among `recs[..count]`; an approved gate completes with null. */
  function LastOutput(recs: seq<Rec>, count: nat): Option<Json>
    requires count <= |recs|
  {
    if count == 0 then None
    else
      match recs[count - 1]
      case Done(_, output, _) => Some(output)
      case Approved(_) => Some(Null)
      case _ => LastOutput(recs, count - 1)
  }

  lemma {:induction false} PreviousOfRecords(w: World, recs: seq<Rec>, count: nat)
    requires count <= |recs| <= |w.steps|
    ensures ContextAt(w, recs, count).previous == LastOutput(recs, count)
  {
    if count > 0 {
      PreviousOfRecords(w, recs, count - 1);
    }
  }

  lemma {:induction false} PreviousOutputPath(ctx: Context)
    ensures Templates.Resolved(AsJson(ctx), Join("previous", "output")) == ctx.previous
  {
    TopLevel(ctx, "previous", "output");
    ContextFields(ctx);
    TemplateLaws.KeyFirst([], "output", "");
    if ctx.previous.Some? {
      TemplateLaws.KeyFirst(PreviousJson(ctx.previous).fields, "output", "");
    } else {
      TemplateLaws.PartsOfKey("output");
      assert Templates.Walk(Some(Null), ["output"]) == Templates.Walk(None, []);
    }
  }

  /** A resolved branch config that applies operator `name` to the value at `path` and the setting `value`, with two targets. */
  predicate AsksOf(cfg: Json, path: string, name: string, value: Option<Json>, yes: Json, no: Json) {
    var condition := FieldOf(Some(cfg), "condition");
    && path != "" && FieldOf(condition, "path") == Some(Str(path))
    && name != "" && FieldOf(condition, "operator") == Some(Str(name))
    && FieldOf(condition, "value") == value
    && FieldOf(Some(cfg), "on_true") == Some(yes) && Truthy(Some(yes))
    && FieldOf(Some(cfg), "on_false") == Some(no) && Truthy(Some(no))
  }

  predicate Asks(cfg: Json, path: string, name: string, v: Json, yes: Json, no: Json) {
    AsksOf(cfg, path, name, Some(v), yes, no)
  }

  /** The branch taken is the one its condition decides on, at the first attempt. */
  lemma {:induction false} BranchDecides(host: Host, cfg: Json, ctx: Context, path: string, name: string, value: Option<Json>,
                                         yes: Json, no: Json)
    requires AsksOf(cfg, path, name, value, yes, no) && OperatorOf(name).Some?
    ensures var result := BranchBody(host, cfg, ctx);
      var holds := Evaluate(host, Condition(path, OperatorOf(name).value, value), AsJson(ctx));
      result.Returned? && result.value.branch == Some(TargetOf(if holds then yes else no))
  {
  }

  /** The run goes on from the step at `p` as `target` says: on the first attempt, over the steps in between. */
  ghost predicate TakesTarget(w: World, f: RefRun, p: nat, target: Json)
    requires p < |w.steps|
  {
    p < |f.recs| &&
    match Route(w.steps, Some(TargetOf(target)), p)
    case Index(j) => f.recs[p].Done? && f.recs[p].attempts == 1 && j in f.heads && AllJumped(f.recs, p + 1, j)
    case EndOfRun => f.recs[p].Done? && f.ending == Completes && AllJumped(f.recs, p + 1, |w.steps|)
    case Invalid(e) => f.recs[p].BadBranch? && f.ending == Fails(e)
  }

  /** The run stands at a branch that applies `name` to the output of the step before and to `value`. */
  ghost predicate BranchesOnLast(w: World, x: Surroundings, f: RefRun, p: nat, name: string, value: Option<Json>,
                                 yes: Json, no: Json) {
    && w == Concrete(w.steps, w.run, w.trigger, x) && IsReference(w, f)
    && p in f.heads && p < |w.steps| && w.steps[p].kind.ConditionalBranch? && p <= |f.recs| <= |w.steps|
    && AsksOf(ConfigAt(w, f.recs, p), Join("previous", "output"), name, value, yes, no)
  }

  lemma {:induction false} BranchTakes(w: World, x: Surroundings, f: RefRun, p: nat, name: string, value: Option<Json>,
                                       yes: Json, no: Json)
    requires BranchesOnLast(w, x, f, p, name, value, yes, no) && OperatorOf(name).Some?
    ensures TakesTarget(w, f, p,
      if Holds(x.host, OperatorOf(name).value, LastOutput(f.recs, p), value.UnwrapOr(Null)) then yes else no)
  {
    var ctx, cfg := ContextAt(w, f.recs, p), ConfigAt(w, f.recs, p);
    AtHead(w, f, p);
    PreviousOfRecords(w, f.recs, p);
    BranchDecides(x.host, cfg, ctx, Join("previous", "output"), name, value, yes, no);
    PreviousOutputPath(ctx);
    assert w.body(w.steps[p], cfg, ctx)(1) == BranchBody(x.host, cfg, ctx);
  }

  /**
    In a run, a branch that compares the previous output with `v` takes the first target exactly when
    the last completed step put out `v`, on the first attempt; behind an approved gate that output is null.
   */
  lemma {:induction false} BranchFollowsLastOutput(w: World, x: Surroundings, f: RefRun, p: nat, v: Json, yes: Json, no: Json)
    requires BranchesOnLast(w, x, f, p, "equals", Some(v), yes, no)
    ensures TakesTarget(w, f, p, if LastOutput(f.recs, p) == Some(v) then yes else no)
  {
    EqualsIsKnown();
    BranchTakes(w, x, f, p, "equals", Some(v), yes, no);
    EqualsIsEquality(x.host, LastOutput(f.recs, p), v);
  }

  /** What each ordering asks of two numbers. */
  predicate Ordered(name: string, a: real, b: real) {
    (name == "gt" && a > b) || (name == "gte" && a >= b) || (name == "lt" && a < b) || (name == "lte" && a <= b)
  }

  function OrderingOf(name: string): Operator {
    if name == "gt" then Gt else if name == "gte" then Gte else if name == "lt" then Lt else Lte
  }

  lemma {:induction false} OrderingNames(name: string)
    requires name in ["gt", "gte", "lt", "lte"]
    ensures OperatorOf(name) == Some(OrderingOf(name))
  {
    OperatorNames(name, OrderingOf(name));
  }

  lemma {:induction false} OrderedHolds(host: Host, name: string, last: Option<Json>, v: Json, a: real, b: real)
    requires name in ["gt", "gte", "lt", "lte"] && ReadAs(host, last, a) && ReadAs(host, Some(v), b)
    ensures Holds(host, OrderingOf(name), last, v) <==> Ordered(name, a, b)
  {
    OrderingsCompare(host, last, v, a, b);
  }

  /** A branch that orders the previous output and `v`, both read as numbers, follows their order. */
  lemma {:induction false} BranchFollowsOrder(w: World, x: Surroundings, f: RefRun, p: nat, name: string, v: Json,
                                              a: real, b: real, yes: Json, no: Json)
    requires BranchesOnLast(w, x, f, p, name, Some(v), yes, no) && name in ["gt", "gte", "lt", "lte"]
    requires ReadAs(x.host, LastOutput(f.recs, p), a) && ReadAs(x.host, Some(v), b)
    ensures TakesTarget(w, f, p, if Ordered(name, a, b) then yes else no)
  {
    OrderingNames(name);
    BranchTakes(w, x, f, p, name, Some(v), yes, no);
    OrderedHolds(x.host, name, LastOutput(f.recs, p), v, a, b);
  }

  /** On integers: the first target exactly when the last completed output `n` satisfies n > v, n >= v, n < v or n <= v. */
  lemma {:induction false} BranchFollowsIntegers(w: World, x: Surroundings, f: RefRun, p: nat, name: string,
                                                 n: SafeInt, v: SafeInt, yes: Json, no: Json)
    requires BranchesOnLast(w, x, f, p, name, Some(Num(v)), yes, no) && LastOutput(f.recs, p) == Some(Num(n))
    ensures name == "gt" ==> TakesTarget(w, f, p, if n > v then yes else no)
    ensures name == "gte" ==> TakesTarget(w, f, p, if n >= v then yes else no)
    ensures name == "lt" ==> TakesTarget(w, f, p, if n < v then yes else no)
    ensures name == "lte" ==> TakesTarget(w, f, p, if n <= v then yes else no)
  {
    if name in ["gt", "gte", "lt", "lte"] {
      BranchFollowsOrder(w, x, f, p, name, Num(v), n as real, v as real, yes, no);
    }
  }

  /** Where one side is not read as a number, an ordering branch takes its second target. */
  lemma {:induction false} UnorderedBranchFails(w: World, x: Surroundings, f: RefRun, p: nat, name: string, v: Json, yes: Json, no: Json)
    requires BranchesOnLast(w, x, f, p, name, Some(v), yes, no) && name in ["gt", "gte", "lt", "lte"]
    requires NotANumber(x.host, LastOutput(f.recs, p)) || NotANumber(x.host, Some(v))
    ensures TakesTarget(w, f, p, no)
  {
    OrderingNames(name);
    BranchTakes(w, x, f, p, name, Some(v), yes, no);
    OrderingsNeedNumbers(x.host, OrderingOf(name), LastOutput(f.recs, p), v);
  }

  /** The tests without an expected value: true or its text, false or its text, something other than null, or not. */
  lemma {:induction false} BranchFollowsTest(w: World, x: Surroundings, f: RefRun, p: nat, name: string, value: Option<Json>,
                                             yes: Json, no: Json)
    requires BranchesOnLast(w, x, f, p, name, value, yes, no)
    ensures var last := LastOutput(f.recs, p);
      && (name == "is_true" ==> TakesTarget(w, f, p, if last == Some(Bool(true)) || last == Some(Str("true")) then yes else no))
      && (name == "is_false" ==> TakesTarget(w, f, p, if last == Some(Bool(false)) || last == Some(Str("false")) then yes else no))
      && (name == "exists" ==> TakesTarget(w, f, p, if last == None || last == Some(Null) then no else yes))
      && (name == "not_exists" ==> TakesTarget(w, f, p, if last == None || last == Some(Null) then yes else no))
  {
    if name == "is_true" {
      OperatorNames(name, IsTrue);
      BranchTakes(w, x, f, p, name, value, yes, no);
    } else if name == "is_false" {
      OperatorNames(name, IsFalse);
      BranchTakes(w, x, f, p, name, value, yes, no);
    } else if name == "exists" {
      OperatorNames(name, Exists);
      BranchTakes(w, x, f, p, name, value, yes, no);
    } else if name == "not_exists" {
      OperatorNames(name, NotExists);
      BranchTakes(w, x, f, p, name, value, yes, no);
    }
  }

  // ---------------------------------------------------------------- configs that name no branch

  /** The run stands at a conditional branch with the resolved config `cfg`. */
  ghost predicate AtBranch(w: World, x: Surroundings, f: RefRun, p: nat, cfg: Json) {
    && w == Concrete(w.steps, w.run, w.trigger, x) && IsReference(w, f)
    && p in f.heads && p < |w.steps| && w.steps[p].kind.ConditionalBranch? && p <= |f.recs| <= |w.steps|
    && cfg == ConfigAt(w, f.recs, p)
  }

  /** What a host takes for false: nothing, null, false, zero or an empty text. */
  predicate Falsy(value: Option<Json>) {
    value in [None, Some(Null), Some(Bool(false)), Some(Num(0)), Some(Str(""))]
  }

  lemma {:induction false} FalsyExactly(value: Option<Json>)
    ensures Truthy(value) <==> !Falsy(value)
  {
  }

  /** Without a path, an operator or the target it decides on, a branch fails the run at the first attempt. */
  lemma {:induction false} IncompleteBranchFails(w: World, x: Surroundings, f: RefRun, p: nat, cfg: Json)
    requires AtBranch(w, x, f, p, cfg)
    requires var condition := FieldOf(Some(cfg), "condition");
      Falsy(FieldOf(condition, "path")) || Falsy(FieldOf(condition, "operator"))
    ensures p < |f.recs| && f.recs[p].BodyFailed? && f.recs[p].attempts == 1 && f.ending.Fails?
  {
    var condition := FieldOf(Some(cfg), "condition");
    FalsyExactly(FieldOf(condition, "path"));
    FalsyExactly(FieldOf(condition, "operator"));
    AtHead(w, f, p);
    var ctx := ContextAt(w, f.recs, p);
    assert w.body(w.steps[p], cfg, ctx)(1) == BranchBody(x.host, cfg, ctx);
  }

  /** So does one whose condition decides for a target that is not there. */
  lemma {:induction false} MissingTargetFails(w: World, x: Surroundings, f: RefRun, p: nat, cfg: Json, path: string, operator: Operator)
    requires AtBranch(w, x, f, p, cfg) && path != ""
    requires var condition := FieldOf(Some(cfg), "condition");
      && FieldOf(condition, "path") == Some(Str(path)) && FieldOf(condition, "operator") == Some(Str(NameOf(operator)))
      && var holds := Evaluate(x.host, Condition(path, operator, FieldOf(condition, "value")), AsJson(ContextAt(w, f.recs, p)));
         Falsy(FieldOf(Some(cfg), if holds then "on_true" else "on_false"))
    ensures p < |f.recs| && f.recs[p].BodyFailed? && f.recs[p].attempts == 1 && f.ending.Fails?
  {
    var ctx := ContextAt(w, f.recs, p);
    MissingTargetThrows(x.host, cfg, ctx, path, operator);
    AtHead(w, f, p);
    assert w.body(w.steps[p], cfg, ctx)(1) == BranchBody(x.host, cfg, ctx);
  }

  lemma {:induction false} MissingTargetThrows(host: Host, cfg: Json, ctx: Context, path: string, operator: Operator)
    requires path != ""
    requires var condition := FieldOf(Some(cfg), "condition");
      && FieldOf(condition, "path") == Some(Str(path)) && FieldOf(condition, "operator") == Some(Str(NameOf(operator)))
      && var holds := Evaluate(host, Condition(path, operator, FieldOf(condition, "value")), AsJson(ctx));
         Falsy(FieldOf(Some(cfg), if holds then "on_true" else "on_false"))
    ensures BranchBody(host, cfg, ctx).Threw? && BranchBody(host, cfg, ctx).permanent
  {
    OperatorNames(NameOf(operator), operator);
    FalsyExactly(FieldOf(Some(cfg), "on_true"));
    FalsyExactly(FieldOf(Some(cfg), "on_false"));
  }

  /** A path that is no text, or an operator that there is not, is an error like any other: it is tried again. */
  predicate Unreadable(cfg: Json) {
    var condition := FieldOf(Some(cfg), "condition");
    var path, operator := FieldOf(condition, "path"), FieldOf(condition, "operator");
    && !Falsy(path) && !Falsy(operator)
    && (!path.value.Str? || !operator.value.Str? || OperatorOf(operator.value.s).None?)
  }

  lemma {:induction false} UnreadableThrows(host: Host, cfg: Json, ctx: Context)
    requires Unreadable(cfg)
    ensures BranchBody(host, cfg, ctx).Threw? && !BranchBody(host, cfg, ctx).permanent
  {
    var condition := FieldOf(Some(cfg), "condition");
    FalsyExactly(FieldOf(condition, "path"));
    FalsyExactly(FieldOf(condition, "operator"));
  }

  lemma {:induction false} UnreadableBranchRetries(w: World, x: Surroundings, f: RefRun, p: nat, cfg: Json, allowed: int)
    requires AtBranch(w, x, f, p, cfg) && Unreadable(cfg) && SetTo(cfg, "max_attempts", x.defaults.maxAttempts, allowed)
    ensures p < |f.recs| && f.recs[p].BodyFailed? && f.recs[p].attempts == Max(1, allowed)
  {
    var ctx := ContextAt(w, f.recs, p);
    UnreadableThrows(x.host, cfg, ctx);
    AtHead(w, f, p);
    var call := w.body(w.steps[p], cfg, ctx);
    assert forall k: nat :: call(k) == BranchBody(x.host, cfg, ctx);
    AttemptsAllowed(call, w.policy(cfg), allowed, Max(1, allowed));
    Retry.StopsAtFirstLast(call, Retry.Limit(w.policy(cfg)), 1);
  }

  /** What a branch on the last output records: the decision, what it asked and found, and the target taken. */
  lemma {:induction false} BranchRecords(w: World, x: Surroundings, f: RefRun, p: nat, operator: Operator, value: Option<Json>,
                                         yes: Json, no: Json)
    requires BranchesOnLast(w, x, f, p, NameOf(operator), value, yes, no)
    ensures var last := LastOutput(f.recs, p);
      var holds := Holds(x.host, operator, last, value.UnwrapOr(Null));
      && p < |f.recs| && (f.recs[p].Done? || f.recs[p].BadBranch?)
      && f.recs[p].output == Obj([
           Field("matched", Bool(holds)), Field("path", Str(Join("previous", "output"))), Field("operator", Str(NameOf(operator))),
           Field("expected", value.UnwrapOr(Null)), Field("resolved", last.UnwrapOr(Null)),
           Field("taken", if holds then yes else no)])
  {
    var ctx, cfg := ContextAt(w, f.recs, p), ConfigAt(w, f.recs, p);
    OperatorNames(NameOf(operator), operator);
    BranchTakes(w, x, f, p, NameOf(operator), value, yes, no);
    AtHead(w, f, p);
    PreviousOfRecords(w, f.recs, p);
    PreviousOutputPath(ctx);
    BranchPutsOut(x.host, cfg, ctx, Join("previous", "output"), operator, value, yes, no);
    assert w.body(w.steps[p], cfg, ctx)(1) == BranchBody(x.host, cfg, ctx);
  }

  lemma {:induction false} BranchPutsOut(host: Host, cfg: Json, ctx: Context, path: string, operator: Operator, value: Option<Json>,
                                         yes: Json, no: Json)
    requires AsksOf(cfg, path, NameOf(operator), value, yes, no) && OperatorOf(NameOf(operator)) == Some(operator)
    ensures var found := Templates.Resolved(AsJson(ctx), path);
      var holds := Holds(host, operator, found, value.UnwrapOr(Null));
      var result := BranchBody(host, cfg, ctx);
      result.Returned? && result.value.output == Obj([
        Field("matched", Bool(holds)), Field("path", Str(path)), Field("operator", Str(NameOf(operator))),
        Field("expected", value.UnwrapOr(Null)), Field("resolved", found.UnwrapOr(Null)),
        Field("taken", if holds then yes else no)])
  {
  }

  // ---------------------------------------------------------------- targets

  /** The step at `j` is what the target names: the next one, the one with the id, or the one at the position. */
  predicate Pointed(steps: seq<Step>, target: Json, current: nat, j: nat) {
    var action, id := FieldOf(Some(target), "action"), FieldOf(Some(target), "goto_step_id");
    var position := FieldOf(Some(target), "goto_position");
    if action.Some? then action != Some(Str("end")) && j == current + 1
    else if id.Some? then j < |steps| && id == Some(Str(steps[j].id))
    else position.Some? && position.value.Num? && j < |steps| && steps[j].position == position.value.n
  }

  lemma {:induction false} TargetNames(steps: seq<Step>, target: Json, current: nat, j: nat)
    ensures Names(steps, Some(TargetOf(target)), current, j) <==> Pointed(steps, target, current, j)
    ensures TargetOf(target) == End <==> FieldOf(Some(target), "action") == Some(Str("end"))
  {
  }

  /** A target is followed to the step it points at, when that lies ahead; `end` ends the run, and nothing else does. */
  lemma {:induction false} TargetsExactly(steps: seq<Step>, target: Json, current: nat, j: nat)
    requires ValidSteps(steps) && current < |steps|
    ensures var route := Route(steps, Some(TargetOf(target)), current);
      && (route == Index(j) <==> Pointed(steps, target, current, j) && j > current)
      && (route == EndOfRun <==> FieldOf(Some(target), "action") == Some(Str("end")))
  {
    TargetNames(steps, target, current, j);
    RouteExactly(steps, Some(TargetOf(target)), current, j);
  }

  // ---------------------------------------------------------------- what a config is filled with

  /** A placeholder for a path into the payload is filled with what the payload has there, in every segment. */
  lemma {:induction false} PayloadIsFilledIn(w: World, x: Surroundings, recs: seq<Rec>, count: nat, rest: string)
    requires w == Concrete(w.steps, w.run, w.trigger, x) && count <= |recs| <= |w.steps|
    requires var path := Join("trigger", rest); TemplateLaws.Braceless(path) && Templates.Trim(path) == path
    ensures w.resolve(Str("{{" + Join("trigger", rest) + "}}"), ContextAt(w, recs, count))
         == Templates.Resolved(w.trigger, rest).UnwrapOr(Null)
  {
    var path, ctx := Join("trigger", rest), ContextAt(w, recs, count);
    TriggerIsNotBlank(rest);
    HoleIsFilled(path, AsJson(ctx));
    ContextLaws.StartIsSeen(w, recs, count, rest);
  }

  lemma {:induction false} HoleIsFilled(path: string, ctx: Json)
    requires TemplateLaws.Braceless(path) && !Templates.Blank(path) && Templates.Trim(path) == path
    ensures Templates.Filled(Str("{{" + path + "}}"), ctx) == Templates.Resolved(ctx, path).UnwrapOr(Null)
  {
    TemplateLaws.WholeKeepsType(path, ctx);
  }

  lemma {:induction false} TriggerIsNotBlank(rest: string)
    ensures !Templates.Blank(Join("trigger", rest))
  {
    var path := Join("trigger", rest);
    assert path[0] == 't' && path[0] in path && !Templates.White('t');
  }

  // ---------------------------------------------------------------- policies

  /** What a setting of the config comes to: a number as it is, and the default where there is none. */
  predicate SetTo(cfg: Json, key: string, default: int, n: int) {
    match FieldOf(Some(cfg), key)
    case Some(Num(m)) => n == m
    case _ => n == default
  }

  /** The run stands at a step of an outside service, with the resolved config `cfg`. */
  ghost predicate AtService(w: World, x: Surroundings, f: RefRun, p: nat, cfg: Json) {
    && w == Concrete(w.steps, w.run, w.trigger, x) && IsReference(w, f)
    && p in f.heads && p < |w.steps| && p <= |f.recs| <= |w.steps|
    && !w.steps[p].kind.ConditionalBranch? && !w.steps[p].kind.ApprovalGate?
    && cfg == ConfigAt(w, f.recs, p)
  }

  /** Attempt `k` answers, fails for good or is the last one allowed, and none before it did. */
  ghost predicate StopsAt(call: nat -> Retry.Attempt<StepResult>, allowed: int, k: nat) {
    && (call(k).Returned? || call(k).permanent || k >= allowed)
    && forall j :: 1 <= j < k ==> call(j).Threw? && !call(j).permanent && j < allowed
  }

  lemma {:induction false} AttemptsAllowed(call: nat -> Retry.Attempt<StepResult>, policy: Retry.Policy, allowed: int, k: nat)
    requires policy.maxAttempts == Max(1, allowed) && k >= 1
    ensures Retry.Outcome(call, Retry.Limit(policy), 1).attempts == k <==> StopsAt(call, allowed, k)
  {
    var given := policy.(maxAttempts := allowed);
    assert Retry.Limit(given) == Retry.Limit(policy);
    Retry.AttemptsExactly(call, given, k);
  }

  /**
    The step is attempted exactly until its service answers, fails for good or has been called
    `max_attempts` times: the config's number, else the default, and once in any case.
   */
  lemma {:induction false} ServiceAttempts(w: World, x: Surroundings, f: RefRun, p: nat, cfg: Json, allowed: int, k: nat)
    requires AtService(w, x, f, p, cfg) && SetTo(cfg, "max_attempts", x.defaults.maxAttempts, allowed) && k >= 1
    ensures var call := x.service(w.steps[p], cfg);
      && p < |f.recs| && !f.recs[p].Approved? && !f.recs[p].Jumped?
      && (f.recs[p].attempts == k <==> StopsAt(call, allowed, k))
  {
    AtHead(w, f, p);
    var call := x.service(w.steps[p], cfg);
    assert w.body(w.steps[p], cfg, ContextAt(w, f.recs, p)) == call;
    AttemptsAllowed(call, w.policy(cfg), allowed, k);
  }

  /** A retry of the step waits for the largest delay within its window, for the base the config or the default sets. */
  lemma {:induction false} ServiceDelays(w: World, x: Surroundings, step: Step, cfg: Json, base: int, k: nat, e: int)
    requires w == Concrete(w.steps, w.run, w.trigger, x) && k >= 1 && Retry.Jitter(x.jitter(step, cfg, k))
    requires SetTo(cfg, "base_delay_ms", x.defaults.baseDelayMs, base)
    ensures base >= 0 ==>
      (e <= w.delay(step, cfg, k) <==>
        e <= 30_000 && e as real <= x.jitter(step, cfg, k) * (base * Retry.PowerOfTwo(k - 1)) as real)
    ensures base < 0 ==> w.delay(step, cfg, k) == 0
  {
    Retry.DelayIsLargest(k, if base >= 0 then base else 0, x.jitter(step, cfg, k), e);
    Retry.DelayBounds(k, if base >= 0 then base else 0, x.jitter(step, cfg, k));
  }
}
