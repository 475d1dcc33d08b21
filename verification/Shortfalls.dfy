/** Inputs on which the engine does less than its documentation says, each as a run of the model. */
module Shortfalls {
  import opened Base
  import opened Json
  import opened Workflow
  import opened Repository
  import opened ReferenceRun
  import opened Authz
  import opened Frontier
  import opened Protocol
  import opened Theorems
  import opened Progress
  import opened RunContext
  import opened StepBodies
  import Conditions
  import Engine
  import Jsonb
  import JsonText
  import Rereading
  import Retry
  import Templates
  import TemplateLaws

  // ---------------------------------------------------------------- an orphaned run

  /** A start delivery is claimed, and its executor crashes before anything else. */
  function OrphanEvents(): seq<Event> { [Deliver, Advance(0), Advance(0), Crash(0)] }

  lemma {:induction false} AfterOrphanEvents(w: World, roles: map<UserId, Role>)
    ensures var s := Run(w, roles, OrphanEvents());
      s.threads == [Thread(Engine.Claimed, false)] && s.db.run.status.RunRunning?
  {
    var s0 := Initial(roles);
    var s1 := Apply(w, s0, Deliver);
    var s2 := Apply(w, s1, Advance(0));
    var s3 := Apply(w, s2, Advance(0));
    assert s1.threads == [Thread(Engine.Delivered, true)];
    assert s2.threads == [Thread(Engine.Claiming, true)];
    assert s3.threads == [Thread(Engine.Claimed, true)];
    ApplyThree(w, s0, [Deliver, Advance(0), Advance(0)]);
    ApplyInTwo(w, s0, [Deliver, Advance(0), Advance(0)], [Crash(0)]);
    assert OrphanEvents() == [Deliver, Advance(0), Advance(0)] + [Crash(0)];
    assert ApplyAll(w, s3, [Crash(0)]) == ApplyAll(w, Apply(w, s3, Crash(0)), []);
  }

  /** No redelivery, approval or other event ever finishes that run. */
  lemma {:induction false} CrashAfterClaimOrphans(w: World, roles: map<UserId, Role>, more: seq<Event>)
    requires ValidSteps(w.steps)
    ensures !Terminal(Run(w, roles, OrphanEvents() + more).db.run.status)
  {
    AfterOrphanEvents(w, roles);
    FinishableExactly(w, roles, OrphanEvents());
    var s := Run(w, roles, OrphanEvents());
    assert 0 in HoldersOf(s) && !s.threads[0].alive;
  }

  // ---------------------------------------------------------------- configs without placeholders

  lemma {:induction false} NoBraceNoHole(s: string)
    requires '{' !in s
    ensures TemplateLaws.NoHole(Templates.Scan(s))
    decreases |s|
  {
    if s != "" {
      assert |s| >= 2 ==> s[..2][0] == s[0] && s[0] in s;
      assert Templates.HoleAt(s).None?;
      assert forall c :: c in s[1..] ==> c in s;
      NoBraceNoHole(s[1..]);
    }
  }

  function Action(name: string): Json { Obj([Field("action", Str(name))]) }

  function Question(path: string, v: Json, yes: Json, no: Json): Json {
    Obj([Field("condition", Obj([Field("path", Str(path)), Field("operator", Str("equals")), Field("value", v)])),
         Field("on_true", yes), Field("on_false", no)])
  }

  /** A second or third member of an object. */
  lemma {:induction false} ThreeMembers(a: Field, b: Field, c: Field, key: string)
    ensures Templates.Lookup([a, b, c], key)
         == if a.key == key then Some(a.value) else if b.key == key then Some(b.value)
            else if c.key == key then Some(c.value) else None
  {
    assert [a, b, c][1..] == [b, c] && [b, c][1..] == [c];
    assert Templates.Lookup([c], key) == if c.key == key then Some(c.value) else Templates.Lookup([], key);
    assert Templates.Lookup([b, c], key) == if b.key == key then Some(b.value) else Templates.Lookup([c], key);
  }

  lemma {:induction false} QuestionAsks(path: string, v: Json, yes: Json, no: Json)
    requires path != "" && Truthy(Some(yes)) && Truthy(Some(no))
    ensures Asks(Question(path, v, yes, no), path, "equals", v, yes, no)
  {
    var cfg := Question(path, v, yes, no);
    var condition := cfg.fields[0].value;
    var f, g := cfg.fields, condition.fields;
    assert "condition" != "on_true" && "condition" != "on_false" && "on_true" != "on_false";
    ThreeMembers(f[0], f[1], f[2], "condition");
    ThreeMembers(f[0], f[1], f[2], "on_true");
    ThreeMembers(f[0], f[1], f[2], "on_false");
    ThreeMembers(g[0], g[1], g[2], "path");
    ThreeMembers(g[0], g[1], g[2], "operator");
    ThreeMembers(g[0], g[1], g[2], "value");
  }

  predicate Plain(f: Field) { !Templates.Dangerous(f.key) && TemplateLaws.Inert(f.value) }

  lemma {:induction false} ThreeInert(a: Field, b: Field, c: Field)
    requires Plain(a) && Plain(b) && Plain(c)
    ensures TemplateLaws.Inert(Obj([a, b, c]))
  {
    assert [a, b, c][1..] == [b, c] && [b, c][1..] == [c] && [c][1..] == [];
    assert TemplateLaws.InertFields([c]);
    assert TemplateLaws.InertFields([b, c]);
  }

  lemma {:induction false} QuestionIsInert(path: string, v: Json, yes: Json, no: Json, ctx: Json)
    requires '{' !in path && TemplateLaws.Inert(v) && TemplateLaws.Inert(yes) && TemplateLaws.Inert(no)
    ensures Templates.Filled(Question(path, v, yes, no), ctx) == Question(path, v, yes, no)
  {
    NoBraceNoHole(path);
    NoBraceNoHole("equals");
    var f := Question(path, v, yes, no).fields;
    var g := f[0].value.fields;
    ThreeInert(g[0], g[1], g[2]);
    ThreeInert(f[0], f[1], f[2]);
    TemplateLaws.FixedPoints(Question(path, v, yes, no), ctx);
  }

  // ---------------------------------------------------------------- a bad branch target

  function Target(position: SafeInt): Json { Obj([Field("goto_position", Num(position))]) }

  /** A branch whose two targets name a position that no step has, and a step behind it. */
  function BadTargetSteps(): seq<Step> {
    [Step("branch", 1, ConditionalBranch, "branch", BadTargetConfig()),
     Step("last", 2, Notify, "last", Obj([]))]
  }

  lemma {:induction false} TargetIsPosition(position: SafeInt)
    ensures TargetOf(Target(position)) == GotoPosition(position)
    ensures TemplateLaws.Inert(Target(position)) && Truthy(Some(Target(position)))
  {
    var f := Target(position).fields;
    assert f[1..] == [];
    assert "goto_position" != "action" && "goto_position" != "goto_step_id";
    assert Templates.Lookup(f[1..], "action").None? && Templates.Lookup(f[1..], "goto_step_id").None?;
    assert TemplateLaws.InertFields(f[1..]);
  }

  function BadTargetConfig(): Json { Question("trigger", Null, Target(9), Target(9)) }

  /** Whatever its condition finds, the branch names that position. */
  lemma {:induction false} BadTargetNamed(host: Conditions.Host, ctx: Context)
    ensures Templates.Filled(BadTargetConfig(), AsJson(ctx)) == BadTargetConfig()
    ensures var result := BranchBody(host, BadTargetConfig(), ctx);
      result.Returned? && result.value.branch == Some(GotoPosition(9))
  {
    TargetIsPosition(9);
    QuestionIsInert("trigger", Null, Target(9), Target(9), AsJson(ctx));
    QuestionAsks("trigger", Null, Target(9), Target(9));
    EqualsIsKnown();
    BranchDecides(host, BadTargetConfig(), ctx, "trigger", "equals", Some(Null), Target(9), Target(9));
  }

  lemma {:induction false} BadTargetTried(run: RunInfo, trigger: Json, x: Surroundings)
    ensures var w := Concrete(BadTargetSteps(), run, trigger, x);
      var tried := Tried(w, w.steps[0], ConfigAt(w, [], 0), ContextAt(w, [], 0));
      tried.Succeeded? && tried.value.branch == Some(GotoPosition(9))
  {
    var w := Concrete(BadTargetSteps(), run, trigger, x);
    var ctx := ContextAt(w, [], 0);
    BadTargetNamed(x.host, ctx);
    assert w.body(w.steps[0], BadTargetConfig(), ctx)(1) == BranchBody(x.host, BadTargetConfig(), ctx);
  }

  lemma {:induction false} BadTargetReference(run: RunInfo, trigger: Json, x: Surroundings)
    ensures var w := Concrete(BadTargetSteps(), run, trigger, x); var f := Reference(w, []);
      |f.recs| == 1 && f.recs[0].BadBranch? && f.ending == Fails(NoSuchPosition(9))
  {
    var w := Concrete(BadTargetSteps(), run, trigger, x);
    BadTargetTried(run, trigger, x);
    FirstHead(w, []);
    ContextOfPrefix(w, Reference(w, []).recs, 0, 0);
    AtHead(w, Reference(w, []), 0);
    RouteExactly(w.steps, Some(GotoPosition(9)), 0, 0);
  }

  /** Some run of that workflow fails, and none that does marks the step behind the branch as skipped. */
  lemma {:induction false} BadTargetLeavesStepsUnmarked(run: RunInfo, trigger: Json, x: Surroundings, roles: map<UserId, Role>)
    returns (finishing: seq<Event>)
    ensures var w := Concrete(BadTargetSteps(), run, trigger, x);
      && Run(w, roles, finishing).db.run.status.RunFailed?
      && forall events :: Terminal(Run(w, roles, events).db.run.status) ==>
           Run(w, roles, events).db.run.status.RunFailed? && "last" !in Run(w, roles, events).db.rows
  {
    var w := Concrete(BadTargetSteps(), run, trigger, x);
    assert ValidSteps(w.steps);
    BadTargetReference(run, trigger, x);
    forall events | Terminal(Run(w, roles, events).db.run.status)
      ensures Run(w, roles, events).db.run.status.RunFailed? && "last" !in Run(w, roles, events).db.rows
    {
      var p := RowsFollowReference(w, roles, events);
      CleanRows(w, Run(w, roles, events).db.rows, Reference(w, []).recs, p, 1);
    }
    var p, h := InvRun(w, roles, []);
    finishing := CanFinish(w, Run(w, roles, []), Reference(w, []), p, h);
  }

  // ---------------------------------------------------------------- keys out of order behind a gate

  /** What the server answers, and what a jsonb column makes of it. */
  function Answer(): Json { Obj([Field("b", Num(1)), Field("a", Num(2))]) }

  function InOrder(): Json { Obj([Field("a", Num(2)), Field("b", Num(1))]) }

  function Wrapped(json: Json): Json { Obj([Field("json", json)]) }

  function AnswerPath(): string { StepPath(1, Join("output", "json")) }

  /** An HTTP request, a gate, a branch on whether the answer equals the value in order, and a last step. */
  function AnswerSteps(): seq<Step> {
    [Step("fetch", 1, HttpRequest, "fetch", Obj([])),
     Step("gate", 2, ApprovalGate, "gate", Obj([])),
     Step("branch", 3, ConditionalBranch, "branch", Question(AnswerPath(), InOrder(), Action("end"), Action("continue"))),
     Step("last", 4, Notify, "last", Obj([]))]
  }

  function Site(): Surroundings {
    Surroundings(
      Conditions.Host((s: string) => s, (pattern: string, s: string) => None, (s: string) => None),
      (step: Step, cfg: Json) => (k: nat) => Retry.Returned(StepResult(Wrapped(Answer()), None)),
      (step: Step, cfg: Json, k: nat) => 0.0,
      Retry.Policy(1, 0))
  }

  function AnswerWorld(run: RunInfo, trigger: Json): World { Concrete(AnswerSteps(), run, trigger, Site()) }

  lemma {:induction false} ColumnReorders()
    ensures Jsonb.Column(Wrapped(Answer())) == Wrapped(InOrder()) && Answer() != InOrder()
  {
    var b, a := Field("b", Num(1)), Field("a", Num(2));
    assert Answer().fields[..1] == [b] && [b][..0] == [];
    assert Jsonb.ColumnFields([b]) == [b];
    assert Jsonb.Utf8Length("a") == 1 + Jsonb.Utf8Length("") && Jsonb.Utf8Length("b") == 1 + Jsonb.Utf8Length("");
    assert Jsonb.Before("a", "b");
    assert Jsonb.ColumnFields(Answer().fields) == [a, b];
    assert Wrapped(Answer()).fields[..0] == [];
  }

  lemma {:induction false} InOrderIsInert()
    ensures TemplateLaws.Inert(InOrder())
  {
    var f := InOrder().fields;
    assert f[1..] == [f[1]] && f[1..][1..] == [];
    assert TemplateLaws.InertFields(f[1..]);
  }

  lemma {:induction false} ActionIsInert(name: string)
    requires '{' !in name
    ensures TemplateLaws.Inert(Action(name)) && Truthy(Some(Action(name)))
    ensures TargetOf(Action(name)) == if name == "end" then End else Continue
  {
    NoBraceNoHole(name);
    assert Action(name).fields[1..] == [];
  }

  lemma {:induction false} PathHasNoBrace()
    ensures '{' !in AnswerPath() && AnswerPath() != ""
  {
    assert forall c :: c in JsonText.Decimal(1) ==> JsonText.IsDigit(c);
  }

  lemma {:induction false} AnswerConfig(ctx: Context)
    ensures Templates.Filled(AnswerSteps()[2].config, AsJson(ctx)) == AnswerSteps()[2].config
    ensures Asks(AnswerSteps()[2].config, AnswerPath(), "equals", InOrder(), Action("end"), Action("continue"))
    ensures TargetOf(Action("end")) == End && TargetOf(Action("continue")) == Continue
  {
    PathHasNoBrace();
    ActionIsInert("end");
    ActionIsInert("continue");
    InOrderIsInert();
    QuestionIsInert(AnswerPath(), InOrder(), Action("end"), Action("continue"), AsJson(ctx));
    QuestionAsks(AnswerPath(), InOrder(), Action("end"), Action("continue"));
  }

  /** With `json` read back behind the gate, the branch finds `json`. */
  lemma {:induction false} BranchFinds(w: World, recs: seq<Rec>, json: Json)
    requires w.steps == AnswerSteps() && 2 <= |recs| <= 4
    requires recs[0].Done? && recs[1].Approved? && w.store(recs[0].output) == Wrapped(json)
    ensures Templates.Resolved(AsJson(ContextAt(w, recs, 2)), AnswerPath()) == Some(json)
  {
    var first := Extended(EmptyContext(w), w.steps[0], Wrapped(json));
    ContextBehindGate(w, recs, Wrapped(json));
    OutputByPosition(EmptyContext(w), w.steps[0], Wrapped(json));
    FoundBehind(first, w.steps[1], Wrapped(json), "json");
    TemplateLaws.KeyFirst(Wrapped(json).fields, "json", "");
  }

  lemma {:induction false} ContextBehindGate(w: World, recs: seq<Rec>, output: Json)
    requires w.steps == AnswerSteps() && 2 <= |recs| <= 4
    requires recs[0].Done? && recs[1].Approved? && w.store(recs[0].output) == output
    ensures ContextAt(w, recs, 2) == Extended(Extended(EmptyContext(w), w.steps[0], output), w.steps[1], Null)
  {
    assert RereadContext(w, recs, 1) == Extended(EmptyContext(w), w.steps[0], output);
  }

  /** A later step leaves what a path finds inside the first step's output. */
  lemma {:induction false} FoundBehind(ctx: Context, later: Step, output: Json, rest: string)
    requires later.position != 1 && Found(ctx, StepPath(1, "output")) == Some(output)
    ensures Found(Extended(ctx, later, Null), StepPath(1, Join("output", rest))) == Templates.Resolved(output, rest)
  {
    OtherPathsUnchanged(ctx, later, Null, 1, Join("output", rest));
    StepPathFinds(ctx, 1, Join("output", rest));
    StepPathFinds(ctx, 1, "output");
    var entry := Templates.Lookup(StepsJson(ctx.steps), JsonText.Decimal(1));
    TemplateLaws.PathsCompose(entry.value, "output", rest);
  }

  /** The branch's decision, where its path finds `json`. */
  lemma {:induction false} AnswerDecides(w: World, ctx: Context, json: Json)
    requires w.steps == AnswerSteps() && w.resolve == AnswerWorld(w.run, w.trigger).resolve
    requires w.body == AnswerWorld(w.run, w.trigger).body
    requires Templates.Resolved(AsJson(ctx), AnswerPath()) == Some(json)
    ensures var tried := Tried(w, w.steps[2], w.resolve(w.steps[2].config, ctx), ctx);
      tried.Succeeded? && tried.value.branch == Some(if json == InOrder() then End else Continue)
  {
    var cfg := AnswerSteps()[2].config;
    AnswerConfig(ctx);
    EqualsIsKnown();
    BranchDecides(Site().host, cfg, ctx, AnswerPath(), "equals", Some(InOrder()), Action("end"), Action("continue"));
    Conditions.EqualsIsEquality(Site().host, Some(json), InOrder());
    assert w.body(w.steps[2], cfg, ctx)(1) == BranchBody(Site().host, cfg, ctx);
  }

  /** Any other step succeeds at once and names no branch. */
  lemma {:induction false} AnswerArrives(w: World, i: nat, cfg: Json, ctx: Context)
    requires w.steps == AnswerSteps() && w.body == AnswerWorld(w.run, w.trigger).body && (i == 0 || i == 3)
    ensures Tried(w, w.steps[i], cfg, ctx) == Retry.Succeeded(1, StepResult(Wrapped(Answer()), None))
  {
    assert w.body(w.steps[i], cfg, ctx)(1) == Retry.Returned(StepResult(Wrapped(Answer()), None));
  }

  lemma {:induction false} ReachesBranch(w: World)
    requires w.steps == AnswerSteps() && w.body == AnswerWorld(w.run, w.trigger).body
    ensures var f := Reference(w, []);
      |f.recs| >= 2 && f.recs[0].Done? && f.recs[0].output == Wrapped(Answer()) && f.recs[1].Approved? && 2 in f.heads
  {
    var f := Reference(w, []);
    FirstHead(w, []);
    AtHead(w, f, 0);
    AnswerArrives(w, 0, ConfigAt(w, f.recs, 0), ContextAt(w, f.recs, 0));
    AtHead(w, f, 1);
  }

  /** From a branch at step 2 of four: to the end, or on to the last step. */
  lemma {:induction false} BranchLeads(w: World, f: RefRun, goesOn: bool)
    requires |w.steps| == 4 && IsReference(w, f) && 2 in f.heads && 2 <= |f.recs| <= 4 && !w.steps[2].kind.ApprovalGate?
    requires var tried := Tried(w, w.steps[2], ConfigAt(w, f.recs, 2), ContextAt(w, f.recs, 2));
      tried.Succeeded? && tried.value.branch == Some(if goesOn then Continue else End)
    ensures if goesOn then 3 in f.heads else |f.recs| == 4 && f.recs[3].Jumped?
  {
    AtHead(w, f, 2);
  }

  /** The last step succeeds. */
  lemma {:induction false} LastStepRuns(w: World, f: RefRun)
    requires w.steps == AnswerSteps() && w.body == AnswerWorld(w.run, w.trigger).body && IsReference(w, f) && 3 in f.heads
    ensures |f.recs| == 4 && f.recs[3].Done?
  {
    AtHead(w, f, 3);
    AnswerArrives(w, 3, ConfigAt(w, f.recs, 3), ContextAt(w, f.recs, 3));
  }

  /** The last step is skipped exactly when the column hands the answer back in order. */
  lemma {:induction false} LastStepSkipped(w: World, json: Json)
    requires w == AnswerWorld(w.run, w.trigger).(store := w.store) && w.store(Wrapped(Answer())) == Wrapped(json)
    ensures var f := Reference(w, []); |f.recs| == 4 && (f.recs[3].Jumped? <==> json == InOrder())
  {
    var f := Reference(w, []);
    ReachesBranch(w);
    BranchFinds(w, f.recs, json);
    AnswerDecides(w, ContextAt(w, f.recs, 2), json);
    BranchLeads(w, f, json != InOrder());
    if json != InOrder() {
      LastStepRuns(w, f);
    }
  }

  /**
    The answer `{"b":1,"a":2}`, compared behind a gate with `{"a":2,"b":1}`: cut by the gate the run
    takes the first target and skips the last step, uncut it would take the second and execute it.
   */
  lemma {:induction false} ReorderedKeysChangeTheRun(run: RunInfo, trigger: Json)
    ensures var w := AnswerWorld(run, trigger);
      && |Reference(w, []).recs| == |Reference(Rereading.Uncut(w), []).recs| == 4
      && Reference(w, []).recs[3].Jumped?
      && !Reference(Rereading.Uncut(w), []).recs[3].Jumped?
  {
    var w := AnswerWorld(run, trigger);
    ColumnReorders();
    LastStepSkipped(w, InOrder());
    LastStepSkipped(Rereading.Uncut(w), Answer());
  }

  /** So every finished run of that workflow has skipped the step that an uncut run executes. */
  lemma {:induction false} ReorderedKeysSkipTheStep(run: RunInfo, trigger: Json, roles: map<UserId, Role>, events: seq<Event>)
    requires Terminal(Run(AnswerWorld(run, trigger), roles, events).db.run.status)
    ensures var w := AnswerWorld(run, trigger); var s := Run(w, roles, events);
      && "last" in s.db.rows && s.db.rows["last"] == SKIPPED_ROW
      && 3 in Reference(Rereading.Uncut(w), []).heads
  {
    var w := AnswerWorld(run, trigger);
    assert ValidSteps(w.steps);
    ReorderedKeysChangeTheRun(run, trigger);
    var p := RowsFollowReference(w, roles, events);
    CleanRows(w, Run(w, roles, events).db.rows, Reference(w, []).recs, p, 3);
    var u := Rereading.Uncut(w);
    ReachesBranch(u);
    BranchFinds(u, Reference(u, []).recs, Answer());
    AnswerDecides(u, ContextAt(u, Reference(u, []).recs, 2), Answer());
    BranchLeads(u, Reference(u, []), true);
  }

  /** A jsonb column meets what the comparison with the context read back asks of it. */
  lemma {:induction false} ColumnSettles(steps: seq<Step>, run: RunInfo, trigger: Json, x: Surroundings)
    ensures Rereading.StoreSettles(Concrete(steps, run, trigger, x))
  {
    forall j ensures Jsonb.Column(Jsonb.Column(j)) == Jsonb.Column(j) {
      Jsonb.FixedExactly(j);
    }
  }
}
