/** How far key order reaches: which outputs are never read back as they were, and a workflow that does not mind. */
module KeyOrderExamples {
  import opened Base
  import opened Json
  import opened Workflow
  import opened Repository
  import opened ReferenceRun
  import opened Authz
  import opened Protocol
  import opened RunContext
  import opened StepBodies
  import opened Coverage
  import opened Rereading
  import opened Alike
  import opened OrderFree
  import opened Shortfalls
  import opened Rigidity
  import Conditions
  import Jsonb
  import JsonText
  import Retry
  import Templates
  import TemplateLaws

  // ---------------------------------------------------------------- outputs that are never kept

  predicate Ascii(s: string) { forall c :: c in s ==> (c as int) < 0x80 }

  lemma {:induction false} AsciiLength(s: string)
    requires Ascii(s)
    ensures Jsonb.Utf8Length(s) == |s|
  {
    if s != "" {
      assert s[0] in s && forall c :: c in s[1..] ==> c in s;
      AsciiLength(s[1..]);
    }
  }

  /** A longer key in front of a shorter one, neither of them an index: the object comes back in another order. */
  lemma {:induction false} LongerFirst(fields: seq<Field>, i: nat)
    requires i + 1 < |fields|
    requires Ascii(fields[i].key) && Ascii(fields[i + 1].key) && |fields[i].key| > |fields[i + 1].key|
    requires !Jsonb.IsIndex(fields[i].key) && !Jsonb.IsIndex(fields[i + 1].key)
    ensures Jsonb.Column(Obj(fields)) != Obj(fields)
  {
    AsciiLength(fields[i].key);
    AsciiLength(fields[i + 1].key);
    assert !Jsonb.Before(fields[i].key, fields[i + 1].key);
    Jsonb.FixedExactly(Obj(fields));
  }

  /** Two neighbouring keys of what a step of each kind puts out, in the order in which the code writes them. */
  function WrittenKeys(kind: StepKind): (string, string) {
    match kind
    case LlmCall => ("provider", "stubbed")
    case HttpRequest => ("status", "ok")
    case DbWrite => ("output_id", "org_id")
    case Notify => ("notification_id", "org_id")
    case ConditionalBranch => ("matched", "path")
    case ApprovalGate => ("", "")
  }

  lemma {:induction false} PlainKeys(kind: StepKind)
    requires !kind.ApprovalGate?
    ensures var (a, b) := WrittenKeys(kind);
      Ascii(a) && Ascii(b) && !Jsonb.IsIndex(a) && !Jsonb.IsIndex(b) && |a| > |b|
  {
    var (a, b) := WrittenKeys(kind);
    assert !JsonText.IsDigit(a[0]) && a[0] in a;
    assert !JsonText.IsDigit(b[0]) && b[0] in b;
  }

  /** Whatever its values, no output of any kind of step comes back from its column as it was written. */
  lemma {:induction false} OutputReordered(kind: StepKind, fields: seq<Field>, i: nat)
    requires !kind.ApprovalGate? && i + 1 < |fields|
    requires fields[i].key == WrittenKeys(kind).0 && fields[i + 1].key == WrittenKeys(kind).1
    ensures Jsonb.Column(Obj(fields)) != Obj(fields)
  {
    PlainKeys(kind);
    LongerFirst(fields, i);
  }

  /** What a conditional branch puts out never comes back from its column as it was written. */
  lemma {:induction false} BranchOutputReordered(host: Conditions.Host, cfg: Json, ctx: Context)
    ensures var result := BranchBody(host, cfg, ctx);
      result.Returned? ==> Jsonb.Column(result.value.output) != result.value.output
  {
    var result := BranchBody(host, cfg, ctx);
    if result.Returned? {
      MatchedFirst(result.value.output);
    }
  }

  lemma {:induction false} MatchedFirst(output: Json)
    requires output.Obj? && |output.fields| >= 2 && output.fields[0].key == "matched" && output.fields[1].key == "path"
    ensures Jsonb.Column(output) != output
  {
    OutputReordered(ConditionalBranch, output.fields, 0);
  }

  /** Behind a branch in the same segment the context in memory is therefore not the one read back. */
  lemma {:induction false} BranchPartsContexts(steps: seq<Step>, run: RunInfo, trigger: Json, x: Surroundings, i: nat, p: nat)
    requires ValidSteps(steps) && i < |steps| && steps[i].kind.ConditionalBranch?
    requires var recs := Reference(Concrete(steps, run, trigger, x), []).recs;
      p <= |recs| && SegmentStart(recs, p) <= i < p && recs[i].Done?
    ensures var w := Concrete(steps, run, trigger, x); var recs := Reference(w, []).recs;
      ContextAt(w, recs, p) != RereadContext(w, recs, p)
  {
    var w := Concrete(steps, run, trigger, x);
    var f := Reference(w, []);
    FirstHead(w, []);
    ReachedIsHead(w, f, 0, i);
    AtHead(w, f, i);
    BranchTried(w, x, steps[i], ConfigAt(w, f.recs, i), ContextAt(w, f.recs, i));
    SameContextExactly(w, f.recs, p);
    assert w.store(f.recs[i].output) == Jsonb.Column(f.recs[i].output);
  }

  lemma {:induction false} BranchTried(w: World, x: Surroundings, step: Step, cfg: Json, ctx: Context)
    requires step.kind.ConditionalBranch? && w.body == Concrete(w.steps, w.run, w.trigger, x).body
    ensures var tried := Tried(w, step, cfg, ctx);
      tried.Succeeded? ==> Jsonb.Column(tried.value.output) != tried.value.output
  {
    var body := w.body(step, cfg, ctx);
    var limit := Retry.Limit(w.policy(cfg));
    Retry.StopsAtFirstLast(body, limit, 1);
    var k := Retry.Outcome(body, limit, 1).attempts;
    assert body(k) == BranchBody(x.host, cfg, ctx);
    BranchOutputReordered(x.host, cfg, ctx);
  }

  // ---------------------------------------------------------------- a workflow that does not mind

  /** One member of the answer. */
  function LabelPath(): string { StepPath(1, Join("output", Join("json", "a"))) }

  function LabelConfig(): Json { Question(LabelPath(), Num(2), Action("end"), Action("continue")) }

  /** The same request and gate as `AnswerSteps`, and a branch on one member of the answer. */
  function LabelSteps(): seq<Step> {
    [Step("fetch", 1, HttpRequest, "fetch", Obj([])),
     Step("gate", 2, ApprovalGate, "gate", Obj([])),
     Step("branch", 3, ConditionalBranch, "branch", LabelConfig()),
     Step("last", 4, Notify, "last", Obj([]))]
  }

  lemma {:induction false} InertNamesNothing(value: Json)
    requires TemplateLaws.Inert(value)
    ensures TemplateLaws.Named(value) == {}
    decreases value, 0
  {
    match value
    case Str(s) =>
      if Templates.WholeHole(s).Some? {
        TemplateLaws.WholeIsScanned(s);
      } else {
        LiteralsNameNothing(Templates.Scan(s));
      }
    case Arr(items) => InertItemsNameNothing(items);
    case Obj(fields) => InertFieldsNameNothing(fields);
    case _ =>
  }

  lemma {:induction false} LiteralsNameNothing(pieces: seq<Templates.Piece>)
    requires TemplateLaws.NoHole(pieces)
    ensures TemplateLaws.HolePaths(pieces) == {}
  {
    if pieces != [] {
      assert pieces[0] in pieces && forall x :: x in pieces[1..] ==> x in pieces;
      LiteralsNameNothing(pieces[1..]);
    }
  }

  lemma {:induction false} InertItemsNameNothing(items: seq<Json>)
    requires TemplateLaws.InertItems(items)
    ensures TemplateLaws.NamedItems(items) == {}
    decreases items, 0
  {
    if items != [] {
      InertNamesNothing(items[0]);
      InertItemsNameNothing(items[1..]);
    }
  }

  lemma {:induction false} InertFieldsNameNothing(fields: seq<Field>)
    requires TemplateLaws.InertFields(fields)
    ensures TemplateLaws.NamedFields(fields) == {}
    decreases fields, 0
  {
    if fields != [] {
      InertNamesNothing(fields[0].value);
      InertFieldsNameNothing(fields[1..]);
    }
  }

  lemma {:induction false} LabelConfigInert(ctx: Context)
    ensures TemplateLaws.Inert(LabelConfig()) && Templates.Filled(LabelConfig(), AsJson(ctx)) == LabelConfig()
    ensures Asks(LabelConfig(), LabelPath(), "equals", Num(2), Action("end"), Action("continue"))
  {
    assert forall c :: c in JsonText.Decimal(1) ==> JsonText.IsDigit(c);
    assert '{' !in LabelPath() && LabelPath() != "";
    ActionIsInert("end");
    ActionIsInert("continue");
    QuestionIsInert(LabelPath(), Num(2), Action("end"), Action("continue"), AsJson(ctx));
    QuestionAsks(LabelPath(), Num(2), Action("end"), Action("continue"));
    TemplateLaws.FixedPoints(LabelConfig(), Null);
    QuestionIsInert(LabelPath(), Num(2), Action("end"), Action("continue"), AsJson(ctx));
    QuestionInert(LabelPath(), Num(2), Action("end"), Action("continue"));
  }

  lemma {:induction false} QuestionInert(path: string, v: Json, yes: Json, no: Json)
    requires '{' !in path && TemplateLaws.Inert(v) && TemplateLaws.Inert(yes) && TemplateLaws.Inert(no)
    ensures TemplateLaws.Inert(Question(path, v, yes, no))
  {
    NoBraceNoHole(path);
    NoBraceNoHole("equals");
    var f := Question(path, v, yes, no).fields;
    var g := f[0].value.fields;
    ThreeInert(g[0], g[1], g[2]);
    ThreeInert(f[0], f[1], f[2]);
  }

  /** The branch finds a number behind the gate, whatever the order of the answer's keys. */
  lemma {:induction false} LabelFound(v: World, recs: seq<Rec>)
    requires v.steps == LabelSteps() && 2 <= |recs| <= 4 && recs[0].Done? && recs[1].Approved?
    requires v.store(recs[0].output) == Wrapped(Answer())
    ensures Found(ContextAt(v, recs, 2), LabelPath()) == Some(Num(2))
  {
    var first := Extended(EmptyContext(v), v.steps[0], Wrapped(Answer()));
    assert RereadContext(v, recs, 1) == first;
    OutputByPosition(EmptyContext(v), v.steps[0], Wrapped(Answer()));
    FoundBehind(first, v.steps[1], Wrapped(Answer()), Join("json", "a"));
    LabelInside();
  }

  lemma {:induction false} LabelInside()
    ensures Templates.Resolved(Wrapped(Answer()), Join("json", "a")) == Some(Num(2))
  {
    TemplateLaws.KeyFirst(Wrapped(Answer()).fields, "json", "a");
    TemplateLaws.KeyFirst(Answer().fields, "a", "");
    assert Answer().fields[1..] == [Field("a", Num(2))];
  }

  lemma {:induction false} LabelInputsDistinct(trigger: Json)
    requires Jsonb.Distinct(trigger)
    ensures InputsDistinct(LabelSteps(), trigger, Site())
  {
    DistinctExactly(Answer().fields);
    DistinctExactly(Wrapped(Answer()).fields);
    DistinctExactly([]);
    LabelConfigDistinct();
  }

  lemma {:induction false} LabelConfigDistinct()
    ensures Jsonb.Distinct(LabelConfig())
  {
    DistinctExactly(Action("end").fields);
    DistinctExactly(Action("continue").fields);
    DistinctExactly(LabelConfig().fields[0].value.fields);
    DistinctExactly(LabelConfig().fields);
  }

  lemma {:induction false} LabelReached(v: World, u: RefRun)
    requires v == Uncut(Concrete(LabelSteps(), v.run, v.trigger, Site())) && IsReference(v, u)
    ensures 2 <= |u.recs| <= 4 ==> Found(ContextAt(v, u.recs, 2), LabelPath()) == Some(Num(2))
  {
    FirstHead(v, []);
    AtHead(v, u, 0);
    assert v.body(v.steps[0], ConfigAt(v, u.recs, 0), ContextAt(v, u.recs, 0))(1)
        == Retry.Returned(StepResult(Wrapped(Answer()), None));
    AtHead(v, u, 1);
    if 2 <= |u.recs| <= 4 {
      LabelFound(v, u.recs);
    }
  }

  lemma {:induction false} LabelNamesNothing(p: nat)
    requires p < 4
    ensures TemplateLaws.Named(LabelSteps()[p].config) == {}
  {
    ConfigNamesNothing();
    NothingInEmpty();
  }

  lemma {:induction false} ConfigNamesNothing()
    ensures TemplateLaws.Named(LabelConfig()) == {}
  {
    LabelConfigInert(Context(Null, None, [], RunInfo("", "", "")));
    InertNamesNothing(LabelConfig());
  }

  lemma {:induction false} NothingInEmpty()
    ensures TemplateLaws.Named(Obj([])) == {}
  {
  }

  lemma {:induction false} LabelStepsValid()
    ensures ValidSteps(LabelSteps()) && |LabelSteps()| == 4
  {
  }

  /** At each head of the uncut run the step's paths settle. */
  lemma {:induction false} LabelIsOrderFree(v: World, u: RefRun, p: nat)
    requires v == Uncut(Concrete(LabelSteps(), v.run, v.trigger, Site())) && IsReference(v, u) && |u.recs| <= |v.steps|
    ensures OrderFreeAt(v, u, p)
  {
    if p < 4 && p <= |u.recs| {
      LabelNamesNothing(p);
      if p == 2 {
        LabelReached(v, u);
        LabelConfigInert(ContextAt(v, u.recs, p));
      }
    }
  }

  lemma {:induction false} LabelOrderFree(w: World, u: RefRun)
    requires w == Concrete(LabelSteps(), w.run, w.trigger, Site()) && u == Reference(Uncut(w), [])
    ensures forall p: nat :: OrderFreeAt(Uncut(w), u, p)
  {
    forall p: nat ensures OrderFreeAt(Uncut(w), u, p) {
      LabelIsOrderFree(Uncut(w), u, p);
    }
  }

  /** Every finished run of that workflow is the uncut run, though the answer comes back in another order. */
  lemma {:induction false} LabelRunsAgree(w: World, u: RefRun, roles: map<UserId, Role>, events: seq<Event>)
    requires w == Concrete(LabelSteps(), w.run, w.trigger, Site()) && Jsonb.Distinct(w.trigger)
    requires u == Reference(Uncut(w), []) && Terminal(Run(w, roles, events).db.run.status)
    ensures w.store(Wrapped(Answer())) != Wrapped(Answer())
    ensures RowsTell(w, Run(w, roles, events).db, u)
  {
    ColumnReorders();
    LabelInputsDistinct(w.trigger);
    LabelStepsValid();
    LabelOrderFree(w, u);
    OrderFreeRunsAgree(w, LabelSteps(), w.trigger, Site(), u, roles, events);
  }
}
