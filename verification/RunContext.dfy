/**
  The run context as templates see it: an object with `trigger`, `previous`, `steps` keyed by the
  decimal text of the position, and `run`. The engine updates it entry by entry.
 */
module RunContext {
  import opened Base
  import opened Json
  import opened Workflow
  import JsonText
  import Templates
  import opened TemplateLaws

  function KindName(kind: StepKind): string {
    match kind
    case LlmCall => "llm_call"
    case HttpRequest => "http_request"
    case DbWrite => "db_write"
    case Notify => "notify"
    case ConditionalBranch => "conditional_branch"
    case ApprovalGate => "approval_gate"
  }

  function EntryJson(e: Entry): Json {
    Obj([Field("output", e.output), Field("status", Str("completed")), Field("name", Str(e.name)),
         Field("type", Str(KindName(e.kind)))])
  }

  function StepsJson(steps: seq<NamedEntry>): seq<Field> {
    if steps == [] then []
    else [Field(JsonText.Decimal(steps[0].position), EntryJson(steps[0].entry))] + StepsJson(steps[1..])
  }

  function PreviousJson(previous: Option<Json>): Json {
    match previous
    case None => Null
    case Some(output) => Obj([Field("output", output), Field("status", Str("completed"))])
  }

  function AsJson(ctx: Context): Json {
    Obj([Field("trigger", ctx.trigger), Field("previous", PreviousJson(ctx.previous)),
         Field("steps", Obj(StepsJson(ctx.steps))),
         Field("run", Obj([Field("id", Str(ctx.run.id)), Field("workflow_id", Str(ctx.run.workflowId)),
                           Field("org_id", Str(ctx.run.orgId))]))])
  }

  /** Writing the entry of one position is writing that property and no other. */
  lemma {:induction false} PutIsAssignment(steps: seq<NamedEntry>, position: int, entry: Entry, q: int)
    ensures Templates.Lookup(StepsJson(PutEntry(steps, position, entry)), JsonText.Decimal(q))
         == if q == position then Some(EntryJson(entry)) else Templates.Lookup(StepsJson(steps), JsonText.Decimal(q))
    decreases |steps|
  {
    JsonText.DecimalIsInjective(position, q);
    var after := PutEntry(steps, position, entry);
    if steps == [] || position < steps[0].position {
      assert after[1..] == steps;
    } else if position == steps[0].position {
      assert after[1..] == steps[1..];
    } else {
      JsonText.DecimalIsInjective(position, steps[0].position);
      assert after[1..] == PutEntry(steps[1..], position, entry);
      PutIsAssignment(steps[1..], position, entry, q);
    }
  }

  // ---------------------------------------------------------------- what templates find

  function Join(p: string, q: string): string { p + "." + q }

  /** `steps.<position>.<rest>` */
  function StepPath(position: nat, rest: string): string { Join("steps", Join(JsonText.Decimal(position), rest)) }

  function Found(ctx: Context, path: string): Option<Json> { Templates.Resolved(AsJson(ctx), path) }

  lemma {:induction false} TopLevel(ctx: Context, key: string, rest: string)
    requires Key(key)
    ensures Found(ctx, Join(key, rest))
         == (match Templates.Lookup(AsJson(ctx).fields, key)
             case None => None
             case Some(v) => Templates.Resolved(v, rest))
  {
    KeyFirst(AsJson(ctx).fields, key, rest);
  }

  lemma {:induction false} ContextFields(ctx: Context)
    ensures var fields := AsJson(ctx).fields;
      && Templates.Lookup(fields, "trigger") == Some(ctx.trigger)
      && Templates.Lookup(fields, "previous") == Some(PreviousJson(ctx.previous))
      && Templates.Lookup(fields, "steps") == Some(Obj(StepsJson(ctx.steps)))
      && Templates.Lookup(fields, "run") == Some(fields[3].value)
  {
    var fields := AsJson(ctx).fields;
    var back := fields[1..][1..];
    assert back == fields[2..] && back[1..] == fields[3..];
    assert Templates.Lookup(back, "steps") == Some(Obj(StepsJson(ctx.steps)));
    assert Templates.Lookup(back[1..], "run") == Some(fields[3].value);
    assert Templates.Lookup(back, "run") == Some(fields[3].value);
    assert forall key :: key == "steps" || key == "run" ==>
        Templates.Lookup(fields, key) == Templates.Lookup(fields[1..], key) == Templates.Lookup(back, key);
  }

  lemma {:induction false} StepPathFinds(ctx: Context, q: nat, rest: string)
    ensures Found(ctx, StepPath(q, rest))
         == (match Templates.Lookup(StepsJson(ctx.steps), JsonText.Decimal(q))
             case None => None
             case Some(v) => Templates.Resolved(v, rest))
  {
    TopLevel(ctx, "steps", Join(JsonText.Decimal(q), rest));
    ContextFields(ctx);
    DecimalIsKey(q);
    KeyFirst(StepsJson(ctx.steps), JsonText.Decimal(q), rest);
  }

  /** `previous.output` is the output of the step that completed last. */
  lemma {:induction false} PreviousIsLast(ctx: Context, step: Step, output: Json)
    ensures Found(Extended(ctx, step, output), Join("previous", "output")) == Some(output)
  {
    var next := Extended(ctx, step, output);
    TopLevel(next, "previous", "output");
    assert Templates.Lookup(AsJson(next).fields, "previous") == Some(PreviousJson(Some(output))) by {
      ContextFields(next);
    }
    OutputOfPrevious(output);
  }

  lemma {:induction false} OutputOfPrevious(output: Json)
    ensures Templates.Resolved(PreviousJson(Some(output)), "output") == Some(output)
  {
    KeyFirst(PreviousJson(Some(output)).fields, "output", "");
  }

  /** `previous.status` is that it completed. */
  lemma {:induction false} PreviousIsCompleted(ctx: Context, step: Step, output: Json)
    ensures Found(Extended(ctx, step, output), Join("previous", "status")) == Some(Str("completed"))
  {
    var next := Extended(ctx, step, output);
    TopLevel(next, "previous", "status");
    assert Templates.Lookup(AsJson(next).fields, "previous") == Some(PreviousJson(Some(output))) by {
      ContextFields(next);
    }
    var fields := PreviousJson(Some(output)).fields;
    EntryKeys();
    KeyFirst(fields, "status", "");
    assert fields[1..][0] == fields[1] && Templates.Lookup(fields[1..], "status") == Some(Str("completed"));
  }

  /** A path under a completed step's position leads into its entry. */
  lemma {:induction false} EntryByPosition(ctx: Context, step: Step, output: Json, rest: string)
    ensures Found(Extended(ctx, step, output), StepPath(step.position, rest))
         == Templates.Resolved(EntryJson(Entry(output, step.name, step.kind)), rest)
  {
    StepPathFinds(Extended(ctx, step, output), step.position, rest);
    PutIsAssignment(ctx.steps, step.position, Entry(output, step.name, step.kind), step.position);
  }

  /** The names of the step kinds in the schema. */
  function KindOf(name: string): Option<StepKind> {
    if name == "llm_call" then Some(LlmCall)
    else if name == "http_request" then Some(HttpRequest)
    else if name == "db_write" then Some(DbWrite)
    else if name == "notify" then Some(Notify)
    else if name == "conditional_branch" then Some(ConditionalBranch)
    else if name == "approval_gate" then Some(ApprovalGate)
    else None
  }

  lemma {:induction false} KindNames(name: string, kind: StepKind)
    ensures KindOf(name) == Some(kind) <==> name == KindName(kind)
  {
  }

  lemma {:induction false} EntryFields(e: Entry)
    ensures var entry := EntryJson(e);
      && Templates.Resolved(entry, "output") == Some(e.output)
      && Templates.Resolved(entry, "status") == Some(Str("completed"))
      && Templates.Resolved(entry, "name") == Some(Str(e.name))
      && Templates.Resolved(entry, "type") == Some(Str(KindName(e.kind)))
  {
    var fields := EntryJson(e).fields;
    EntryKeys();
    KeyFirst(fields, "output", "");
    KeyFirst(fields, "status", "");
    KeyFirst(fields, "name", "");
    KeyFirst(fields, "type", "");
    FourMembers(fields[0], fields[1], fields[2], fields[3], "output");
    FourMembers(fields[0], fields[1], fields[2], fields[3], "status");
    FourMembers(fields[0], fields[1], fields[2], fields[3], "name");
    FourMembers(fields[0], fields[1], fields[2], fields[3], "type");
  }

  lemma {:induction false} EntryKeys()
    ensures Key("output") && Key("status") && Key("name") && Key("type")
    ensures "output" != "status" && "output" != "name" && "output" != "type"
    ensures "status" != "name" && "status" != "type" && "name" != "type"
  {
  }

  lemma {:induction false} FourMembers(a: Field, b: Field, c: Field, d: Field, key: string)
    ensures Templates.Lookup([a, b, c, d], key)
         == if a.key == key then Some(a.value) else if b.key == key then Some(b.value)
            else if c.key == key then Some(c.value) else if d.key == key then Some(d.value) else None
  {
    assert [a, b, c, d][1..] == [b, c, d] && [b, c, d][1..] == [c, d] && [c, d][1..] == [d];
    assert Templates.Lookup([d], key) == if d.key == key then Some(d.value) else Templates.Lookup([], key);
    assert Templates.Lookup([c, d], key) == if c.key == key then Some(c.value) else Templates.Lookup([d], key);
    assert Templates.Lookup([b, c, d], key) == if b.key == key then Some(b.value) else Templates.Lookup([c, d], key);
  }

  /** A completed step's output is found under its position. */
  lemma {:induction false} OutputByPosition(ctx: Context, step: Step, output: Json)
    ensures Found(Extended(ctx, step, output), StepPath(step.position, "output")) == Some(output)
  {
    EntryByPosition(ctx, step, output, "output");
    EntryFields(Entry(output, step.name, step.kind));
  }

  /** So are its status, its name and the schema's name of its kind. */
  lemma {:induction false} NamesByPosition(ctx: Context, step: Step, output: Json, kind: string)
    ensures var next := Extended(ctx, step, output);
      && Found(next, StepPath(step.position, "status")) == Some(Str("completed"))
      && Found(next, StepPath(step.position, "name")) == Some(Str(step.name))
      && (Found(next, StepPath(step.position, "type")) == Some(Str(kind)) <==> KindOf(kind) == Some(step.kind))
  {
    EntryByPosition(ctx, step, output, "status");
    EntryByPosition(ctx, step, output, "name");
    EntryByPosition(ctx, step, output, "type");
    EntryFields(Entry(output, step.name, step.kind));
    KindNames(kind, step.kind);
  }

  /** Completing a step changes no path into another step, into the trigger or into the run. */
  lemma {:induction false} OtherPathsUnchanged(ctx: Context, step: Step, output: Json, q: nat, rest: string)
    ensures q != step.position ==>
      Found(Extended(ctx, step, output), StepPath(q, rest)) == Found(ctx, StepPath(q, rest))
    ensures Found(Extended(ctx, step, output), Join("trigger", rest)) == Found(ctx, Join("trigger", rest))
    ensures Found(Extended(ctx, step, output), Join("run", rest)) == Found(ctx, Join("run", rest))
  {
    var next := Extended(ctx, step, output);
    StepPathFinds(next, q, rest);
    StepPathFinds(ctx, q, rest);
    PutIsAssignment(ctx.steps, step.position, Entry(output, step.name, step.kind), q);
    ContextFields(ctx);
    ContextFields(next);
    SameProperty(ctx, next, "trigger", rest);
    SameProperty(ctx, next, "run", rest);
  }

  lemma {:induction false} SameProperty(a: Context, b: Context, key: string, rest: string)
    requires Key(key) && Templates.Lookup(AsJson(a).fields, key) == Templates.Lookup(AsJson(b).fields, key)
    ensures Found(a, Join(key, rest)) == Found(b, Join(key, rest))
  {
    TopLevel(a, key, rest);
    TopLevel(b, key, rest);
  }
}
