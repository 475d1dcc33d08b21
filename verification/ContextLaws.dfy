/**
  What templates find in the contexts of a run: the payload it was started with and its ids in every
  one of them, and of each step before exactly what became of it.
 */
module ContextLaws {
  import opened Base
  import opened Json
  import opened Workflow
  import opened Repository
  import opened ReferenceRun
  import opened RunContext
  import Templates
  import TemplateLaws

  // ---------------------------------------------------------------- what a run was started with

  lemma {:induction false} StartIsKept(w: World, recs: seq<Rec>, count: nat)
    requires count <= |recs| <= |w.steps|
    ensures ContextAt(w, recs, count).trigger == RereadContext(w, recs, count).trigger == w.trigger
    ensures ContextAt(w, recs, count).run == RereadContext(w, recs, count).run == w.run
  {
    if count > 0 {
      StartIsKept(w, recs, count - 1);
    }
  }

  lemma {:induction false} StartIsRebuilt(w: World, rows: StepRows, count: nat)
    requires count <= |w.steps|
    ensures Rebuilt(w, rows, count).trigger == w.trigger && Rebuilt(w, rows, count).run == w.run
  {
    if count > 0 {
      StartIsRebuilt(w, rows, count - 1);
    }
  }

  /** Paths into the trigger find what they find in the payload, and those into the run its three ids. */
  ghost predicate SeesStart(w: World, ctx: Context, rest: string) {
    && Found(ctx, Join("trigger", rest)) == Templates.Resolved(w.trigger, rest)
    && Found(ctx, "trigger") == Some(w.trigger)
    && Found(ctx, Join("run", "id")) == Some(Str(w.run.id))
    && Found(ctx, Join("run", "workflow_id")) == Some(Str(w.run.workflowId))
    && Found(ctx, Join("run", "org_id")) == Some(Str(w.run.orgId))
  }

  lemma {:induction false} StartKeys()
    ensures TemplateLaws.Key("trigger") && TemplateLaws.Key("run")
    ensures TemplateLaws.Key("id") && TemplateLaws.Key("workflow_id") && TemplateLaws.Key("org_id")
    ensures "id" != "workflow_id" && "id" != "org_id" && "workflow_id" != "org_id"
  {
  }

  lemma {:induction false} RunFields(id: string, workflowId: string, orgId: string)
    ensures var run := Obj([Field("id", Str(id)), Field("workflow_id", Str(workflowId)), Field("org_id", Str(orgId))]);
      && Templates.Resolved(run, "id") == Some(Str(id))
      && Templates.Resolved(run, "workflow_id") == Some(Str(workflowId))
      && Templates.Resolved(run, "org_id") == Some(Str(orgId))
  {
    var fields := [Field("id", Str(id)), Field("workflow_id", Str(workflowId)), Field("org_id", Str(orgId))];
    StartKeys();
    TemplateLaws.KeyFirst(fields, "id", "");
    TemplateLaws.KeyFirst(fields, "workflow_id", "");
    TemplateLaws.KeyFirst(fields, "org_id", "");
    assert fields[1..][0] == fields[1] && fields[1..][1..][0] == fields[2];
    assert Templates.Lookup(fields[1..][1..], "org_id") == Some(Str(orgId));
    assert Templates.Lookup(fields[1..], "org_id") == Templates.Lookup(fields[1..][1..], "org_id");
  }

  lemma {:induction false} KeptIsSeen(w: World, ctx: Context, rest: string)
    requires ctx.trigger == w.trigger && ctx.run == w.run
    ensures SeesStart(w, ctx, rest)
  {
    StartKeys();
    ContextFields(ctx);
    TopLevel(ctx, "trigger", rest);
    TemplateLaws.KeyFirst(AsJson(ctx).fields, "trigger", "");
    TopLevel(ctx, "run", "id");
    TopLevel(ctx, "run", "workflow_id");
    TopLevel(ctx, "run", "org_id");
    RunFields(w.run.id, w.run.workflowId, w.run.orgId);
  }

  /** In every context of a run, in memory or read back, templates see what the run was started with. */
  lemma {:induction false} StartIsSeen(w: World, recs: seq<Rec>, count: nat, rest: string)
    requires count <= |recs| <= |w.steps|
    ensures SeesStart(w, ContextAt(w, recs, count), rest) && SeesStart(w, RereadContext(w, recs, count), rest)
  {
    StartIsKept(w, recs, count);
    KeptIsSeen(w, ContextAt(w, recs, count), rest);
    KeptIsSeen(w, RereadContext(w, recs, count), rest);
  }

  /** So they do in the context rebuilt from any rows. */
  lemma {:induction false} RebuiltSeesStart(w: World, rows: StepRows, count: nat, rest: string)
    requires count <= |w.steps|
    ensures SeesStart(w, Rebuilt(w, rows, count), rest)
  {
    StartIsRebuilt(w, rows, count);
    KeptIsSeen(w, Rebuilt(w, rows, count), rest);
  }

  // ---------------------------------------------------------------- what a run has put out

  /** What a path finds in the entry of a step with this output, if it has one. */
  function InEntry(step: Step, output: Option<Json>, rest: string): Option<Json> {
    match output
    case None => None
    case Some(o) => Templates.Resolved(EntryJson(Entry(o, step.name, step.kind)), rest)
  }

  lemma {:induction false} NothingInEmpty(w: World, q: nat, rest: string)
    ensures Found(EmptyContext(w), StepPath(q, rest)) == None
  {
    StepPathFinds(EmptyContext(w), q, rest);
  }

  /** One more step settles its own position and no other. */
  lemma {:induction false} OneMoreEntry(ctx: Context, step: Step, output: Json, q: nat, rest: string)
    ensures Found(Extended(ctx, step, output), StepPath(q, rest))
         == if q == step.position then InEntry(step, Some(output), rest) else Found(ctx, StepPath(q, rest))
  {
    EntryByPosition(ctx, step, output, rest);
    OtherPathsUnchanged(ctx, step, output, q, rest);
  }

  /** What the rows tell of a step's output: null in a completed row without one. */
  function RowOutput(rows: StepRows, step: Step): Option<Json> {
    if step.id in rows && rows[step.id].status == Completed then Some(rows[step.id].output.UnwrapOr(Null)) else None
  }

  /** What the records tell of it, as its column hands it back; an approved gate has the output null. */
  function ColumnOutput(w: World, rec: Rec): Option<Json> {
    match rec
    case Done(_, output, _) => Some(w.store(output))
    case Approved(_) => Some(Null)
    case _ => None
  }

  /** A gate behind step `i` was approved. */
  predicate CutBehind(recs: seq<Rec>, i: nat, count: nat) {
    exists j :: i < j < count <= |recs| && recs[j].Approved?
  }

  /** What it is in memory at `count`: as it was put out, until a gate behind it is approved. */
  ghost function MemoryOutput(w: World, recs: seq<Rec>, i: nat, count: nat): Option<Json>
    requires i < count <= |recs|
  {
    if recs[i].Done? && !CutBehind(recs, i, count) then Some(recs[i].output) else ColumnOutput(w, recs[i])
  }

  lemma {:induction false} OwnPosition(steps: seq<Step>, i: nat, j: nat)
    requires ValidSteps(steps) && i < |steps| && j < |steps|
    ensures steps[i].position == steps[j].position <==> i == j
  {
  }

  lemma {:induction false} OneMoreIsRebuilt(w: World, rows: StepRows, count: nat, q: nat, rest: string)
    requires 0 < count <= |w.steps|
    ensures var output := RowOutput(rows, w.steps[count - 1]);
      var before := Found(Rebuilt(w, rows, count - 1), StepPath(q, rest));
      Found(Rebuilt(w, rows, count), StepPath(q, rest))
        == if output.Some? && q == w.steps[count - 1].position then InEntry(w.steps[count - 1], output, rest) else before
  {
    var output := RowOutput(rows, w.steps[count - 1]);
    if output.Some? {
      OneMoreEntry(Rebuilt(w, rows, count - 1), w.steps[count - 1], output.value, q, rest);
    }
  }

  /** What a path under the position of step `i` should find in the context of the first `count` rows. */
  function RowShows(w: World, rows: StepRows, count: nat, i: nat, rest: string): Option<Json>
    requires i < |w.steps|
  {
    if i < count then InEntry(w.steps[i], RowOutput(rows, w.steps[i]), rest) else None
  }

  /** In the context rebuilt from rows, a path under a step's position finds what the row tells. */
  lemma {:induction false} RebuiltFinds(w: World, rows: StepRows, count: nat, i: nat, rest: string)
    requires ValidSteps(w.steps) && i < |w.steps| && count <= |w.steps|
    ensures Found(Rebuilt(w, rows, count), StepPath(w.steps[i].position, rest)) == RowShows(w, rows, count, i, rest)
  {
    if count == 0 {
      NothingInEmpty(w, w.steps[i].position, rest);
    } else {
      RebuiltFinds(w, rows, count - 1, i, rest);
      NextRowShows(w, rows, count, i, rest);
    }
  }

  lemma {:induction false} NextRowShows(w: World, rows: StepRows, count: nat, i: nat, rest: string)
    requires ValidSteps(w.steps) && i < |w.steps| && 0 < count <= |w.steps|
    requires Found(Rebuilt(w, rows, count - 1), StepPath(w.steps[i].position, rest)) == RowShows(w, rows, count - 1, i, rest)
    ensures Found(Rebuilt(w, rows, count), StepPath(w.steps[i].position, rest)) == RowShows(w, rows, count, i, rest)
  {
    OneMoreIsRebuilt(w, rows, count, w.steps[i].position, rest);
    OwnPosition(w.steps, i, count - 1);
  }

  /** Nothing is found under a position that no step has. */
  lemma {:induction false} RebuiltFindsNothingElse(w: World, rows: StepRows, count: nat, q: nat, rest: string)
    requires count <= |w.steps| && forall i :: 0 <= i < |w.steps| ==> w.steps[i].position != q
    ensures Found(Rebuilt(w, rows, count), StepPath(q, rest)) == None
  {
    if count == 0 {
      NothingInEmpty(w, q, rest);
    } else {
      RebuiltFindsNothingElse(w, rows, count - 1, q, rest);
      OneMoreIsRebuilt(w, rows, count, q, rest);
    }
  }

  /** Step `i` is the last of the first `count` whose row is completed. */
  ghost predicate LastOutputAt(w: World, rows: StepRows, count: nat, i: int)
    requires count <= |w.steps|
  {
    0 <= i < count && RowOutput(rows, w.steps[i]).Some? && forall j :: i < j < count ==> RowOutput(rows, w.steps[j]).None?
  }

  /** None of the first `count` rows is completed. */
  ghost predicate NoOutput(w: World, rows: StepRows, count: nat)
    requires count <= |w.steps|
  {
    forall i :: 0 <= i < count ==> RowOutput(rows, w.steps[i]).None?
  }

  /** The output that `previous` shows is that of the last completed row, `i`; it shows none exactly when there is no such row. */
  lemma {:induction false} RebuiltPrevious(w: World, rows: StepRows, count: nat) returns (i: int)
    requires count <= |w.steps|
    ensures var previous := Rebuilt(w, rows, count).previous;
      if previous.None? then NoOutput(w, rows, count)
      else LastOutputAt(w, rows, count, i) && previous == RowOutput(rows, w.steps[i])
  {
    i := -1;
    if count > 0 {
      i := RebuiltPrevious(w, rows, count - 1);
      if RowOutput(rows, w.steps[count - 1]).Some? {
        i := count - 1;
      }
    }
  }

  /** In the context read back, each step's entry holds what its column hands back. */
  lemma {:induction false} RereadFinds(w: World, recs: seq<Rec>, count: nat, i: nat, rest: string)
    requires ValidSteps(w.steps) && i < |w.steps| && count <= |recs| <= |w.steps|
    ensures Found(RereadContext(w, recs, count), StepPath(w.steps[i].position, rest))
         == if i < count then InEntry(w.steps[i], ColumnOutput(w, recs[i]), rest) else None
  {
    if count == 0 {
      NothingInEmpty(w, w.steps[i].position, rest);
    } else {
      RereadFinds(w, recs, count - 1, i, rest);
      OneMoreIsReread(w, recs, count, w.steps[i].position, rest);
      OwnPosition(w.steps, i, count - 1);
    }
  }

  lemma {:induction false} OneMoreIsReread(w: World, recs: seq<Rec>, count: nat, q: nat, rest: string)
    requires 0 < count <= |recs| <= |w.steps|
    ensures var output := ColumnOutput(w, recs[count - 1]);
      var before := Found(RereadContext(w, recs, count - 1), StepPath(q, rest));
      Found(RereadContext(w, recs, count), StepPath(q, rest))
        == if output.Some? && q == w.steps[count - 1].position then InEntry(w.steps[count - 1], output, rest) else before
  {
    var output := ColumnOutput(w, recs[count - 1]);
    if output.Some? {
      OneMoreEntry(RereadContext(w, recs, count - 1), w.steps[count - 1], output.value, q, rest);
    }
  }

  /** What a path under the position of step `i` should find at `count`. */
  ghost function Shows(w: World, recs: seq<Rec>, count: nat, i: nat, rest: string): Option<Json>
    requires i < |w.steps| && count <= |recs|
  {
    if i < count then InEntry(w.steps[i], MemoryOutput(w, recs, i, count), rest) else None
  }

  /**
    At every point of a run, a path under the position of an earlier step finds what the step put out,
    as it was put out until a gate behind it is approved and read back from then on, with the step's name
    and kind; under the positions of later steps, and of steps that were jumped over, it finds nothing.
   */
  lemma {:induction false} ContextFinds(w: World, recs: seq<Rec>, count: nat, i: nat, rest: string)
    requires ValidSteps(w.steps) && i < |w.steps| && count <= |recs| <= |w.steps|
    ensures Found(ContextAt(w, recs, count), StepPath(w.steps[i].position, rest)) == Shows(w, recs, count, i, rest)
  {
    if count == 0 {
      NothingInEmpty(w, w.steps[i].position, rest);
    } else if recs[count - 1].Approved? {
      RereadFinds(w, recs, count, i, rest);
      CutMemory(w, recs, i, count);
    } else {
      ContextFinds(w, recs, count - 1, i, rest);
      OneMoreIsFound(w, recs, count, i, rest);
    }
  }

  /** Behind an approved gate everything is read back. */
  lemma {:induction false} CutMemory(w: World, recs: seq<Rec>, i: nat, count: nat)
    requires 0 < count <= |recs| && recs[count - 1].Approved?
    ensures i < count ==> MemoryOutput(w, recs, i, count) == ColumnOutput(w, recs[i])
  {
    assert i < count - 1 ==> CutBehind(recs, i, count);
  }

  /** A step that is no approved gate adds its own entry and leaves the others. */
  lemma {:induction false} OneMoreIsFound(w: World, recs: seq<Rec>, count: nat, i: nat, rest: string)
    requires ValidSteps(w.steps) && i < |w.steps| && 0 < count <= |recs| <= |w.steps| && !recs[count - 1].Approved?
    requires Found(ContextAt(w, recs, count - 1), StepPath(w.steps[i].position, rest)) == Shows(w, recs, count - 1, i, rest)
    ensures Found(ContextAt(w, recs, count), StepPath(w.steps[i].position, rest)) == Shows(w, recs, count, i, rest)
  {
    SameMemory(w, recs, i, count);
    OwnPosition(w.steps, i, count - 1);
    OneMoreInMemory(w, recs, count, w.steps[i].position, rest);
  }

  lemma {:induction false} OneMoreInMemory(w: World, recs: seq<Rec>, count: nat, q: nat, rest: string)
    requires 0 < count <= |recs| <= |w.steps| && !recs[count - 1].Approved?
    ensures var step, before := w.steps[count - 1], Found(ContextAt(w, recs, count - 1), StepPath(q, rest));
      Found(ContextAt(w, recs, count), StepPath(q, rest))
        == if recs[count - 1].Done? && q == step.position then InEntry(step, Some(recs[count - 1].output), rest) else before
  {
    if recs[count - 1].Done? {
      OneMoreEntry(ContextAt(w, recs, count - 1), w.steps[count - 1], recs[count - 1].output, q, rest);
    }
  }

  /** A step that is no approved gate leaves what the steps before it put out as it is in memory. */
  lemma {:induction false} SameMemory(w: World, recs: seq<Rec>, i: nat, count: nat)
    requires 0 < count <= |recs| && !recs[count - 1].Approved?
    ensures i < count - 1 ==> MemoryOutput(w, recs, i, count) == MemoryOutput(w, recs, i, count - 1)
    ensures i == count - 1 ==> !CutBehind(recs, i, count)
  {
  }

  /** Before the first step nothing is found under any position, and there is no previous output. */
  lemma {:induction false} NothingAtFirst(w: World, recs: seq<Rec>, q: nat, rest: string)
    requires |recs| <= |w.steps|
    ensures Found(ContextAt(w, recs, 0), StepPath(q, rest)) == None
    ensures Found(ContextAt(w, recs, 0), Join("previous", rest)) == Templates.Resolved(Null, rest)
    ensures Found(ContextAt(w, recs, 0), Join("previous", "output")) == None
  {
    NothingInEmpty(w, q, rest);
    ContextFields(EmptyContext(w));
    TopLevel(EmptyContext(w), "previous", rest);
    TopLevel(EmptyContext(w), "previous", "output");
    TemplateLaws.PartsOfKey("output");
    assert Templates.Walk(Some(Null), ["output"]) == Templates.Walk(None, []);
  }
}
