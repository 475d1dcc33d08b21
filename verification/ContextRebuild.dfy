/**
  `buildContext` as it is written: filter the loaded step runs, sort them by position, and fill the
  context one entry at a time. The rows come from the database in no particular order.
 */
module ContextRebuild {
  import opened Base
  import opened Json
  import opened Workflow
  import opened Repository
  import opened RunContext
  import ContextLaws
  import Templates

  /** A loaded `step_runs` row joined with its step. */
  datatype StepRun = StepRun(step: Step, row: StepRow)

  /** `loaded` lists exactly the rows of the run, each once, in any order. */
  ghost predicate Lists(steps: seq<Step>, rows: StepRows, loaded: seq<StepRun>) {
    && (forall x :: x in loaded ==> x.step in steps && x.step.id in rows && x.row == rows[x.step.id])
    && (forall i, j :: 0 <= i < j < |loaded| ==> loaded[i].step != loaded[j].step)
    && (forall s :: s in steps && s.id in rows ==> StepRun(s, rows[s.id]) in loaded)
  }

  ghost predicate Ascending(xs: seq<StepRun>) {
    forall i, j :: 0 <= i < j < |xs| ==> xs[i].step.position < xs[j].step.position
  }

  /** The context filled with the entries of `xs` in order. */
  function Filled(ctx: Context, xs: seq<StepRun>): Context {
    if xs == [] then ctx
    else
      var x := xs[|xs| - 1];
      Extended(Filled(ctx, xs[..|xs| - 1]), x.step, OutputOf(x.row))
  }

  /** The completed step runs of the first `count` steps, in step order. */
  function CompletedIn(steps: seq<Step>, rows: StepRows, count: nat): seq<StepRun>
    requires count <= |steps|
  {
    if count == 0 then []
    else
      var s := steps[count - 1];
      var before := CompletedIn(steps, rows, count - 1);
      if s.id in rows && rows[s.id].status.Completed? then before + [StepRun(s, rows[s.id])] else before
  }

  lemma {:induction false} CompletedInFacts(steps: seq<Step>, rows: StepRows, count: nat)
    requires ValidSteps(steps) && count <= |steps|
    ensures var xs := CompletedIn(steps, rows, count);
      && Ascending(xs)
      && forall x :: x in xs <==> x.step in steps[..count] && x.step.id in rows
                                  && x.row == rows[x.step.id] && x.row.status.Completed?
  {
    if count > 0 {
      CompletedInFacts(steps, rows, count - 1);
      assert steps[..count] == steps[..count - 1] + [steps[count - 1]];
      var before := CompletedIn(steps, rows, count - 1);
      forall x | x in before ensures x.step.position < steps[count - 1].position {
        var i :| 0 <= i < count - 1 && steps[i] == x.step;
      }
    }
  }

  lemma {:induction false} RebuiltIsFilled(w: World, rows: StepRows, count: nat)
    requires count <= |w.steps|
    ensures Rebuilt(w, rows, count) == Filled(EmptyContext(w), CompletedIn(w.steps, rows, count))
  {
    if count > 0 {
      RebuiltIsFilled(w, rows, count - 1);
    }
  }

  /** An ascending list is determined by its elements. */
  lemma {:induction false} AscendingUnique(a: seq<StepRun>, b: seq<StepRun>)
    requires Ascending(a) && Ascending(b)
    requires forall x :: x in a <==> x in b
    ensures a == b
  {
    assert (a != [] ==> a[0] in a) && (b != [] ==> b[0] in b);
    if a != [] {
      var x, y := a[|a| - 1], b[|b| - 1];
      assert x in b && y in a;
      assert x == y;
      var a', b' := a[..|a| - 1], b[..|b| - 1];
      forall z ensures z in a' <==> z in b' {
        assert z in a' <==> z in a && z != x;
        assert z in b' <==> z in b && z != y;
      }
      AscendingUnique(a', b');
      assert a == a' + [x] && b == b' + [y];
    }
  }

  function Inserted(xs: seq<StepRun>, x: StepRun): seq<StepRun> {
    if xs == [] then [x]
    else if x.step.position < xs[0].step.position then [x] + xs
    else [xs[0]] + Inserted(xs[1..], x)
  }

  lemma {:induction false} InsertedFacts(xs: seq<StepRun>, x: StepRun)
    requires Ascending(xs) && forall y :: y in xs ==> y.step.position != x.step.position
    ensures Ascending(Inserted(xs, x)) && forall y :: y in Inserted(xs, x) <==> y in xs || y == x
  {
    if xs != [] && xs[0].step.position < x.step.position {
      InsertedFacts(xs[1..], x);
      assert xs == [xs[0]] + xs[1..];
      var rest := Inserted(xs[1..], x);
      forall j | 0 <= j < |rest| ensures xs[0].step.position < rest[j].step.position {
        assert rest[j] in rest;
      }
    }
  }

  ghost predicate DistinctPositions(xs: seq<StepRun>) {
    forall i, j :: 0 <= i < j < |xs| ==> xs[i].step.position != xs[j].step.position
  }

  /** `done.sort((a, b) => a.workflow_step.position - b.workflow_step.position)` */
  method SortedByPosition(xs: seq<StepRun>) returns (ys: seq<StepRun>)
    requires DistinctPositions(xs)
    ensures Ascending(ys) && forall x :: x in ys <==> x in xs
  {
    ys := [];
    for i := 0 to |xs|
      invariant Ascending(ys) && forall x :: x in ys <==> x in xs[..i]
    {
      assert xs[..i + 1] == xs[..i] + [xs[i]];
      InsertedFacts(ys, xs[i]);
      ys := Inserted(ys, xs[i]);
    }
    assert xs[..|xs|] == xs;
  }

  method CompletedOf(loaded: seq<StepRun>) returns (done: seq<StepRun>)
    requires DistinctPositions(loaded)
    ensures DistinctPositions(done)
    ensures forall x :: x in done <==> x in loaded && x.row.status.Completed?
  {
    done := [];
    for i := 0 to |loaded|
      invariant DistinctPositions(done)
      invariant forall x :: x in done <==> x in loaded[..i] && x.row.status.Completed?
    {
      assert loaded[..i + 1] == loaded[..i] + [loaded[i]];
      if loaded[i].row.status == Completed {
        done := done + [loaded[i]];
      }
    }
    assert loaded[..|loaded|] == loaded;
  }

  lemma {:induction false} ListedPositionsDiffer(steps: seq<Step>, rows: StepRows, loaded: seq<StepRun>)
    requires ValidSteps(steps) && Lists(steps, rows, loaded)
    ensures DistinctPositions(loaded)
  {
    forall i, j | 0 <= i < j < |loaded| ensures loaded[i].step.position != loaded[j].step.position {
      assert loaded[i] in loaded && loaded[j] in loaded;
      var a :| 0 <= a < |steps| && steps[a] == loaded[i].step;
      var b :| 0 <= b < |steps| && steps[b] == loaded[j].step;
      assert a < b || b < a;
    }
  }

  /**
    Whatever order the rows were loaded in, the context is the one of the rows in step order, in which
    templates see the payload and the ids of the run.
   */
  method BuildContext(w: World, loaded: seq<StepRun>, ghost rows: StepRows) returns (ctx: Context)
    requires ValidSteps(w.steps) && Lists(w.steps, rows, loaded)
    ensures ctx == Rebuilt(w, rows, |w.steps|)
    ensures forall rest :: Found(ctx, Join("trigger", rest)) == Templates.Resolved(w.trigger, rest)
    ensures Found(ctx, Join("run", "id")) == Some(Str(w.run.id))
    ensures Found(ctx, Join("run", "workflow_id")) == Some(Str(w.run.workflowId))
    ensures Found(ctx, Join("run", "org_id")) == Some(Str(w.run.orgId))
  {
    ListedPositionsDiffer(w.steps, rows, loaded);
    var done := CompletedOf(loaded);
    done := SortedByPosition(done);
    ctx := EmptyContext(w);
    for i := 0 to |done|
      invariant ctx == Filled(EmptyContext(w), done[..i])
    {
      assert done[..i + 1][..i] == done[..i];
      ctx := Extended(ctx, done[i].step, OutputOf(done[i].row));
    }
    assert done[..|done|] == done;
    CompletedInFacts(w.steps, rows, |w.steps|);
    assert w.steps[..|w.steps|] == w.steps;
    AscendingUnique(done, CompletedIn(w.steps, rows, |w.steps|));
    RebuiltIsFilled(w, rows, |w.steps|);
    BuiltSeesStart(w, rows);
  }

  lemma {:induction false} BuiltSeesStart(w: World, rows: StepRows)
    ensures var ctx := Rebuilt(w, rows, |w.steps|);
      && (forall rest :: Found(ctx, Join("trigger", rest)) == Templates.Resolved(w.trigger, rest))
      && Found(ctx, Join("run", "id")) == Some(Str(w.run.id))
      && Found(ctx, Join("run", "workflow_id")) == Some(Str(w.run.workflowId))
      && Found(ctx, Join("run", "org_id")) == Some(Str(w.run.orgId))
  {
    var ctx := Rebuilt(w, rows, |w.steps|);
    ContextLaws.RebuiltSeesStart(w, rows, |w.steps|, "");
    forall rest ensures Found(ctx, Join("trigger", rest)) == Templates.Resolved(w.trigger, rest) {
      ContextLaws.RebuiltSeesStart(w, rows, |w.steps|, rest);
    }
  }

  lemma {:induction false} OneMoreListed(steps: seq<Step>, rows: StepRows, left: set<StepId>, at: nat, loaded: seq<StepRun>)
    requires ValidSteps(steps) && at < |steps| && steps[at].id in left && left <= rows.Keys
    requires Lists(steps, rows - left, loaded)
    ensures Lists(steps, rows - (left - {steps[at].id}), loaded + [StepRun(steps[at], rows[steps[at].id])])
  {
    var fewer, more := rows - left, rows - (left - {steps[at].id});
    var longer := loaded + [StepRun(steps[at], rows[steps[at].id])];
    forall s | s in steps && s.id in more ensures StepRun(s, more[s.id]) in longer {
      if s.id in fewer {
        assert StepRun(s, fewer[s.id]) in loaded;
      } else {
        assert s == steps[at] && longer[|loaded|] == StepRun(s, more[s.id]);
      }
    }
  }

  /** The rows joined with their steps, in whatever order the database returns them. */
  method LoadStepRuns(steps: seq<Step>, rows: StepRows) returns (loaded: seq<StepRun>)
    requires ValidSteps(steps)
    requires forall id :: id in rows ==> exists i: nat :: i < |steps| && steps[i].id == id
    ensures Lists(steps, rows, loaded)
  {
    loaded := [];
    var left := rows.Keys;
    while left != {}
      invariant left <= rows.Keys && Lists(steps, rows - left, loaded)
      decreases left
    {
      var id :| id in left;
      var found := FindId(steps, id);
      assert found.Some? by {
        var i: nat :| i < |steps| && steps[i].id == id;
        assert steps[i] in steps;
      }
      OneMoreListed(steps, rows, left, found.value, loaded);
      loaded := loaded + [StepRun(steps[found.value], rows[id])];
      left := left - {id};
    }
    assert rows - {} == rows;
  }
}
