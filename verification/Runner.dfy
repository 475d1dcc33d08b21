/**
  The engine as it is written: rows held in fields that requests update in place, and `executeRun`
  as a loop over local variables. Each request is proved against its function in `Repository`, and a
  whole segment against the reference run.
 */
module Runner {
  import opened Base
  import opened Json
  import opened Workflow
  import opened Repository
  import opened ReferenceRun
  import opened Engine
  import opened Frontier
  import opened Keeps
  import opened Invariant
  import opened ContextRebuild
  import Retry

  /** The `workflow_runs` row and the `step_runs` rows of one run. */
  class RunStore {
    var run: RunRow
    var rows: StepRows

    ghost function State(): Db
      reads this
    {
      Db(run, rows)
    }

    constructor ()
      ensures State() == Db(NEW_RUN, map[])
    {
      run := NEW_RUN;
      rows := map[];
    }

    method ClaimRunForExecution() returns (claimed: bool)
      modifies this
      ensures (State(), claimed) == ClaimRun(old(State()))
    {
      claimed := run.status == RunPending;
      if claimed {
        run := run.(status := RunRunning, startedAt := true);
      }
    }

    method MarkRunResumed()
      modifies this
      ensures State() == MarkResumed(old(State()))
    {
      run := run.(status := RunRunning, pausedAt := false);
    }

    method MarkRunPaused(resumePosition: int)
      modifies this
      ensures State() == MarkPaused(old(State()), resumePosition)
    {
      run := run.(status := RunPaused, pausedAt := true, resumePosition := Some(resumePosition));
    }

    method MarkRunCompleted()
      modifies this
      ensures State() == MarkCompleted(old(State()))
    {
      run := run.(status := RunCompleted, completedAt := true, resumePosition := None, error := None);
    }

    method MarkRunFailed(error: Message)
      modifies this
      ensures State() == MarkFailed(old(State()), error)
    {
      run := run.(status := RunFailed, completedAt := true, resumePosition := None, error := Some(error));
    }

    method UpsertStepRun(w: World, id: StepId, patch: StepPatch)
      modifies this
      ensures State() == Upsert(w, old(State()), id, patch)
    {
      if id !in rows {
        rows := rows[id := FRESH_ROW];
      }
      rows := rows[id := Patched(w, rows[id], patch)];
    }

    /** Inserts the rows that are missing; the answer counts them. */
    method MarkStepsSkipped(ids: seq<StepId>) returns (affected: nat)
      modifies this
      ensures State() == InsertSkipped(old(State()), ids)
      ensures affected == |rows| - |old(rows)|
    {
      affected := 0;
      for i := 0 to |ids|
        invariant run == old(run) && affected == |rows| - |old(rows)|
        invariant rows == InsertedInTurn(old(rows), ids[..i])
      {
        assert ids[..i + 1][..i] == ids[..i];
        if ids[i] !in rows {
          rows := rows[ids[i] := SKIPPED_ROW];
          affected := affected + 1;
        }
      }
      assert ids[..|ids|] == ids;
      InTurnIsAtOnce(old(State()), ids);
    }

    method ClaimGate(id: StepId, user: UserId) returns (claimed: bool)
      modifies this
      ensures (State(), claimed) == ClaimApproval(old(State()), id, user)
    {
      claimed := id in rows && rows[id].status == Paused && rows[id].approvedBy == None;
      if claimed {
        rows := rows[id := rows[id].(status := Completed, approvedBy := Some(user), approvedAt := true,
                                     completedAt := true, error := None)];
      }
    }
  }

  // ---------------------------------------------------------------- a segment, in terms of the reference

  datatype Mode = Start | Resume

  /** Where a segment that begins at `p` stops: the next gate of the reference run, or its end. */
  function NextStop(recs: seq<Rec>, p: nat): (q: nat)
    requires p <= |recs|
    ensures p <= q <= |recs|
    ensures forall i :: p <= i < q ==> !recs[i].Approved?
    ensures q < |recs| ==> recs[q].Approved?
    decreases |recs| - p
  {
    if p == |recs| || recs[p].Approved? then p else NextStop(recs, p + 1)
  }

  /** The steps of `recs[from..to]` whose body produced an output. */
  function ExecutedIn(recs: seq<Rec>, from: nat, to: nat): nat
    requires from <= to <= |recs|
  {
    if from == to then 0
    else ExecutedIn(recs, from, to - 1) + if recs[to - 1].Done? || recs[to - 1].BadBranch? then 1 else 0
  }

  lemma {:induction false} JumpsExecuteNothing(recs: seq<Rec>, p: nat, end: nat)
    requires AllJumped(recs, p, end)
    ensures ExecutedIn(recs, p, end) == 0
    decreases end
  {
    if p < end {
      JumpsExecuteNothing(recs, p, end - 1);
    }
  }

  lemma {:induction false} ExecutedAdds(recs: seq<Rec>, a: nat, b: nat, c: nat)
    requires a <= b <= c <= |recs|
    ensures ExecutedIn(recs, a, c) == ExecutedIn(recs, a, b) + ExecutedIn(recs, b, c)
    decreases c
  {
    if b < c {
      ExecutedAdds(recs, a, b, c - 1);
    }
  }

  lemma {:induction false} StopSkips(recs: seq<Rec>, p: nat, q: nat)
    requires p <= q <= |recs| && forall i :: p <= i < q ==> !recs[i].Approved?
    ensures NextStop(recs, p) == NextStop(recs, q)
    decreases q - p
  {
    if p < q {
      StopSkips(recs, p + 1, q);
    }
  }

  /** What a segment at `p`, with `before` steps executed, leaves behind and reports. */
  ghost predicate SegmentDone(w: World, db: Db, f: RefRun, p: nat, before: nat, outcome: Outcome)
    requires p <= |f.recs| <= |w.steps|
  {
    var q := NextStop(f.recs, p);
    && IdleOk(w, db, f, q)
    && match outcome
       case PausedAt(executed, step) =>
         && q < |f.recs| && db.run.status.RunPaused? && step == w.steps[q].id
         && executed == before + ExecutedIn(f.recs, p, q)
       case CompletedRun(executed) =>
         q == |f.recs| && db.run.status.RunCompleted? && executed == before + ExecutedIn(f.recs, p, q)
       case FailedRun(executed, error) =>
         && q == |f.recs| && db.run.status.RunFailed? && executed == before + ExecutedIn(f.recs, p, q)
         && (f.ending == Fails(error) || exists name :: f.ending == Fails(StepFailed(name, error)))
       case _ => false
  }

  /** A step that is left for another one lengthens the segment by what it executed. */
  lemma {:induction false} SegmentExtends(w: World, db: Db, f: RefRun, p: nat, q: nat, before: nat, outcome: Outcome)
    requires p <= q <= |f.recs| <= |w.steps| && forall i :: p <= i < q ==> !f.recs[i].Approved?
    requires SegmentDone(w, db, f, q, before + ExecutedIn(f.recs, p, q), outcome)
    ensures SegmentDone(w, db, f, p, before, outcome)
  {
    StopSkips(f.recs, p, q);
    ExecutedAdds(f.recs, p, q, NextStop(f.recs, q));
  }

  // ---------------------------------------------------------------- executeRun

  /** `withRetry` around the body of the step at `p`, with the report after every attempt. */
  method Attempt(w: World, store: RunStore, l: Local, cfg: Json, ghost f: RefRun, ghost p: nat)
    returns (tried: Retry.Tried<StepResult>)
    requires ValidSteps(w.steps) && |f.recs| <= |w.steps| && l.index < |w.steps|
    requires TryingOk(w, store.State(), f, l, cfg, 0, Rest(w, l, cfg, 1), p)
    modifies store
    ensures TryingOk(w, store.State(), f, l, cfg, tried.attempts, tried, p)
  {
    var step := w.steps[l.index];
    var limit := Retry.Limit(w.policy(cfg));
    var k: nat := 1;
    while true
      invariant 1 <= k <= limit
      invariant TryingOk(w, store.State(), f, l, cfg, k - 1, Rest(w, l, cfg, k), p)
      decreases limit - k
    {
      var result := w.body(step, cfg, l.ctx)(k);
      RestStep(w, l, cfg, k, result);
      KeepReport(w, store.State(), f, l, cfg, k, Rest(w, l, cfg, k), ReportPatch(w, step, cfg, k, result), p);
      store.UpsertStepRun(w, step.id, ReportPatch(w, step, cfg, k, result));
      match result
      case Returned(v) =>
        return Retry.Succeeded(k, v);
      case Threw(e, permanent) =>
        if !(k < limit && !permanent) {
          return Retry.GaveUp(k, e);
        }
      k := k + 1;
    }
  }

  lemma {:induction false} OneExecuted(recs: seq<Rec>, p: nat, end: nat)
    requires p < |recs| && AllJumped(recs, p + 1, end) && (recs[p].Done? || recs[p].BadBranch?)
    ensures ExecutedIn(recs, p, end) == 1
  {
    ExecutedAdds(recs, p, p + 1, end);
    JumpsExecuteNothing(recs, p + 1, end);
    assert ExecutedIn(recs, p, p) == 0;
  }

  /** A segment whose last step at `p` settles the whole run stops at the end of the records. */
  lemma {:induction false} SegmentEnds(w: World, db: Db, f: RefRun, p: nat, before: nat, outcome: Outcome)
    requires p < |f.recs| <= |w.steps| && AllJumped(f.recs, p + 1, |f.recs|) && !f.recs[p].Approved?
    requires IdleOk(w, db, f, |f.recs|)
    requires var done := before + if f.recs[p].Done? || f.recs[p].BadBranch? then 1 else 0;
      match outcome
      case CompletedRun(executed) => db.run.status.RunCompleted? && executed == done
      case FailedRun(executed, error) =>
        && db.run.status.RunFailed? && executed == done
        && (f.ending == Fails(error) || f.ending == Fails(StepFailed(w.steps[p].name, error)))
      case _ => false
    ensures SegmentDone(w, db, f, p, before, outcome)
  {
    StopSkips(f.recs, p, |f.recs|);
    ExecutedAdds(f.recs, p, p + 1, |f.recs|);
    JumpsExecuteNothing(f.recs, p + 1, |f.recs|);
    assert ExecutedIn(f.recs, p, p) == 0;
  }

  /** `markStepsSkipped` on a stretch of steps; an empty stretch makes no request. */
  method SkipBetween(w: World, store: RunStore, from: nat, to: nat, ghost f: RefRun)
    requires ValidSteps(w.steps) && |f.recs| <= |w.steps|
    requires Clean(w, store.rows, f.recs, from) && AllJumped(f.recs, from, to)
    modifies store
    ensures store.run == old(store.run) && Clean(w, store.rows, f.recs, to)
  {
    if from < to {
      SkipTo(w, store.State(), f, from, to);
      var _ := store.MarkStepsSkipped(Slice(w.steps, from, to));
      assert store.rows == store.State().rows;
    }
  }

  /** The body of `steps[l.index]` gave up: the step failed, the rest is skipped, the run failed. */
  method FailStep(w: World, store: RunStore, l: Local, cfg: Json, k: nat, e: Message, ghost f: RefRun)
    returns (outcome: Outcome)
    requires ValidSteps(w.steps) && IsReference(w, f) && l.index < |f.recs| <= |w.steps|
    requires TryingOk(w, store.State(), f, l, cfg, k, Retry.GaveUp(k, e), l.index)
    modifies store
    ensures SegmentDone(w, store.State(), f, l.index, l.executed, outcome)
  {
    var step := w.steps[l.index];
    AtHead(w, f, l.index);
    KeepFailure(w, store.State(), f, l, cfg, k, e, l.index);
    store.UpsertStepRun(w, step.id, FailedPatch(e));
    outcome := EndFailed(w, store, l, e, f);
  }

  /** Behind a failed body the rest is skipped and the run failed. */
  method EndFailed(w: World, store: RunStore, l: Local, e: Message, ghost f: RefRun) returns (outcome: Outcome)
    requires ValidSteps(w.steps) && l.index < |f.recs| == |w.steps| && f.recs[l.index].BodyFailed?
    requires f.ending == Fails(StepFailed(w.steps[l.index].name, e))
    requires LeavingOk(w, store.State(), f, l, l.index + 1, |f.recs|)
    modifies store
    ensures SegmentDone(w, store.State(), f, l.index, l.executed, outcome)
  {
    SkipBetween(w, store, l.index + 1, |w.steps|, f);
    store.MarkRunFailed(StepFailed(w.steps[l.index].name, e));
    outcome := FailedRun(l.executed, e);
    BodyFailureEnds(w, store.State(), f, l.index, l.executed, e);
  }

  /** The run after a failed body: every step recorded, the run row failed. */
  lemma {:induction false} BodyFailureEnds(w: World, db: Db, f: RefRun, p: nat, before: nat, e: Message)
    requires p < |f.recs| == |w.steps| && f.recs[p].BodyFailed? && AllJumped(f.recs, p + 1, |f.recs|)
    requires f.ending == Fails(StepFailed(w.steps[p].name, e))
    requires db.run == FailedRow(StepFailed(w.steps[p].name, e)) && Clean(w, db.rows, f.recs, |f.recs|)
    ensures SegmentDone(w, db, f, p, before, FailedRun(before, e))
  {
    SegmentEnds(w, db, f, p, before, FailedRun(before, e));
  }

  /** A branch target that does not exist or lies behind: the step and the run fail, later steps stay unmarked. */
  method FailBranch(w: World, store: RunStore, l: Local, k: nat, e: Message, ghost f: RefRun)
    returns (outcome: Outcome)
    requires ValidSteps(w.steps) && |f.recs| <= |w.steps| && l.index < |w.steps|
    requires RejectingOk(w, store.State(), f, l, k, e, l.index)
    modifies store
    ensures SegmentDone(w, store.State(), f, l.index, l.executed, outcome)
  {
    KeepReject(w, store.State(), f, l, k, e, l.index);
    store.UpsertStepRun(w, w.steps[l.index].id, RejectPatch(e));
    store.MarkRunFailed(e);
    outcome := FailedRun(l.executed + 1, e);
    SegmentEnds(w, store.State(), f, l.index, l.executed, outcome);
  }

  /** A branch that ends the run: the rest is skipped, the run completed. */
  method EndRun(w: World, store: RunStore, l: Local, ghost f: RefRun) returns (outcome: Outcome)
    requires ValidSteps(w.steps) && l.index < |f.recs| == |w.steps| && f.ending == Completes && f.recs[l.index].Done?
    requires LeavingOk(w, store.State(), f, l, l.index + 1, |f.recs|)
    modifies store
    ensures SegmentDone(w, store.State(), f, l.index, l.executed, outcome)
  {
    SkipBetween(w, store, l.index + 1, |w.steps|, f);
    store.MarkRunCompleted();
    outcome := CompletedRun(l.executed + 1);
    SegmentEnds(w, store.State(), f, l.index, l.executed, outcome);
  }

  /** An unapproved gate: its row and then the run row are paused. */
  method PauseAt(w: World, store: RunStore, l: Local, cfg: Json, ghost f: RefRun) returns (outcome: Outcome)
    requires ValidSteps(w.steps) && IsReference(w, f) && l.index < |f.recs| <= |w.steps|
    requires w.steps[l.index].kind.ApprovalGate? && cfg == w.resolve(w.steps[l.index].config, l.ctx)
    requires HeadOk(w, store.State(), f, l, l.index)
    modifies store
    ensures SegmentDone(w, store.State(), f, l.index, l.executed, outcome)
  {
    var step := w.steps[l.index];
    AtHead(w, f, l.index);
    KeepHead(w, store.State(), f, l, l.index);
    store.UpsertStepRun(w, step.id, GatePatch(cfg));
    store.MarkRunPaused(PositionAfter(w.steps, l.index));
    outcome := PausedAt(l.executed, step.id);
    assert ExecutedIn(f.recs, l.index, l.index) == 0;
  }

  /** How a pass through the loop body ends. */
  datatype Pass = GoOn(l: Local) | Return(outcome: Outcome)

  /** The step at `l.index` is left for a later head, or the segment is done. */
  ghost predicate PassOk(w: World, db: Db, f: RefRun, l: Local, pass: Pass)
    requires l.index <= |f.recs| <= |w.steps|
  {
    match pass
    case GoOn(next) =>
      && l.index < next.index <= |f.recs| && HeadOk(w, db, f, next, next.index)
      && (forall i :: l.index <= i < next.index ==> !f.recs[i].Approved?)
      && next.executed == l.executed + ExecutedIn(f.recs, l.index, next.index)
    case Return(outcome) => SegmentDone(w, db, f, l.index, l.executed, outcome)
  }

  /** The steps before a forward target are marked skipped. */
  method GoTo(w: World, store: RunStore, l: Local, next: Local, ghost f: RefRun) returns (pass: Pass)
    requires ValidSteps(w.steps) && l.index < next.index <= |f.recs| <= |w.steps|
    requires f.recs[l.index].Done? && next.executed == l.executed + 1
    requires LeavingOk(w, store.State(), f, l, l.index + 1, next.index)
    requires On(f, next.index) && LocalOk(w, f, next, next.index)
    modifies store
    ensures PassOk(w, store.State(), f, l, pass)
  {
    SkipBetween(w, store, l.index + 1, next.index, f);
    PassGoesOn(w, store.State(), f, l, next);
    pass := GoOn(next);
  }

  lemma {:induction false} PassGoesOn(w: World, db: Db, f: RefRun, l: Local, next: Local)
    requires l.index < next.index <= |f.recs| <= |w.steps| && f.recs[l.index].Done? && next.executed == l.executed + 1
    requires HeadOk(w, db, f, next, next.index) && AllJumped(f.recs, l.index + 1, next.index)
    ensures PassOk(w, db, f, l, GoOn(next))
  {
    OneExecuted(f.recs, l.index, next.index);
  }

  /** Storing an output, feeding it forward and following its branch. */
  method StoreAndRoute(w: World, store: RunStore, l: Local, cfg: Json, k: nat, stored: StepResult, ghost f: RefRun)
    returns (pass: Pass)
    requires ValidSteps(w.steps) && IsReference(w, f) && l.index < |f.recs| <= |w.steps|
    requires TryingOk(w, store.State(), f, l, cfg, k, Retry.Succeeded(k, stored), l.index)
    modifies store
    ensures PassOk(w, store.State(), f, l, pass)
  {
    ghost var before := store.State();
    store.UpsertStepRun(w, w.steps[l.index].id, DonePatch(stored.output));
    pass := FollowRoute(w, store, l, cfg, k, stored, f, before);
  }

  /** The route behind a stored output: a refused target, the end of the run, or a later step. */
  method FollowRoute(w: World, store: RunStore, l: Local, cfg: Json, k: nat, stored: StepResult, ghost f: RefRun,
                     ghost before: Db)
    returns (pass: Pass)
    requires ValidSteps(w.steps) && IsReference(w, f) && l.index < |f.recs| <= |w.steps|
    requires TryingOk(w, before, f, l, cfg, k, Retry.Succeeded(k, stored), l.index)
    requires store.State() == Upsert(w, before, w.steps[l.index].id, DonePatch(stored.output))
    modifies store
    ensures PassOk(w, store.State(), f, l, pass)
  {
    match Route(w.steps, stored.branch, l.index)
    case Invalid(e) =>
      KeepStoreInvalid(w, before, f, l, cfg, k, stored, l.index);
      var outcome := FailBranch(w, store, l, k, e, f);
      return Return(outcome);
    case EndOfRun =>
      EndIsDone(w, before, f, l, cfg, k, stored);
      var outcome := EndRun(w, store, l, f);
      return Return(outcome);
    case Index(j) =>
      GoIsDone(w, before, f, l, cfg, k, stored, j);
      pass := GoTo(w, store, l, Fed(w, l, stored, j), f);
  }

  lemma {:induction false} EndIsDone(w: World, before: Db, f: RefRun, l: Local, cfg: Json, k: nat, stored: StepResult)
    requires ValidSteps(w.steps) && IsReference(w, f) && l.index < |f.recs| <= |w.steps|
    requires TryingOk(w, before, f, l, cfg, k, Retry.Succeeded(k, stored), l.index)
    requires Route(w.steps, stored.branch, l.index).EndOfRun?
    ensures f.recs[l.index].Done? && |f.recs| == |w.steps| && f.ending == Completes
    ensures LeavingOk(w, Upsert(w, before, w.steps[l.index].id, DonePatch(stored.output)), f, l, l.index + 1, |f.recs|)
  {
    AtHead(w, f, l.index);
    KeepStoreEnd(w, before, f, l, cfg, k, stored, l.index);
  }

  lemma {:induction false} GoIsDone(w: World, before: Db, f: RefRun, l: Local, cfg: Json, k: nat, stored: StepResult, j: nat)
    requires ValidSteps(w.steps) && IsReference(w, f) && l.index < |f.recs| <= |w.steps|
    requires TryingOk(w, before, f, l, cfg, k, Retry.Succeeded(k, stored), l.index)
    requires Route(w.steps, stored.branch, l.index) == Index(j)
    ensures l.index < j <= |f.recs| && f.recs[l.index].Done? && On(f, j) && LocalOk(w, f, Fed(w, l, stored, j), j)
    ensures LeavingOk(w, Upsert(w, before, w.steps[l.index].id, DonePatch(stored.output)), f, l, l.index + 1, j)
  {
    AtHead(w, f, l.index);
    KeepStoreGo(w, before, f, l, cfg, k, stored, l.index);
  }

  /** One pass through the loop body of `executeRun`. */
  method LoopBody(w: World, store: RunStore, l: Local, ghost f: RefRun) returns (pass: Pass)
    requires ValidSteps(w.steps) && IsReference(w, f) && |f.recs| <= |w.steps| && l.index < |w.steps|
    requires l.index <= |f.recs| && HeadOk(w, store.State(), f, l, l.index)
    modifies store
    ensures PassOk(w, store.State(), f, l, pass)
  {
    var step := w.steps[l.index];
    var cfg := w.resolve(step.config, l.ctx);
    AtHead(w, f, l.index);
    if step.kind == ApprovalGate {
      // the loop moves on past a gate that is already approved; it never meets one
      KeepHead(w, store.State(), f, l, l.index);
      assert !AlreadyApproved(l, step);
      var outcome := PauseAt(w, store, l, cfg, f);
      return Return(outcome);
    }
    KeepHead(w, store.State(), f, l, l.index);
    store.UpsertStepRun(w, step.id, RunningPatch(cfg));
    var tried := Attempt(w, store, l, cfg, f, l.index);
    match tried
    case GaveUp(k, e) =>
      var outcome := FailStep(w, store, l, cfg, k, e, f);
      pass := Return(outcome);
    case Succeeded(k, stored) =>
      pass := StoreAndRoute(w, store, l, cfg, k, stored, f);
  }

  /** The loop of `executeRun`, from the index a segment begins at to where it stops. */
  method RunLoop(w: World, store: RunStore, start: Local, ghost f: RefRun) returns (outcome: Outcome)
    requires ValidSteps(w.steps) && IsReference(w, f) && |f.recs| <= |w.steps|
    requires start.executed == 0 && start.index <= |f.recs| && HeadOk(w, store.State(), f, start, start.index)
    modifies store
    ensures SegmentDone(w, store.State(), f, start.index, 0, outcome)
  {
    var l := start;
    while l.index < |w.steps|
      invariant start.index <= l.index <= |f.recs| && HeadOk(w, store.State(), f, l, l.index)
      invariant forall i :: start.index <= i < l.index ==> !f.recs[i].Approved?
      invariant l.executed == ExecutedIn(f.recs, start.index, l.index)
      decreases |w.steps| - l.index
    {
      var pass := LoopBody(w, store, l, f);
      match pass
      case Return(done) =>
        SegmentExtends(w, store.State(), f, start.index, l.index, 0, done);
        return done;
      case GoOn(next) =>
        ExecutedAdds(f.recs, start.index, l.index, next.index);
        l := next;
    }
    KeepEnd(w, store.State(), f, l, l.index);
    store.MarkRunCompleted();
    outcome := CompletedRun(l.executed);
    SegmentExtends(w, store.State(), f, start.index, l.index, 0, outcome);
  }

  /** `executeRun`. A resume follows the approval of the gate at `p - 1`. */
  method ExecuteRun(w: World, store: RunStore, mode: Mode, ghost f: RefRun, ghost p: nat) returns (outcome: Outcome)
    requires ValidSteps(w.steps) && IsReference(w, f) && p <= |f.recs| <= |w.steps|
    requires mode.Start? && store.run.status.RunPending? ==> p == 0 && IdleOk(w, store.State(), f, 0)
    requires mode.Resume? && !Terminal(store.run.status) ==> HolderOk(w, store.State(), f, GateClaimed, p)
    modifies store
    ensures old(store.run.status) in [RunCompleted, RunFailed, RunCancelled] ==>
              outcome == Noop && store.State() == old(store.State())
    ensures !Terminal(old(store.run.status)) && mode.Start? && !old(store.run.status).RunPending? ==>
              outcome == SkippedAlreadyRunning && store.State() == old(store.State())
    ensures !Terminal(old(store.run.status)) && (mode.Resume? || old(store.run.status).RunPending?) ==>
              SegmentDone(w, store.State(), f, p, 0, outcome)
  {
    if Terminal(store.run.status) {
      return Noop;
    }
    var index := 0;
    ghost var db := store.State();
    if mode == Start {
      var claimed := store.ClaimRunForExecution();
      if !claimed {
        return SkippedAlreadyRunning;
      }
      KeepClaimed(w, store.State(), f, 0);
    } else {
      KeepResuming(w, db, f, store.run.resumePosition, p);
      if store.run.resumePosition.Some? {
        index := FirstFrom(w.steps, store.run.resumePosition.value);
      }
      store.MarkRunResumed();
    }
    var loaded := LoadStepRuns(w.steps, store.rows);
    var ctx := BuildContext(w, loaded, store.rows);
    outcome := RunLoop(w, store, Local(index, ctx, store.rows, 0), f);
  }

  /** `approveAndResume`: the loser of a race is refused, the winner drives the run on from the gate. */
  method ApproveAndResume(w: World, store: RunStore, gate: StepId, user: UserId, ghost f: RefRun, ghost p: nat)
    returns (outcome: Outcome)
    requires ValidSteps(w.steps) && IsReference(w, f) && p <= |f.recs| <= |w.steps|
    requires ClaimApproval(store.State(), gate, user).1 ==>
               store.run.status.RunPaused? && WaitingOk(w, store.State(), f, p) && gate == w.steps[p].id
    modifies store
    ensures !ClaimApproval(old(store.State()), gate, user).1 ==>
              outcome == Refused && store.State() == old(store.State())
    ensures ClaimApproval(old(store.State()), gate, user).1 ==>
              p < |f.recs| && SegmentDone(w, store.State(), f, p + 1, 0, outcome)
  {
    ghost var before := store.State();
    var claimed := store.ClaimGate(gate, user);
    if !claimed {
      return Refused;
    }
    ApprovedGateSettles(w, before, f, p, user);
    outcome := ExecuteRun(w, store, Resume, f, p + 1);
  }
}