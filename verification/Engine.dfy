/**
  One executor of `executeRun` (packages/engine/src/core/engine.ts) as a machine whose every step is
  one database request or one call of a step body. Its private state is what the function keeps in
  local variables: the index, the template context, the rows of the bundle it loaded, the count of
  executed steps.
 */
module Engine {
  import opened Base
  import opened Json
  import opened Workflow
  import opened Repository
  import Retry

  datatype Local = Local(index: nat, ctx: Context, loaded: StepRows, executed: nat)

  datatype Outcome =
    | Noop
    | SkippedAlreadyRunning
    | Refused
    | CompletedRun(executed: nat)
    | FailedRun(executed: nat, error: Message)
    | PausedAt(executed: nat, step: StepId)

  /** Where an executor stands: the request it makes next. */
  datatype Phase =
    // a start delivery that has not claimed the run
    | Delivered
    | Claiming
    // an approval request that has not claimed the gate
    | Asked(user: UserId, gate: StepId)
    | Approving(user: UserId, gate: StepId)
    // the run belongs to this executor
    | Claimed
    | GateClaimed
    | Resuming(from: Option<int>, rows: StepRows)
    | Head(l: Local)
    | Pausing(l: Local)
    | Calling(l: Local, cfg: Json, attempt: nat)
    | Reporting(l: Local, cfg: Json, attempt: nat, result: Retry.Attempt<StepResult>)
    | Storing(l: Local, cfg: Json, attempts: nat, stored: StepResult)
    | Failing(l: Local, cfg: Json, attempts: nat, error: Message)
    | SkippingRest(l: Local, error: Message)
    | Jumping(l: Local, target: nat)
    | Ending(l: Local)
    | Finishing(l: Local)
    | Rejecting(l: Local, attempts: nat, error: Message)
    | Aborting(l: Local, error: Message, told: Message)
    // returned
    | Returned(outcome: Outcome)

  /** The executor has claimed the run or its gate and has not returned. */
  predicate Holds(phase: Phase) {
    !phase.Delivered? && !phase.Claiming? && !phase.Asked? && !phase.Approving? && !phase.Returned?
  }

  function Ids(steps: seq<Step>): (ids: seq<StepId>)
    ensures |ids| == |steps| && forall i :: 0 <= i < |ids| ==> ids[i] == steps[i].id
  {
    seq(|steps|, i requires 0 <= i < |steps| => steps[i].id)
  }

  function Slice(steps: seq<Step>, from: nat, to: nat): (ids: seq<StepId>)
    ensures from <= to <= |steps| ==> ids == Ids(steps[from..to])
  {
    if from <= to <= |steps| then Ids(steps[from..to]) else []
  }

  const START_PATCH := StepPatch(status := Set(Running), startedAt := Set(true), attempts := Set(0),
                                error := Set(None), output := Set(None), completedAt := Set(false))

  function RunningPatch(cfg: Json): StepPatch { START_PATCH.(input := Set(Some(cfg))) }

  function GatePatch(cfg: Json): StepPatch {
    StepPatch(status := Set(Paused), input := Set(Some(cfg)), startedAt := Set(true), error := Set(None))
  }

  function DonePatch(output: Json): StepPatch {
    StepPatch(status := Set(Completed), output := Set(Some(output)), completedAt := Set(true), error := Set(None))
  }

  function FailedPatch(error: Message): StepPatch {
    StepPatch(status := Set(Failed), error := Set(Some(error)), completedAt := Set(true))
  }

  function RejectPatch(error: Message): StepPatch {
    StepPatch(status := Set(Failed), error := Set(Some(error)))
  }

  predicate WillRetry(w: World, cfg: Json, attempt: nat, result: Retry.Attempt<StepResult>) {
    result.Threw? && !result.permanent && attempt < Retry.Limit(w.policy(cfg))
  }

  /** The `onAttempt` write: the count, and a note while another attempt will follow. */
  function ReportPatch(w: World, step: Step, cfg: Json, attempt: nat, result: Retry.Attempt<StepResult>): StepPatch {
    if WillRetry(w, cfg, attempt, result)
    then StepPatch(attempts := Set(attempt),
                   error := Set(Some(Retrying(attempt, w.delay(step, cfg, attempt), result.error))))
    else StepPatch(attempts := Set(attempt))
  }

  /** `existing?.status === 'completed' && existing.approved_at !== null`, on the loaded bundle. */
  predicate AlreadyApproved(l: Local, step: Step) {
    step.id in l.loaded && l.loaded[step.id].status.Completed? && l.loaded[step.id].approvedAt
  }

  /** Entering the loop: the context rebuilt from the loaded rows, and the index to begin at. */
  function Enter(w: World, rows: StepRows, from: Option<int>): (r: Phase)
    ensures r.Head?
  {
    var index := match from case None => 0 case Some(p) => FirstFrom(w.steps, p);
    Head(Local(index, Rebuilt(w, rows, |w.steps|), rows, 0))
  }

  /** The phase after `steps[l.index]` was stored as completed and fed forward. */
  function AfterStore(w: World, l: Local, attempts: nat, stored: StepResult): Phase
    requires l.index < |w.steps|
  {
    var step := w.steps[l.index];
    var fed := l.(ctx := Extended(l.ctx, step, stored.output), executed := l.executed + 1);
    match Route(w.steps, stored.branch, l.index)
    case Invalid(e) => Rejecting(fed, attempts, e)
    case EndOfRun => Ending(fed)
    case Index(j) => if j > l.index + 1 then Jumping(fed, j) else Head(fed.(index := j))
  }

  /** The step under a phase's index, for phases that work on one. */
  predicate OnStep(w: World, phase: Phase) {
    match phase
    case Pausing(l) => l.index < |w.steps|
    case Calling(l, _, _) => l.index < |w.steps|
    case Reporting(l, _, _, _) => l.index < |w.steps|
    case Storing(l, _, _, _) => l.index < |w.steps|
    case Failing(l, _, _, _) => l.index < |w.steps|
    case SkippingRest(l, _) => l.index < |w.steps|
    case Jumping(l, target) => l.index < target <= |w.steps|
    case Ending(l) => l.index < |w.steps|
    case Rejecting(l, _, _) => l.index < |w.steps|
    case _ => true
  }

  /** One step of an executor that holds the run. */
  function Exec(w: World, db: Db, phase: Phase): (r: (Db, Phase))
    requires Holds(phase) && OnStep(w, phase)
    ensures OnStep(w, r.1)
  {
    var n := |w.steps|;
    match phase
    case Claimed => (db, Enter(w, db.rows, None))
    case GateClaimed =>
      if Terminal(db.run.status) then (db, Returned(Noop))
      else (db, Resuming(db.run.resumePosition, db.rows))
    case Resuming(from, rows) => (MarkResumed(db), Enter(w, rows, from))
    case Head(l) =>
      if l.index >= n then (MarkCompleted(db), Returned(CompletedRun(l.executed)))
      else
        var step := w.steps[l.index];
        var cfg := w.resolve(step.config, l.ctx);
        if step.kind.ApprovalGate? then
          if AlreadyApproved(l, step) then (db, Head(l.(index := l.index + 1)))
          else (Upsert(w, db, step.id, GatePatch(cfg)), Pausing(l))
        else (Upsert(w, db, step.id, RunningPatch(cfg)), Calling(l, cfg, 1))
    case Pausing(l) =>
      (MarkPaused(db, PositionAfter(w.steps, l.index)), Returned(PausedAt(l.executed, w.steps[l.index].id)))
    case Calling(l, cfg, k) => (db, Reporting(l, cfg, k, w.body(w.steps[l.index], cfg, l.ctx)(k)))
    case Reporting(l, cfg, k, result) =>
      var step := w.steps[l.index];
      (Upsert(w, db, step.id, ReportPatch(w, step, cfg, k, result)),
       match result
       case Returned(v) => Storing(l, cfg, k, v)
       case Threw(e, _) =>
         if WillRetry(w, cfg, k, result) then Calling(l, cfg, k + 1) else Failing(l, cfg, k, e))
    case Storing(l, cfg, k, res) =>
      (Upsert(w, db, w.steps[l.index].id, DonePatch(res.output)), AfterStore(w, l, k, res))
    case Failing(l, cfg, k, e) =>
      (Upsert(w, db, w.steps[l.index].id, FailedPatch(e)), SkippingRest(l, e))
    case SkippingRest(l, e) =>
      (InsertSkipped(db, Slice(w.steps, l.index + 1, n)), Aborting(l, StepFailed(w.steps[l.index].name, e), e))
    case Jumping(l, target) =>
      (InsertSkipped(db, Slice(w.steps, l.index + 1, target)), Head(l.(index := target)))
    case Ending(l) => (InsertSkipped(db, Slice(w.steps, l.index + 1, n)), Finishing(l))
    case Finishing(l) => (MarkCompleted(db), Returned(CompletedRun(l.executed)))
    case Rejecting(l, _, e) => (Upsert(w, db, w.steps[l.index].id, RejectPatch(e)), Aborting(l, e, e))
    case Aborting(l, e, told) => (MarkFailed(db, e), Returned(FailedRun(l.executed, told)))
  }
}
