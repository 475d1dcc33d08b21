/**
  The persisted rows of one run and the conditional writes on them:
  packages/engine/src/core/repository.ts and the claim in packages/engine/src/core/approval.ts.
  Each function is one database request, which Postgres executes atomically.
 */
module Repository {
  import opened Base
  import opened Json
  import opened Workflow

  datatype RunStatus = RunPending | RunRunning | RunPaused | RunCompleted | RunFailed | RunCancelled

  datatype StepStatus = Pending | Running | Paused | Completed | Failed | Skipped

  /** A `workflow_runs` row. Of a timestamp only whether it is set is kept. */
  datatype RunRow = RunRow(
    status: RunStatus,
    resumePosition: Option<int>,
    error: Option<Message>,
    startedAt: bool,
    pausedAt: bool,
    completedAt: bool)

  /** A `step_runs` row; `None` is SQL null. */
  datatype StepRow = StepRow(
    status: StepStatus,
    input: Option<Json>,
    output: Option<Json>,
    error: Option<Message>,
    attempts: nat,
    startedAt: bool,
    completedAt: bool,
    approvedBy: Option<UserId>,
    approvedAt: bool)

  /** At most one row per step: `step_runs_unique_per_run`. */
  type StepRows = map<StepId, StepRow>

  datatype Db = Db(run: RunRow, rows: StepRows)

  predicate Terminal(status: RunStatus) {
    status.RunCompleted? || status.RunFailed? || status.RunCancelled?
  }

  const NEW_RUN := RunRow(RunPending, None, None, false, false, false)

  // ---------------------------------------------------------------- workflow_runs

  /** `claimRunForExecution`: true when this request moved the run out of `pending`. */
  function ClaimRun(db: Db): (Db, bool) {
    if db.run.status.RunPending?
    then (db.(run := db.run.(status := RunRunning, startedAt := true)), true)
    else (db, false)
  }

  function MarkResumed(db: Db): Db {
    db.(run := db.run.(status := RunRunning, pausedAt := false))
  }

  function MarkPaused(db: Db, resumePosition: int): Db {
    db.(run := db.run.(status := RunPaused, pausedAt := true, resumePosition := Some(resumePosition)))
  }

  function MarkCompleted(db: Db): Db {
    db.(run := db.run.(status := RunCompleted, completedAt := true, resumePosition := None, error := None))
  }

  function MarkFailed(db: Db, error: Message): Db {
    db.(run := db.run.(status := RunFailed, completedAt := true, resumePosition := None, error := Some(error)))
  }

  // ---------------------------------------------------------------- step_runs

  datatype StepPatch = StepPatch(
    status: Change<StepStatus> := Keep,
    input: Change<Option<Json>> := Keep,
    output: Change<Option<Json>> := Keep,
    error: Change<Option<Message>> := Keep,
    attempts: Change<nat> := Keep,
    startedAt: Change<bool> := Keep,
    completedAt: Change<bool> := Keep)

  /** The column defaults of a new `step_runs` row. */
  const FRESH_ROW := StepRow(Pending, None, None, None, 0, false, false, None, false)

  /** What a jsonb column holds after the update: its own form of the value. */
  function Written(w: World, update: Change<Option<Json>>, current: Option<Json>): Option<Json> {
    match update
    case Keep => current
    case Set(None) => None
    case Set(Some(v)) => Some(w.store(v))
  }

  function Patched(w: World, row: StepRow, patch: StepPatch): StepRow {
    row.(status := patch.status.On(row.status),
         input := Written(w, patch.input, row.input),
         output := Written(w, patch.output, row.output),
         error := patch.error.On(row.error),
         attempts := patch.attempts.On(row.attempts),
         startedAt := patch.startedAt.On(row.startedAt),
         completedAt := patch.completedAt.On(row.completedAt))
  }

  /** `upsertStepRun`: insert with the defaults, or update exactly the patched columns. */
  function Upsert(w: World, db: Db, id: StepId, patch: StepPatch): Db {
    var row := if id in db.rows then db.rows[id] else FRESH_ROW;
    db.(rows := db.rows[id := Patched(w, row, patch)])
  }

  const SKIPPED_ROW := StepRow(Skipped, None, None, None, 0, false, true, None, false)

  /** `markStepsSkipped`: insert a `skipped` row, and do nothing where a row exists. */
  function InsertSkipped(db: Db, ids: seq<StepId>): Db {
    db.(rows := map id | id in db.rows.Keys + (set i | i in ids) ::
      if id in db.rows then db.rows[id] else SKIPPED_ROW)
  }

  lemma {:induction false} SkipOneMore(db: Db, ids: seq<StepId>, i: nat)
    requires i < |ids|
    ensures var before := InsertSkipped(db, ids[..i]).rows;
      InsertSkipped(db, ids[..i + 1]).rows ==
        if ids[i] in before then before else before[ids[i] := SKIPPED_ROW]
  {
    assert ids[..i + 1] == ids[..i] + [ids[i]];
  }

  /** The same rows, inserted one after another. */
  function InsertedInTurn(rows: StepRows, ids: seq<StepId>): StepRows {
    if ids == [] then rows
    else
      var before, last := InsertedInTurn(rows, ids[..|ids| - 1]), ids[|ids| - 1];
      if last in before then before else before[last := SKIPPED_ROW]
  }

  lemma {:induction false} InTurnIsAtOnce(db: Db, ids: seq<StepId>)
    ensures InsertSkipped(db, ids).rows == InsertedInTurn(db.rows, ids)
  {
    if ids == [] {
      assert InsertSkipped(db, []).rows == db.rows;
    } else {
      InTurnIsAtOnce(db, ids[..|ids| - 1]);
      SkipOneMore(db, ids, |ids| - 1);
      assert ids[..|ids|] == ids;
    }
  }

  /** `CLAIM_APPROVAL`: true when this request completed the paused, unapproved row. */
  function ClaimApproval(db: Db, id: StepId, user: UserId): (Db, bool) {
    if id in db.rows && db.rows[id].status.Paused? && db.rows[id].approvedBy.None? then
      var row := db.rows[id].(status := Completed, approvedBy := Some(user), approvedAt := true,
                              completedAt := true, error := None);
      (db.(rows := db.rows[id := row]), true)
    else (db, false)
  }

  // ---------------------------------------------------------------- buildContext

  /** `buildContext` on the rows of `steps`: every completed row, in position order. */
  function Rebuilt(w: World, rows: StepRows, count: nat): Context
    requires count <= |w.steps|
  {
    if count == 0 then EmptyContext(w)
    else
      var ctx := Rebuilt(w, rows, count - 1);
      var step := w.steps[count - 1];
      if step.id in rows && rows[step.id].status.Completed?
      then Extended(ctx, step, OutputOf(rows[step.id]))
      else ctx
  }

  /** `sr.output ?? null` */
  function OutputOf(row: StepRow): Json {
    match row.output
    case None => Null
    case Some(v) => v
  }
}
