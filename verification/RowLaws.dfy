/** What the rows say, column by column, in every reachable state. */
module RowLaws {
  import opened Base
  import opened Json
  import opened Workflow
  import opened Repository
  import opened ReferenceRun
  import opened Engine
  import opened Authz
  import opened Frontier
  import opened Protocol
  import opened Invariant
  import opened Theorems
  import Retry

  // ---------------------------------------------------------------- step rows

  /** What the columns of a step row tell about its status; no row of a run is ever seen in `pending`. */
  predicate StepRowTells(row: StepRow) {
    && (row.approvedAt <==> row.approvedBy.Some?)
    && match row.status
       case Pending => false
       case Running =>
         row.startedAt && !row.completedAt && row.input.Some? && row.output.None? && row.approvedBy.None?
       case Paused =>
         && row.startedAt && !row.completedAt && row.input.Some? && row.output.None?
         && row.error.None? && row.attempts == 0 && row.approvedBy.None?
       case Completed =>
         && row.startedAt && row.completedAt && row.input.Some? && row.error.None?
         && (row.approvedBy.Some? <==> row.output.None?) && (row.approvedBy.Some? ==> row.attempts == 0)
       case Failed =>
         row.startedAt && row.completedAt && row.input.Some? && row.error.Some? && row.approvedBy.None?
       case Skipped =>
         && !row.startedAt && row.completedAt && row.input.None? && row.output.None?
         && row.error.None? && row.attempts == 0 && row.approvedBy.None?
  }

  lemma {:induction false} SettledRowTells(w: World, row: StepRow, rec: Rec)
    requires RowFits(w, row, rec)
    ensures StepRowTells(row)
  {
  }

  /** The row in flight: that of the step a holder works on, or of the gate the run waits at. */
  lemma {:induction false} RowInFlightTells(w: World, db: Db, f: RefRun, phase: Phase, p: nat)
    requires |f.recs| <= |w.steps| && HolderOk(w, db, f, phase, p) && p < |w.steps| && HasRow(w.steps, db.rows, p)
    ensures StepRowTells(db.rows[w.steps[p].id])
  {
  }

  lemma {:induction false} WaitingRowTells(w: World, db: Db, f: RefRun, p: nat)
    requires |f.recs| <= |w.steps| && IdleOk(w, db, f, p) && p < |w.steps| && HasRow(w.steps, db.rows, p)
    ensures StepRowTells(db.rows[w.steps[p].id])
  {
  }

  lemma {:induction false} RowTellsAt(w: World, s: System, f: RefRun, p: nat, h: Option<nat>, i: nat)
    requires Inv(w, s, f, p, h) && i < |w.steps| && HasRow(w.steps, s.db.rows, i)
    ensures StepRowTells(s.db.rows[w.steps[i].id])
  {
    TokenSettled(w, s.db, s.calls, f, p, PhaseOf(s, h));
    if i < p {
      assert RowIs(w, s.db.rows, i, f.recs[i]);
      SettledRowTells(w, s.db.rows[w.steps[i].id], f.recs[i]);
    } else if h.None? {
      WaitingRowTells(w, s.db, f, p);
    } else {
      RowInFlightTells(w, s.db, f, s.threads[h.value].phase, p);
    }
  }

  /** In every reachable state every step row tells its status in all of its columns. */
  lemma {:induction false} StepRowsTell(w: World, roles: map<UserId, Role>, events: seq<Event>, id: StepId)
    requires ValidSteps(w.steps) && id in Run(w, roles, events).db.rows
    ensures StepRowTells(Run(w, roles, events).db.rows[id])
  {
    var s, f := Run(w, roles, events), Reference(w, []);
    var p, h := InvRun(w, roles, events);
    TokenSettled(w, s.db, s.calls, f, p, PhaseOf(s, h));
    var i: nat :| i < |w.steps| && w.steps[i].id == id;
    RowTellsAt(w, s, f, p, h, i);
  }

  // ---------------------------------------------------------------- where a paused run goes on

  /** A run that waits at a gate remembers the position of the step behind it, or the one after its own for the last. */
  lemma {:induction false} PausedRunRemembers(w: World, roles: map<UserId, Role>, events: seq<Event>, i: nat)
    requires ValidSteps(w.steps) && i < |w.steps|
    requires var s := Run(w, roles, events); WaitsAtGate(w, s) && PausedAtIndex(w.steps, s.db.rows, i)
    ensures Run(w, roles, events).db.run.resumePosition ==
      Some(if i + 1 < |w.steps| then w.steps[i + 1].position else w.steps[i].position + 1)
  {
    var s, f := Run(w, roles, events), Reference(w, []);
    var p, h := InvRun(w, roles, events);
    if h.Some? {
      HeldRunWaitsNowhere(w, s, f, p, h.value);
    }
    TokenSettled(w, s.db, s.calls, f, p, PhaseOf(s, h));
    PausedRowIsLast(w, s.db, f, p);
  }

  // ---------------------------------------------------------------- notes between attempts

  /**
    The write behind attempt `k`: the count, and, while another attempt follows, a note of the attempt, its
    error and the delay; that is when it failed, not for good, with fewer than the policy allows.
   */
  lemma {:induction false} AttemptIsNoted(w: World, db: Db, step: Step, cfg: Json, k: nat, result: Retry.Attempt<StepResult>)
    requires step.id in db.rows && k >= 1
    ensures var before := db.rows[step.id];
      var row := Upsert(w, db, step.id, ReportPatch(w, step, cfg, k, result)).rows[step.id];
      var again := result.Threw? && !result.permanent && k < w.policy(cfg).maxAttempts;
      row == before.(attempts := k,
        error := if again then Some(Retrying(k, w.delay(step, cfg, k), result.error)) else before.error)
  {
  }

  // ---------------------------------------------------------------- what each request writes

  /** The row a request finds, or the defaults of its columns. */
  function RowBefore(db: Db, id: StepId): StepRow {
    if id in db.rows then db.rows[id] else StepRow(Pending, None, None, None, 0, false, false, None, false)
  }

  /** Starting a step, whatever its row was, leaves no trace of an earlier outcome; approval columns are not touched. */
  lemma {:induction false} StartIsWritten(w: World, db: Db, id: StepId, cfg: Json)
    ensures var row := RowBefore(db, id);
      Upsert(w, db, id, RunningPatch(cfg)) == db.(rows := db.rows[id :=
        StepRow(Running, Some(w.store(cfg)), None, None, 0, true, false, row.approvedBy, row.approvedAt)])
  {
  }

  lemma {:induction false} PauseIsWritten(w: World, db: Db, id: StepId, cfg: Json)
    ensures var row := RowBefore(db, id);
      Upsert(w, db, id, GatePatch(cfg)) == db.(rows := db.rows[id :=
        StepRow(Paused, Some(w.store(cfg)), row.output, None, row.attempts, true, row.completedAt, row.approvedBy, row.approvedAt)])
  {
  }

  /** Completing it clears the note of its last retry; failing it keeps input, output and attempts. */
  lemma {:induction false} OutcomeIsWritten(w: World, db: Db, id: StepId, output: Json, error: Message)
    ensures var row := RowBefore(db, id);
      && Upsert(w, db, id, DonePatch(output)) == db.(rows := db.rows[id :=
           row.(status := Completed, output := Some(w.store(output)), completedAt := true, error := None)])
      && Upsert(w, db, id, FailedPatch(error)) == db.(rows := db.rows[id :=
           row.(status := Failed, completedAt := true, error := Some(error))])
      && Upsert(w, db, id, RejectPatch(error)) == db.(rows := db.rows[id := row.(status := Failed, error := Some(error))])
  {
  }

  /** A gate that the loaded rows show as completed and approved is passed; any other one is paused. */
  lemma {:induction false} GateIsPassedOrPaused(w: World, db: Db, l: Local)
    requires l.index < |w.steps| && w.steps[l.index].kind.ApprovalGate?
    ensures var id, next := w.steps[l.index].id, Exec(w, db, Head(l));
      if id in l.loaded && l.loaded[id].status == Completed && l.loaded[id].approvedAt
      then next == (db, Head(l.(index := l.index + 1)))
      else next.1 == Pausing(l) && next.0.rows[id].status == Paused
  {
  }

  // ---------------------------------------------------------------- what an executor reports

  /** The number of steps executed that a phase carries, or that its outcome reports. */
  function Executed(phase: Phase): nat {
    match phase
    case Returned(CompletedRun(n)) => n
    case Returned(FailedRun(n, _)) => n
    case Returned(PausedAt(n, _)) => n
    case Head(l) => l.executed
    case Pausing(l) => l.executed
    case Calling(l, _, _) => l.executed
    case Reporting(l, _, _, _) => l.executed
    case Storing(l, _, _, _) => l.executed
    case Failing(l, _, _, _) => l.executed
    case SkippingRest(l, _) => l.executed
    case Jumping(l, _) => l.executed
    case Ending(l) => l.executed
    case Finishing(l) => l.executed
    case Rejecting(l, _, _) => l.executed
    case Aborting(l, _, _) => l.executed
    case _ => 0
  }

  /** A segment counts from zero, by one for every output it stores and for nothing else, up to its report. */
  lemma {:induction false} StoresAreCounted(w: World, db: Db, phase: Phase)
    requires Engine.Holds(phase) && OnStep(w, phase)
    ensures Executed(Exec(w, db, phase).1) == Executed(phase) + if phase.Storing? then 1 else 0
  {
  }

  /** A pause reports its gate, and a failure the error of the body or the reason the branch was refused. */
  lemma {:induction false} ReportTells(w: World, db: Db, l: Local, k: nat, e: Message)
    requires l.index < |w.steps|
    ensures Exec(w, db, Pausing(l)).1 == Returned(PausedAt(l.executed, w.steps[l.index].id))
    ensures var told := Exec(w, db, SkippingRest(l, e)).1;
      told == Aborting(l, StepFailed(w.steps[l.index].name, e), e)
      && Exec(w, db, told) == (MarkFailed(db, StepFailed(w.steps[l.index].name, e)), Returned(FailedRun(l.executed, e)))
    ensures var told := Exec(w, db, Rejecting(l, k, e)).1;
      told == Aborting(l, e, e) && Exec(w, db, told) == (MarkFailed(db, e), Returned(FailedRun(l.executed, e)))
  {
  }
}
