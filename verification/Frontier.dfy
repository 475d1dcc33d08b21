/**
  The frontier of a run: at every moment the rows are those of the first `p` steps of the reference
  run, at most one row in flight behind them, and no row beyond.
 */
module Frontier {
  import opened Base
  import opened Json
  import opened Workflow
  import opened Repository
  import opened ReferenceRun
  import opened Engine
  import Retry

  // ---------------------------------------------------------------- rows and records

  /** The row a settled step leaves behind; of an approved gate, whoever approved it. */
  ghost predicate RowFits(w: World, row: StepRow, rec: Rec) {
    match rec
    case Done(input, output, k) =>
      row == StepRow(Completed, Some(w.store(input)), Some(w.store(output)), None, k, true, true, None, false)
    case Approved(input) =>
      row.approvedBy.Some? && row == StepRow(Completed, Some(w.store(input)), None, None, 0, true, true, row.approvedBy, true)
    case Jumped => row == SKIPPED_ROW
    case BodyFailed(input, k, e) =>
      row == StepRow(Failed, Some(w.store(input)), None, Some(e), k, true, true, None, false)
    case BadBranch(input, output, k, e) =>
      row == StepRow(Failed, Some(w.store(input)), Some(w.store(output)), Some(e), k, true, true, None, false)
  }

  ghost predicate HasRow(steps: seq<Step>, rows: StepRows, i: nat)
    requires i < |steps|
  {
    steps[i].id in rows
  }

  ghost predicate RowIs(w: World, rows: StepRows, i: nat, rec: Rec)
    requires i < |w.steps|
  {
    w.steps[i].id in rows && RowFits(w, rows[w.steps[i].id], rec)
  }

  ghost predicate IsStepId(steps: seq<Step>, id: StepId) {
    exists i: nat :: i < |steps| && steps[i].id == id
  }

  /** Rows of `steps[..p]` as recorded, possibly one at `p`, none behind it, none of other steps. */
  ghost predicate Settled(w: World, rows: StepRows, recs: seq<Rec>, p: nat)
    requires |recs| <= |w.steps|
  {
    && p <= |recs|
    && (forall id :: id in rows ==> IsStepId(w.steps, id))
    && (forall i: nat :: i < p ==> RowIs(w, rows, i, recs[i]))
    && (forall i: nat :: p < i < |w.steps| ==> !HasRow(w.steps, rows, i))
  }

  /** As `Settled`, with nothing in flight. */
  ghost predicate Clean(w: World, rows: StepRows, recs: seq<Rec>, p: nat)
    requires |recs| <= |w.steps|
  {
    Settled(w, rows, recs, p) && (p < |w.steps| ==> !HasRow(w.steps, rows, p))
  }

  /** The in-flight row of a step whose body is being attempted. */
  ghost predicate RunningRow(w: World, row: StepRow, cfg: Json, attempts: nat) {
    row == StepRow(Running, Some(w.store(cfg)), None, row.error, attempts, true, false, None, false)
  }

  ghost predicate WaitingRow(w: World, row: StepRow, cfg: Json) {
    row == StepRow(Paused, Some(w.store(cfg)), None, None, 0, true, false, None, false)
  }

  // ---------------------------------------------------------------- the shape of a held run

  /** A run row while an executor works on the run; a position may be left over from a resume. */
  predicate Active(run: RunRow) { run == RunRow(RunRunning, run.resumePosition, None, true, false, false) }

  /** A run row while the run waits for an approval. */
  predicate Waits(run: RunRow) { run == RunRow(RunPaused, run.resumePosition, None, true, true, false) }

  const COMPLETED_ROW := RunRow(RunCompleted, None, None, true, false, true)

  function FailedRow(error: Message): RunRow { RunRow(RunFailed, None, Some(error), true, false, true) }

  /** The loop of the reference run stands at step `p`. */
  ghost predicate On(f: RefRun, p: nat) {
    p <= |f.recs| && p in f.heads
  }

  /** No row of the loaded bundle belongs to a step the loop has still to reach. */
  ghost predicate StaleBehind(steps: seq<Step>, loaded: StepRows, p: nat) {
    forall i: nat :: p <= i < |steps| ==> steps[i].id !in loaded
  }

  ghost predicate LocalOk(w: World, f: RefRun, l: Local, p: nat)
    requires p <= |f.recs| <= |w.steps|
  {
    l.index == p && l.ctx == ContextAt(w, f.recs, p) && StaleBehind(w.steps, l.loaded, p)
  }

  /** The loop is at step `p`, which it is working on. */
  ghost predicate AtStep(w: World, db: Db, f: RefRun, l: Local, p: nat)
    requires |f.recs| <= |w.steps|
  {
    && Active(db.run) && On(f, p) && p < |w.steps| && LocalOk(w, f, l, p)
    && Settled(w, db.rows, f.recs, p) && HasRow(w.steps, db.rows, p)
  }

  /** `steps[p - 1]` is a gate that was just approved; the run row still says where to go on. */
  ghost predicate BehindGate(w: World, db: Db, f: RefRun, from: Option<int>, p: nat)
    requires |f.recs| <= |w.steps|
  {
    && 1 <= p && On(f, p) && w.steps[p - 1].kind.ApprovalGate? && f.recs[p - 1].Approved?
    && Clean(w, db.rows, f.recs, p)
    && Waits(db.run) && db.run.resumePosition == from == Some(PositionAfter(w.steps, p - 1))
  }

  ghost predicate HeadOk(w: World, db: Db, f: RefRun, l: Local, p: nat)
    requires |f.recs| <= |w.steps|
  {
    Active(db.run) && On(f, p) && LocalOk(w, f, l, p) && Clean(w, db.rows, f.recs, p)
  }

  ghost predicate PausingOk(w: World, db: Db, f: RefRun, l: Local, p: nat)
    requires |f.recs| <= |w.steps|
  {
    && AtStep(w, db, f, l, p) && w.steps[p].kind.ApprovalGate?
    && WaitingRow(w, db.rows[w.steps[p].id], ConfigAt(w, f.recs, p))
  }

  /** Attempts `1..k` of the body at `p` are made and counted, and the loop will come to `tried`. */
  ghost predicate TryingOk(w: World, db: Db, f: RefRun, l: Local, cfg: Json, k: nat,
                           tried: Retry.Tried<StepResult>, p: nat)
    requires |f.recs| <= |w.steps|
  {
    && AtStep(w, db, f, l, p) && RunningRow(w, db.rows[w.steps[p].id], cfg, k)
    && !w.steps[p].kind.ApprovalGate?
    && cfg == ConfigAt(w, f.recs, p)
    && tried == Tried(w, w.steps[p], cfg, l.ctx)
  }

  /** What the attempts from `k` on come to. */
  function Rest(w: World, l: Local, cfg: Json, k: nat): Retry.Tried<StepResult>
    requires l.index < |w.steps|
  {
    Retry.Outcome(w.body(w.steps[l.index], cfg, l.ctx), Retry.Limit(w.policy(cfg)), k)
  }

  /** The step just left is settled, and `recs[p..to]` are jumped over. */
  ghost predicate LeavingOk(w: World, db: Db, f: RefRun, l: Local, p: nat, to: nat)
    requires |f.recs| <= |w.steps|
  {
    Active(db.run) && p == l.index + 1 && Clean(w, db.rows, f.recs, p) && AllJumped(f.recs, p, to)
  }

  ghost predicate RejectingOk(w: World, db: Db, f: RefRun, l: Local, k: nat, e: Message, p: nat)
    requires |f.recs| <= |w.steps|
  {
    && Active(db.run)
    && l.index == p < |w.steps| && |f.recs| == p + 1 && f.ending == Fails(e)
    && Settled(w, db.rows, f.recs, p) && HasRow(w.steps, db.rows, p)
    && f.recs[p].BadBranch? && f.recs[p].error == e && f.recs[p].attempts == k
    && RowFits(w, db.rows[w.steps[p].id], Done(f.recs[p].input, f.recs[p].output, k))
  }

  /** Every record is in its row; only the run row is still to be written. */
  ghost predicate ClosingOk(w: World, db: Db, f: RefRun, ending: Ending, p: nat)
    requires |f.recs| <= |w.steps|
  {
    p == |f.recs| && Clean(w, db.rows, f.recs, p) && f.ending == ending
  }

  /** What holds of the rows and the private state of the executor that holds the run. */
  ghost predicate HolderOk(w: World, db: Db, f: RefRun, phase: Phase, p: nat)
    requires |f.recs| <= |w.steps|
  {
    match phase
    case Claimed => Active(db.run) && p == 0 && On(f, 0) && Clean(w, db.rows, f.recs, 0)
    case GateClaimed => BehindGate(w, db, f, db.run.resumePosition, p)
    case Resuming(from, rows) => BehindGate(w, db, f, from, p) && rows == db.rows
    case Head(l) => HeadOk(w, db, f, l, p)
    case Pausing(l) => PausingOk(w, db, f, l, p)
    case Calling(l, cfg, k) =>
      1 <= k && l.index < |w.steps| && TryingOk(w, db, f, l, cfg, k - 1, Rest(w, l, cfg, k), p)
    case Reporting(l, cfg, k, result) =>
      && 1 <= k && l.index < |w.steps| && TryingOk(w, db, f, l, cfg, k - 1, Rest(w, l, cfg, k), p)
      && result == w.body(w.steps[l.index], cfg, l.ctx)(k)
    case Storing(l, cfg, k, stored) => TryingOk(w, db, f, l, cfg, k, Retry.Succeeded(k, stored), p)
    case Failing(l, cfg, k, e) => TryingOk(w, db, f, l, cfg, k, Retry.GaveUp(k, e), p)
    case SkippingRest(l, e) =>
      && LeavingOk(w, db, f, l, p, |f.recs|) && |f.recs| == |w.steps|
      && p <= |w.steps| && f.ending == Fails(StepFailed(w.steps[p - 1].name, e))
    case Jumping(l, target) =>
      && LeavingOk(w, db, f, l, p, target) && On(f, target) && LocalOk(w, f, l.(index := target), target)
    case Ending(l) => LeavingOk(w, db, f, l, p, |f.recs|) && |f.recs| == |w.steps| && f.ending == Completes
    case Finishing(l) => Active(db.run) && ClosingOk(w, db, f, Completes, p)
    case Rejecting(l, k, e) => RejectingOk(w, db, f, l, k, e, p)
    case Aborting(l, e, _) => Active(db.run) && ClosingOk(w, db, f, Fails(e), p)
    case _ => false
  }

  /** The run waits at gate `p` for an approval. */
  ghost predicate WaitingOk(w: World, db: Db, f: RefRun, p: nat)
    requires |f.recs| <= |w.steps|
  {
    && On(f, p) && p < |w.steps| && w.steps[p].kind.ApprovalGate?
    && Settled(w, db.rows, f.recs, p) && HasRow(w.steps, db.rows, p)
    && WaitingRow(w, db.rows[w.steps[p].id], ConfigAt(w, f.recs, p))
    && Waits(db.run) && db.run.resumePosition == Some(PositionAfter(w.steps, p))
  }

  /** What holds of the rows when no executor holds the run. */
  ghost predicate IdleOk(w: World, db: Db, f: RefRun, p: nat)
    requires |f.recs| <= |w.steps|
  {
    match db.run.status
    case RunPending => db.run == NEW_RUN && p == 0 && On(f, 0) && Clean(w, db.rows, f.recs, 0)
    case RunPaused => WaitingOk(w, db, f, p)
    case RunCompleted => db.run == COMPLETED_ROW && ClosingOk(w, db, f, Completes, p)
    case RunFailed =>
      db.run.error.Some? && db.run == FailedRow(db.run.error.value) && ClosingOk(w, db, f, Fails(db.run.error.value), p)
    case _ => false
  }

  /** The records of the reference run that are settled, or in flight, once the phase is `next`. */
  ghost function FrontierAfter(f: RefRun, phase: Phase, next: Phase, p: nat): nat {
    match (phase, next)
    case (Storing(_, _, _, _), Rejecting(_, _, _)) => p
    case (Storing(_, _, _, _), _) => p + 1
    case (Failing(_, _, _, _), _) => p + 1
    case (Jumping(_, target), _) => target
    case (SkippingRest(_, _), _) => |f.recs|
    case (Ending(_), _) => |f.recs|
    case (Rejecting(_, _, _), _) => p + 1
    case _ => p
  }

  // ---------------------------------------------------------------- lemmas about rows

  lemma {:induction false} PutAt(w: World, rows: StepRows, recs: seq<Rec>, p: nat, row: StepRow)
    requires ValidSteps(w.steps) && |recs| <= |w.steps| && p < |w.steps|
    requires Settled(w, rows, recs, p)
    ensures var after := rows[w.steps[p].id := row];
      Settled(w, after, recs, p) && HasRow(w.steps, after, p) && after[w.steps[p].id] == row
  {
    var after := rows[w.steps[p].id := row];
    assert IsStepId(w.steps, w.steps[p].id);
    forall i: nat | i < p ensures RowIs(w, after, i, recs[i]) {
      assert RowIs(w, rows, i, recs[i]);
    }
    forall i: nat | p < i < |w.steps| ensures !HasRow(w.steps, after, i) {
      assert !HasRow(w.steps, rows, i);
    }
  }

  /** A row written at the frontier settles it when it is the recorded one. */
  lemma {:induction false} SettleAt(w: World, rows: StepRows, recs: seq<Rec>, p: nat, row: StepRow)
    requires ValidSteps(w.steps) && |recs| <= |w.steps| && p < |recs|
    requires Settled(w, rows, recs, p) && RowFits(w, row, recs[p])
    ensures Clean(w, rows[w.steps[p].id := row], recs, p + 1)
  {
    PutAt(w, rows, recs, p, row);
    var after := rows[w.steps[p].id := row];
    assert p + 1 < |w.steps| ==> !HasRow(w.steps, after, p + 1);
    assert RowIs(w, after, p, recs[p]);
  }

  lemma {:induction false} SkipTo(w: World, db: Db, f: RefRun, p: nat, target: nat)
    requires ValidSteps(w.steps) && |f.recs| <= |w.steps|
    requires Clean(w, db.rows, f.recs, p) && AllJumped(f.recs, p, target)
    ensures Clean(w, InsertSkipped(db, Slice(w.steps, p, target)).rows, f.recs, target)
  {
    var ids := Slice(w.steps, p, target);
    var after := InsertSkipped(db, ids).rows;
    forall id | id in after ensures IsStepId(w.steps, id) {
      if id !in db.rows {
        var k: nat :| k < |ids| && ids[k] == id;
        assert w.steps[p..target][k] == w.steps[p + k];
      }
    }
    forall i: nat | i < target ensures RowIs(w, after, i, f.recs[i]) {
      if i < p {
        assert RowIs(w, db.rows, i, f.recs[i]);
      } else {
        assert !HasRow(w.steps, db.rows, i);
        assert ids[i - p] == w.steps[p..target][i - p].id == w.steps[i].id;
      }
    }
    forall i: nat | target <= i < |w.steps| ensures !HasRow(w.steps, after, i) {
      assert !HasRow(w.steps, db.rows, i);
      forall k: nat | k < |ids| ensures ids[k] != w.steps[i].id {
        assert w.steps[p..target][k] == w.steps[p + k];
      }
    }
  }

  /** Step `i` has the row its record asks for when it lies before `p`, and none otherwise. */
  ghost predicate StepShows(w: World, rows: StepRows, recs: seq<Rec>, p: nat, i: nat)
    requires p <= |recs| && i < |w.steps|
  {
    var id := w.steps[i].id;
    if i < p then id in rows && RowFits(w, rows[id], recs[i]) else id !in rows
  }

  lemma {:induction false} CleanRows(w: World, rows: StepRows, recs: seq<Rec>, p: nat, i: nat)
    requires |recs| <= |w.steps| && Clean(w, rows, recs, p) && i < |w.steps|
    ensures StepShows(w, rows, recs, p, i)
  {
    assert i < p ==> RowIs(w, rows, i, recs[i]);
    assert i >= p ==> !HasRow(w.steps, rows, i);
  }

  /** A settled prefix shows in the rebuilt context and nothing else does. */
  lemma {:induction false} RebuiltIsContext(w: World, rows: StepRows, f: RefRun, p: nat, count: nat)
    requires |f.recs| <= |w.steps| && Clean(w, rows, f.recs, p) && count <= |w.steps|
    ensures Rebuilt(w, rows, count) == RereadContext(w, f.recs, Min(p, count))
  {
    forall i: nat | i < |w.steps| ensures StepShows(w, rows, f.recs, p, i) {
      CleanRows(w, rows, f.recs, p, i);
    }
    ShownIsRebuilt(w, rows, f.recs, p, count);
  }

  lemma {:induction false} ShownIsRebuilt(w: World, rows: StepRows, recs: seq<Rec>, p: nat, count: nat)
    requires p <= |recs| <= |w.steps| && count <= |w.steps|
    requires forall i: nat :: i < |w.steps| ==> StepShows(w, rows, recs, p, i)
    ensures Rebuilt(w, rows, count) == RereadContext(w, recs, Min(p, count))
  {
    if count > 0 {
      ShownIsRebuilt(w, rows, recs, p, count - 1);
      assert StepShows(w, rows, recs, p, count - 1);
    }
  }
}
