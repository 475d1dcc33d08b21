/** Every request an executor makes keeps the frontier: one lemma per phase, then the whole machine. */
module Keeps {
  import opened Base
  import opened Json
  import opened Workflow
  import opened Repository
  import opened ReferenceRun
  import opened Engine
  import opened Frontier
  import Retry

  /** After a request: still the holder with the run in order, or returned and the run is idle. */
  ghost predicate Kept(w: World, db: Db, f: RefRun, phase: Phase, p: nat)
    requires |f.recs| <= |w.steps|
  {
    if Holds(phase) then HolderOk(w, db, f, phase, p) else phase.Returned? && IdleOk(w, db, f, p)
  }

  lemma {:induction false} KeepClaimed(w: World, db: Db, f: RefRun, p: nat)
    requires ValidSteps(w.steps) && |f.recs| <= |w.steps|
    requires HolderOk(w, db, f, Claimed, p)
    ensures HeadOk(w, db, f, Enter(w, db.rows, None).l, p)
  {
    RebuiltIsContext(w, db.rows, f, 0, |w.steps|);
    forall i: nat | i < |w.steps| ensures w.steps[i].id !in db.rows {
      assert !HasRow(w.steps, db.rows, i);
    }
  }

  lemma {:induction false} KeepResuming(w: World, db: Db, f: RefRun, from: Option<int>, p: nat)
    requires ValidSteps(w.steps) && |f.recs| <= |w.steps|
    requires BehindGate(w, db, f, from, p)
    ensures HeadOk(w, MarkResumed(db), f, Enter(w, db.rows, from).l, p)
  {
    RebuiltIsContext(w, db.rows, f, p, |w.steps|);
    ResumeStartsBehindGate(w.steps, p - 1);
    forall i: nat | p <= i < |w.steps| ensures w.steps[i].id !in db.rows {
      assert !HasRow(w.steps, db.rows, i);
    }
  }

  lemma {:induction false} KeepHead(w: World, db: Db, f: RefRun, l: Local, p: nat)
    requires ValidSteps(w.steps) && |f.recs| <= |w.steps|
    requires HeadOk(w, db, f, l, p) && p < |w.steps|
    ensures !AlreadyApproved(l, w.steps[p])
    ensures var cfg := w.resolve(w.steps[p].config, l.ctx);
      if w.steps[p].kind.ApprovalGate?
      then PausingOk(w, Upsert(w, db, w.steps[p].id, GatePatch(cfg)), f, l, p)
      else TryingOk(w, Upsert(w, db, w.steps[p].id, RunningPatch(cfg)), f, l, cfg, 0, Rest(w, l, cfg, 1), p)
  {
    var step := w.steps[p];
    assert step.id !in l.loaded;
    assert !HasRow(w.steps, db.rows, p);
    var cfg := ConfigAt(w, f.recs, p);
    var patch := if step.kind.ApprovalGate? then GatePatch(cfg) else RunningPatch(cfg);
    PutAt(w, db.rows, f.recs, p, Patched(w, FRESH_ROW, patch));
  }

  lemma {:induction false} KeepEnd(w: World, db: Db, f: RefRun, l: Local, p: nat)
    requires IsReference(w, f) && |f.recs| <= |w.steps| && p == |w.steps|
    requires HeadOk(w, db, f, l, p)
    ensures ClosingOk(w, MarkCompleted(db), f, Completes, p)
  {
    AtHead(w, f, p);
  }

  lemma {:induction false} KeepReport(w: World, db: Db, f: RefRun, l: Local, cfg: Json, k: nat,
                   tried: Retry.Tried<StepResult>, patch: StepPatch, p: nat)
    requires ValidSteps(w.steps) && |f.recs| <= |w.steps|
    requires 1 <= k && TryingOk(w, db, f, l, cfg, k - 1, tried, p)
    requires patch.attempts == Set(k) && patch == StepPatch(attempts := Set(k), error := patch.error)
    ensures TryingOk(w, Upsert(w, db, w.steps[p].id, patch), f, l, cfg, k, tried, p)
  {
    PutAt(w, db.rows, f.recs, p, Patched(w, db.rows[w.steps[p].id], patch));
  }

  lemma {:induction false} KeepStore(w: World, db: Db, f: RefRun, l: Local, cfg: Json, k: nat, stored: StepResult, p: nat)
    requires ValidSteps(w.steps) && IsReference(w, f) && |f.recs| <= |w.steps|
    requires TryingOk(w, db, f, l, cfg, k, Retry.Succeeded(k, stored), p)
    requires !Route(w.steps, stored.branch, p).Invalid?
    ensures var after := Upsert(w, db, w.steps[p].id, DonePatch(stored.output));
      p < |f.recs| && after.run.status.RunRunning? && Clean(w, after.rows, f.recs, p + 1)
    ensures Extended(l.ctx, w.steps[p], stored.output) == ContextAt(w, f.recs, p + 1)
  {
    AtHead(w, f, p);
    SettleAt(w, db.rows, f.recs, p, Patched(w, db.rows[w.steps[p].id], DonePatch(stored.output)));
  }

  lemma {:induction false} KeepStoreInvalid(w: World, db: Db, f: RefRun, l: Local, cfg: Json, k: nat, stored: StepResult, p: nat)
    requires ValidSteps(w.steps) && IsReference(w, f) && |f.recs| <= |w.steps|
    requires TryingOk(w, db, f, l, cfg, k, Retry.Succeeded(k, stored), p)
    requires Route(w.steps, stored.branch, p).Invalid?
    ensures var after := Upsert(w, db, w.steps[p].id, DonePatch(stored.output));
      RejectingOk(w, after, f, l, k, Route(w.steps, stored.branch, p).message, p)
  {
    AtHead(w, f, p);
    PutAt(w, db.rows, f.recs, p, Patched(w, db.rows[w.steps[p].id], DonePatch(stored.output)));
  }

  lemma {:induction false} JumpsKeepContext(w: World, recs: seq<Rec>, from: nat, to: nat)
    requires AllJumped(recs, from, to) && |recs| <= |w.steps|
    ensures ContextAt(w, recs, to) == ContextAt(w, recs, from)
  {
    if from < to {
      JumpsKeepContext(w, recs, from, to - 1);
    }
  }

  /** The private state after a stored result was fed forward and the index set to `j`. */
  function Fed(w: World, l: Local, stored: StepResult, j: nat): Local
    requires l.index < |w.steps|
  {
    Local(j, Extended(l.ctx, w.steps[l.index], stored.output), l.loaded, l.executed + 1)
  }

  /** Storing a result that goes on, over the steps in between, to index `j`. */
  lemma {:induction false} KeepStoreGo(w: World, db: Db, f: RefRun, l: Local, cfg: Json, k: nat, stored: StepResult, p: nat)
    requires ValidSteps(w.steps) && IsReference(w, f) && |f.recs| <= |w.steps|
    requires TryingOk(w, db, f, l, cfg, k, Retry.Succeeded(k, stored), p)
    requires Route(w.steps, stored.branch, p).Index?
    ensures var j := Route(w.steps, stored.branch, p).index;
      var after := Upsert(w, db, w.steps[p].id, DonePatch(stored.output));
      && LeavingOk(w, after, f, Fed(w, l, stored, p), p + 1, j) && On(f, j)
      && LocalOk(w, f, Fed(w, l, stored, j), j)
  {
    var j := Route(w.steps, stored.branch, p).index;
    AtHead(w, f, p);
    KeepStore(w, db, f, l, cfg, k, stored, p);
    JumpsKeepContext(w, f.recs, p + 1, j);
  }

  /** Storing a result that ends the run. */
  lemma {:induction false} KeepStoreEnd(w: World, db: Db, f: RefRun, l: Local, cfg: Json, k: nat, stored: StepResult, p: nat)
    requires ValidSteps(w.steps) && IsReference(w, f) && |f.recs| <= |w.steps|
    requires TryingOk(w, db, f, l, cfg, k, Retry.Succeeded(k, stored), p)
    requires Route(w.steps, stored.branch, p).EndOfRun?
    ensures var after := Upsert(w, db, w.steps[p].id, DonePatch(stored.output));
      LeavingOk(w, after, f, Fed(w, l, stored, p), p + 1, |f.recs|) && |f.recs| == |w.steps| && f.ending == Completes
  {
    AtHead(w, f, p);
    KeepStore(w, db, f, l, cfg, k, stored, p);
  }

  lemma {:induction false} KeepJump(w: World, db: Db, f: RefRun, l: Local, target: nat, p: nat)
    requires ValidSteps(w.steps) && |f.recs| <= |w.steps|
    requires LeavingOk(w, db, f, l, p, target) && On(f, target) && LocalOk(w, f, l.(index := target), target)
    ensures HeadOk(w, InsertSkipped(db, Slice(w.steps, p, target)), f, l.(index := target), target)
  {
    SkipTo(w, db, f, p, target);
  }

  /** Marking everything behind the last settled step completes the record. */
  lemma {:induction false} KeepSkip(w: World, db: Db, f: RefRun, l: Local, p: nat)
    requires ValidSteps(w.steps) && |f.recs| == |w.steps|
    requires LeavingOk(w, db, f, l, p, |f.recs|)
    ensures var after := InsertSkipped(db, Slice(w.steps, p, |w.steps|));
      after.run == db.run && Clean(w, after.rows, f.recs, |f.recs|)
  {
    SkipTo(w, db, f, p, |f.recs|);
  }

  lemma {:induction false} KeepFailure(w: World, db: Db, f: RefRun, l: Local, cfg: Json, k: nat, e: Message, p: nat)
    requires ValidSteps(w.steps) && IsReference(w, f) && |f.recs| <= |w.steps|
    requires TryingOk(w, db, f, l, cfg, k, Retry.GaveUp(k, e), p)
    ensures var after := Upsert(w, db, w.steps[p].id, FailedPatch(e));
      && LeavingOk(w, after, f, l, p + 1, |f.recs|) && |f.recs| == |w.steps|
      && f.ending == Fails(StepFailed(w.steps[p].name, e))
  {
    AtHead(w, f, p);
    SettleAt(w, db.rows, f.recs, p, Patched(w, db.rows[w.steps[p].id], FailedPatch(e)));
  }

  lemma {:induction false} KeepReject(w: World, db: Db, f: RefRun, l: Local, k: nat, e: Message, p: nat)
    requires ValidSteps(w.steps) && |f.recs| <= |w.steps|
    requires RejectingOk(w, db, f, l, k, e, p)
    ensures ClosingOk(w, Upsert(w, db, w.steps[p].id, RejectPatch(e)), f, Fails(e), p + 1)
  {
    SettleAt(w, db.rows, f.recs, p, Patched(w, db.rows[w.steps[p].id], RejectPatch(e)));
  }

  ghost predicate Ready(w: World, db: Db, f: RefRun, phase: Phase, p: nat) {
    && ValidSteps(w.steps) && IsReference(w, f) && |f.recs| <= |w.steps|
    && Holds(phase) && HolderOk(w, db, f, phase, p)
  }

  /** The next request of `phase` is defined, keeps the run in order and never moves its frontier back. */
  ghost predicate Advances(w: World, db: Db, f: RefRun, phase: Phase, p: nat)
    requires |f.recs| <= |w.steps| && Holds(phase)
  {
    && OnStep(w, phase)
    && var (after, next) := Exec(w, db, phase);
       var q := FrontierAfter(f, phase, next, p);
       p <= q && Kept(w, after, f, next, q)
  }

  lemma {:induction false} AdvancesTo(w: World, db: Db, f: RefRun, phase: Phase, p: nat, after: Db, next: Phase, q: nat)
    requires |f.recs| <= |w.steps| && Holds(phase) && OnStep(w, phase)
    requires Exec(w, db, phase) == (after, next) && FrontierAfter(f, phase, next, p) == q
    requires p <= q && Holds(next) && HolderOk(w, after, f, next, q)
    ensures Advances(w, db, f, phase, p)
  {
  }

  lemma {:induction false} AdvanceClaimed(w: World, db: Db, f: RefRun, p: nat)
    requires Ready(w, db, f, Claimed, p)
    ensures Advances(w, db, f, Claimed, p)
  {
    KeepClaimed(w, db, f, p);
    assert Exec(w, db, Claimed) == (db, Enter(w, db.rows, None));
  }

  lemma {:induction false} AdvanceGateClaimed(w: World, db: Db, f: RefRun, p: nat)
    requires Ready(w, db, f, GateClaimed, p)
    ensures Advances(w, db, f, GateClaimed, p)
  {
    assert Exec(w, db, GateClaimed) == (db, Resuming(db.run.resumePosition, db.rows));
  }

  lemma {:induction false} AdvanceResuming(w: World, db: Db, f: RefRun, from: Option<int>, rows: StepRows, p: nat)
    requires Ready(w, db, f, Resuming(from, rows), p)
    ensures Advances(w, db, f, Resuming(from, rows), p)
  {
    KeepResuming(w, db, f, from, p);
    assert Exec(w, db, Resuming(from, rows)) == (MarkResumed(db), Enter(w, rows, from));
  }

  lemma {:induction false} AdvanceHead(w: World, db: Db, f: RefRun, l: Local, p: nat)
    requires Ready(w, db, f, Head(l), p)
    ensures Advances(w, db, f, Head(l), p)
  {
    if p < |w.steps| {
      KeepHead(w, db, f, l, p);
      var step, cfg := w.steps[p], w.resolve(w.steps[p].config, l.ctx);
      assert Exec(w, db, Head(l)) ==
        if step.kind.ApprovalGate? then (Upsert(w, db, step.id, GatePatch(cfg)), Pausing(l))
        else (Upsert(w, db, step.id, RunningPatch(cfg)), Calling(l, cfg, 1));
    } else {
      KeepEnd(w, db, f, l, p);
    }
  }

  lemma {:induction false} AdvancePausing(w: World, db: Db, f: RefRun, l: Local, p: nat)
    requires Ready(w, db, f, Pausing(l), p)
    ensures Advances(w, db, f, Pausing(l), p)
  {
    assert Exec(w, db, Pausing(l)).0 == MarkPaused(db, PositionAfter(w.steps, p));
  }

  lemma {:induction false} AdvanceCalling(w: World, db: Db, f: RefRun, l: Local, cfg: Json, k: nat, p: nat)
    requires Ready(w, db, f, Calling(l, cfg, k), p)
    ensures Advances(w, db, f, Calling(l, cfg, k), p)
  {
    assert Exec(w, db, Calling(l, cfg, k)) == (db, Reporting(l, cfg, k, w.body(w.steps[p], cfg, l.ctx)(k)));
  }

  lemma {:induction false} AdvanceReporting(w: World, db: Db, f: RefRun, l: Local, cfg: Json, k: nat,
                                            result: Retry.Attempt<StepResult>, p: nat)
    requires Ready(w, db, f, Reporting(l, cfg, k, result), p)
    ensures Advances(w, db, f, Reporting(l, cfg, k, result), p)
  {
    var patch := ReportPatch(w, w.steps[p], cfg, k, result);
    var after := Upsert(w, db, w.steps[p].id, patch);
    KeepReport(w, db, f, l, cfg, k, Rest(w, l, cfg, k), patch, p);
    var next :=
      if result.Returned? then Storing(l, cfg, k, result.value)
      else if WillRetry(w, cfg, k, result) then Calling(l, cfg, k + 1)
      else Failing(l, cfg, k, result.error);
    RestStep(w, l, cfg, k, result);
    AdvancesTo(w, db, f, Reporting(l, cfg, k, result), p, after, next, p);
  }

  lemma {:induction false} RestStep(w: World, l: Local, cfg: Json, k: nat, result: Retry.Attempt<StepResult>)
    requires l.index < |w.steps| && result == w.body(w.steps[l.index], cfg, l.ctx)(k)
    ensures Rest(w, l, cfg, k) ==
      if result.Returned? then Retry.Succeeded(k, result.value)
      else if WillRetry(w, cfg, k, result) then Rest(w, l, cfg, k + 1)
      else Retry.GaveUp(k, result.error)
  {
  }

  lemma {:induction false} FailThenSkip(w: World, db: Db, f: RefRun, l: Local, cfg: Json, k: nat, e: Message, p: nat)
    requires Ready(w, db, f, Failing(l, cfg, k, e), p)
    ensures p < |w.steps|
    ensures HolderOk(w, Upsert(w, db, w.steps[p].id, FailedPatch(e)), f, SkippingRest(l, e), p + 1)
  {
    KeepFailure(w, db, f, l, cfg, k, e, p);
  }

  lemma {:induction false} AdvanceFailing(w: World, db: Db, f: RefRun, l: Local, cfg: Json, k: nat, e: Message, p: nat)
    requires Ready(w, db, f, Failing(l, cfg, k, e), p)
    ensures Advances(w, db, f, Failing(l, cfg, k, e), p)
  {
    FailThenSkip(w, db, f, l, cfg, k, e, p);
    AdvancesTo(w, db, f, Failing(l, cfg, k, e), p, Upsert(w, db, w.steps[p].id, FailedPatch(e)), SkippingRest(l, e), p + 1);
  }

  lemma {:induction false} StoreThenReject(w: World, db: Db, f: RefRun, l: Local, cfg: Json, k: nat, stored: StepResult, p: nat)
    requires Ready(w, db, f, Storing(l, cfg, k, stored), p) && p < |w.steps|
    requires Route(w.steps, stored.branch, p).Invalid?
    ensures var after := Upsert(w, db, w.steps[p].id, DonePatch(stored.output));
      HolderOk(w, after, f, Rejecting(Fed(w, l, stored, p), k, Route(w.steps, stored.branch, p).message), p)
  {
    KeepStoreInvalid(w, db, f, l, cfg, k, stored, p);
  }

  lemma {:induction false} AdvanceStoringInvalid(w: World, db: Db, f: RefRun, l: Local, cfg: Json, k: nat, stored: StepResult, p: nat)
    requires Ready(w, db, f, Storing(l, cfg, k, stored), p) && p < |w.steps|
    requires Route(w.steps, stored.branch, p).Invalid?
    ensures Advances(w, db, f, Storing(l, cfg, k, stored), p)
  {
    var after := Upsert(w, db, w.steps[p].id, DonePatch(stored.output));
    StoreThenReject(w, db, f, l, cfg, k, stored, p);
    var next := Rejecting(Fed(w, l, stored, p), k, Route(w.steps, stored.branch, p).message);
    AdvancesTo(w, db, f, Storing(l, cfg, k, stored), p, after, next, p);
  }

  lemma {:induction false} StoreThenEnd(w: World, db: Db, f: RefRun, l: Local, cfg: Json, k: nat, stored: StepResult, p: nat)
    requires Ready(w, db, f, Storing(l, cfg, k, stored), p) && p < |w.steps|
    requires Route(w.steps, stored.branch, p).EndOfRun?
    ensures HolderOk(w, Upsert(w, db, w.steps[p].id, DonePatch(stored.output)), f, Ending(Fed(w, l, stored, p)), p + 1)
  {
    KeepStoreEnd(w, db, f, l, cfg, k, stored, p);
    var after := Upsert(w, db, w.steps[p].id, DonePatch(stored.output));
    assert LeavingOk(w, after, f, Fed(w, l, stored, p), p + 1, |f.recs|);
  }

  lemma {:induction false} AdvanceStoringEnd(w: World, db: Db, f: RefRun, l: Local, cfg: Json, k: nat, stored: StepResult, p: nat)
    requires Ready(w, db, f, Storing(l, cfg, k, stored), p) && p < |w.steps|
    requires Route(w.steps, stored.branch, p).EndOfRun?
    ensures Advances(w, db, f, Storing(l, cfg, k, stored), p)
  {
    var next := Ending(Fed(w, l, stored, p));
    StoreThenEnd(w, db, f, l, cfg, k, stored, p);
    var after := Upsert(w, db, w.steps[p].id, DonePatch(stored.output));
    AdvancesTo(w, db, f, Storing(l, cfg, k, stored), p, after, next, p + 1);
  }

  lemma {:induction false} StoreThenJump(w: World, db: Db, f: RefRun, l: Local, cfg: Json, k: nat, stored: StepResult, p: nat)
    requires Ready(w, db, f, Storing(l, cfg, k, stored), p) && p < |w.steps|
    requires Route(w.steps, stored.branch, p).Index? && Route(w.steps, stored.branch, p).index > p + 1
    ensures HolderOk(w, Upsert(w, db, w.steps[p].id, DonePatch(stored.output)), f,
                     Jumping(Fed(w, l, stored, p), Route(w.steps, stored.branch, p).index), p + 1)
  {
    var j := Route(w.steps, stored.branch, p).index;
    KeepStoreGo(w, db, f, l, cfg, k, stored, p);
    assert Fed(w, l, stored, p).(index := j) == Fed(w, l, stored, j);
  }

  lemma {:induction false} AdvanceStoringJump(w: World, db: Db, f: RefRun, l: Local, cfg: Json, k: nat, stored: StepResult, p: nat)
    requires Ready(w, db, f, Storing(l, cfg, k, stored), p) && p < |w.steps|
    requires Route(w.steps, stored.branch, p).Index? && Route(w.steps, stored.branch, p).index > p + 1
    ensures Advances(w, db, f, Storing(l, cfg, k, stored), p)
  {
    var next := Jumping(Fed(w, l, stored, p), Route(w.steps, stored.branch, p).index);
    StoreThenJump(w, db, f, l, cfg, k, stored, p);
    var after := Upsert(w, db, w.steps[p].id, DonePatch(stored.output));
    AdvancesTo(w, db, f, Storing(l, cfg, k, stored), p, after, next, p + 1);
  }

  lemma {:induction false} StoreThenStep(w: World, db: Db, f: RefRun, l: Local, cfg: Json, k: nat, stored: StepResult, p: nat)
    requires Ready(w, db, f, Storing(l, cfg, k, stored), p) && p < |w.steps|
    requires Route(w.steps, stored.branch, p).Index? && Route(w.steps, stored.branch, p).index == p + 1
    ensures HolderOk(w, Upsert(w, db, w.steps[p].id, DonePatch(stored.output)), f, Head(Fed(w, l, stored, p + 1)), p + 1)
  {
    KeepStoreGo(w, db, f, l, cfg, k, stored, p);
  }

  lemma {:induction false} AdvanceStoringStep(w: World, db: Db, f: RefRun, l: Local, cfg: Json, k: nat, stored: StepResult, p: nat)
    requires Ready(w, db, f, Storing(l, cfg, k, stored), p) && p < |w.steps|
    requires Route(w.steps, stored.branch, p).Index? && Route(w.steps, stored.branch, p).index == p + 1
    ensures Advances(w, db, f, Storing(l, cfg, k, stored), p)
  {
    var next := Head(Fed(w, l, stored, p + 1));
    StoreThenStep(w, db, f, l, cfg, k, stored, p);
    var after := Upsert(w, db, w.steps[p].id, DonePatch(stored.output));
    AdvancesTo(w, db, f, Storing(l, cfg, k, stored), p, after, next, p + 1);
  }

  lemma {:induction false} JumpThenHead(w: World, db: Db, f: RefRun, l: Local, target: nat, p: nat)
    requires Ready(w, db, f, Jumping(l, target), p)
    ensures l.index + 1 == p <= target <= |w.steps|
    ensures HeadOk(w, InsertSkipped(db, Slice(w.steps, p, target)), f, l.(index := target), target)
  {
    KeepJump(w, db, f, l, target, p);
  }

  lemma {:induction false} JumpReachesHead(w: World, db: Db, f: RefRun, l: Local, target: nat, p: nat)
    requires |f.recs| <= |w.steps| && l.index + 1 == p <= target <= |w.steps|
    requires HeadOk(w, InsertSkipped(db, Slice(w.steps, p, target)), f, l.(index := target), target)
    ensures Advances(w, db, f, Jumping(l, target), p)
  {
    assert FrontierAfter(f, Jumping(l, target), Head(l.(index := target)), p) == target;
  }

  lemma {:induction false} AdvanceJumping(w: World, db: Db, f: RefRun, l: Local, target: nat, p: nat)
    requires Ready(w, db, f, Jumping(l, target), p)
    ensures Advances(w, db, f, Jumping(l, target), p)
  {
    JumpThenHead(w, db, f, l, target, p);
    JumpReachesHead(w, db, f, l, target, p);
  }

  lemma {:induction false} AdvanceSkipping(w: World, db: Db, f: RefRun, l: Local, e: Message, p: nat)
    requires Ready(w, db, f, SkippingRest(l, e), p)
    ensures Advances(w, db, f, SkippingRest(l, e), p)
  {
    KeepSkip(w, db, f, l, p);
    var after := InsertSkipped(db, Slice(w.steps, p, |w.steps|));
    var next := Aborting(l, StepFailed(w.steps[l.index].name, e), e);
    AdvancesTo(w, db, f, SkippingRest(l, e), p, after, next, |f.recs|);
  }

  lemma {:induction false} SkipThenFinish(w: World, db: Db, f: RefRun, l: Local, p: nat)
    requires Ready(w, db, f, Ending(l), p)
    ensures l.index + 1 == p <= |w.steps|
    ensures HolderOk(w, InsertSkipped(db, Slice(w.steps, p, |w.steps|)), f, Finishing(l), |f.recs|)
  {
    KeepSkip(w, db, f, l, p);
  }

  lemma {:induction false} AdvanceEnding(w: World, db: Db, f: RefRun, l: Local, p: nat)
    requires Ready(w, db, f, Ending(l), p)
    ensures Advances(w, db, f, Ending(l), p)
  {
    SkipThenFinish(w, db, f, l, p);
    var after := InsertSkipped(db, Slice(w.steps, p, |w.steps|));
    AdvancesTo(w, db, f, Ending(l), p, after, Finishing(l), |f.recs|);
  }

  lemma {:induction false} AdvanceRejecting(w: World, db: Db, f: RefRun, l: Local, k: nat, e: Message, p: nat)
    requires Ready(w, db, f, Rejecting(l, k, e), p)
    ensures Advances(w, db, f, Rejecting(l, k, e), p)
  {
    KeepReject(w, db, f, l, k, e, p);
    var after := Upsert(w, db, w.steps[p].id, RejectPatch(e));
    AdvancesTo(w, db, f, Rejecting(l, k, e), p, after, Aborting(l, e, e), p + 1);
  }

  /** One request of the executor that holds the run, whatever its phase. */
  lemma {:induction false} ExecKeeps(w: World, db: Db, f: RefRun, phase: Phase, p: nat)
    requires Ready(w, db, f, phase, p)
    ensures Advances(w, db, f, phase, p)
  {
    match phase
    case Claimed => AdvanceClaimed(w, db, f, p);
    case GateClaimed => AdvanceGateClaimed(w, db, f, p);
    case Resuming(from, rows) => AdvanceResuming(w, db, f, from, rows, p);
    case Head(l) => AdvanceHead(w, db, f, l, p);
    case Pausing(l) => AdvancePausing(w, db, f, l, p);
    case Calling(l, cfg, k) => AdvanceCalling(w, db, f, l, cfg, k, p);
    case Reporting(l, cfg, k, result) => AdvanceReporting(w, db, f, l, cfg, k, result, p);
    case Failing(l, cfg, k, e) => AdvanceFailing(w, db, f, l, cfg, k, e, p);
    case Storing(l, cfg, k, stored) => {
      match Route(w.steps, stored.branch, p)
      case Invalid(_) => AdvanceStoringInvalid(w, db, f, l, cfg, k, stored, p);
      case EndOfRun => AdvanceStoringEnd(w, db, f, l, cfg, k, stored, p);
      case Index(j) =>
        if j > p + 1 {
          AdvanceStoringJump(w, db, f, l, cfg, k, stored, p);
        } else {
          AdvanceStoringStep(w, db, f, l, cfg, k, stored, p);
        }
    }
    case SkippingRest(l, e) => AdvanceSkipping(w, db, f, l, e, p);
    case Jumping(l, target) => AdvanceJumping(w, db, f, l, target, p);
    case Ending(l) => AdvanceEnding(w, db, f, l, p);
    case Rejecting(l, k, e) => AdvanceRejecting(w, db, f, l, k, e, p);
    case _ =>
  }
}
