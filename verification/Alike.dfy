/**
  When a run that gates cut into segments means the same as the run that is never cut. Outputs read
  back from their columns may differ from those in memory in the order of keys, so the two runs are
  compared up to what the columns keep: that is all a row shows.
 */
module Alike {
  import opened Base
  import opened Json
  import opened Workflow
  import opened Repository
  import opened ReferenceRun
  import opened Authz
  import opened Frontier
  import opened Protocol
  import opened Theorems
  import opened Rereading
  import Retry

  // ---------------------------------------------------------------- alike up to the columns

  ghost predicate AlikeValues(w: World, a: Json, b: Json) { w.store(a) == w.store(b) }

  ghost predicate AlikeRec(w: World, a: Rec, b: Rec) {
    match (a, b)
    case (Done(i, o, k), Done(i', o', k')) => AlikeValues(w, i, i') && AlikeValues(w, o, o') && k == k'
    case (Approved(i), Approved(i')) => AlikeValues(w, i, i')
    case (Jumped, Jumped) => true
    case (BodyFailed(i, k, e), BodyFailed(i', k', e')) => AlikeValues(w, i, i') && k == k' && e == e'
    case (BadBranch(i, o, k, e), BadBranch(i', o', k', e')) =>
      AlikeValues(w, i, i') && AlikeValues(w, o, o') && k == k' && e == e'
    case _ => false
  }

  ghost predicate AlikeRecs(w: World, a: seq<Rec>, b: seq<Rec>) {
    |a| == |b| && forall i :: 0 <= i < |a| ==> AlikeRec(w, a[i], b[i])
  }

  ghost predicate AlikeUpTo(w: World, a: seq<Rec>, b: seq<Rec>, count: nat)
    requires count <= |a| && count <= |b|
  {
    forall i :: 0 <= i < count ==> AlikeRec(w, a[i], b[i])
  }

  ghost predicate AlikeRuns(w: World, f: RefRun, u: RefRun) {
    AlikeRecs(w, f.recs, u.recs) && f.heads == u.heads && f.ending == u.ending
  }

  /** Two results of trying step `p`: the same attempts, error and route, and outputs that are alike. */
  ghost predicate AlikeTried(w: World, p: nat, a: Retry.Tried<StepResult>, b: Retry.Tried<StepResult>)
    requires p < |w.steps|
  {
    match (a, b)
    case (Succeeded(k, x), Succeeded(k', y)) =>
      k == k' && AlikeValues(w, x.output, y.output) && Route(w.steps, x.branch, p) == Route(w.steps, y.branch, p)
    case (GaveUp(k, e), GaveUp(k', e')) => k == k' && e == e'
    case _ => false
  }

  /** Step `p` does the same in two contexts, as far as its row and its route show. */
  ghost predicate ActsAlike(w: World, p: nat, a: Context, b: Context)
    requires p < |w.steps|
  {
    var step := w.steps[p];
    var cfg, cfg' := w.resolve(step.config, a), w.resolve(step.config, b);
    && AlikeValues(w, cfg, cfg')
    && (step.kind.ApprovalGate? || AlikeTried(w, p, Tried(w, step, cfg, a), Tried(w, step, cfg', b)))
  }

  /** Both runs stand at step `p` behind alike records: then it does the same in both. */
  ghost predicate ActsAlikeAt(w: World, f: RefRun, u: RefRun, p: nat)
    requires |f.recs| <= |w.steps| && |u.recs| <= |w.steps|
  {
    p in f.heads && p in u.heads && p < |w.steps| && p <= |f.recs| && p <= |u.recs| && AlikeUpTo(w, f.recs, u.recs, p) ==>
      ActsAlike(w, p, ContextAt(w, f.recs, p), ContextAt(Uncut(w), u.recs, p))
  }

  // ---------------------------------------------------------------- from step to run

  ghost predicate AlikeMoves(w: World, a: Move, b: Move) {
    AlikeRecs(w, a.recs, b.recs) && (a.Go? <==> b.Go?) && (a.Stop? && b.Stop? ==> a.ending == b.ending)
  }

  lemma {:induction false} AlikeMore(w: World, a: seq<Rec>, b: seq<Rec>, x: Rec, y: Rec, jumps: nat)
    requires AlikeRecs(w, a, b) && AlikeRec(w, x, y)
    ensures AlikeRecs(w, a + [x] + Jumps(jumps), b + [y] + Jumps(jumps))
    ensures AlikeRecs(w, a + [x], b + [y])
  {
  }

  lemma {:induction false} AlikeNext(w: World, recs: seq<Rec>, recs': seq<Rec>)
    requires AlikeRecs(w, recs, recs') && |recs| <= |w.steps|
    requires |recs| < |w.steps| ==>
               ActsAlike(w, |recs|, ContextAt(w, recs, |recs|), ContextAt(Uncut(w), recs', |recs'|))
    ensures AlikeMoves(w, Next(w, recs), Next(Uncut(w), recs'))
  {
    var u, p := Uncut(w), |recs|;
    if p < |w.steps| {
      var step := w.steps[p];
      var cfg, cfg' := ConfigAt(w, recs, p), ConfigAt(u, recs', p);
      if step.kind.ApprovalGate? {
        AlikeMore(w, recs, recs', Approved(cfg), Approved(cfg'), 0);
      } else {
        var a, b := Tried(w, step, cfg, ContextAt(w, recs, p)), Tried(u, step, cfg', ContextAt(u, recs', p));
        assert b == Tried(w, step, cfg', ContextAt(u, recs', p));
        match a
        case GaveUp(k, e) =>
          AlikeMore(w, recs, recs', BodyFailed(cfg, k, e), BodyFailed(cfg', k, e), |w.steps| - p - 1);
        case Succeeded(k, x) =>
          match Route(w.steps, x.branch, p)
          case Index(j) =>
            AlikeMore(w, recs, recs', Done(cfg, x.output, k), Done(cfg', b.value.output, k), j - p - 1);
          case EndOfRun =>
            AlikeMore(w, recs, recs', Done(cfg, x.output, k), Done(cfg', b.value.output, k), |w.steps| - p - 1);
          case Invalid(e) =>
            AlikeMore(w, recs, recs', BadBranch(cfg, x.output, k, e), BadBranch(cfg', b.value.output, k, e), 0);
      }
    }
  }

  lemma {:induction false} ActsAtFront(w: World, f: RefRun, u: RefRun, recs: seq<Rec>, recs': seq<Rec>)
    requires |recs| <= |w.steps| && AlikeRecs(w, recs, recs')
    requires f == Reference(w, recs) && u == Reference(Uncut(w), recs') && ActsAlikeAt(w, f, u, |recs|)
    ensures |recs| < |w.steps| ==>
              ActsAlike(w, |recs|, ContextAt(w, recs, |recs|), ContextAt(Uncut(w), recs', |recs'|))
  {
    var v, p := Uncut(w), |recs|;
    ReferenceExtends(w, recs);
    ReferenceExtends(v, recs');
    FirstHead(w, recs);
    FirstHead(v, recs');
    ContextOfPrefix(w, f.recs, p, p);
    ContextOfPrefix(v, u.recs, p, p);
    forall i | 0 <= i < p ensures AlikeRec(w, f.recs[i], u.recs[i]) {
      assert f.recs[i] == recs[i] && u.recs[i] == recs'[i] && AlikeRec(w, recs[i], recs'[i]);
    }
  }

  /** Steps that act alike at every common head make runs that are alike. */
  lemma {:induction false} AlikeFrom(w: World, f: RefRun, u: RefRun, recs: seq<Rec>, recs': seq<Rec>)
    requires |recs| <= |w.steps| && AlikeRecs(w, recs, recs')
    requires f == Reference(w, recs) && u == Reference(Uncut(w), recs')
    requires forall p: nat :: ActsAlikeAt(w, f, u, p)
    ensures AlikeRuns(w, f, u)
    decreases |w.steps| - |recs|
  {
    assert ActsAlikeAt(w, f, u, |recs|);
    ActsAtFront(w, f, u, recs, recs');
    AlikeNext(w, recs, recs');
    var m, m' := Next(w, recs), Next(Uncut(w), recs');
    if m.Go? {
      var g, x := Reference(w, m.recs), Reference(Uncut(w), m'.recs);
      forall q: nat ensures ActsAlikeAt(w, g, x, q) {
        assert ActsAlikeAt(w, f, u, q);
      }
      AlikeFrom(w, g, x, m.recs, m'.recs);
    }
  }

  // ---------------------------------------------------------------- and back

  /** A head from which the run stops is its last. */
  lemma {:induction false} LastHead(w: World, recs: seq<Rec>, p: nat, q: nat)
    requires |recs| <= |w.steps| && p in Reference(w, recs).heads && q in Reference(w, recs).heads
    requires p <= |Reference(w, recs).recs| && Next(w, Reference(w, recs).recs[..p]).Stop?
    ensures q <= p
    decreases |w.steps| - |recs|
  {
    ReferenceExtends(w, recs);
    var m := Next(w, recs);
    if m.Go? {
      HeadMove(w, recs, p);
      HeadMove(w, recs, q);
      if p != |recs| && q != |recs| {
        LastHead(w, m.recs, p, q);
      }
    }
  }

  /** A run does not stand at a step it jumps over. */
  lemma {:induction false} HeadNotJumped(w: World, f: RefRun, p: nat)
    requires IsReference(w, f) && p in f.heads && p < |f.recs| <= |w.steps|
    ensures !f.recs[p].Jumped?
  {
    AtHead(w, f, p);
  }

  /** From a head that ends the run there is no head behind it. */
  lemma {:induction false} EndIsLastHead(w: World, f: RefRun, p: nat, q: nat)
    requires IsReference(w, f) && p in f.heads && q in f.heads && p < |w.steps| && !w.steps[p].kind.ApprovalGate?
    requires p <= |f.recs| <= |w.steps|
    requires var tried := Tried(w, w.steps[p], ConfigAt(w, f.recs, p), ContextAt(w, f.recs, p));
      tried.Succeeded? && Route(w.steps, tried.value.branch, p).EndOfRun?
    ensures q <= p
  {
    ContextOfPrefix(w, f.recs, p, p);
    assert ConfigAt(w, f.recs[..p], p) == ConfigAt(w, f.recs, p);
    LastHead(w, [], p, q);
  }

  /** Where the records and heads agree, a route is the same. */
  lemma {:induction false} SameRoute(w: World, f: RefRun, u: RefRun, p: nat, a: Retry.Tried<StepResult>, b: Retry.Tried<StepResult>)
    requires IsReference(w, f) && IsReference(Uncut(w), u) && |f.recs| <= |w.steps| && AlikeRuns(w, f, u)
    requires p in f.heads && p < |w.steps| && !w.steps[p].kind.ApprovalGate? && p <= |f.recs|
    requires a == Tried(w, w.steps[p], ConfigAt(w, f.recs, p), ContextAt(w, f.recs, p))
    requires b == Tried(Uncut(w), w.steps[p], ConfigAt(Uncut(w), u.recs, p), ContextAt(Uncut(w), u.recs, p))
    requires a.Succeeded? && b.Succeeded?
    ensures Route(w.steps, a.value.branch, p) == Route(w.steps, b.value.branch, p)
  {
    var v := Uncut(w);
    AtHead(w, f, p);
    AtHead(v, u, p);
    var x, y := Route(w.steps, a.value.branch, p), Route(w.steps, b.value.branch, p);
    assert forall i :: 0 <= i < |f.recs| ==> AlikeRec(w, f.recs[i], u.recs[i]);
    if x.Index? && y.Index? {
      if x.index < y.index {
        HeadNotJumped(w, f, x.index);
      } else if y.index < x.index {
        HeadNotJumped(v, u, y.index);
      }
    } else if x.Index? && y.EndOfRun? {
      EndIsLastHead(v, u, p, x.index);
    } else if x.EndOfRun? && y.Index? {
      EndIsLastHead(w, f, p, y.index);
    }
  }

  lemma {:induction false} AlikeRunsActAlike(w: World, f: RefRun, u: RefRun, p: nat)
    requires IsReference(w, f) && IsReference(Uncut(w), u) && |f.recs| <= |w.steps| && AlikeRuns(w, f, u)
    ensures ActsAlikeAt(w, f, u, p)
  {
    if p in f.heads && p < |w.steps| && p <= |f.recs| {
      var v := Uncut(w);
      AtHead(w, f, p);
      AtHead(v, u, p);
      assert AlikeRec(w, f.recs[p], u.recs[p]);
      if !w.steps[p].kind.ApprovalGate? {
        var a := Tried(w, w.steps[p], ConfigAt(w, f.recs, p), ContextAt(w, f.recs, p));
        var b := Tried(v, w.steps[p], ConfigAt(v, u.recs, p), ContextAt(v, u.recs, p));
        if a.Succeeded? && b.Succeeded? {
          SameRoute(w, f, u, p, a, b);
        }
      }
    }
  }

  /**
    The run cut by gates and the uncut run are alike, record by record, with the same heads and the
    same ending, if and only if every step that both come to behind alike records acts alike in both.
   */
  lemma {:induction false} AlikeExactly(w: World)
    ensures var f, u := Reference(w, []), Reference(Uncut(w), []);
      AlikeRuns(w, f, u) <==> forall p: nat :: ActsAlikeAt(w, f, u, p)
  {
    var f, u := Reference(w, []), Reference(Uncut(w), []);
    if AlikeRuns(w, f, u) {
      forall p: nat ensures ActsAlikeAt(w, f, u, p) {
        AlikeRunsActAlike(w, f, u, p);
      }
    }
    if forall p: nat :: ActsAlikeAt(w, f, u, p) {
      AlikeFrom(w, f, u, [], []);
    }
  }

  // ---------------------------------------------------------------- contexts

  lemma {:induction false} RereadOfUncut(w: World, recs: seq<Rec>, count: nat)
    requires StoreSettles(w) && count <= |recs| <= |w.steps|
    ensures Reread(w, RereadContext(Uncut(w), recs, count)) == RereadContext(w, recs, count)
    ensures Reread(w, ContextAt(Uncut(w), recs, count)) == RereadContext(w, recs, count)
  {
    if count > 0 {
      var u, step := Uncut(w), w.steps[count - 1];
      RereadOfUncut(w, recs, count - 1);
      match recs[count - 1]
      case Done(_, output, _) =>
        ExtendedReread(w, ContextAt(u, recs, count - 1), step, output);
        ExtendedReread(w, RereadContext(u, recs, count - 1), step, output);
      case Approved(_) => ExtendedReread(w, RereadContext(u, recs, count - 1), step, Null);
      case _ =>
    }
  }

  lemma {:induction false} SameRereading(w: World, recs: seq<Rec>, recs': seq<Rec>, count: nat)
    requires count <= |recs| <= |w.steps| && count <= |recs'| <= |w.steps| && AlikeUpTo(w, recs, recs', count)
    ensures RereadContext(w, recs, count) == RereadContext(w, recs', count)
  {
    if count > 0 {
      assert AlikeRec(w, recs[count - 1], recs'[count - 1]);
      SameRereading(w, recs, recs', count - 1);
    }
  }

  /** Behind alike records the two contexts are the same once read back. */
  lemma {:induction false} AlikeContexts(w: World, recs: seq<Rec>, recs': seq<Rec>, count: nat)
    requires StoreSettles(w) && count <= |recs| <= |w.steps| && count <= |recs'| <= |w.steps|
    requires AlikeUpTo(w, recs, recs', count)
    ensures Reread(w, ContextAt(w, recs, count)) == Reread(w, ContextAt(Uncut(w), recs', count))
  {
    RereadOfContext(w, recs, count);
    RereadOfUncut(w, recs', count);
    SameRereading(w, recs, recs', count);
  }

  /** Step `p` acts as in `b` in every context that reads back as `b` does. */
  ghost predicate IgnoresReading(w: World, p: nat, b: Context)
    requires p < |w.steps|
  {
    forall a :: Reread(w, a) == Reread(w, b) ==> ActsAlike(w, p, a, b)
  }

  ghost predicate IgnoresReadingAt(w: World, u: RefRun, p: nat)
    requires |u.recs| <= |w.steps|
  {
    p in u.heads && p < |w.steps| && p <= |u.recs| ==> IgnoresReading(w, p, ContextAt(Uncut(w), u.recs, p))
  }

  /** A condition on the uncut run alone: at each of its heads the step ignores what reading back changes. */
  lemma {:induction false} AlikeByContexts(w: World, u: RefRun)
    requires StoreSettles(w) && IsReference(Uncut(w), u) && |u.recs| <= |w.steps|
    requires forall p: nat :: IgnoresReadingAt(w, u, p)
    ensures AlikeRuns(w, Reference(w, []), u)
  {
    var f := Reference(w, []);
    forall p: nat ensures ActsAlikeAt(w, f, u, p) {
      if p in u.heads && p < |w.steps| && p <= |f.recs| && p <= |u.recs| && AlikeUpTo(w, f.recs, u.recs, p) {
        AlikeContexts(w, f.recs, u.recs, p);
        assert IgnoresReadingAt(w, u, p);
      }
    }
    AlikeFrom(w, f, u, [], []);
  }

  // ---------------------------------------------------------------- what the rows show

  lemma {:induction false} AlikeRowFits(w: World, row: StepRow, a: Rec, b: Rec)
    requires AlikeRec(w, a, b) && RowFits(w, row, a)
    ensures RowFits(w, row, b)
  {
  }

  /** A finished run is row for row the run `u`. */
  ghost predicate RowsTell(w: World, db: Db, u: RefRun)
    requires |u.recs| <= |w.steps|
  {
    && Clean(w, db.rows, u.recs, |u.recs|)
    && db.run == (match u.ending case Completes => COMPLETED_ROW case Fails(e) => FailedRow(e))
  }

  lemma {:induction false} FitsBoth(w: World, row: StepRow, a: Rec, b: Rec)
    requires RowFits(w, row, a) && RowFits(w, row, b)
    ensures AlikeRec(w, a, b)
  {
  }

  /** A finished run is row for row the run `u` if and only if the records of its reference are alike and it ends alike. */
  lemma {:induction false} RowsTellExactly(w: World, u: RefRun, roles: map<UserId, Role>, events: seq<Event>)
    requires ValidSteps(w.steps) && Terminal(Run(w, roles, events).db.run.status) && |u.recs| <= |w.steps|
    ensures var f := Reference(w, []);
      RowsTell(w, Run(w, roles, events).db, u) <==> AlikeRecs(w, f.recs, u.recs) && f.ending == u.ending
  {
    var db, f := Run(w, roles, events).db, Reference(w, []);
    var p := RowsFollowReference(w, roles, events);
    if AlikeRecs(w, f.recs, u.recs) && f.ending == u.ending {
      forall i: nat | i < |u.recs| ensures RowIs(w, db.rows, i, u.recs[i]) {
        assert RowIs(w, db.rows, i, f.recs[i]) && AlikeRec(w, f.recs[i], u.recs[i]);
        AlikeRowFits(w, db.rows[w.steps[i].id], f.recs[i], u.recs[i]);
      }
    }
    if RowsTell(w, db, u) {
      SameLength(w, db.rows, f.recs, u.recs);
      forall i | 0 <= i < |u.recs| ensures AlikeRec(w, f.recs[i], u.recs[i]) {
        assert RowIs(w, db.rows, i, f.recs[i]) && RowIs(w, db.rows, i, u.recs[i]);
        FitsBoth(w, db.rows[w.steps[i].id], f.recs[i], u.recs[i]);
      }
    }
  }

  /** The rows tell how many records there are. */
  lemma {:induction false} SameLength(w: World, rows: StepRows, a: seq<Rec>, b: seq<Rec>)
    requires |a| <= |w.steps| && |b| <= |w.steps| && Clean(w, rows, a, |a|) && Clean(w, rows, b, |b|)
    ensures |a| == |b|
  {
    var n := Min(|a|, |b|);
    if n < |w.steps| {
      CleanRows(w, rows, a, |a|, n);
      CleanRows(w, rows, b, |b|, n);
    }
  }

  /**
    Pause and resume preserve meaning: where every step acts alike, a finished run is, row for row, the
    run that is never cut.
   */
  lemma {:induction false} MeaningSurvives(w: World, u: RefRun, roles: map<UserId, Role>, events: seq<Event>)
    requires ValidSteps(w.steps) && Terminal(Run(w, roles, events).db.run.status)
    requires IsReference(Uncut(w), u) && |u.recs| <= |w.steps|
    requires var f := Reference(w, []); forall p: nat :: ActsAlikeAt(w, f, u, p)
    ensures RowsTell(w, Run(w, roles, events).db, u)
  {
    AlikeFrom(w, Reference(w, []), u, [], []);
    RowsTellExactly(w, u, roles, events);
  }
}
