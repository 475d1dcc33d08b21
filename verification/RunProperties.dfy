/** Consequences for whole runs: meaning, context, frontier, gates, body calls, coverage, starts, the run row. */
module RunProperties {
  import opened Base
  import opened Workflow
  import opened Repository
  import opened ReferenceRun
  import opened Engine
  import opened Authz
  import opened Frontier
  import opened Keeps
  import opened Protocol
  import opened Invariant
  import opened Theorems
  import opened Coverage
  import opened RunContext
  import ContextLaws
  import Retry

  // ---------------------------------------------------------------- finished runs agree

  lemma {:induction false} FinishedHasRow(w: World, s: System, f: RefRun, id: StepId)
    requires |f.recs| <= |w.steps| && Clean(w, s.db.rows, f.recs, |f.recs|)
    ensures id in s.db.rows <==> exists i: nat :: i < |f.recs| && w.steps[i].id == id
  {
    if id in s.db.rows {
      var i: nat :| i < |w.steps| && w.steps[i].id == id;
      assert HasRow(w.steps, s.db.rows, i);
    }
    forall i: nat | i < |f.recs| && w.steps[i].id == id ensures id in s.db.rows {
      assert RowIs(w, s.db.rows, i, f.recs[i]);
    }
  }

  /**
    Any two finished runs of the same world agree, whatever was delivered twice, raced, crashed or
    approved by whom: in the run row, and in every step row but for its approver.
   */
  lemma {:induction false} FinishedRunsAgree(w: World, roles: map<UserId, Role>, events: seq<Event>,
                                             roles': map<UserId, Role>, events': seq<Event>)
    requires ValidSteps(w.steps)
    requires Terminal(Run(w, roles, events).db.run.status) && Terminal(Run(w, roles', events').db.run.status)
    ensures var a, b := Run(w, roles, events).db, Run(w, roles', events').db;
      && a.run == b.run
      && forall id :: (id in a.rows <==> id in b.rows)
           && (id in a.rows ==> SameButApprover(a.rows[id], b.rows[id]))
  {
    var f := Reference(w, []);
    var s, s' := Run(w, roles, events), Run(w, roles', events');
    var p := RowsFollowReference(w, roles, events);
    var p' := RowsFollowReference(w, roles', events');
    forall id
      ensures (id in s.db.rows <==> id in s'.db.rows)
           && (id in s.db.rows ==> SameButApprover(s.db.rows[id], s'.db.rows[id]))
    {
      FinishedHasRow(w, s, f, id);
      FinishedHasRow(w, s', f, id);
      if id in s.db.rows {
        var i: nat :| i < |f.recs| && w.steps[i].id == id;
        assert RowIs(w, s.db.rows, i, f.recs[i]) && RowIs(w, s'.db.rows, i, f.recs[i]);
      }
    }
  }

  // ---------------------------------------------------------------- the frontier

  /** What an executor that holds the run in a reachable state can rely on. */
  lemma {:induction false} HolderAt(w: World, roles: map<UserId, Role>, events: seq<Event>, t: nat, phase: Phase)
    returns (p: nat)
    requires ValidSteps(w.steps) && Holds(phase)
    requires var s := Run(w, roles, events); t < |s.threads| && s.threads[t].phase == phase
    ensures HolderOk(w, Run(w, roles, events).db, Reference(w, []), phase, p)
  {
    var h;
    p, h := InvRun(w, roles, events);
    assert h == Some(t);
  }

  /**
    The frontier: at every loop head of every segment, rows exist exactly for the steps before the
    loop's index. So the gate it may stand at is never found already approved.
   */
  lemma {:induction false} FrontierAtHead(w: World, roles: map<UserId, Role>, events: seq<Event>, t: nat, i: nat)
    requires ValidSteps(w.steps) && i < |w.steps|
    requires var s := Run(w, roles, events); t < |s.threads| && s.threads[t].phase.Head?
    ensures var s := Run(w, roles, events); var l := s.threads[t].phase.l;
      && (w.steps[i].id in s.db.rows <==> i < l.index)
      && (l.index < |w.steps| ==> !AlreadyApproved(l, w.steps[l.index]))
  {
    var p := HolderAt(w, roles, events, t, Run(w, roles, events).threads[t].phase);
    CleanRows(w, Run(w, roles, events).db.rows, Reference(w, []).recs, p, i);
  }

  predicate Skips(phase: Phase) { phase.Jumping? || phase.Ending? || phase.SkippingRest? }

  /** Whenever steps are to be marked skipped, none of them has a row: the conflict clause never applies. */
  lemma {:induction false} SkipsOnlyInsert(w: World, roles: map<UserId, Role>, events: seq<Event>, t: nat, i: nat)
    requires ValidSteps(w.steps) && i < |w.steps|
    requires var s := Run(w, roles, events); t < |s.threads| && Skips(s.threads[t].phase)
    ensures var s := Run(w, roles, events); w.steps[i].id in s.db.rows <==> i <= s.threads[t].phase.l.index
  {
    var p := HolderAt(w, roles, events, t, Run(w, roles, events).threads[t].phase);
    CleanRows(w, Run(w, roles, events).db.rows, Reference(w, []).recs, p, i);
  }

  /** The last row is an approved gate, and `from` is the position behind it. */
  predicate ResumesAt(w: World, rows: StepRows, from: Option<int>, gate: nat) {
    && gate < |w.steps| && w.steps[gate].kind.ApprovalGate?
    && w.steps[gate].id in rows && rows[w.steps[gate].id].status.Completed? && rows[w.steps[gate].id].approvedBy.Some?
    && (forall i :: gate < i < |w.steps| ==> w.steps[i].id !in rows)
    && from.Some? && FirstFrom(w.steps, from.value) == gate + 1
  }

  lemma {:induction false} BehindGateResumes(w: World, db: Db, f: RefRun, from: Option<int>, rows: StepRows, p: nat)
    requires ValidSteps(w.steps) && |f.recs| <= |w.steps| && HolderOk(w, db, f, Resuming(from, rows), p)
    ensures p >= 1
    ensures ResumesAt(w, db.rows, from, p - 1)
  {
    ResumeStartsBehindGate(w.steps, p - 1);
    forall i: nat | i < |w.steps| ensures w.steps[i].id in db.rows <==> i < p {
      CleanRows(w, db.rows, f.recs, p, i);
    }
    CleanRows(w, db.rows, f.recs, p, p - 1);
  }

  /** A resume knows its position, and begins directly behind the gate that was approved. */
  lemma {:induction false} ResumesBehindGate(w: World, roles: map<UserId, Role>, events: seq<Event>, t: nat,
                                             from: Option<int>, rows: StepRows)
    returns (gate: nat)
    requires ValidSteps(w.steps)
    requires var s := Run(w, roles, events); t < |s.threads| && s.threads[t].phase == Resuming(from, rows)
    ensures ResumesAt(w, Run(w, roles, events).db.rows, from, gate)
  {
    var p := HolderAt(w, roles, events, t, Resuming(from, rows));
    BehindGateResumes(w, Run(w, roles, events).db, Reference(w, []), from, rows, p);
    gate := p - 1;
  }

  // ---------------------------------------------------------------- the template context

  /** At every loop head of every segment the rows give the context read back from them. */
  lemma {:induction false} ContextAtHead(w: World, roles: map<UserId, Role>, events: seq<Event>, t: nat) returns (p: nat)
    requires ValidSteps(w.steps)
    requires var s := Run(w, roles, events); t < |s.threads| && s.threads[t].phase.Head?
    ensures var s, recs := Run(w, roles, events), Reference(w, []).recs;
      && s.threads[t].phase.l.index == p <= |recs|
      && s.threads[t].phase.l.ctx == ContextAt(w, recs, p)
      && Rebuilt(w, s.db.rows, |w.steps|) == RereadContext(w, recs, p)
  {
    p := HolderAt(w, roles, events, t, Run(w, roles, events).threads[t].phase);
    RebuiltIsContext(w, Run(w, roles, events).db.rows, Reference(w, []), p, |w.steps|);
  }

  /**
    At every loop head of every segment templates find, in the context in memory, the payload and the ids
    that the run was started with, and under each step's position exactly what became of that step.
   */
  lemma {:induction false} HeadSeesTheRun(w: World, roles: map<UserId, Role>, events: seq<Event>, t: nat, i: nat, rest: string)
    requires ValidSteps(w.steps) && i < |w.steps|
    requires var s := Run(w, roles, events); t < |s.threads| && s.threads[t].phase.Head?
    ensures var s, recs := Run(w, roles, events), Reference(w, []).recs;
      var l := s.threads[t].phase.l;
      && l.index <= |recs|
      && ContextLaws.SeesStart(w, l.ctx, rest)
      && Found(l.ctx, StepPath(w.steps[i].position, rest)) == ContextLaws.Shows(w, recs, l.index, i, rest)
  {
    var p := ContextAtHead(w, roles, events, t);
    ContextLaws.StartIsSeen(w, Reference(w, []).recs, p, rest);
    ContextLaws.ContextFinds(w, Reference(w, []).recs, p, i, rest);
  }

  // ---------------------------------------------------------------- gates

  /**
    Once a step's row shows it was started, every earlier gate was jumped over, or completed by a user
    who passed the authorization for that very gate as owner or editor.
   */
  lemma {:induction false} GateSafety(w: World, roles: map<UserId, Role>, events: seq<Event>, gate: nat, later: nat)
    requires ValidSteps(w.steps)
    requires gate < later < |w.steps| && w.steps[gate].kind.ApprovalGate?
    requires var rows := Run(w, roles, events).db.rows;
      w.steps[later].id in rows && rows[w.steps[later].id].startedAt
    ensures var s, id := Run(w, roles, events), w.steps[gate].id;
      && id in s.db.rows
      && (s.db.rows[id] == SKIPPED_ROW
          || (s.db.rows[id].status.Completed? && s.db.rows[id].approvedBy.Some?
              && exists r :: (r == Owner || r == Editor) && Pass(s.db.rows[id].approvedBy.value, id, r) in s.passed))
  {
    var s, f := Run(w, roles, events), Reference(w, []);
    var p, h := InvRun(w, roles, events);
    TokenSettled(w, s.db, s.calls, f, p, PhaseOf(s, h));
    assert HasRow(w.steps, s.db.rows, later);
    KindsFrom(w, []);
    assert RowIs(w, s.db.rows, gate, f.recs[gate]);
    assert FitsKind(w.steps[gate], f.recs[gate]);
    if f.recs[gate].Approved? {
      var id := w.steps[gate].id;
      var r :| Pass(s.db.rows[id].approvedBy.value, id, r) in s.passed;
    }
  }

  // ---------------------------------------------------------------- body calls

  lemma {:induction false} LogAhead(recs: seq<Rec>, p: nat, to: nat)
    requires p <= to <= |recs|
    ensures CallLog(recs, p) <= CallLog(recs, to)
  {
    if p < to {
      LogAhead(recs, p, to - 1);
    }
  }

  /** An executor never calls a body more often than the reference does. */
  lemma {:induction false} CallsBounded(w: World, db: Db, f: RefRun, phase: Phase, p: nat)
    requires Ready(w, db, f, phase, p) && p <= |f.recs|
    ensures CallsMade(phase) == 0 || (p < |f.recs| && CallsMade(phase) <= AttemptsOf(f.recs[p]))
  {
    if phase.Calling? || phase.Reporting? {
      var l, cfg := phase.l, phase.cfg;
      Retry.OutcomeCounts(w.body(w.steps[p], cfg, l.ctx), Retry.Limit(w.policy(cfg)), phase.attempt);
      AtHead(w, f, p);
    } else if phase.Storing? || phase.Failing? {
      AtHead(w, f, p);
    }
  }

  lemma {:induction false} LogIsPrefix(f: RefRun, p: nat, made: nat)
    requires p <= |f.recs| && (made == 0 || (p < |f.recs| && made <= AttemptsOf(f.recs[p])))
    ensures LogAt(f, p, made) <= CallLog(f.recs, |f.recs|)
  {
    if made == 0 {
      assert CallsFor(p, 0) == [];
      LogAhead(f.recs, p, |f.recs|);
    } else {
      assert CallsFor(p, made) <= CallsFor(p, AttemptsOf(f.recs[p]));
      assert LogAt(f, p, made) <= CallLog(f.recs, p + 1);
      LogAhead(f.recs, p + 1, |f.recs|);
    }
  }

  /** The body calls made so far are the first calls of the reference run; a finished run made them all. */
  lemma {:induction false} CallsFollowReference(w: World, roles: map<UserId, Role>, events: seq<Event>)
    requires ValidSteps(w.steps)
    ensures var s, recs := Run(w, roles, events), Reference(w, []).recs;
      && s.calls <= CallLog(recs, |recs|)
      && (Terminal(s.db.run.status) ==> s.calls == CallLog(recs, |recs|))
  {
    var s, f := Run(w, roles, events), Reference(w, []);
    var p, h := InvRun(w, roles, events);
    OneTokenNow(w, s, f, p, h);
    match h
    case None =>
      LogIsPrefix(f, p, 0);
      assert CallsFor(p, 0) == [];
    case Some(t) =>
      var phase := s.threads[t].phase;
      HolderShows(w, s.db, f, phase, p);
      CallsBounded(w, s.db, f, phase, p);
      LogIsPrefix(f, p, CallsMade(phase));
  }

  predicate Before(a: Call, b: Call) {
    a.index < b.index || (a.index == b.index && a.attempt < b.attempt)
  }

  lemma {:induction false} LogOrdered(recs: seq<Rec>, count: nat)
    requires count <= |recs|
    ensures forall c :: c in CallLog(recs, count) ==> c.index < count
    ensures forall a, b :: 0 <= a < b < |CallLog(recs, count)| ==> Before(CallLog(recs, count)[a], CallLog(recs, count)[b])
  {
    if count > 0 {
      LogOrdered(recs, count - 1);
      var earlier := CallLog(recs, count - 1);
      assert forall a :: 0 <= a < |earlier| ==> earlier[a] in earlier;
    }
  }

  /** No attempt of any step is ever made twice: calls go up in step order, then in attempt order. */
  lemma {:induction false} NoCallTwice(w: World, roles: map<UserId, Role>, events: seq<Event>, a: nat, b: nat)
    requires ValidSteps(w.steps) && a < b < |Run(w, roles, events).calls|
    ensures Before(Run(w, roles, events).calls[a], Run(w, roles, events).calls[b])
  {
    var recs := Reference(w, []).recs;
    CallsFollowReference(w, roles, events);
    LogOrdered(recs, |recs|);
  }

  // ---------------------------------------------------------------- coverage

  function StatusAt(w: World, s: System, i: nat): Option<StepStatus>
    requires i < |w.steps|
  {
    if w.steps[i].id in s.db.rows then Some(s.db.rows[w.steps[i].id].status) else None
  }

  function StatusOf(f: RefRun, i: nat): Option<StepStatus> {
    if i >= |f.recs| then None
    else if f.recs[i].Jumped? then Some(Skipped)
    else if Good(f.recs[i]) then Some(Completed) else Some(Failed)
  }

  lemma {:induction false} StatusesAreRecorded(w: World, s: System, f: RefRun)
    requires |f.recs| <= |w.steps| && Clean(w, s.db.rows, f.recs, |f.recs|)
    ensures forall i: nat :: i < |w.steps| ==> StatusAt(w, s, i) == StatusOf(f, i)
  {
    forall i: nat | i < |w.steps| ensures StatusAt(w, s, i) == StatusOf(f, i) {
      if i < |f.recs| {
        assert RowIs(w, s.db.rows, i, f.recs[i]);
      } else {
        assert !HasRow(w.steps, s.db.rows, i);
      }
    }
  }

  predicate CompletedOrSkipped(status: Option<StepStatus>) {
    status == Some(Completed) || status == Some(Skipped)
  }

  /** A completed run has one row for every step, and skips exactly what a jump or an end leaves out. */
  lemma {:induction false} CompletedRunCoverage(w: World, roles: map<UserId, Role>, events: seq<Event>, i: nat)
    requires ValidSteps(w.steps) && i < |w.steps|
    requires Run(w, roles, events).db.run.status.RunCompleted?
    ensures var s := Run(w, roles, events);
      && CompletedOrSkipped(StatusAt(w, s, i))
      && (StatusAt(w, s, i) == Some(Skipped) <==> exists j: nat :: JumpsOver(w, Reference(w, []), j, i))
  {
    var s, f := Run(w, roles, events), Reference(w, []);
    var p := RowsFollowReference(w, roles, events);
    ShapeFrom(w, []);
    StatusesAreRecorded(w, s, f);
    SkippedExactly(w, f, i);
  }

  /** Rows behind step `bad`: all skipped, or none at all. */
  predicate RestSkipped(w: World, s: System, bad: nat) {
    forall i: nat :: bad < i < |w.steps| ==> StatusAt(w, s, i) == Some(Skipped)
  }

  predicate RestUnmarked(w: World, s: System, bad: nat) {
    forall i: nat :: bad < i < |w.steps| ==> StatusAt(w, s, i) == None
  }

  /**
    A failed run: completed or skipped rows, one failed row, and behind it skipped rows to the end when
    the body of that step gave up; when it succeeded, with a branch that cannot be followed, no rows at all.
   */
  lemma {:induction false} FailedRunCoverage(w: World, roles: map<UserId, Role>, events: seq<Event>) returns (bad: nat)
    requires ValidSteps(w.steps) && Run(w, roles, events).db.run.status.RunFailed?
    ensures var s, f := Run(w, roles, events), Reference(w, []);
      && bad < |w.steps| && StatusAt(w, s, bad) == Some(Failed)
      && (forall i: nat :: i < bad ==> CompletedOrSkipped(StatusAt(w, s, i)))
      && (BodyGivesUp(w, f, bad) || TargetIsRefused(w, f, bad))
      && (BodyGivesUp(w, f, bad) ==> RestSkipped(w, s, bad))
      && (TargetIsRefused(w, f, bad) ==> RestUnmarked(w, s, bad))
  {
    var s, f := Run(w, roles, events), Reference(w, []);
    var p := RowsFollowReference(w, roles, events);
    bad := FailedAt(w, f);
    StatusesAreRecorded(w, s, f);
    FirstHead(w, []);
    BadIsAtHead(w, f, 0, bad);
    AtHead(w, f, bad);
  }

  lemma {:induction false} FailedAt(w: World, f: RefRun) returns (bad: nat)
    requires IsReference(w, f) && f.ending.Fails?
    ensures bad < |f.recs| && StatusOf(f, bad) == Some(Failed)
    ensures forall i: nat :: i < bad ==> CompletedOrSkipped(StatusOf(f, i))
    ensures if f.recs[bad].BodyFailed? then forall i: nat :: bad < i < |w.steps| ==> StatusOf(f, i) == Some(Skipped)
            else f.recs[bad].BadBranch? && forall i: nat :: bad < i ==> StatusOf(f, i) == None
  {
    ShapeFrom(w, []);
    bad :| 0 <= bad < |f.recs| && (forall j :: 0 <= j < bad ==> Good(f.recs[j])) &&
        ((f.recs[bad].BodyFailed? && |f.recs| == |w.steps| && AllJumped(f.recs, bad + 1, |w.steps|))
         || (f.recs[bad].BadBranch? && |f.recs| == bad + 1));
  }

  // ---------------------------------------------------------------- starts

  /** The step that an event starts: the write of its `running` or, for a gate, `paused` row. */
  function Started(w: World, s: System, e: Event): Option<nat> {
    if !e.Advance? || !CanAdvance(s, e.thread) || !s.threads[e.thread].phase.Head? then None
    else
      var l := s.threads[e.thread].phase.l;
      if l.index >= |w.steps| || (w.steps[l.index].kind.ApprovalGate? && AlreadyApproved(l, w.steps[l.index]))
      then None else Some(l.index)
  }

  /** The steps started by the events, in order. */
  function Starts(w: World, s: System, events: seq<Event>): seq<nat>
    requires Placed(w, s)
    decreases |events|
  {
    if events == [] then []
    else
      var rest := Starts(w, Apply(w, s, events[0]), events[1..]);
      match Started(w, s, events[0])
      case None => rest
      case Some(i) => [i] + rest
  }

  lemma {:induction false} RowsStay(w: World, s: System, e: Event, id: StepId)
    requires Placed(w, s) && id in s.db.rows
    ensures id in Apply(w, s, e).db.rows
  {
  }

  /** At a start the rows are exactly those of the steps before, and afterwards the step has its own. */
  lemma {:induction false} StartsAtFrontier(w: World, s: System, f: RefRun, p: nat, h: Option<nat>, e: Event)
    requires Inv(w, s, f, p, h) && Started(w, s, e).Some?
    ensures var i := Started(w, s, e).value;
      && i < |w.steps| && w.steps[i].id in Apply(w, s, e).db.rows
      && forall k :: 0 <= k < |w.steps| ==> (w.steps[k].id in s.db.rows <==> k < i)
  {
    var t, l := e.thread, s.threads[e.thread].phase.l;
    assert h == Some(t);
    assert HeadOk(w, s.db, f, l, p);
    forall k: nat | k < |w.steps| ensures w.steps[k].id in s.db.rows <==> k < p {
      CleanRows(w, s.db.rows, f.recs, p, k);
    }
  }

  /** Only steps before step `i` have rows. */
  predicate RowsBefore(w: World, s: System, i: nat) {
    forall k :: 0 <= k < |w.steps| && w.steps[k].id in s.db.rows ==> k < i
  }

  /** Starts from `s` on: rising, each of a step before which all rows lie. */
  predicate Climbs(w: World, s: System, starts: seq<nat>) {
    && (forall a, b :: 0 <= a < b < |starts| ==> starts[a] < starts[b])
    && forall a :: 0 <= a < |starts| ==> starts[a] < |w.steps| && RowsBefore(w, s, starts[a])
  }

  lemma {:induction false} ClimbsEarlier(w: World, s: System, e: Event, starts: seq<nat>)
    requires Placed(w, s) && Climbs(w, Apply(w, s, e), starts)
    ensures Climbs(w, s, starts)
  {
    forall k | 0 <= k < |w.steps| && w.steps[k].id in s.db.rows ensures w.steps[k].id in Apply(w, s, e).db.rows {
      RowsStay(w, s, e, w.steps[k].id);
    }
  }

  lemma {:induction false} ClimbsWith(w: World, s: System, e: Event, i: nat, rest: seq<nat>)
    requires Placed(w, s) && Climbs(w, Apply(w, s, e), rest)
    requires i < |w.steps| && w.steps[i].id in Apply(w, s, e).db.rows && RowsBefore(w, s, i)
    ensures Climbs(w, s, [i] + rest)
  {
    ClimbsEarlier(w, s, e, rest);
    forall a | 0 <= a < |rest| ensures i < rest[a] {
      assert RowsBefore(w, Apply(w, s, e), rest[a]);
    }
  }

  lemma {:induction false} StartsAscendFrom(w: World, s: System, f: RefRun, p: nat, h: Option<nat>, events: seq<Event>)
    requires Inv(w, s, f, p, h)
    ensures Climbs(w, s, Starts(w, s, events))
    decreases |events|
  {
    if events != [] {
      var e := events[0];
      var q, g := InvStep(w, s, f, p, h, e);
      var rest := Starts(w, Apply(w, s, e), events[1..]);
      StartsAscendFrom(w, Apply(w, s, e), f, q, g, events[1..]);
      match Started(w, s, e)
      case None => ClimbsEarlier(w, s, e, rest);
      case Some(i) =>
        StartsAtFrontier(w, s, f, p, h, e);
        ClimbsWith(w, s, e, i, rest);
    }
  }

  /** Over all segments each step, gates included, is started at most once, and in strictly increasing order. */
  lemma {:induction false} StartsAscend(w: World, roles: map<UserId, Role>, events: seq<Event>, a: nat, b: nat)
    requires ValidSteps(w.steps)
    requires a < b < |Starts(w, Initial(roles), events)|
    ensures Starts(w, Initial(roles), events)[a] < Starts(w, Initial(roles), events)[b] < |w.steps|
  {
    InvInitial(w, roles);
    StartsAscendFrom(w, Initial(roles), Reference(w, []), 0, None, events);
  }

  // ---------------------------------------------------------------- the run row

  /** What the columns of a run row tell about its status. */
  predicate RowTells(run: RunRow) {
    && (run.startedAt <==> !run.status.RunPending?)
    && (run.pausedAt <==> run.status.RunPaused?)
    && (run.completedAt <==> Terminal(run.status))
    && (run.error.Some? <==> run.status.RunFailed?)
    && (run.status.RunPaused? ==> run.resumePosition.Some?)
    && (run.status.RunPending? || Terminal(run.status) ==> run.resumePosition.None?)
  }

  lemma {:induction false} HolderRow(w: World, db: Db, f: RefRun, phase: Phase, p: nat)
    requires |f.recs| <= |w.steps| && HolderOk(w, db, f, phase, p)
    ensures Frontier.Active(db.run) || (Waits(db.run) && db.run.resumePosition.Some?)
  {
  }

  lemma {:induction false} IdleRow(w: World, db: Db, f: RefRun, p: nat)
    requires |f.recs| <= |w.steps| && IdleOk(w, db, f, p)
    ensures RowTells(db.run)
  {
  }

  /**
    In every reachable state the run row was started unless it is pending, has a pause time exactly
    while it is paused, an end time exactly when it is over, an error exactly when it failed, and a
    position to resume at whenever it is paused, and never while it is pending or over.
   */
  lemma {:induction false} RunRowTells(w: World, roles: map<UserId, Role>, events: seq<Event>)
    requires ValidSteps(w.steps)
    ensures RowTells(Run(w, roles, events).db.run)
  {
    var s, f := Run(w, roles, events), Reference(w, []);
    var p, h := InvRun(w, roles, events);
    match h
    case None => IdleRow(w, s.db, f, p);
    case Some(t) => HolderRow(w, s.db, f, s.threads[t].phase, p);
  }
}
