/** The invariant of the protocol, and that every event keeps it. */
module Invariant {
  import opened Base
  import opened Json
  import opened Workflow
  import opened Repository
  import opened ReferenceRun
  import opened Engine
  import opened Authz
  import opened Frontier
  import opened Keeps
  import opened Protocol

  // ---------------------------------------------------------------- the body calls

  function CallsFor(index: nat, count: nat): seq<Call> {
    seq(count, k requires 0 <= k => Call(index, k + 1))
  }

  function AttemptsOf(rec: Rec): nat {
    match rec
    case Done(_, _, k) => k
    case BodyFailed(_, k, _) => k
    case BadBranch(_, _, k, _) => k
    case _ => 0
  }

  /** The calls that `recs[..count]` stand for: each step's attempts `1..k`, in step order. */
  function CallLog(recs: seq<Rec>, count: nat): seq<Call>
    requires count <= |recs|
  {
    if count == 0 then [] else CallLog(recs, count - 1) + CallsFor(count - 1, AttemptsOf(recs[count - 1]))
  }

  /** Calls already made for the step in flight. */
  function CallsMade(phase: Phase): nat {
    match phase
    case Calling(_, _, k) => if k == 0 then 0 else k - 1
    case Reporting(_, _, k, _) => k
    case Storing(_, _, k, _) => k
    case Failing(_, _, k, _) => k
    case Rejecting(_, k, _) => k
    case _ => 0
  }

  ghost function LogAt(f: RefRun, p: nat, made: nat): seq<Call>
    requires p <= |f.recs|
  {
    CallLog(f.recs, p) + CallsFor(p, made)
  }

  lemma {:induction false} LogGrows(f: RefRun, p: nat)
    requires p < |f.recs|
    ensures LogAt(f, p + 1, 0) == LogAt(f, p, AttemptsOf(f.recs[p]))
  {
    assert CallsFor(p + 1, 0) == [];
  }

  lemma {:induction false} JumpsMakeNoCalls(f: RefRun, from: nat, to: nat)
    requires AllJumped(f.recs, from, to)
    ensures LogAt(f, to, 0) == LogAt(f, from, 0)
  {
    if from < to {
      JumpsMakeNoCalls(f, from, to - 1);
      LogGrows(f, to - 1);
    }
  }

  // ---------------------------------------------------------------- the invariant

  /** The user passed the check for the gate, in whatever role. */
  ghost predicate Vetted(passed: set<Pass>, user: UserId, gate: StepId) {
    exists r :: Pass(user, gate, r) in passed
  }

  /** The gate is one that the run has settled, or the one it waits at. */
  ghost predicate GateReached(w: World, gate: StepId, p: nat, waits: bool) {
    exists i: nat :: i < |w.steps| && w.steps[i].id == gate && (i < p || (i == p && waits))
  }

  /** An approver that passed the check is bound to a gate that was reached and not left unapproved. */
  ghost predicate ContenderOk(w: World, s: System, phase: Phase, p: nat, idle: bool) {
    phase.Approving? ==>
      && Vetted(s.passed, phase.user, phase.gate)
      && GateReached(w, phase.gate, p, idle && s.db.run.status.RunPaused?)
  }

  lemma {:induction false} VettedStays(passed: set<Pass>, more: set<Pass>, user: UserId, gate: StepId)
    requires passed <= more && Vetted(passed, user, gate)
    ensures Vetted(more, user, gate)
  {
    var r :| Pass(user, gate, r) in passed;
    assert Pass(user, gate, r) in more;
  }

  lemma {:induction false} GateStaysReached(w: World, gate: StepId, p: nat, q: nat, waits: bool, stillWaits: bool)
    requires GateReached(w, gate, p, waits) && p <= q && (p == q && waits ==> stillWaits)
    ensures GateReached(w, gate, q, stillWaits)
  {
  }

  lemma {:induction false} ContenderStays(w: World, s: System, after: System, phase: Phase, p: nat, q: nat, idle: bool, stillIdle: bool)
    requires ContenderOk(w, s, phase, p, idle) && s.passed <= after.passed && p <= q
    requires p == q && idle && s.db.run.status.RunPaused? ==> stillIdle && after.db.run.status.RunPaused?
    ensures ContenderOk(w, after, phase, q, stillIdle)
  {
    if phase.Approving? {
      VettedStays(s.passed, after.passed, phase.user, phase.gate);
      GateStaysReached(w, phase.gate, p, q, idle && s.db.run.status.RunPaused?, stillIdle && after.db.run.status.RunPaused?);
    }
  }

  /** Whoever a row names as approver passed the check for it, as owner or editor. */
  ghost predicate Vouched(s: System) {
    && (forall id :: id in s.db.rows && s.db.rows[id].approvedBy.Some? ==>
          Vetted(s.passed, s.db.rows[id].approvedBy.value, id))
    && (forall x :: x in s.passed ==> MayAct(x.role))
  }

  ghost predicate HolderIs(s: System, h: Option<nat>) {
    forall t: nat :: t < |s.threads| ==> (Holds(s.threads[t].phase) <==> h == Some(t))
  }

  /** `p` records are settled, and the run is idle or held by an executor in the given phase. */
  ghost predicate TokenOk(w: World, db: Db, calls: seq<Call>, f: RefRun, p: nat, holder: Option<Phase>) {
    && IsReference(w, f) && |f.recs| <= |w.steps| && p <= |f.recs|
    && match holder
       case None => IdleOk(w, db, f, p) && calls == LogAt(f, p, 0)
       case Some(phase) => HolderOk(w, db, f, phase, p) && calls == LogAt(f, p, CallsMade(phase))
  }

  function PhaseOf(s: System, h: Option<nat>): Option<Phase>
    requires h.Some? ==> h.value < |s.threads|
  {
    if h.Some? then Some(s.threads[h.value].phase) else None
  }

  ghost predicate ContendersOk(w: World, s: System, p: nat, idle: bool) {
    forall t: nat :: t < |s.threads| ==> ContenderOk(w, s, s.threads[t].phase, p, idle)
  }

  /** The invariant: `h` is the executor that holds the run, alive or crashed. */
  ghost predicate Inv(w: World, s: System, f: RefRun, p: nat, h: Option<nat>) {
    && ValidSteps(w.steps) && Placed(w, s)
    && (h.Some? ==> h.value < |s.threads|) && HolderIs(s, h)
    && TokenOk(w, s.db, s.calls, f, p, PhaseOf(s, h))
    && ContendersOk(w, s, p, h.None?)
    && Vouched(s)
  }

  // ---------------------------------------------------------------- events that make no request

  lemma {:induction false} InvInitial(w: World, roles: map<UserId, Role>)
    requires ValidSteps(w.steps)
    ensures Inv(w, Initial(roles), Reference(w, []), 0, None)
  {
    var f := Reference(w, []);
    FirstHead(w, []);
    assert CallsFor(0, 0) == [];
  }

  /** What an event that leaves the rows alone has to show: its executors stand as before, or contend. */
  lemma {:induction false} InvSameRows(w: World, s: System, after: System, f: RefRun, p: nat, h: Option<nat>)
    requires Inv(w, s, f, p, h) && Placed(w, after)
    requires after.db == s.db && after.calls == s.calls && after.passed == s.passed
    requires |s.threads| <= |after.threads| && HolderIs(after, h) && PhaseOf(after, h) == PhaseOf(s, h)
    requires forall t: nat :: t < |after.threads| ==>
               if t < |s.threads| then after.threads[t].phase == s.threads[t].phase else !after.threads[t].phase.Approving?
    ensures Inv(w, after, f, p, h)
  {
    forall t: nat | t < |after.threads| ensures ContenderOk(w, after, after.threads[t].phase, p, h.None?) {
      if t < |s.threads| {
        ContenderStays(w, s, after, s.threads[t].phase, p, p, h.None?, h.None?);
      }
    }
  }

  lemma {:induction false} InvSpawn(w: World, s: System, f: RefRun, p: nat, h: Option<nat>, phase: Phase)
    requires Inv(w, s, f, p, h) && (phase.Delivered? || phase.Asked?)
    ensures Inv(w, s.(threads := s.threads + [Thread(phase, true)]), f, p, h)
  {
    InvSameRows(w, s, s.(threads := s.threads + [Thread(phase, true)]), f, p, h);
  }

  lemma {:induction false} InvCrash(w: World, s: System, f: RefRun, p: nat, h: Option<nat>, t: nat)
    requires Inv(w, s, f, p, h) && t < |s.threads|
    ensures Inv(w, s.(threads := s.threads[t := s.threads[t].(alive := false)]), f, p, h)
  {
    var after := s.(threads := s.threads[t := s.threads[t].(alive := false)]);
    assert forall u: nat :: u < |s.threads| ==> after.threads[u].phase == s.threads[u].phase;
    InvSameRows(w, s, after, f, p, h);
  }

  lemma {:induction false} InvSetRole(w: World, s: System, f: RefRun, p: nat, h: Option<nat>,
                                      user: UserId, role: Option<Role>)
    requires Inv(w, s, f, p, h)
    ensures Inv(w, Apply(w, s, SetRole(user, role)), f, p, h)
  {
    InvSameRows(w, s, Apply(w, s, SetRole(user, role)), f, p, h);
  }

  // ---------------------------------------------------------------- requests

  /** The system after executor `t` made a request. */
  function Moved(w: World, s: System, t: nat): System
    requires Placed(w, s) && CanAdvance(s, t)
  {
    Apply(w, s, Advance(t))
  }

  /** The executor that holds the run shows in the run row. */
  lemma {:induction false} HolderShows(w: World, db: Db, f: RefRun, phase: Phase, p: nat)
    requires |f.recs| <= |w.steps| && HolderOk(w, db, f, phase, p)
    ensures db.run.status.RunRunning? || (db.run.status.RunPaused? && (phase.GateClaimed? || phase.Resuming?))
  {
  }

  lemma {:induction false} ContendersKept(w: World, s: System, after: System, p: nat, q: nat,
                                          idle: bool, stillIdle: bool, t: nat, next: Phase)
    requires ContendersOk(w, s, p, idle)
    requires t < |s.threads| && after.threads == s.threads[t := Thread(next, true)]
    requires s.passed <= after.passed && p <= q
    requires p == q && idle && s.db.run.status.RunPaused? ==> stillIdle && after.db.run.status.RunPaused?
    requires ContenderOk(w, after, next, q, stillIdle)
    ensures ContendersOk(w, after, q, stillIdle)
  {
    forall u: nat | u < |after.threads| ensures ContenderOk(w, after, after.threads[u].phase, q, stillIdle) {
      if u != t {
        assert after.threads[u] == s.threads[u];
        ContenderStays(w, s, after, s.threads[u].phase, p, q, idle, stillIdle);
      }
    }
  }

  /** A request that writes nothing and does not take the run. */
  lemma {:induction false} InvRead(w: World, s: System, f: RefRun, p: nat, h: Option<nat>, t: nat, next: Phase,
                                   passed: set<Pass>)
    requires Inv(w, s, f, p, h) && t < |s.threads| && h != Some(t) && !Holds(next)
    requires forall x :: x in passed ==> MayAct(x.role)
    requires var after := s.(threads := s.threads[t := Thread(next, true)], passed := s.passed + passed);
      ContenderOk(w, after, next, p, h.None?)
    ensures Inv(w, s.(threads := s.threads[t := Thread(next, true)], passed := s.passed + passed), f, p, h)
  {
    var after := s.(threads := s.threads[t := Thread(next, true)], passed := s.passed + passed);
    ContendersKept(w, s, after, p, p, h.None?, h.None?, t, next);
    assert PhaseOf(after, h) == PhaseOf(s, h);
    assert forall u: nat :: u < |s.threads| && u != t ==> after.threads[u] == s.threads[u];
  }

  lemma {:induction false} InvClaim(w: World, s: System, f: RefRun, p: nat, h: Option<nat>, t: nat)
    requires Inv(w, s, f, p, h) && t < |s.threads| && h != Some(t)
    requires s.db.run.status.RunPending?
    ensures h == None
    ensures Inv(w, s.(db := ClaimRun(s.db).0, threads := s.threads[t := Thread(Claimed, true)]), f, p, Some(t))
  {
    if h.Some? {
      HolderShows(w, s.db, f, s.threads[h.value].phase, p);
    }
    var after := s.(db := ClaimRun(s.db).0, threads := s.threads[t := Thread(Claimed, true)]);
    ContendersKept(w, s, after, p, p, true, false, t, Claimed);
    assert PhaseOf(after, Some(t)) == Some(Claimed);
    assert forall u: nat :: u < |s.threads| && u != t ==> after.threads[u] == s.threads[u];
  }

  lemma {:induction false} HolderSettled(w: World, db: Db, f: RefRun, phase: Phase, p: nat)
    requires |f.recs| <= |w.steps| && HolderOk(w, db, f, phase, p)
    ensures Settled(w, db.rows, f.recs, p)
  {
    match phase
    case Pausing(_) =>
    case Calling(_, _, _) =>
    case Reporting(_, _, _, _) =>
    case Storing(_, _, _, _) =>
    case Failing(_, _, _, _) =>
    case Rejecting(_, _, _) =>
    case _ =>
  }

  /** Whoever holds the run, the rows are the first `p` records and at most one row in flight. */
  lemma {:induction false} TokenSettled(w: World, db: Db, calls: seq<Call>, f: RefRun, p: nat, holder: Option<Phase>)
    requires TokenOk(w, db, calls, f, p, holder)
    ensures Settled(w, db.rows, f.recs, p)
  {
    if holder.Some? {
      HolderSettled(w, db, f, holder.value, p);
    }
  }

  ghost predicate PausedAtIndex(steps: seq<Step>, rows: StepRows, i: nat)
    requires i < |steps|
  {
    HasRow(steps, rows, i) && rows[steps[i].id].status.Paused?
  }

  /** A row that waits for approval is the row at the frontier. */
  lemma {:induction false} PausedRowIsLast(w: World, db: Db, f: RefRun, p: nat)
    requires ValidSteps(w.steps) && |f.recs| <= |w.steps| && Settled(w, db.rows, f.recs, p)
    ensures forall i: nat :: i < |w.steps| && i != p ==> !PausedAtIndex(w.steps, db.rows, i)
  {
    forall i: nat | i < p ensures !PausedAtIndex(w.steps, db.rows, i) {
      assert RowIs(w, db.rows, i, f.recs[i]);
    }
  }

  lemma {:induction false} ApprovedGateSettles(w: World, db: Db, f: RefRun, p: nat, user: UserId)
    requires ValidSteps(w.steps) && IsReference(w, f) && p <= |f.recs| <= |w.steps|
    requires db.run.status.RunPaused? && WaitingOk(w, db, f, p)
    ensures var (after, ok) := ClaimApproval(db, w.steps[p].id, user);
      ok && p < |f.recs| && HolderOk(w, after, f, GateClaimed, p + 1)
  {
    var id := w.steps[p].id;
    AtHead(w, f, p);
    var row := db.rows[id].(status := Completed, approvedBy := Some(user), approvedAt := true,
                            completedAt := true, error := None);
    SettleAt(w, db.rows, f.recs, p, row);
  }

  /** A gate whose row can be claimed by an approver that passed the check is the one the run waits at. */
  lemma {:induction false} ClaimedGateWaits(w: World, s: System, f: RefRun, p: nat, h: Option<nat>, t: nat,
                                            user: UserId, gate: StepId)
    requires Inv(w, s, f, p, h) && t < |s.threads| && s.threads[t].phase == Approving(user, gate)
    requires ClaimApproval(s.db, gate, user).1
    ensures h == None && s.db.run.status.RunPaused? && p < |w.steps| && w.steps[p].id == gate
    ensures WaitingOk(w, s.db, f, p)
  {
    assert ContenderOk(w, s, s.threads[t].phase, p, h.None?);
    TokenSettled(w, s.db, s.calls, f, p, PhaseOf(s, h));
    var i: nat :| i < |w.steps| && w.steps[i].id == gate
      && (i < p || (i == p && h.None? && s.db.run.status.RunPaused?));
    PausedRowIsLast(w, s.db, f, p);
    assert PausedAtIndex(w.steps, s.db.rows, i);
  }

  lemma {:induction false} InvApprove(w: World, s: System, f: RefRun, p: nat, h: Option<nat>, t: nat,
                                      user: UserId, gate: StepId)
    requires Inv(w, s, f, p, h) && t < |s.threads| && s.threads[t].phase == Approving(user, gate)
    requires ClaimApproval(s.db, gate, user).1
    ensures h == None && p < |f.recs|
    ensures Inv(w, s.(db := ClaimApproval(s.db, gate, user).0, threads := s.threads[t := Thread(GateClaimed, true)]),
                f, p + 1, Some(t))
  {
    ClaimedGateWaits(w, s, f, p, h, t, user, gate);
    ApprovedGateSettles(w, s.db, f, p, user);
    AtHead(w, f, p);
    LogGrows(f, p);
    var after := s.(db := ClaimApproval(s.db, gate, user).0, threads := s.threads[t := Thread(GateClaimed, true)]);
    ContendersKept(w, s, after, p, p + 1, true, false, t, GateClaimed);
    assert PhaseOf(after, Some(t)) == Some(GateClaimed);
    assert forall u: nat :: u < |s.threads| && u != t ==> after.threads[u] == s.threads[u];
  }

  /** The executor's writes name no approver. */
  lemma {:induction false} ExecKeepsApprovers(w: World, db: Db, phase: Phase)
    requires Holds(phase) && OnStep(w, phase)
    ensures var after := Exec(w, db, phase).0; forall id :: id in after.rows && after.rows[id].approvedBy.Some? ==>
      id in db.rows && db.rows[id].approvedBy == after.rows[id].approvedBy
  {
  }

  /** The call history after one request of the executor that holds the run. */
  ghost predicate LogFollows(w: World, db: Db, f: RefRun, phase: Phase, p: nat)
    requires Holds(phase) && OnStep(w, phase) && p <= |f.recs|
  {
    var next := Exec(w, db, phase).1;
    var q := FrontierAfter(f, phase, next, p);
    q <= |f.recs| && LogAt(f, q, CallsMade(next)) == LogAt(f, p, CallsMade(phase)) + Called(phase)
  }

  lemma {:induction false} CallingCalls(w: World, db: Db, f: RefRun, l: Local, cfg: Json, k: nat, p: nat)
    requires Ready(w, db, f, Calling(l, cfg, k), p) && p <= |f.recs|
    ensures OnStep(w, Calling(l, cfg, k)) && LogFollows(w, db, f, Calling(l, cfg, k), p)
  {
    assert CallsFor(p, k) == CallsFor(p, k - 1) + [Call(p, k)];
  }

  lemma {:induction false} StoringCalls(w: World, db: Db, f: RefRun, l: Local, cfg: Json, k: nat, stored: StepResult, p: nat)
    requires Ready(w, db, f, Storing(l, cfg, k, stored), p) && p <= |f.recs|
    ensures OnStep(w, Storing(l, cfg, k, stored)) && LogFollows(w, db, f, Storing(l, cfg, k, stored), p)
  {
    StoredAttempts(w, db, f, l, cfg, k, stored, p);
    if !Route(w.steps, stored.branch, p).Invalid? {
      LogGrows(f, p);
    }
    assert LogAt(f, p, k) + [] == LogAt(f, p, k);
  }

  /** After a stored output the record has its attempts, unless the step is still to be rejected. */
  lemma {:induction false} StoredAttempts(w: World, db: Db, f: RefRun, l: Local, cfg: Json, k: nat, stored: StepResult, p: nat)
    requires Ready(w, db, f, Storing(l, cfg, k, stored), p) && p <= |f.recs|
    ensures OnStep(w, Storing(l, cfg, k, stored)) && p < |f.recs|
    ensures var next := Exec(w, db, Storing(l, cfg, k, stored)).1;
      if Route(w.steps, stored.branch, p).Invalid? then next.Rejecting? && CallsMade(next) == k
      else !next.Rejecting? && CallsMade(next) == 0 && AttemptsOf(f.recs[p]) == k
  {
    AtHead(w, f, p);
  }

  lemma {:induction false} FailingCalls(w: World, db: Db, f: RefRun, l: Local, cfg: Json, k: nat, e: Message, p: nat)
    requires Ready(w, db, f, Failing(l, cfg, k, e), p) && p <= |f.recs|
    ensures OnStep(w, Failing(l, cfg, k, e)) && LogFollows(w, db, f, Failing(l, cfg, k, e), p)
  {
    AtHead(w, f, p);
    LogGrows(f, p);
  }

  /** Leaving a step over steps that were jumped over makes no calls. */
  lemma {:induction false} LeavingCalls(w: World, db: Db, f: RefRun, phase: Phase, p: nat)
    requires Ready(w, db, f, phase, p) && p <= |f.recs| && OnStep(w, phase)
    requires phase.SkippingRest? || phase.Jumping? || phase.Ending?
    ensures LogFollows(w, db, f, phase, p)
  {
    var to := if phase.Jumping? then phase.target else |f.recs|;
    JumpsMakeNoCalls(f, p, to);
    assert FrontierAfter(f, phase, Exec(w, db, phase).1, p) == to;
  }

  lemma {:induction false} RejectingCalls(w: World, db: Db, f: RefRun, l: Local, k: nat, e: Message, p: nat)
    requires Ready(w, db, f, Rejecting(l, k, e), p) && p <= |f.recs|
    ensures OnStep(w, Rejecting(l, k, e)) && LogFollows(w, db, f, Rejecting(l, k, e), p)
  {
    LogGrows(f, p);
  }

  /** Phases whose next request neither calls a body nor settles a record. */
  predicate Quiet(phase: Phase) {
    && Holds(phase) && !phase.Calling? && !phase.Storing? && !phase.Failing?
    && !phase.SkippingRest? && !phase.Jumping? && !phase.Ending? && !phase.Rejecting?
  }

  lemma {:induction false} QuietExec(w: World, db: Db, f: RefRun, phase: Phase, p: nat)
    requires Quiet(phase) && OnStep(w, phase)
    ensures Called(phase) == []
    ensures var next := Exec(w, db, phase).1; FrontierAfter(f, phase, next, p) == p && CallsMade(next) == CallsMade(phase)
  {
  }

  lemma {:induction false} QuietCalls(w: World, db: Db, f: RefRun, phase: Phase, p: nat)
    requires Quiet(phase) && OnStep(w, phase) && p <= |f.recs|
    ensures LogFollows(w, db, f, phase, p)
  {
    QuietExec(w, db, f, phase, p);
    assert LogAt(f, p, CallsMade(phase)) + [] == LogAt(f, p, CallsMade(phase));
  }

  /** The history of body calls follows the records, request by request. */
  lemma {:induction false} ExecCalls(w: World, db: Db, f: RefRun, phase: Phase, p: nat)
    requires Ready(w, db, f, phase, p) && OnStep(w, phase) && p <= |f.recs|
    ensures LogFollows(w, db, f, phase, p)
  {
    match phase
    case Calling(l, cfg, k) => CallingCalls(w, db, f, l, cfg, k, p);
    case Storing(l, cfg, k, stored) => StoringCalls(w, db, f, l, cfg, k, stored, p);
    case Failing(l, cfg, k, e) => FailingCalls(w, db, f, l, cfg, k, e, p);
    case Rejecting(l, k, e) => RejectingCalls(w, db, f, l, k, e, p);
    case _ =>
      if phase.SkippingRest? || phase.Jumping? || phase.Ending? {
        LeavingCalls(w, db, f, phase, p);
      } else {
        QuietCalls(w, db, f, phase, p);
      }
  }

  lemma {:induction false} InvHolder(w: World, s: System, f: RefRun, p: nat, t: nat)
    requires Inv(w, s, f, p, Some(t)) && CanAdvance(s, t)
    ensures var after := Moved(w, s, t); var next := after.threads[t].phase;
      Inv(w, after, f, FrontierAfter(f, s.threads[t].phase, next, p), if Holds(next) then Some(t) else None)
    ensures p <= FrontierAfter(f, s.threads[t].phase, Moved(w, s, t).threads[t].phase, p)
  {
    var phase := s.threads[t].phase;
    var (db, next) := Exec(w, s.db, phase);
    var after := s.(db := db, threads := s.threads[t := Thread(next, true)], calls := s.calls + Called(phase));
    var q := FrontierAfter(f, phase, next, p);
    ExecKeeps(w, s.db, f, phase, p);
    ExecCalls(w, s.db, f, phase, p);
    ExecKeepsApprovers(w, s.db, phase);
    assert Moved(w, s, t) == after by { assert s.passed + {} == s.passed; }
    var h := if Holds(next) then Some(t) else None;
    ContendersKept(w, s, after, p, q, false, h.None?, t, next);
    assert PhaseOf(after, h) == if Holds(next) then Some(next) else None;
    assert forall u: nat :: u < |s.threads| && u != t ==> after.threads[u] == s.threads[u];
  }
}
