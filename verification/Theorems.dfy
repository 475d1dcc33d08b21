/** What holds of every run of the protocol, over every interleaving of deliveries, approvals and crashes. */
module Theorems {
  import opened Base
  import opened Workflow
  import opened Repository
  import opened ReferenceRun
  import opened Engine
  import opened Authz
  import opened Frontier
  import opened Protocol
  import opened Invariant

  // ---------------------------------------------------------------- the invariant over whole runs

  lemma {:induction false} MovedReads(w: World, s: System, t: nat, next: Phase, passed: set<Pass>)
    requires Placed(w, s) && CanAdvance(s, t)
    requires Act(w, s, s.threads[t].phase) == (s.db, next)
    requires Called(s.threads[t].phase) == [] && passed == PassedBy(w, s, s.threads[t].phase)
    ensures Moved(w, s, t) == s.(threads := s.threads[t := Thread(next, true)], passed := s.passed + passed)
  {
    assert s.calls + [] == s.calls;
  }

  lemma {:induction false} InvDelivered(w: World, s: System, f: RefRun, p: nat, h: Option<nat>, t: nat)
    requires Inv(w, s, f, p, h) && CanAdvance(s, t) && s.threads[t].phase.Delivered?
    ensures Inv(w, Moved(w, s, t), f, p, h)
  {
    var next := Act(w, s, Delivered).1;
    MovedReads(w, s, t, next, {});
    InvRead(w, s, f, p, h, t, next, {});
  }

  lemma {:induction false} InvClaiming(w: World, s: System, f: RefRun, p: nat, h: Option<nat>, t: nat)
    requires Inv(w, s, f, p, h) && CanAdvance(s, t) && s.threads[t].phase.Claiming?
    ensures Inv(w, Moved(w, s, t), f, p, if s.db.run.status.RunPending? then Some(t) else h)
  {
    if s.db.run.status.RunPending? {
      InvClaim(w, s, f, p, h, t);
      assert s.calls + [] == s.calls && s.passed + {} == s.passed;
      assert Moved(w, s, t) == s.(db := ClaimRun(s.db).0, threads := s.threads[t := Thread(Claimed, true)]);
    } else {
      MovedReads(w, s, t, Returned(SkippedAlreadyRunning), {});
      InvRead(w, s, f, p, h, t, Returned(SkippedAlreadyRunning), {});
    }
  }

  lemma {:induction false} InvAsked(w: World, s: System, f: RefRun, p: nat, h: Option<nat>, t: nat)
    requires Inv(w, s, f, p, h) && CanAdvance(s, t) && s.threads[t].phase.Asked?
    ensures Inv(w, Moved(w, s, t), f, p, h)
  {
    var phase := s.threads[t].phase;
    var next := Act(w, s, phase).1;
    AskedStays(w, s, f, p, h, t);
    MovedReads(w, s, t, next, PassedBy(w, s, phase));
    InvRead(w, s, f, p, h, t, next, PassedBy(w, s, phase));
  }

  lemma {:induction false} MovedApproves(w: World, s: System, t: nat)
    requires Placed(w, s) && CanAdvance(s, t) && s.threads[t].phase.Approving?
    requires ClaimApproval(s.db, s.threads[t].phase.gate, s.threads[t].phase.user).1
    ensures Moved(w, s, t)
         == s.(db := ClaimApproval(s.db, s.threads[t].phase.gate, s.threads[t].phase.user).0,
               threads := s.threads[t := Thread(GateClaimed, true)])
  {
    assert s.calls + [] == s.calls && s.passed + {} == s.passed;
  }

  lemma {:induction false} InvApproving(w: World, s: System, f: RefRun, p: nat, h: Option<nat>, t: nat)
    requires Inv(w, s, f, p, h) && CanAdvance(s, t) && s.threads[t].phase.Approving?
    ensures var Approving(user, gate) := s.threads[t].phase;
      if ClaimApproval(s.db, gate, user).1
      then Inv(w, Moved(w, s, t), f, p + 1, Some(t)) else Inv(w, Moved(w, s, t), f, p, h)
  {
    var Approving(user, gate) := s.threads[t].phase;
    if ClaimApproval(s.db, gate, user).1 {
      InvApprove(w, s, f, p, h, t, user, gate);
      MovedApproves(w, s, t);
    } else {
      MovedReads(w, s, t, Returned(Refused), {});
      InvRead(w, s, f, p, h, t, Returned(Refused), {});
    }
  }

  /** While an executor holds a run that is still marked paused, no gate waits. */
  lemma {:induction false} PausedRunIsIdle(w: World, db: Db, f: RefRun, phase: Phase, p: nat)
    requires |f.recs| <= |w.steps| && HolderOk(w, db, f, phase, p) && db.run.status.RunPaused?
    ensures p < |w.steps| ==> !HasRow(w.steps, db.rows, p)
  {
    HolderShows(w, db, f, phase, p);
  }

  /** A check that is passed now is for the gate at which the run waits. */
  lemma {:induction false} PermittedWaits(w: World, s: System, f: RefRun, p: nat, h: Option<nat>, user: UserId, gate: StepId)
    requires Inv(w, s, f, p, h) && Permitted(w, s, user, gate)
    ensures GateReached(w, gate, p, h.None? && s.db.run.status.RunPaused?)
  {
    var i := FindId(w.steps, gate).value;
    TokenSettled(w, s.db, s.calls, f, p, PhaseOf(s, h));
    PausedRowIsLast(w, s.db, f, p);
    assert PausedAtIndex(w.steps, s.db.rows, i);
    if h.Some? {
      PausedRunIsIdle(w, s.db, f, s.threads[h.value].phase, p);
    }
  }

  /** A passed check binds the approver to the gate at which the run waits. */
  lemma {:induction false} AskedStays(w: World, s: System, f: RefRun, p: nat, h: Option<nat>, t: nat)
    requires Inv(w, s, f, p, h) && CanAdvance(s, t) && s.threads[t].phase.Asked?
    ensures var after := Moved(w, s, t); ContenderOk(w, after, after.threads[t].phase, p, h.None?)
  {
    var Asked(user, gate) := s.threads[t].phase;
    if Permitted(w, s, user, gate) {
      PermittedWaits(w, s, f, p, h, user, gate);
      assert Pass(user, gate, s.roles[user]) in Moved(w, s, t).passed;
    }
  }

  lemma {:induction false} InvContender(w: World, s: System, f: RefRun, p: nat, h: Option<nat>, t: nat)
    returns (q: nat, g: Option<nat>)
    requires Inv(w, s, f, p, h) && CanAdvance(s, t) && !Holds(s.threads[t].phase)
    ensures p <= q && Inv(w, Moved(w, s, t), f, q, g)
  {
    var phase := s.threads[t].phase;
    q, g := p, h;
    if phase.Delivered? {
      InvDelivered(w, s, f, p, h, t);
    } else if phase.Claiming? {
      InvClaiming(w, s, f, p, h, t);
      g := if s.db.run.status.RunPending? then Some(t) else h;
    } else if phase.Asked? {
      InvAsked(w, s, f, p, h, t);
    } else {
      InvApproving(w, s, f, p, h, t);
      if ClaimApproval(s.db, phase.gate, phase.user).1 {
        q, g := p + 1, Some(t);
      }
    }
  }

  lemma {:induction false} InvAdvance(w: World, s: System, f: RefRun, p: nat, h: Option<nat>, t: nat)
    returns (q: nat, g: Option<nat>)
    requires Inv(w, s, f, p, h) && CanAdvance(s, t)
    ensures p <= q && Inv(w, Moved(w, s, t), f, q, g)
  {
    var phase := s.threads[t].phase;
    if Holds(phase) {
      InvHolder(w, s, f, p, t);
      var next := Moved(w, s, t).threads[t].phase;
      q, g := FrontierAfter(f, phase, next, p), if Holds(next) then Some(t) else None;
    } else {
      q, g := InvContender(w, s, f, p, h, t);
    }
  }

  /** Every event keeps the invariant, and the frontier never moves back. */
  lemma {:induction false} InvStep(w: World, s: System, f: RefRun, p: nat, h: Option<nat>, e: Event)
    returns (q: nat, g: Option<nat>)
    requires Inv(w, s, f, p, h)
    ensures p <= q && Inv(w, Apply(w, s, e), f, q, g)
  {
    q, g := p, h;
    match e
    case Deliver => InvSpawn(w, s, f, p, h, Delivered);
    case Ask(user, gate) => InvSpawn(w, s, f, p, h, Asked(user, gate));
    case SetRole(user, role) => InvSetRole(w, s, f, p, h, user, role);
    case Crash(t) => if t < |s.threads| { InvCrash(w, s, f, p, h, t); }
    case Advance(t) => if CanAdvance(s, t) { q, g := InvAdvance(w, s, f, p, h, t); }
  }

  lemma {:induction false} InvAll(w: World, s: System, f: RefRun, p: nat, h: Option<nat>, events: seq<Event>)
    returns (q: nat, g: Option<nat>)
    requires Inv(w, s, f, p, h)
    ensures p <= q && Inv(w, ApplyAll(w, s, events), f, q, g)
    decreases |events|
  {
    q, g := p, h;
    if events != [] {
      q, g := InvStep(w, s, f, p, h, events[0]);
      q, g := InvAll(w, Apply(w, s, events[0]), f, q, g, events[1..]);
    }
  }

  lemma {:induction false} InvRun(w: World, roles: map<UserId, Role>, events: seq<Event>)
    returns (p: nat, h: Option<nat>)
    requires ValidSteps(w.steps)
    ensures Inv(w, Run(w, roles, events), Reference(w, []), p, h)
  {
    InvInitial(w, roles);
    p, h := InvAll(w, Initial(roles), Reference(w, []), 0, None, events);
  }

  // ---------------------------------------------------------------- one execution token

  function HoldersOf(s: System): set<nat> {
    set t: nat | t < |s.threads| && Holds(s.threads[t].phase)
  }

  /** The run is paused, and one gate's row is paused and unapproved; no other row is paused. */
  ghost predicate WaitsAtGate(w: World, s: System) {
    && s.db.run.status.RunPaused?
    && exists i: nat :: i < |w.steps| && PausedAtIndex(w.steps, s.db.rows, i)
         && w.steps[i].kind.ApprovalGate? && s.db.rows[w.steps[i].id].approvedBy.None?
         && forall j: nat :: j < |w.steps| && j != i ==> !PausedAtIndex(w.steps, s.db.rows, j)
  }

  function One(b: bool): nat { if b then 1 else 0 }

  /** How many of these hold: run pending, run waiting at a gate, run over, each executor that holds it. */
  ghost function Tokens(w: World, s: System): nat {
    One(s.db.run.status.RunPending?) + One(WaitsAtGate(w, s)) + One(Terminal(s.db.run.status)) + |HoldersOf(s)|
  }

  /** A paused run that nobody holds waits at the gate at its frontier. */
  lemma {:induction false} IdleRunWaits(w: World, s: System, f: RefRun, p: nat)
    requires Inv(w, s, f, p, None) && s.db.run.status.RunPaused?
    ensures WaitsAtGate(w, s)
  {
    TokenSettled(w, s.db, s.calls, f, p, None);
    PausedRowIsLast(w, s.db, f, p);
    assert PausedAtIndex(w.steps, s.db.rows, p);
  }

  lemma {:induction false} OneTokenIdle(w: World, s: System, f: RefRun, p: nat)
    requires Inv(w, s, f, p, None)
    ensures Tokens(w, s) == 1 && !s.db.run.status.RunCancelled?
  {
    assert HoldersOf(s) == {};
    if s.db.run.status.RunPaused? {
      IdleRunWaits(w, s, f, p);
    }
  }

  /** While an executor holds the run no row waits: its approver has settled the gate first. */
  lemma {:induction false} HeldRunWaitsNowhere(w: World, s: System, f: RefRun, p: nat, t: nat)
    requires Inv(w, s, f, p, Some(t)) && s.db.run.status.RunPaused?
    ensures !WaitsAtGate(w, s)
  {
    var phase := s.threads[t].phase;
    HolderShows(w, s.db, f, phase, p);
    HolderSettled(w, s.db, f, phase, p);
    PausedRowIsLast(w, s.db, f, p);
    PausedRunIsIdle(w, s.db, f, phase, p);
    assert p < |w.steps| ==> !PausedAtIndex(w.steps, s.db.rows, p);
  }

  lemma {:induction false} OneTokenHeld(w: World, s: System, f: RefRun, p: nat, t: nat)
    requires Inv(w, s, f, p, Some(t))
    ensures Tokens(w, s) == 1 && !s.db.run.status.RunCancelled?
  {
    assert HoldersOf(s) == {t};
    HolderShows(w, s.db, f, s.threads[t].phase, p);
    if s.db.run.status.RunPaused? {
      HeldRunWaitsNowhere(w, s, f, p, t);
    }
  }

  lemma {:induction false} OneTokenNow(w: World, s: System, f: RefRun, p: nat, h: Option<nat>)
    requires Inv(w, s, f, p, h)
    ensures Tokens(w, s) == 1
    ensures !s.db.run.status.RunCancelled?
  {
    match h
    case None => OneTokenIdle(w, s, f, p);
    case Some(t) => OneTokenHeld(w, s, f, p, t);
  }

  /**
    In every interleaving exactly one of these holds: the run is pending, it waits at one unapproved
    gate, it is over, or one executor (an approver that has claimed its gate included) holds it.
   */
  lemma {:induction false} OneToken(w: World, roles: map<UserId, Role>, events: seq<Event>)
    requires ValidSteps(w.steps)
    ensures Tokens(w, Run(w, roles, events)) == 1
  {
    var p, h := InvRun(w, roles, events);
    OneTokenNow(w, Run(w, roles, events), Reference(w, []), p, h);
  }

  predicate IsCrash(e: Event) { e.Crash? }

  predicate AllAlive(s: System) {
    forall t :: 0 <= t < |s.threads| ==> s.threads[t].alive
  }

  lemma {:induction false} AliveUntilCrash(w: World, s: System, events: seq<Event>)
    requires Placed(w, s) && AllAlive(s)
    requires forall e :: e in events ==> !IsCrash(e)
    ensures AllAlive(ApplyAll(w, s, events))
    decreases |events|
  {
    if events != [] {
      assert events[0] in events && !IsCrash(events[0]);
      AliveUntilCrash(w, Apply(w, s, events[0]), events[1..]);
    }
  }

  /** No two executors are ever active together, whatever crashes; and only a crash leaves a dead holder. */
  lemma {:induction false} MutualExclusion(w: World, roles: map<UserId, Role>, events: seq<Event>, t: nat, u: nat)
    requires ValidSteps(w.steps)
    requires var s := Run(w, roles, events); t in HoldersOf(s) && u in HoldersOf(s)
    ensures t == u
    ensures (forall e :: e in events ==> !IsCrash(e)) ==> Run(w, roles, events).threads[t].alive
  {
    var p, h := InvRun(w, roles, events);
    if forall e :: e in events ==> !IsCrash(e) {
      AliveUntilCrash(w, Initial(roles), events);
    }
  }

  // ---------------------------------------------------------------- pause and resume preserve meaning

  /** Rows that differ at most in who approved a gate. */
  predicate SameButApprover(a: StepRow, b: StepRow) {
    a == b.(approvedBy := a.approvedBy) && (a.approvedBy.Some? <==> b.approvedBy.Some?)
  }

  /**
    At every moment the rows are the first `p` records of the uninterrupted reference run and at most
    one row in flight; a finished run has all of them and ends as the reference ends.
   */
  lemma {:induction false} RowsFollowReference(w: World, roles: map<UserId, Role>, events: seq<Event>)
    returns (p: nat)
    requires ValidSteps(w.steps)
    ensures var s, f := Run(w, roles, events), Reference(w, []);
      && Settled(w, s.db.rows, f.recs, p)
      && (Terminal(s.db.run.status) ==> p == |f.recs| && Clean(w, s.db.rows, f.recs, p))
      && !s.db.run.status.RunCancelled?
      && (s.db.run.status.RunCompleted? ==> s.db.run == COMPLETED_ROW && f.ending == Completes)
      && (s.db.run.status.RunFailed? ==> f.ending.Fails? && s.db.run == FailedRow(f.ending.error))
  {
    var s, f := Run(w, roles, events), Reference(w, []);
    var h;
    p, h := InvRun(w, roles, events);
    TokenSettled(w, s.db, s.calls, f, p, PhaseOf(s, h));
    OneTokenNow(w, s, f, p, h);
    if h.Some? {
      HolderShows(w, s.db, f, s.threads[h.value].phase, p);
    }
  }
}
