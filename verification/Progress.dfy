/** Terminal runs absorb, duplicates stutter, segments terminate, and when a run can still finish. */
module Progress {
  import opened Base
  import opened Workflow
  import opened Repository
  import opened ReferenceRun
  import opened Engine
  import opened Authz
  import opened Frontier
  import opened Keeps
  import opened Protocol
  import opened Invariant
  import opened Theorems
  import Retry

  // ---------------------------------------------------------------- nothing changes a held or finished run from outside

  /** A request of a contender, while the run is held or over, writes nothing and takes nothing. */
  lemma {:induction false} ContenderIsQuiet(w: World, s: System, f: RefRun, p: nat, h: Option<nat>, t: nat)
    requires Inv(w, s, f, p, h) && CanAdvance(s, t) && !Holds(s.threads[t].phase)
    requires h.Some? || Terminal(s.db.run.status)
    ensures var after := Moved(w, s, t); after.db == s.db && after.calls == s.calls && !Holds(after.threads[t].phase)
  {
    if h.Some? {
      HolderShows(w, s.db, f, s.threads[h.value].phase, p);
    }
    match s.threads[t].phase
    case Approving(user, gate) =>
      if ClaimApproval(s.db, gate, user).1 {
        InvApprove(w, s, f, p, h, t, user, gate);
        NotOver(w, s, f, p, gate);
      }
    case _ =>
  }

  /** A finished run has no row that waits for approval. */
  lemma {:induction false} NotOver(w: World, s: System, f: RefRun, p: nat, gate: StepId)
    requires Inv(w, s, f, p, None) && gate in s.db.rows && s.db.rows[gate].status.Paused?
    ensures !Terminal(s.db.run.status)
  {
    var i: nat :| i < |w.steps| && w.steps[i].id == gate;
    PausedRowIsLast(w, s.db, f, p);
    assert PausedAtIndex(w.steps, s.db.rows, i);
  }

  /** Who cannot move the run any more: a finished run, or one whose holder has crashed. */
  ghost predicate Frozen(w: World, s: System, f: RefRun, p: nat, h: Option<nat>) {
    && Inv(w, s, f, p, h)
    && match h
       case None => Terminal(s.db.run.status)
       case Some(t) => !s.threads[t].alive
  }

  lemma {:induction false} FrozenMove(w: World, s: System, f: RefRun, p: nat, h: Option<nat>, t: nat)
    requires Frozen(w, s, f, p, h) && CanAdvance(s, t)
    ensures var after := Moved(w, s, t); after.db == s.db && after.calls == s.calls && Inv(w, after, f, p, h)
  {
    ContenderIsQuiet(w, s, f, p, h, t);
    match s.threads[t].phase
    case Delivered => InvDelivered(w, s, f, p, h, t);
    case Claiming =>
      if h.Some? { HolderShows(w, s.db, f, s.threads[h.value].phase, p); }
      InvClaiming(w, s, f, p, h, t);
    case Asked(_, _) => InvAsked(w, s, f, p, h, t);
    case _ => InvApproving(w, s, f, p, h, t);
  }

  /** An event other than a request. */
  lemma {:induction false} FrozenQuiet(w: World, s: System, f: RefRun, p: nat, h: Option<nat>, e: Event)
    requires Inv(w, s, f, p, h) && !e.Advance?
    ensures var after := Apply(w, s, e); after.db == s.db && after.calls == s.calls && Inv(w, after, f, p, h)
  {
    match e
    case Deliver => InvSpawn(w, s, f, p, h, Delivered);
    case Ask(user, gate) => InvSpawn(w, s, f, p, h, Asked(user, gate));
    case SetRole(user, role) => InvSetRole(w, s, f, p, h, user, role);
    case Crash(t) => if t < |s.threads| { InvCrash(w, s, f, p, h, t); }
    case _ =>
  }

  /** A crashed executor stays crashed. */
  lemma {:induction false} DeadStays(w: World, s: System, e: Event, t: nat)
    requires Placed(w, s) && t < |s.threads| && !s.threads[t].alive
    ensures var after := Apply(w, s, e); t < |after.threads| && !after.threads[t].alive
  {
  }

  lemma {:induction false} FrozenStep(w: World, s: System, f: RefRun, p: nat, h: Option<nat>, e: Event)
    requires Frozen(w, s, f, p, h)
    ensures var after := Apply(w, s, e); after.db == s.db && after.calls == s.calls && Frozen(w, after, f, p, h)
  {
    if h.Some? {
      DeadStays(w, s, e, h.value);
    }
    if !e.Advance? {
      FrozenQuiet(w, s, f, p, h, e);
    } else if CanAdvance(s, e.thread) {
      FrozenMove(w, s, f, p, h, e.thread);
    }
  }

  lemma {:induction false} FrozenForever(w: World, s: System, f: RefRun, p: nat, h: Option<nat>, more: seq<Event>)
    requires Frozen(w, s, f, p, h)
    ensures var after := ApplyAll(w, s, more); after.db == s.db && after.calls == s.calls
    decreases |more|
  {
    if more != [] {
      FrozenStep(w, s, f, p, h, more[0]);
      FrozenForever(w, Apply(w, s, more[0]), f, p, h, more[1..]);
    }
  }

  lemma {:induction false} ApplyInTwo(w: World, s: System, events: seq<Event>, more: seq<Event>)
    requires Placed(w, s)
    ensures ApplyAll(w, s, events + more) == ApplyAll(w, ApplyAll(w, s, events), more)
    decreases |events|
  {
    if events == [] {
      assert events + more == more;
    } else {
      assert (events + more)[1..] == events[1..] + more;
      ApplyInTwo(w, Apply(w, s, events[0]), events[1..], more);
    }
  }

  /** Once a run is over, no later delivery, approval or request in flight changes a row or calls a body. */
  lemma {:induction false} TerminalAbsorbs(w: World, roles: map<UserId, Role>, events: seq<Event>, more: seq<Event>)
    requires ValidSteps(w.steps) && Terminal(Run(w, roles, events).db.run.status)
    ensures var s, later := Run(w, roles, events), Run(w, roles, events + more);
      later.db == s.db && later.calls == s.calls
  {
    var s := Run(w, roles, events);
    var p, h := InvRun(w, roles, events);
    if h.Some? {
      HolderShows(w, s.db, Reference(w, []), s.threads[h.value].phase, p);
    }
    FrozenForever(w, s, Reference(w, []), p, h, more);
    ApplyInTwo(w, Initial(roles), events, more);
  }

  /** A request of a start delivery, on a run that is not pending, writes nothing. */
  lemma {:induction false} StartWritesNothing(w: World, s: System, t: nat)
    requires Placed(w, s) && CanAdvance(s, t) && !s.db.run.status.RunPending?
    requires s.threads[t].phase.Delivered? || s.threads[t].phase.Claiming?
    ensures var after := Moved(w, s, t); var next := after.threads[t].phase;
      && after.db == s.db && after.calls == s.calls
      && (next.Returned? || next.Claiming?) && (s.threads[t].phase.Claiming? ==> next == Returned(SkippedAlreadyRunning))
  {
  }

  /** A start delivered to a run that is completed, failed or cancelled ends at once, and a claimed gate of one too. */
  lemma {:induction false} OverIsNoop(w: World, s: System, t: nat)
    requires Placed(w, s) && CanAdvance(s, t) && (s.threads[t].phase == Delivered || s.threads[t].phase == GateClaimed)
    requires s.db.run.status in [RunCompleted, RunFailed, RunCancelled]
    ensures Moved(w, s, t).db == s.db && Moved(w, s, t).threads[t].phase == Returned(Noop)
  {
  }

  /** A start delivered to a run that is not pending comes and goes: one more executor has returned, and nothing else changed. */
  lemma {:induction false} DuplicateStutters(w: World, s: System)
    requires Placed(w, s) && !s.db.run.status.RunPending?
    ensures var t := |s.threads|; var outcome := if Terminal(s.db.run.status) then Noop else SkippedAlreadyRunning;
      ApplyAll(w, s, [Deliver, Advance(t), Advance(t)]) == s.(threads := s.threads + [Thread(Returned(outcome), true)])
  {
    var t := |s.threads|;
    var s1 := s.(threads := s.threads + [Thread(Delivered, true)]);
    ApplyThree(w, s, [Deliver, Advance(t), Advance(t)]);
    assert Apply(w, s, Deliver) == s1;
    assert s.calls + [] == s.calls && s.passed + {} == s.passed;
    if Terminal(s.db.run.status) {
      assert Apply(w, s1, Advance(t)) == s.(threads := s.threads + [Thread(Returned(Noop), true)]);
    } else {
      var s2 := s.(threads := s.threads + [Thread(Claiming, true)]);
      assert Apply(w, s1, Advance(t)) == s2;
      assert Apply(w, s2, Advance(t)) == s.(threads := s.threads + [Thread(Returned(SkippedAlreadyRunning), true)]);
    }
  }

  // ---------------------------------------------------------------- segments terminate

  /** How far a phase is from leaving its step. */
  function Stage(phase: Phase): nat {
    match phase
    case GateClaimed => 10
    case Resuming(_, _) => 9
    case Claimed => 9
    case Jumping(_, _) => 9
    case Head(_) => 8
    case Calling(_, _, _) => 7
    case Reporting(_, _, _, _) => 7
    case Storing(_, _, _, _) => 6
    case Failing(_, _, _, _) => 6
    case Pausing(_) => 6
    case Rejecting(_, _, _) => 5
    case SkippingRest(_, _) => 4
    case Ending(_) => 4
    case Finishing(_) => 3
    case Aborting(_, _, _) => 3
    case _ => 0
  }

  /** Attempts that may still follow, counting a call and its report apart. */
  function AttemptsLeft(w: World, phase: Phase): nat {
    match phase
    case Calling(_, cfg, k) => if k < Retry.Limit(w.policy(cfg)) then 2 * (Retry.Limit(w.policy(cfg)) - k) + 1 else 1
    case Reporting(_, cfg, k, _) => if k < Retry.Limit(w.policy(cfg)) then 2 * (Retry.Limit(w.policy(cfg)) - k) else 0
    case _ => 0
  }

  /** The next phase is lower: fewer steps left, or a later stage of the step, or fewer attempts left. */
  ghost predicate Lower(w: World, f: RefRun, phase: Phase, next: Phase, p: nat) {
    var q := FrontierAfter(f, phase, next, p);
    && p <= q <= |f.recs|
    && (p == q ==> Stage(next) < Stage(phase)
                   || (Stage(next) == Stage(phase) && AttemptsLeft(w, next) < AttemptsLeft(w, phase)))
  }

  lemma {:induction false} AttemptDescends(w: World, db: Db, f: RefRun, phase: Phase, p: nat)
    requires Holds(phase) && OnStep(w, phase) && p <= |f.recs|
    requires phase.Calling? || phase.Reporting?
    ensures Lower(w, f, phase, Exec(w, db, phase).1, p)
  {
  }

  lemma {:induction false} HeadDescends(w: World, db: Db, f: RefRun, l: Local, p: nat)
    requires Ready(w, db, f, Head(l), p) && p <= |f.recs|
    ensures Lower(w, f, Head(l), Exec(w, db, Head(l)).1, p)
  {
    if p < |w.steps| {
      KeepHead(w, db, f, l, p);
    }
  }

  lemma {:induction false} StoringDescends(w: World, db: Db, f: RefRun, phase: Phase, p: nat)
    requires Ready(w, db, f, phase, p) && OnStep(w, phase) && p <= |f.recs| && phase.Storing?
    ensures Lower(w, f, phase, Exec(w, db, phase).1, p)
  {
    AtHead(w, f, p);
  }

  lemma {:induction false} EntryDescends(w: World, db: Db, f: RefRun, phase: Phase, p: nat)
    requires Holds(phase) && OnStep(w, phase) && p <= |f.recs|
    requires phase.Claimed? || phase.GateClaimed? || phase.Resuming? || phase.Pausing?
    ensures Lower(w, f, phase, Exec(w, db, phase).1, p)
  {
    var next := Exec(w, db, phase).1;
    assert FrontierAfter(f, phase, next, p) == p;
    assert Stage(next) < Stage(phase);
  }

  lemma {:induction false} LeavingDescends(w: World, db: Db, f: RefRun, phase: Phase, p: nat)
    requires Ready(w, db, f, phase, p) && OnStep(w, phase) && p <= |f.recs|
    requires phase.Failing? || phase.SkippingRest? || phase.Jumping? || phase.Ending?
    ensures Lower(w, f, phase, Exec(w, db, phase).1, p)
  {
    if phase.Failing? {
      AtHead(w, f, p);
    }
  }

  lemma {:induction false} ClosingDescends(w: World, db: Db, f: RefRun, phase: Phase, p: nat)
    requires Ready(w, db, f, phase, p) && OnStep(w, phase) && p <= |f.recs|
    requires phase.Finishing? || phase.Rejecting? || phase.Aborting?
    ensures Lower(w, f, phase, Exec(w, db, phase).1, p)
  {
  }

  /** Every request of a holder lowers (steps left, stage of the step, attempts left). */
  lemma {:induction false} SegmentDescends(w: World, db: Db, f: RefRun, phase: Phase, p: nat)
    requires Ready(w, db, f, phase, p) && OnStep(w, phase) && p <= |f.recs|
    ensures Lower(w, f, phase, Exec(w, db, phase).1, p)
  {
    match phase
    case Head(l) => HeadDescends(w, db, f, l, p);
    case Calling(_, _, _) => AttemptDescends(w, db, f, phase, p);
    case Reporting(_, _, _, _) => AttemptDescends(w, db, f, phase, p);
    case Storing(_, _, _, _) => StoringDescends(w, db, f, phase, p);
    case _ =>
      if phase.Failing? || phase.SkippingRest? || phase.Jumping? || phase.Ending? {
        LeavingDescends(w, db, f, phase, p);
      } else if phase.Finishing? || phase.Rejecting? || phase.Aborting? {
        ClosingDescends(w, db, f, phase, p);
      } else {
        EntryDescends(w, db, f, phase, p);
      }
  }

  /** Left alone, the executor that holds the run returns. */
  lemma {:induction false} HolderReturns(w: World, s: System, f: RefRun, p: nat, t: nat)
    returns (more: seq<Event>, q: nat)
    requires Inv(w, s, f, p, Some(t)) && s.threads[t].alive
    ensures p <= q && Inv(w, ApplyAll(w, s, more), f, q, None)
    decreases |f.recs| - p, Stage(s.threads[t].phase), AttemptsLeft(w, s.threads[t].phase)
  {
    var phase := s.threads[t].phase;
    assert Holds(phase);
    var after := Moved(w, s, t);
    var next := after.threads[t].phase;
    InvHolder(w, s, f, p, t);
    SegmentDescends(w, s.db, f, phase, p);
    q := FrontierAfter(f, phase, next, p);
    if Holds(next) {
      more, q := HolderReturns(w, after, f, q, t);
      more := [Advance(t)] + more;
    } else {
      more := [Advance(t)];
    }
  }

  // ---------------------------------------------------------------- when a run can still finish

  /** Two events lead a pending run into the hands of a new executor. */
  lemma {:induction false} PendingIsClaimed(w: World, s: System, f: RefRun, p: nat) returns (more: seq<Event>)
    requires Inv(w, s, f, p, None) && s.db.run.status.RunPending?
    ensures var after := ApplyAll(w, s, more); var t := |s.threads|;
      t < |after.threads| && after.threads[t].alive && Inv(w, after, f, p, Some(t))
  {
    var t := |s.threads|;
    var s1 := Apply(w, s, Deliver);
    var s2 := Apply(w, s1, Advance(t));
    InvSpawn(w, s, f, p, None, Delivered);
    InvDelivered(w, s1, f, p, None, t);
    InvClaiming(w, s2, f, p, None, t);
    more := [Deliver, Advance(t), Advance(t)];
    ApplyThree(w, s, more);
  }

  lemma {:induction false} ApplyThree(w: World, s: System, e: seq<Event>)
    requires Placed(w, s) && |e| == 3
    ensures ApplyAll(w, s, e) == Apply(w, Apply(w, Apply(w, s, e[0]), e[1]), e[2])
  {
    var s1 := Apply(w, s, e[0]);
    var s2 := Apply(w, s1, e[1]);
    assert e[1..][1..] == [e[2]];
    assert ApplyAll(w, s1, e[1..]) == ApplyAll(w, s2, [e[2]]);
    assert ApplyAll(w, s2, [e[2]]) == ApplyAll(w, Apply(w, s2, e[2]), []);
  }

  /** At a waiting gate an owner or editor passes the check. */
  lemma {:induction false} MemberIsPermitted(w: World, s: System, f: RefRun, p: nat, user: UserId)
    requires Inv(w, s, f, p, None) && s.db.run.status.RunPaused? && user in s.roles && (s.roles[user] == Owner || s.roles[user] == Editor)
    ensures p < |f.recs| && p < |w.steps|
    ensures var s1 := Apply(w, s, Ask(user, w.steps[p].id));
      Inv(w, s1, f, p, None) && Permitted(w, s1, user, w.steps[p].id) && CanAdvance(s1, |s.threads|)
  {
    AtHead(w, f, p);
    FindUnique(w.steps, p);
    InvSpawn(w, s, f, p, None, Asked(user, w.steps[p].id));
  }

  /** The check is passed, and the claim of the gate is the next request. */
  lemma {:induction false} MemberAsks(w: World, s: System, f: RefRun, p: nat, user: UserId)
    requires Inv(w, s, f, p, None) && s.db.run.status.RunPaused? && user in s.roles && (s.roles[user] == Owner || s.roles[user] == Editor)
    ensures p < |f.recs| && p < |w.steps|
    ensures var t, gate := |s.threads|, w.steps[p].id; var s2 := Apply(w, Apply(w, s, Ask(user, gate)), Advance(t));
      && Inv(w, s2, f, p, None) && CanAdvance(s2, t) && s2.threads[t].phase == Approving(user, gate) && s2.db == s.db
      && ClaimApproval(s2.db, gate, user).1
  {
    MemberIsPermitted(w, s, f, p, user);
    var s1 := Apply(w, s, Ask(user, w.steps[p].id));
    PermittedGoesOn(w, s1, |s.threads|, user, w.steps[p].id);
    InvAsked(w, s1, f, p, None, |s.threads|);
    GateIsClaimable(w, s.db, f, p, user);
  }

  lemma {:induction false} PermittedGoesOn(w: World, s: System, t: nat, user: UserId, gate: StepId)
    requires Placed(w, s) && CanAdvance(s, t) && s.threads[t].phase == Asked(user, gate) && Permitted(w, s, user, gate)
    ensures var after := Apply(w, s, Advance(t));
      CanAdvance(after, t) && after.threads[t].phase == Approving(user, gate) && after.db == s.db
  {
  }

  lemma {:induction false} GateIsClaimable(w: World, db: Db, f: RefRun, p: nat, user: UserId)
    requires |f.recs| <= |w.steps| && WaitingOk(w, db, f, p)
    ensures ClaimApproval(db, w.steps[p].id, user).1
  {
  }

  /** A request for the gate at `p`: its check, and the claim of the gate. */
  function Approval(w: World, s: System, p: nat, user: UserId): seq<Event>
    requires p < |w.steps|
  {
    [Ask(user, w.steps[p].id), Advance(|s.threads|), Advance(|s.threads|)]
  }

  lemma {:induction false} MemberApproves(w: World, s: System, f: RefRun, p: nat, user: UserId)
    requires Inv(w, s, f, p, None) && s.db.run.status.RunPaused? && user in s.roles && (s.roles[user] == Owner || s.roles[user] == Editor)
    ensures p < |f.recs| && p < |w.steps|
    ensures var after := ApplyAll(w, s, Approval(w, s, p, user)); var t := |s.threads|;
      && t < |after.threads| && after.threads[t].alive && Inv(w, after, f, p + 1, Some(t))
      && (after.db, true) == ClaimApproval(s.db, w.steps[p].id, user)
  {
    MemberAsks(w, s, f, p, user);
    var t, gate := |s.threads|, w.steps[p].id;
    var s2 := Apply(w, Apply(w, s, Ask(user, gate)), Advance(t));
    InvApproving(w, s2, f, p, None, t);
    ApplyThree(w, s, Approval(w, s, p, user));
  }

  /** Making somebody an owner who approves leads a waiting run to a new executor, behind the gate. */
  lemma {:induction false} WaitingIsApproved(w: World, s: System, f: RefRun, p: nat) returns (more: seq<Event>)
    requires Inv(w, s, f, p, None) && s.db.run.status.RunPaused?
    ensures var after := ApplyAll(w, s, more); var t := |s.threads|;
      p < |f.recs| && t < |after.threads| && after.threads[t].alive && Inv(w, after, f, p + 1, Some(t))
  {
    InvSetRole(w, s, f, p, None, "approver", Some(Owner));
    var appointed := Apply(w, s, SetRole("approver", Some(Owner)));
    MemberApproves(w, appointed, f, p, "approver");
    more := [SetRole("approver", Some(Owner))] + Approval(w, appointed, p, "approver");
  }

  lemma {:induction false} FindUnique(steps: seq<Step>, i: nat)
    requires ValidSteps(steps) && i < |steps|
    ensures FindId(steps, steps[i].id) == Some(i)
  {
    var r := FindId(steps, steps[i].id);
    assert steps[i] in steps;
  }

  /** How many leaps are left at a record: claim it, run it, wait. */
  function Rank(s: System, h: Option<nat>): nat {
    if s.db.run.status.RunPending? then 2 else if h.Some? then 1 else 0
  }

  ghost predicate CanMove(w: World, s: System, f: RefRun, p: nat, h: Option<nat>) {
    Inv(w, s, f, p, h) && (h.Some? ==> s.threads[h.value].alive)
  }

  /** From a run that is not over to the next claim, pause, end or resumption. */
  ghost predicate Leaps(w: World, f: RefRun, s: System, p: nat, h: Option<nat>, after: System, q: nat, g: Option<nat>) {
    && CanMove(w, after, f, q, g)
    && p <= q <= |f.recs|
    && (q > p || Rank(after, g) < Rank(s, h))
  }

  lemma {:induction false} HolderLeaps(w: World, s: System, f: RefRun, p: nat, t: nat)
    returns (leap: seq<Event>, q: nat)
    requires CanMove(w, s, f, p, Some(t))
    ensures Leaps(w, f, s, p, Some(t), ApplyAll(w, s, leap), q, None)
  {
    HolderShows(w, s.db, f, s.threads[t].phase, p);
    leap, q := HolderReturns(w, s, f, p, t);
    NotPendingAgain(w, s, leap);
  }

  lemma {:induction false} ClaimLeaps(w: World, s: System, f: RefRun, p: nat) returns (leap: seq<Event>)
    requires CanMove(w, s, f, p, None) && s.db.run.status.RunPending?
    ensures Leaps(w, f, s, p, None, ApplyAll(w, s, leap), p, Some(|s.threads|))
  {
    leap := PendingIsClaimed(w, s, f, p);
    var after := ApplyAll(w, s, leap);
    HolderShows(w, after.db, f, after.threads[|s.threads|].phase, p);
  }

  lemma {:induction false} ApprovalLeaps(w: World, s: System, f: RefRun, p: nat) returns (leap: seq<Event>)
    requires CanMove(w, s, f, p, None) && s.db.run.status.RunPaused?
    ensures Leaps(w, f, s, p, None, ApplyAll(w, s, leap), p + 1, Some(|s.threads|))
  {
    leap := WaitingIsApproved(w, s, f, p);
  }

  lemma {:induction false} IdleIsOver(w: World, s: System, f: RefRun, p: nat)
    requires CanMove(w, s, f, p, None) && !s.db.run.status.RunPending? && !s.db.run.status.RunPaused?
    ensures Terminal(s.db.run.status)
  {
  }

  /** A run whose holder has not crashed can still finish. */
  lemma {:induction false} CanFinish(w: World, s: System, f: RefRun, p: nat, h: Option<nat>) returns (more: seq<Event>)
    requires CanMove(w, s, f, p, h)
    ensures Terminal(ApplyAll(w, s, more).db.run.status)
    decreases |f.recs| - p, Rank(s, h), 1
  {
    if h.Some? {
      more := HeldCanFinish(w, s, f, p, h.value);
    } else if s.db.run.status.RunPending? {
      more := PendingCanFinish(w, s, f, p);
    } else if s.db.run.status.RunPaused? {
      more := WaitingCanFinish(w, s, f, p);
    } else {
      IdleIsOver(w, s, f, p);
      more := [];
    }
  }

  lemma {:induction false} HeldCanFinish(w: World, s: System, f: RefRun, p: nat, t: nat) returns (more: seq<Event>)
    requires CanMove(w, s, f, p, Some(t))
    ensures Terminal(ApplyAll(w, s, more).db.run.status)
    decreases |f.recs| - p, Rank(s, Some(t)), 0
  {
    var leap, q := HolderLeaps(w, s, f, p, t);
    var rest := CanFinish(w, ApplyAll(w, s, leap), f, q, None);
    ApplyInTwo(w, s, leap, rest);
    more := leap + rest;
  }

  lemma {:induction false} PendingCanFinish(w: World, s: System, f: RefRun, p: nat) returns (more: seq<Event>)
    requires CanMove(w, s, f, p, None) && s.db.run.status.RunPending?
    ensures Terminal(ApplyAll(w, s, more).db.run.status)
    decreases |f.recs| - p, Rank(s, None), 0
  {
    var leap := ClaimLeaps(w, s, f, p);
    var rest := CanFinish(w, ApplyAll(w, s, leap), f, p, Some(|s.threads|));
    ApplyInTwo(w, s, leap, rest);
    more := leap + rest;
  }

  lemma {:induction false} WaitingCanFinish(w: World, s: System, f: RefRun, p: nat) returns (more: seq<Event>)
    requires CanMove(w, s, f, p, None) && s.db.run.status.RunPaused?
    ensures Terminal(ApplyAll(w, s, more).db.run.status)
    decreases |f.recs| - p, Rank(s, None), 0
  {
    var leap := ApprovalLeaps(w, s, f, p);
    var rest := CanFinish(w, ApplyAll(w, s, leap), f, p + 1, Some(|s.threads|));
    ApplyInTwo(w, s, leap, rest);
    more := leap + rest;
  }

  /** No request makes a run pending again. */
  lemma {:induction false} NotPendingAgain(w: World, s: System, events: seq<Event>)
    requires Placed(w, s) && !s.db.run.status.RunPending?
    ensures !ApplyAll(w, s, events).db.run.status.RunPending?
    decreases |events|
  {
    if events != [] {
      NotPendingAgain(w, Apply(w, s, events[0]), events[1..]);
    }
  }

  /**
    A run can still finish exactly when it is over or no executor crashed while it held it: a crash
    before the claim loses nothing, a crash after it leaves the run as it is for ever.
   */
  lemma {:induction false} FinishableExactly(w: World, roles: map<UserId, Role>, events: seq<Event>)
    requires ValidSteps(w.steps)
    ensures var s := Run(w, roles, events);
      (exists more :: Terminal(Run(w, roles, events + more).db.run.status))
      <==> (Terminal(s.db.run.status) || forall t :: t in HoldersOf(s) ==> s.threads[t].alive)
  {
    var s, f := Run(w, roles, events), Reference(w, []);
    var p, h := InvRun(w, roles, events);
    if Terminal(s.db.run.status) {
      assert events + [] == events;
    } else if h.Some? && !s.threads[h.value].alive {
      assert h.value in HoldersOf(s);
      forall more ensures !Terminal(Run(w, roles, events + more).db.run.status) {
        FrozenForever(w, s, f, p, h, more);
        ApplyInTwo(w, Initial(roles), events, more);
      }
    } else {
      var more := CanFinish(w, s, f, p, h);
      ApplyInTwo(w, Initial(roles), events, more);
    }
  }
}
