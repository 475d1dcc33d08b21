/** Who approves: only owners and editors ever do, and wherever a run waits each of them can. */
module Approvals {
  import opened Base
  import opened Workflow
  import opened Repository
  import opened ReferenceRun
  import opened Engine
  import opened Authz
  import opened Frontier
  import opened Protocol
  import opened Invariant
  import opened Theorems
  import opened RunProperties
  import opened Progress

  // ---------------------------------------------------------------- only who had the role

  /** `user` had the role `role` when the run was created, or was given it by one of the events. */
  ghost predicate EverHad(roles: map<UserId, Role>, events: seq<Event>, user: UserId, role: Role) {
    (user in roles && roles[user] == role) || SetRole(user, Some(role)) in events
  }

  /** Every role in the state, and every role that passed a check, is one that `had` tells of. */
  ghost predicate RolesKnown(s: System, had: (UserId, Role) -> bool) {
    && (forall u :: u in s.roles ==> had(u, s.roles[u]))
    && (forall x :: x in s.passed ==> had(x.user, x.role))
  }

  lemma {:induction false} RolesStayKnown(w: World, s: System, events: seq<Event>, had: (UserId, Role) -> bool)
    requires Placed(w, s) && RolesKnown(s, had)
    requires forall u, r :: SetRole(u, Some(r)) in events ==> had(u, r)
    ensures RolesKnown(ApplyAll(w, s, events), had)
    decreases |events|
  {
    if events != [] {
      assert events[0] in events && forall e :: e in events[1..] ==> e in events;
      RolesStayKnown(w, Apply(w, s, events[0]), events[1..], had);
    }
  }

  /** Whoever a row names as its approver had been made an owner or an editor. */
  lemma {:induction false} ApproversHadTheRole(w: World, roles: map<UserId, Role>, events: seq<Event>, id: StepId)
    requires ValidSteps(w.steps)
    requires var rows := Run(w, roles, events).db.rows; id in rows && rows[id].approvedBy.Some?
    ensures var user := Run(w, roles, events).db.rows[id].approvedBy.value;
      EverHad(roles, events, user, Owner) || EverHad(roles, events, user, Editor)
  {
    var s := Run(w, roles, events);
    var p, h := InvRun(w, roles, events);
    RolesStayKnown(w, Initial(roles), events, (u: UserId, r: Role) => EverHad(roles, events, u, r));
    assert Vetted(s.passed, s.db.rows[id].approvedBy.value, id);
  }

  /** No user is ever anything but a viewer. */
  ghost predicate OnlyViewers(roles: map<UserId, Role>, events: seq<Event>) {
    && (forall u :: u in roles ==> roles[u] == Viewer)
    && (forall u, r :: SetRole(u, Some(r)) in events ==> r == Viewer)
  }

  /** A step behind the gate was started. */
  predicate StartedBehind(w: World, rows: StepRows, gate: nat, later: nat) {
    && gate < later < |w.steps| && w.steps[gate].kind.ApprovalGate?
    && w.steps[later].id in rows && rows[w.steps[later].id].startedAt
  }

  /** Among viewers no gate is ever approved, and no step behind a gate is started unless the gate was jumped over. */
  lemma {:induction false} ViewersApproveNothing(w: World, roles: map<UserId, Role>, events: seq<Event>)
    requires ValidSteps(w.steps) && OnlyViewers(roles, events)
    ensures var rows := Run(w, roles, events).db.rows;
      && (forall id :: id in rows ==> rows[id].approvedBy.None?)
      && (forall gate: nat, later: nat :: StartedBehind(w, rows, gate, later) ==>
            w.steps[gate].id in rows && rows[w.steps[gate].id].status == Skipped)
  {
    var rows := Run(w, roles, events).db.rows;
    forall id | id in rows ensures rows[id].approvedBy.None? {
      if rows[id].approvedBy.Some? {
        ApproversHadTheRole(w, roles, events, id);
      }
    }
    forall gate: nat, later: nat | StartedBehind(w, rows, gate, later)
      ensures w.steps[gate].id in rows && rows[w.steps[gate].id].status == Skipped
    {
      GateSafety(w, roles, events, gate, later);
    }
  }

  // ---------------------------------------------------------------- each of them can

  /** The row of gate `i` is completed in the name of `user`. */
  predicate ApprovedBy(w: World, s: System, i: nat, user: UserId)
    requires i < |w.steps|
  {
    var id := w.steps[i].id;
    && id in s.db.rows && s.db.rows[id].status == Completed && s.db.rows[id].completedAt
    && s.db.rows[id].approvedBy == Some(user) && s.db.rows[id].approvedAt
  }

  /** Nobody holds a run that waits at a gate, and the gate is the one at the frontier. */
  lemma {:induction false} WaitsAtFrontier(w: World, s: System, f: RefRun, p: nat, h: Option<nat>, i: nat)
    requires Inv(w, s, f, p, h) && WaitsAtGate(w, s) && i < |w.steps| && PausedAtIndex(w.steps, s.db.rows, i)
    ensures h == None && i == p
  {
    if h.Some? {
      HeldRunWaitsNowhere(w, s, f, p, h.value);
    }
    TokenSettled(w, s.db, s.calls, f, p, PhaseOf(s, h));
    PausedRowIsLast(w, s.db, f, p);
  }

  lemma {:induction false} RequestApproves(w: World, s: System, f: RefRun, p: nat, user: UserId)
    requires Inv(w, s, f, p, None) && s.db.run.status.RunPaused? && user in s.roles && (s.roles[user] == Owner || s.roles[user] == Editor)
    ensures p < |w.steps|
    ensures var after := ApplyAll(w, s, Approval(w, s, p, user)); var t := |s.threads|;
      ApprovedBy(w, after, p, user) && HoldersOf(after) == {t} && after.threads[t].alive
  {
    MemberApproves(w, s, f, p, user);
    OnlyHolder(w, ApplyAll(w, s, Approval(w, s, p, user)), f, p + 1, |s.threads|);
  }

  lemma {:induction false} OnlyHolder(w: World, s: System, f: RefRun, p: nat, t: nat)
    requires Inv(w, s, f, p, Some(t))
    ensures HoldersOf(s) == {t}
  {
  }

  /**
    In every reachable state that waits at a gate, the request of any owner or editor leads in three of
    its own steps to that gate approved in this user's name, with the request as the holder of the run.
   */
  lemma {:induction false} WaitingGateCanBeApproved(w: World, roles: map<UserId, Role>, events: seq<Event>, i: nat, user: UserId)
    requires ValidSteps(w.steps) && i < |w.steps|
    requires var s := Run(w, roles, events);
      && WaitsAtGate(w, s) && PausedAtIndex(w.steps, s.db.rows, i)
      && user in s.roles && (s.roles[user] == Owner || s.roles[user] == Editor)
    ensures var s := Run(w, roles, events); var t := |s.threads|;
      var after := Run(w, roles, events + [Ask(user, w.steps[i].id), Advance(t), Advance(t)]);
      ApprovedBy(w, after, i, user) && HoldersOf(after) == {t} && after.threads[t].alive
  {
    var s, f := Run(w, roles, events), Reference(w, []);
    var p, h := InvRun(w, roles, events);
    WaitsAtFrontier(w, s, f, p, h, i);
    RequestApproves(w, s, f, p, user);
    ApplyInTwo(w, Initial(roles), events, Approval(w, s, p, user));
  }

  /** In any state, the request of someone who is neither is refused and changes no row. */
  lemma {:induction false} OthersAreRefused(w: World, s: System, gate: StepId, user: UserId)
    requires Placed(w, s) && (user in s.roles ==> s.roles[user] == Viewer)
    ensures var t := |s.threads|; var after := ApplyAll(w, s, [Ask(user, gate), Advance(t)]);
      after.db == s.db && after.threads == s.threads + [Thread(Returned(Refused), true)]
  {
    var t := |s.threads|;
    var s1 := Apply(w, s, Ask(user, gate));
    assert [Ask(user, gate), Advance(t)][1..] == [Advance(t)] && [Advance(t)][1..] == [];
    assert !Permitted(w, s1, user, gate);
    assert Apply(w, s1, Advance(t)).threads == s.threads + [Thread(Returned(Refused), true)];
    assert ApplyAll(w, s1, [Advance(t)]) == ApplyAll(w, Apply(w, s1, Advance(t)), []);
  }

  /** The role is read when the request is checked: whoever has lost it by then is refused. */
  lemma {:induction false} RevokedIsRefused(w: World, s: System, gate: StepId, user: UserId, role: Option<Role>)
    requires Placed(w, s) && (role == None || role == Some(Viewer))
    ensures var t := |s.threads|;
      var after := ApplyAll(w, s, [Ask(user, gate), SetRole(user, role), Advance(t)]);
      after.db == s.db && after.threads == s.threads + [Thread(Returned(Refused), true)]
  {
    var t := |s.threads|;
    var s1 := Apply(w, s, Ask(user, gate));
    var s2 := Apply(w, s1, SetRole(user, role));
    ApplyThree(w, s, [Ask(user, gate), SetRole(user, role), Advance(t)]);
    assert !Permitted(w, s2, user, gate);
    assert Apply(w, s2, Advance(t)).threads == s.threads + [Thread(Returned(Refused), true)];
  }
}
