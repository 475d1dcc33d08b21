/**
  The concurrent protocol around one `workflow_runs` row: any number of start deliveries and approval
  requests, interleaved one database request at a time, with crashes anywhere and roles that change.
 */
module Protocol {
  import opened Base
  import opened Workflow
  import opened Repository
  import opened Engine
  import opened Authz

  /** An executor; one that crashed stays where it was and makes no further request. */
  datatype Thread = Thread(phase: Phase, alive: bool)

  /** A call of a step body: attempt `attempt` of the step at `index`. */
  datatype Call = Call(index: nat, attempt: nat)

  /** A passed `authorizeApproval`: who, for which gate, with which role. */
  datatype Pass = Pass(user: UserId, gate: StepId, role: Role)

  /**
    The rows, the executors, the caller's organization roles, and two histories nothing reads: the
    body calls made so far and the approvals authorized so far.
   */
  datatype System = System(
    db: Db, threads: seq<Thread>, roles: map<UserId, Role>, calls: seq<Call>, passed: set<Pass>)

  datatype Event =
    | Deliver
    | Ask(user: UserId, gate: StepId)
    | Advance(thread: nat)
    | Crash(thread: nat)
    | SetRole(user: UserId, role: Option<Role>)

  function Initial(roles: map<UserId, Role>): System {
    System(Db(NEW_RUN, map[]), [], roles, [], {})
  }

  /** What `authorizeApproval` reads about a step run of this run. */
  function ViewOf(w: World, db: Db, gate: StepId): Option<ApprovalView> {
    match FindId(w.steps, gate)
    case None => None
    case Some(i) =>
      if gate !in db.rows then None
      else
        var row := db.rows[gate];
        Some(ApprovalView(w.steps[i].name, w.steps[i].kind, row.status, row.approvedBy, row.approvedAt,
                          db.run.status))
  }

  predicate Permitted(w: World, s: System, user: UserId, gate: StepId) {
    && user in s.roles
    && ViewOf(w, s.db, gate).Some?
    && CheckApproval(ViewOf(w, s.db, gate).value, s.roles[user]).Granted?
  }

  /** One request of one executor. */
  function Act(w: World, s: System, phase: Phase): (r: (Db, Phase))
    requires OnStep(w, phase) && !phase.Returned?
    ensures OnStep(w, r.1)
  {
    if Holds(phase) then Exec(w, s.db, phase)
    else
      match phase
      case Delivered => (s.db, if Terminal(s.db.run.status) then Returned(Noop) else Claiming)
      case Claiming =>
        var (db, claimed) := ClaimRun(s.db);
        (db, if claimed then Claimed else Returned(SkippedAlreadyRunning))
      case Asked(user, gate) =>
        (s.db, if Permitted(w, s, user, gate) then Approving(user, gate) else Returned(Refused))
      case Approving(user, gate) =>
        var (db, claimed) := ClaimApproval(s.db, gate, user);
        (db, if claimed then GateClaimed else Returned(Refused))
  }

  predicate Placed(w: World, s: System) {
    forall t :: 0 <= t < |s.threads| ==> OnStep(w, s.threads[t].phase)
  }

  predicate CanAdvance(s: System, t: nat) {
    t < |s.threads| && s.threads[t].alive && !s.threads[t].phase.Returned?
  }

  function Called(phase: Phase): seq<Call> {
    if phase.Calling? then [Call(phase.l.index, phase.attempt)] else []
  }

  function PassedBy(w: World, s: System, phase: Phase): set<Pass> {
    if phase.Asked? && Permitted(w, s, phase.user, phase.gate)
    then {Pass(phase.user, phase.gate, s.roles[phase.user])} else {}
  }

  function Apply(w: World, s: System, e: Event): (r: System)
    requires Placed(w, s)
    ensures Placed(w, r)
  {
    match e
    case Deliver => s.(threads := s.threads + [Thread(Delivered, true)])
    case Ask(user, gate) => s.(threads := s.threads + [Thread(Asked(user, gate), true)])
    case SetRole(user, role) =>
      s.(roles := match role case None => s.roles - {user} case Some(r) => s.roles[user := r])
    case Crash(t) =>
      if t < |s.threads| then s.(threads := s.threads[t := s.threads[t].(alive := false)]) else s
    case Advance(t) =>
      if !CanAdvance(s, t) then s
      else
        var phase := s.threads[t].phase;
        var (db, next) := Act(w, s, phase);
        s.(db := db, threads := s.threads[t := Thread(next, true)],
           calls := s.calls + Called(phase), passed := s.passed + PassedBy(w, s, phase))
  }

  function ApplyAll(w: World, s: System, events: seq<Event>): (r: System)
    requires Placed(w, s)
    ensures Placed(w, r)
    decreases |events|
  {
    if events == [] then s else ApplyAll(w, Apply(w, s, events[0]), events[1..])
  }

  /** The state after any events whatever, from a newly created run. */
  function Run(w: World, roles: map<UserId, Role>, events: seq<Event>): System {
    ApplyAll(w, Initial(roles), events)
  }
}
