/**
  The two authorization decisions over the whole database: packages/engine/src/core/authz.ts. A caller
  supplies an id; the organization and the role are looked up from it. What a caller can learn is
  exactly what is inside the organizations the caller belongs to.
 */
module Access {
  import opened Base
  import opened Workflow
  import opened Repository
  import opened Authz
  import Protocol

  type Id = string

  datatype StepRunRecord = StepRunRecord(
    runId: Id, stepId: Id, status: StepStatus, approvedBy: Option<UserId>, approvedAt: bool)
  datatype StepRecord = StepRecord(workflowId: Id, name: string, kind: StepKind, position: nat)
  datatype RunRecord = RunRecord(workflowId: Id, orgId: Id, status: RunStatus)
  datatype WorkflowRecord = WorkflowRecord(orgId: Id, name: string, status: WorkflowStatus)
  datatype OrgRecord = OrgRecord(used: nat, limit: nat)

  datatype Database = Database(
    stepRuns: map<Id, StepRunRecord>,
    steps: map<Id, StepRecord>,
    runs: map<Id, RunRecord>,
    workflows: map<Id, WorkflowRecord>,
    orgs: map<Id, OrgRecord>,
    members: map<(Id, UserId), Role>)

  /** The foreign keys of the schema. */
  ghost predicate ForeignKeys(db: Database) {
    && (forall id :: id in db.stepRuns ==> db.stepRuns[id].runId in db.runs && db.stepRuns[id].stepId in db.steps)
    && (forall id :: id in db.runs ==> db.runs[id].workflowId in db.workflows)
    && (forall id :: id in db.workflows ==> db.workflows[id].orgId in db.orgs)
  }

  // ---------------------------------------------------------------- ids

  predicate HexDigit(c: char) { '0' <= c <= '9' || 'a' <= c <= 'f' || 'A' <= c <= 'F' }

  /** `isUuid`. */
  predicate IsUuid(id: string) {
    && |id| == 36
    && (forall i :: 0 <= i < 36 ==> (i == 8 || i == 13 || i == 18 || i == 23 || HexDigit(id[i])))
    && id[8] == id[13] == id[18] == id[23] == '-'
    && '1' <= id[14] <= '8'
    && id[19] in "89abAB"
  }

  // ---------------------------------------------------------------- the decisions

  datatype ApprovalGrant = ApprovalGrant(
    stepRunId: Id, stepName: string, stepPosition: nat, runId: Id, workflowId: Id, orgId: Id, role: Role)

  function AuthorizeApproval(db: Database, id: Id, user: UserId): Verdict<ApprovalGrant>
    requires ForeignKeys(db)
  {
    if !IsUuid(id) then Denied(Malformed)
    else if id !in db.stepRuns then Denied(NotFoundOrNoAccess)
    else
      var sr := db.stepRuns[id];
      var step := db.steps[sr.stepId];
      var run := db.runs[sr.runId];
      var org := db.workflows[run.workflowId].orgId;
      if (org, user) !in db.members then Denied(NotFoundOrNoAccess)
      else
        var role := db.members[(org, user)];
        var view := ApprovalView(step.name, step.kind, sr.status, sr.approvedBy, sr.approvedAt, run.status);
        match CheckApproval(view, role)
        case Denied(why) => Denied(why)
        case Granted(_) => Granted(ApprovalGrant(id, step.name, step.position, sr.runId, run.workflowId, run.orgId, role))
  }

  datatype ExecutionGrant = ExecutionGrant(
    workflowId: Id, workflowName: string, orgId: Id, role: Role, stepCount: nat, quotaUsed: nat, quotaLimit: nat)

  function StepsOf(db: Database, workflowId: Id): set<Id> {
    set id | id in db.steps && db.steps[id].workflowId == workflowId
  }

  function AuthorizeWorkflowExecution(db: Database, id: Id, user: UserId): Verdict<ExecutionGrant>
    requires ForeignKeys(db)
  {
    if !IsUuid(id) then Denied(Malformed)
    else if id !in db.workflows then Denied(NotFoundOrNoAccess)
    else
      var wf := db.workflows[id];
      if (wf.orgId, user) !in db.members then Denied(NotFoundOrNoAccess)
      else
        var role := db.members[(wf.orgId, user)];
        if !MayAct(role) then Denied(RoleTooLow(role))
        else if wf.status.Archived? then Denied(IsArchived)
        else if |StepsOf(db, id)| == 0 then Denied(HasNoSteps)
        else
          var org := db.orgs[wf.orgId];
          Granted(ExecutionGrant(id, wf.name, wf.orgId, role, |StepsOf(db, id)|, org.used, org.limit))
  }

  // ---------------------------------------------------------------- what is inside a user's organizations

  predicate Belongs(db: Database, user: UserId, org: Id) { (org, user) in db.members }

  predicate WorkflowInside(db: Database, user: UserId, id: Id) {
    id in db.workflows && Belongs(db, user, db.workflows[id].orgId)
  }

  predicate RunInside(db: Database, user: UserId, id: Id) {
    id in db.runs && WorkflowInside(db, user, db.runs[id].workflowId)
  }

  predicate StepRunInside(db: Database, user: UserId, id: Id) {
    id in db.stepRuns && RunInside(db, user, db.stepRuns[id].runId)
  }

  /** Two databases hold the same inside the organizations of `user`, and may differ in everything else. */
  ghost predicate SameInside(a: Database, b: Database, user: UserId)
    requires ForeignKeys(a) && ForeignKeys(b)
  {
    && (forall org :: Belongs(a, user, org) <==> Belongs(b, user, org))
    && (forall org :: Belongs(a, user, org) ==> a.members[(org, user)] == b.members[(org, user)])
    && (forall id :: WorkflowInside(a, user, id) <==> WorkflowInside(b, user, id))
    && (forall id :: WorkflowInside(a, user, id) ==>
          && a.workflows[id] == b.workflows[id]
          && a.orgs[a.workflows[id].orgId] == b.orgs[b.workflows[id].orgId]
          && StepsOf(a, id) == StepsOf(b, id))
    && (forall id :: RunInside(a, user, id) <==> RunInside(b, user, id))
    && (forall id :: RunInside(a, user, id) ==> a.runs[id] == b.runs[id])
    && (forall id :: StepRunInside(a, user, id) <==> StepRunInside(b, user, id))
    && (forall id :: StepRunInside(a, user, id) ==>
          a.stepRuns[id] == b.stepRuns[id] && a.steps[a.stepRuns[id].stepId] == b.steps[b.stepRuns[id].stepId])
  }

  /**
    Two-database indistinguishability: for every id, of a foreign row, of a missing row or of neither
    shape, the user gets the same answer from both databases.
   */
  lemma {:induction false} Indistinguishable(a: Database, b: Database, id: Id, user: UserId)
    requires ForeignKeys(a) && ForeignKeys(b) && SameInside(a, b, user)
    ensures AuthorizeApproval(a, id, user) == AuthorizeApproval(b, id, user)
    ensures AuthorizeWorkflowExecution(a, id, user) == AuthorizeWorkflowExecution(b, id, user)
  {
    assert StepRunInside(a, user, id) <==> StepRunInside(b, user, id);
    assert WorkflowInside(a, user, id) <==> WorkflowInside(b, user, id);
    if StepRunInside(a, user, id) {
      assert RunInside(a, user, a.stepRuns[id].runId);
      assert WorkflowInside(a, user, a.runs[a.stepRuns[id].runId].workflowId);
    }
  }

  // ---------------------------------------------------------------- who is granted what

  predicate Hex(s: string, n: nat) { |s| == n && forall c :: c in s ==> c in "0123456789abcdefABCDEF" }

  lemma {:induction false} HexDigits(c: char)
    ensures HexDigit(c) <==> c in "0123456789abcdefABCDEF"
  {
  }

  /** The five groups of a UUID, of versions 1 to 8 and of the variant of RFC 9562, section 4.1. */
  predicate Groups(id: string, a: string, b: string, c: string, d: string, e: string) {
    && id == a + "-" + b + "-" + c + "-" + d + "-" + e
    && Hex(a, 8) && Hex(b, 4) && Hex(c, 4) && Hex(d, 4) && Hex(e, 12)
    && c[0] in "12345678" && d[0] in "89abAB"
  }

  lemma {:induction false} PartIsHex(id: string, i: nat, j: nat)
    requires i <= j <= |id| && forall k :: i <= k < j ==> HexDigit(id[k])
    ensures Hex(id[i..j], j - i)
  {
    forall c | c in id[i..j] ensures c in "0123456789abcdefABCDEF" {
      HexDigits(c);
    }
  }

  lemma {:induction false} UuidHasGroups(id: string) returns (a: string, b: string, c: string, d: string, e: string)
    requires IsUuid(id)
    ensures Groups(id, a, b, c, d, e)
  {
    PartIsHex(id, 0, 8);
    PartIsHex(id, 9, 13);
    PartIsHex(id, 14, 18);
    PartIsHex(id, 19, 23);
    PartIsHex(id, 24, 36);
    a, b, c, d, e := id[0..8], id[9..13], id[14..18], id[19..23], id[24..36];
    assert id == a + "-" + b + "-" + c + "-" + d + "-" + e;
  }

  lemma {:induction false} GroupsMakeUuid(id: string, a: string, b: string, c: string, d: string, e: string)
    requires Groups(id, a, b, c, d, e)
    ensures IsUuid(id)
  {
    assert id[..8] == a && id[9..13] == b && id[14..18] == c && id[19..23] == d && id[24..] == e;
    forall x ensures HexDigit(x) <==> x in "0123456789abcdefABCDEF" {
      HexDigits(x);
    }
    forall i | 0 <= i < 36 && i != 8 && i != 13 && i != 18 && i != 23 ensures HexDigit(id[i]) {
      assert id[i] in a || id[i] in b || id[i] in c || id[i] in d || id[i] in e by {
        if i < 8 { assert id[i] == a[i]; }
        else if i < 13 { assert id[i] == b[i - 9]; }
        else if i < 18 { assert id[i] == c[i - 14]; }
        else if i < 23 { assert id[i] == d[i - 19]; }
        else { assert id[i] == e[i - 24]; }
      }
    }
  }

  /**
    Execution is granted exactly to an owner or editor of the workflow's organization, for a workflow
    that has a step and is not archived; the grant tells the row, the role, the steps and the quota.
    A refusal tells the first reason: a stranger learns no more than for a workflow that does not exist.
   */
  lemma {:induction false} ExecutionGrantedExactly(db: Database, id: Id, user: UserId)
    requires ForeignKeys(db)
    ensures var verdict := AuthorizeWorkflowExecution(db, id, user);
      if !IsUuid(id) then verdict == Denied(Malformed)
      else if !(id in db.workflows && (db.workflows[id].orgId, user) in db.members) then verdict == Denied(NotFoundOrNoAccess)
      else
        var wf := db.workflows[id];
        var role := db.members[(wf.orgId, user)];
        if role == Viewer then verdict == Denied(RoleTooLow(Viewer))
        else if wf.status == Archived then verdict == Denied(IsArchived)
        else if forall s :: s in db.steps ==> db.steps[s].workflowId != id then verdict == Denied(HasNoSteps)
        else
          && (role == Owner || role == Editor)
          && verdict == Granted(ExecutionGrant(id, wf.name, wf.orgId, role,
               |set s | s in db.steps && db.steps[s].workflowId == id|, db.orgs[wf.orgId].used, db.orgs[wf.orgId].limit))
  {
    var steps := StepsOf(db, id);
    assert steps == set s | s in db.steps && db.steps[s].workflowId == id;
    if s :| s in db.steps && db.steps[s].workflowId == id {
      assert s in steps;
    } else {
      assert steps == {};
    }
  }

  /**
    Approval is granted exactly to an owner or editor of the organization of the run's workflow, for a
    gate that is paused and unprocessed in a run that is paused; a refusal tells the first reason.
   */
  lemma {:induction false} ApprovalGrantedExactly(db: Database, id: Id, user: UserId)
    requires ForeignKeys(db)
    ensures var verdict := AuthorizeApproval(db, id, user);
      if !IsUuid(id) then verdict == Denied(Malformed)
      else if id !in db.stepRuns then verdict == Denied(NotFoundOrNoAccess)
      else
        var sr := db.stepRuns[id];
        var step, run := db.steps[sr.stepId], db.runs[sr.runId];
        var member := (db.workflows[run.workflowId].orgId, user);
        if member !in db.members then verdict == Denied(NotFoundOrNoAccess)
        else if db.members[member] == Viewer then verdict == Denied(RoleTooLow(Viewer))
        else if step.kind != ApprovalGate then verdict == Denied(NotAGate(step.name, step.kind))
        else if sr.approvedAt || sr.approvedBy != None then verdict == Denied(AlreadyProcessed)
        else if sr.status != Paused then verdict == Denied(NotAwaiting(sr.status))
        else if run.status != RunPaused then verdict == Denied(RunNotPaused(run.status))
        else
          && (db.members[member] == Owner || db.members[member] == Editor)
          && verdict == Granted(ApprovalGrant(id, step.name, step.position, sr.runId, run.workflowId, run.orgId, db.members[member]))
  {
  }

  // ---------------------------------------------------------------- the decision of a run

  /** The database holds the run of the state `s`, with `id` as the id of the gate's row. */
  ghost predicate ShowsRun(db: Database, w: World, s: Protocol.System, gate: StepId, id: Id, user: UserId)
    requires ForeignKeys(db)
  {
    && IsUuid(id)
    && (id in db.stepRuns <==> gate in s.db.rows && FindId(w.steps, gate).Some?)
    && (id in db.stepRuns ==>
          var sr, row := db.stepRuns[id], s.db.rows[gate];
          var member := (db.workflows[db.runs[sr.runId].workflowId].orgId, user);
          && (sr.status, sr.approvedBy, sr.approvedAt) == (row.status, row.approvedBy, row.approvedAt)
          && db.steps[sr.stepId].kind == w.steps[FindId(w.steps, gate).value].kind
          && db.runs[sr.runId].status == s.db.run.status
          && (member in db.members <==> user in s.roles)
          && (member in db.members ==> db.members[member] == s.roles[user]))
  }

  /** The check that a run makes of an approver is the authorization decision over the whole database. */
  lemma {:induction false} PermittedIsGranted(db: Database, w: World, s: Protocol.System, gate: StepId, id: Id, user: UserId)
    requires ForeignKeys(db) && ShowsRun(db, w, s, gate, id, user)
    ensures Protocol.Permitted(w, s, user, gate) <==> AuthorizeApproval(db, id, user).Granted?
  {
  }
}
