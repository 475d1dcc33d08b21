/**
  Runtime authorization: packages/engine/src/core/authz.ts. A decision is a cascade over one read
  of the database; the caller's role comes only from `org_members`.
 */
module Authz {
  import opened Base
  import opened Workflow
  import opened Repository

  datatype Role = Owner | Editor | Viewer

  /** `ROLES_THAT_MAY_EXECUTE` and `ROLES_THAT_MAY_APPROVE`. */
  predicate MayAct(role: Role) { role.Owner? || role.Editor? }

  datatype WorkflowStatus = Draft | Active | Archived

  datatype Denial =
    | Malformed
    | NotFoundOrNoAccess
    | RoleTooLow(role: Role)
    | NotAGate(name: string, kind: StepKind)
    | AlreadyProcessed
    | NotAwaiting(status: StepStatus)
    | RunNotPaused(run: RunStatus)
    | IsArchived
    | HasNoSteps

  datatype Verdict<+T> = Granted(value: T) | Denied(why: Denial)

  /** What the approval decision reads of a step run, its step and its run. */
  datatype ApprovalView = ApprovalView(
    name: string, kind: StepKind, status: StepStatus, approvedBy: Option<UserId>, approvedAt: bool,
    runStatus: RunStatus)

  /** The checks after the membership was found, in the order they are made. */
  function CheckApproval(view: ApprovalView, role: Role): Verdict<()> {
    if !MayAct(role) then Denied(RoleTooLow(role))
    else if !view.kind.ApprovalGate? then Denied(NotAGate(view.name, view.kind))
    else if view.approvedAt || view.approvedBy.Some? then Denied(AlreadyProcessed)
    else if !view.status.Paused? then Denied(NotAwaiting(view.status))
    else if !view.runStatus.RunPaused? then Denied(RunNotPaused(view.runStatus))
    else Granted(())
  }
}
