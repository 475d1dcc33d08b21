# Workflow engine: models and proofs

A workflow is an ordered list of steps: calls to language models and HTTP services, database writes,
notifications, forward branches and approval gates. A run executes the list once. Starting it is an
event that may be delivered several times; a gate pauses it until somebody approves; every piece of
progress is a row in the database. This project models that engine in Dafny and proves what it promises.

**The protocol** (`Engine`, `Protocol`, `Invariant`, `Keeps`, `Theorems`). Executors are machines whose
every step is one database request or one body call (`Engine.Exec`). Any number of start deliveries and
approval requests interleave freely, executors crash anywhere, roles change (`Protocol.Apply`). There is
no lock: mutual exclusion follows from the conditional claim, the conditional approval, the snapshot
check before it, and the run status being the last write of a segment.

**The meaning of a run** (`ReferenceRun`, `Frontier`, `Coverage`, `RunProperties`). `ReferenceRun.Reference`
is one pass over the list with no rows, no pauses and no duplicates, in which an approved gate is a step
with null output behind which earlier outputs are those read back from their columns. The invariant ties
every reachable state to a prefix of that one pass; gate safety, coverage, the rebuilt context and the
histories of starts and body calls are read off it.

**What pausing changes** (`Rereading`, `Jsonb`, `Alike`, `OrderFree`, `Rigidity`, `KeyOrderExamples`). Outputs
are fed forward in memory and rebuilt from jsonb columns after a gate, and jsonb does not keep the order of
keys (`KeyOrder`), by which conditions and mixed templates decide. The context in memory and the rebuilt one are equal
exactly when the segment's outputs come back as they were written (`Rereading.ContextIsRebuiltExactly`). No
output of the engine's own step kinds ever does (`KeyOrderExamples.OutputReordered`: a conditional branch
writes `matched` before `path`, engine.ts:155-162; an HTTP request `status` before `ok`, http.ts:201-213; a
model call `provider` before `stubbed`, llm.ts:302-309; a database write `output_id` before `org_id`,
dbWrite.ts:60-68; a notification `notification_id` before `org_id`, notify.ts:77-85), so the two contexts
differ from the first completed step of a segment on. What a run means survives all the same, up to what its
rows show, exactly when every step does the same in both contexts (`Alike.AlikeExactly`,
`Alike.RowsTellExactly`, `Alike.MeaningSurvives`); and it does whenever the paths that steps name lead into
the trigger or the run, find nothing, or find values without an order of keys to lose
(`OrderFree.OrderFreeRunsAgree`, with `KeyOrderExamples.LabelRunsAgree` as an instance behind a gate).

**The engine as it is written** (`Runner`, `ContextRebuild`). The rows are fields of a class, the requests
are methods that update them, and `executeRun` is a loop over local variables, proved against the same
reference run.

**What steps see and rows say** (`ContextLaws`, `RowLaws`, `Approvals`). What a run was started with is found in
every context of every segment, and under each position exactly what became of that step; every column of every
row is tied to its status; and gates are approved by owners and editors alone, and by any of them.

**Progress** (`Progress`). Segments terminate, finished runs absorb everything, and a run can still finish
exactly when no executor crashed while it held it.

**The engine's own parts, filled in** (`StepBodies`, `Shortfalls`). The theorems above hold for every behaviour of
templates, policies and bodies; here they are instantiated with the modelled ones, so that what a
conditional branch decides on in a run can be stated, and so that the inputs on which the engine does
less than its documentation says can be given as runs.

**What the engine relies on**: retry and backoff (`Retry`), the monthly quota and its concurrent callers
(`Quota`, `QuotaCallers`), templates and paths (`Templates`, `TemplateLaws`, `RunContext`), serialized
comparison and branch conditions (`JsonText`, `JsonGrammar`, `Conditions`), authorization over the whole database
(`Authz`, `Access`), the scheduled sweep (`Schedule`), and the redirect and capped-read loops (`Http`).

Assumptions: the step list is fixed while a run is under way, with distinct ids and rising positions
(`Workflow.ValidSteps`); bodies, templates' and policies' effects on them, and delays are functions of
their inputs and the attempt number, quantified over; what a jsonb column hands back is a function of what
was written (`World.store`, any function in the general theorems, `Jsonb.Column` where the parts are filled
in); step configurations and the run's input are as their columns hand them back; a database request
either happened or did not; only the modelled code writes run state.

Where the code and its own documentation disagree, the code is followed:

- README.md:91-93 and packages/engine/src/core/runs.ts:7-8 say that a crashed handler cannot orphan a run.
  After the claim it can: redelivery is then skipped. `Progress.FinishableExactly` says exactly
  when, and `Shortfalls.CrashAfterClaimOrphans` gives the events.
- packages/engine/src/core/engine.ts:289 says unreachable steps are recorded; after a bad or backward
  branch target (engine.ts:318-325, 342-347) they are not. `RunProperties.FailedRunCoverage` has both cases
  with their conditions, `Shortfalls.BadTargetLeavesStepsUnmarked` a workflow.
- After a resume the approved gate is itself the previous step, with null output (engine.ts:67-81); the
  reference run treats it so.
- engine.ts:56 says the context is rebuilt from what was persisted; it is, but with keys in the column's
  order. An http_request answered with `{"b":1,"a":2}`, a gate, and a branch on whether that answer equals
  `{"a":2,"b":1}`: the run takes the first target, which it would not without the gate
  (`Shortfalls.ReorderedKeysChangeTheRun`; the exact condition on the context is
  `Rereading.ContextIsRebuiltExactly`, the one on the run `Alike.AlikeExactly`).
- A refund that arrives after the monthly reset is taken from the new month
  (`QuotaCallers.LateRefundOvergrants`, and the exact condition in `QuotaCallers.RefundConservesExactly`).
- A scheduled trigger whose `every_minutes` is not a number has no floor of 15 minutes: it is due on every
  sweep; with an infinite one it is due only once (`Schedule.DueExactly`).
- `equals null` is false where a path finds nothing, while `in [null]` is true
  (`Conditions.EqualsAgreesWithIn`).

`dafny verify dfyconfig.toml` checks everything.

## Model

| member | source | states |
|---|---|---|
| `Theorems.OneToken` | packages/engine/src/core/engine.ts:178-357 | In every interleaving of start deliveries, approval requests, role changes, single database requests and crashes, exactly one holds: the run is pending, it waits at an unapproved paused gate, it is over, or one executor holds it (an approver that has claimed its gate counts) |
| `Theorems.MutualExclusion` | packages/engine/src/core/repository.ts:102-119 | Two executors that hold the run are the same one, crashed or not; without crashes it is alive |
| `Theorems.InvStep` | packages/engine/src/core/engine.ts:185-246 | Every event keeps the invariant that ties rows, private state of the holder, pending approvers, body-call history and authorization history to a prefix of the reference run, and the prefix never shrinks |
| `Theorems.InvRun` | packages/engine/src/core/approval.ts:53-90 | The invariant holds after any events from a newly created run |
| `Theorems.AskedStays` | packages/engine/src/core/authz.ts:287-303 | A passed authorization binds the approver to the one gate the run waits at: the snapshot check that step and run are both paused rules out a gate whose pausing is still under way |
| `Invariant.InvApprove` | packages/engine/src/core/approval.ts:18-43 | A successful conditional approval, which itself does not look at the run's status, settles exactly the waiting gate and makes the approver the only holder |
| `Invariant.InvClaim` | packages/engine/src/core/repository.ts:102-119 | A successful claim of a pending run makes the claimer the only holder |
| `Keeps.ExecKeeps` | packages/engine/src/core/engine.ts:217-356 | Each single request of the executor that holds the run keeps the rows equal to the settled records plus the row in flight, whichever phase it is in |
| `Theorems.RowsFollowReference` | packages/engine/src/core/engine.ts:198-356 | At every moment the step rows are the first records of one reference run plus at most one row in flight; a finished run has all of them, with the run row the reference's ending asks for. The reference feeds outputs forward in memory and reads them back from their columns behind an approved gate |
| `Alike.AlikeExactly` | packages/engine/src/core/engine.ts:198-356 | The run cut by gates and the run that is never cut are alike, record by record up to what the columns keep, with the same heads and ending, if and only if every step that both come to behind alike records gives alike configs, the same attempts, error and route, and alike outputs in both contexts |
| `Alike.RowsTellExactly` | packages/engine/src/core/engine.ts:198-356 | A finished run has exactly the rows and the run row of a given run if and only if the records of its reference are alike and it ends alike |
| `Alike.MeaningSurvives` | packages/engine/src/core/engine.ts:198-356 | Pause and resume preserve meaning: when every step acts alike in both contexts, a finished run is row for row the run that is never cut |
| `Alike.AlikeContexts` | packages/engine/src/core/engine.ts:57-83 | Behind alike records the contexts of the cut and the uncut run are the same once read back |
| `Alike.AlikeByContexts` | packages/engine/src/core/engine.ts:198-356 | A condition on the uncut run alone: when at each of its heads the step acts alike in every context that reads back the same, the two runs are alike |
| `OrderFree.OrderFreeRunsAgree` | packages/engine/src/core/engine.ts:139-166 | With templates, policies and branches filled in: when every path a step names leads into the trigger or the run, finds nothing, or finds a value without an order of keys to lose, every finished run is row for row the uncut one, whatever order the outputs have |
| `OrderFree.SettledStepActsAlike` | packages/engine/src/core/engine.ts:139-166 | Such a step acts alike in any two contexts that read back the same |
| `OrderFree.SameFound` | packages/engine/src/core/engine.ts:67-80 | Such a path finds the same value in any two contexts that read back the same |
| `Rigidity.RigidDetermined` | hasura/migrations/default/1786000000000_init_workflow_schema/up.sql:262-263 | A value without an order of keys to lose is determined by what the column makes of it |
| `KeyOrderExamples.OutputReordered` | packages/engine/src/steps/http.ts:201-213 | Whatever its values, no output of the five executable step kinds comes back from its column as it was written |
| `KeyOrderExamples.BranchOutputReordered` | packages/engine/src/core/engine.ts:154-166 | What a conditional branch puts out never comes back as it was written |
| `KeyOrderExamples.BranchPartsContexts` | packages/engine/src/core/engine.ts:57-83 | At every point behind a completed branch in the same segment the context in memory differs from the one read back |
| `KeyOrderExamples.LabelRunsAgree` | packages/engine/src/core/engine.ts:67-80 | A request, a gate and a branch on one member of the answer: every finished run is the uncut run, although the answer comes back reordered |
| `Rereading.ContextIsRebuiltExactly` | packages/engine/src/core/engine.ts:57-83 | At every loop head of every segment the template context in memory equals the one rebuilt from the rows if and only if the outputs since the segment began come back from their columns as they were written |
| `Rereading.RebuiltIsReread` | packages/engine/src/core/engine.ts:57-83 | At every loop head the rebuilt context is the one in memory with each output passed through its column, for a column that keeps what it handed back |
| `Rereading.SameContextExactly` | packages/engine/src/core/engine.ts:67-82 | The same equivalence for any list of records: entries, previous output and all |
| `Jsonb.FixedExactly` | hasura/migrations/default/1786000000000_init_workflow_schema/up.sql:262-263 | A jsonb column hands back a value as it was written exactly when the keys of all its objects are in its order, array indices first, then by length in UTF-8, then by code points; a second pass changes nothing |
| `Jsonb.PathsKept` | hasura/migrations/default/1786000000000_init_workflow_schema/up.sql:262-263 | In the value a column hands back a path finds the column's form of what it found before: only the order of keys inside a found object can change |
| `KeyOrder.KeptInBytes` | hasura/migrations/default/1786000000000_init_workflow_schema/up.sql:262-263 | The column's order of keys is by the length of their UTF-8 encoding and then as its bytes compare |
| `KeyOrder.IndicesByNumber` | hasura/migrations/default/1786000000000_init_workflow_schema/up.sql:262-263 | The keys that an object lists first come in the order of their numbers |
| `KeyOrder.IndicesExactly` | hasura/migrations/default/1786000000000_init_workflow_schema/up.sql:262-263 | Those keys are exactly the decimal texts of the numbers below 2^32 - 1 |
| `KeyOrder.OrderExactly` | hasura/migrations/default/1786000000000_init_workflow_schema/up.sql:262-263 | In an object read back indices come first, by number, and then all other keys as the column keeps them |
| `Shortfalls.ReorderedKeysChangeTheRun` | packages/engine/src/core/engine.ts:67-80 | An answer with keys b, a, compared behind a gate with the same value in order: the run cut by the gate skips the last step, the uncut one executes it |
| `Shortfalls.ReorderedKeysSkipTheStep` | packages/engine/src/core/engine.ts:67-80 | Every finished run of that workflow has skipped that step |
| `RunProperties.FinishedRunsAgree` | packages/engine/src/core/engine.ts:198-356 | Any two finished runs of the same steps and outside behaviour agree in the run row and in every step row but for who approved, however often they paused, raced or crashed |
| `RunProperties.FrontierAtHead` | packages/engine/src/core/engine.ts:217-247 | At every loop head rows exist exactly for the steps before the index; a gate is never found already approved |
| `RunProperties.SkipsOnlyInsert` | packages/engine/src/core/repository.ts:205-234 | Whenever steps are marked skipped none of them has a row yet, so the on-conflict clause never applies |
| `RunProperties.ResumesBehindGate` | packages/engine/src/core/engine.ts:206-213 | A resume always has a position, and begins at the index behind the approved gate, also when the gate is last |
| `Workflow.ResumeStartsBehindGate` | packages/engine/src/core/engine.ts:234-235 | The position stored at a pause leads to exactly gate index + 1 |
| `RunProperties.GateSafety` | packages/engine/src/core/engine.ts:220-247 | Once a step's row shows it was started, every earlier gate was jumped over or completed by a user who passed the authorization for that gate with the role owner or the role editor |
| `Approvals.ApproversHadTheRole` | packages/engine/src/types.ts:43-44 | Whoever a row names as approver had been made an owner or an editor, at the creation of the run or by an event since |
| `Approvals.ViewersApproveNothing` | packages/engine/src/types.ts:43-44 | Where nobody is ever more than a viewer, no gate is approved in any interleaving, and a step behind a gate is started only when the gate was jumped over |
| `Approvals.WaitingGateCanBeApproved` | packages/engine/src/core/approval.ts:53-90 | In every reachable state that waits at a gate, the request of any owner or editor leads in three of its own steps to that gate completed in this user's name, with the request as the only holder of the run |
| `Approvals.OthersAreRefused` | packages/engine/src/core/authz.ts:271-276 | In any state the request of a viewer or a stranger is refused after its check and changes no row |
| `Approvals.RevokedIsRefused` | packages/engine/src/core/authz.ts:229-276 | The role is read when the request is checked: whoever lost it, or the membership, after asking is refused |
| `RunProperties.CallsFollowReference` | packages/engine/src/core/engine.ts:266-281 | The body calls made over all segments are a prefix of the reference run's calls, and all of them once the run is over |
| `RunProperties.NoCallTwice` | packages/engine/src/core/engine.ts:266-281 | Calls go up strictly in step order and then in attempt order over all segments: no attempt of any step is made twice |
| `RunProperties.StartsAscend` | packages/engine/src/core/engine.ts:220-264 | Over all segments the steps started, gates included, go up strictly: each is started at most once |
| `RunProperties.RunRowTells` | packages/engine/src/core/repository.ts:137-161 | In every reachable state the run row has a start unless pending, a pause time exactly while paused, an end time exactly when over, an error exactly when failed, and a position to resume at whenever paused and never when pending or over |
| `RowLaws.StepRowsTell` | packages/engine/src/core/repository.ts:190-234 | In every reachable state each step row tells its status in all columns: start and end times, input, output, error, attempts and approver of running, paused, completed, failed and skipped rows; none is pending |
| `RowLaws.PausedRunRemembers` | packages/engine/src/core/engine.ts:234-235 | A run that waits at a gate remembers the position of the step behind it, or the one after the gate's own when it is last |
| `RowLaws.AttemptIsNoted` | packages/engine/src/core/engine.ts:266-281 | The write behind an attempt sets the count, and a note of attempt, delay and error exactly while another attempt will follow; no other column changes |
| `RowLaws.StartIsWritten` | packages/engine/src/core/engine.ts:255-264 | Starting a step, whatever its row held, writes its input and leaves no output, error, attempts or end of an earlier outcome |
| `RowLaws.OutcomeIsWritten` | packages/engine/src/core/engine.ts:282-303 | Completing a step clears its error and keeps its attempts; failing it keeps input, output and attempts |
| `RowLaws.GateIsPassedOrPaused` | packages/engine/src/core/engine.ts:220-233 | A gate whose loaded row is completed and approved is passed without a request, and any other one is paused |
| `RowLaws.StoresAreCounted` | packages/engine/src/core/engine.ts:298-314 | A segment counts the steps executed from zero, by one for every output it stores and for nothing else, up to its report |
| `RowLaws.ReportTells` | packages/engine/src/core/engine.ts:282-347 | A pause reports its gate; a failure reports the body's error or the reason the target was refused, and the run keeps it, with the step's name for a body that gave up |
| `RunProperties.HeadSeesTheRun` | packages/engine/src/core/engine.ts:57-83 | At every loop head of every segment templates find the payload and the three ids the run was started with, and under each step's position exactly what became of that step |
| `ContextLaws.StartIsSeen` | packages/engine/src/core/context.ts:94-96 | In every context of a run, in memory or read back, a path into the trigger finds what it finds in the payload, and run.id, run.workflow_id and run.org_id find the run's ids |
| `ContextLaws.RebuiltSeesStart` | packages/engine/src/core/engine.ts:58-65 | The same in the context rebuilt from any rows |
| `ContextLaws.ContextFinds` | packages/engine/src/core/engine.ts:306-313 | At every point of a run a path under a step's position finds the step's output as it was put out, or read back once a gate behind it is approved, with name and kind, and nothing for steps that are later or were jumped over |
| `ContextLaws.RebuiltFinds` | packages/engine/src/core/engine.ts:67-76 | In the rebuilt context a path under a step's position finds the output of its completed row, null where there is none, and nothing for any other row |
| `ContextLaws.RebuiltPrevious` | packages/engine/src/core/engine.ts:80-81 | previous shows the output of the last completed row, and nothing exactly when no row is completed |
| `ContextLaws.NothingAtFirst` | packages/engine/src/core/context.ts:94-96 | Before the first step no path under any position finds anything, and there is no previous output |
| `StepBodies.PayloadIsFilledIn` | packages/engine/src/core/context.ts:65-70 | A config that is one placeholder for a path into the trigger is filled with what the payload has there, in every segment |
| `RunProperties.CompletedRunCoverage` | packages/engine/src/core/engine.ts:327-356 | In a completed run every step has a row, completed or skipped, and the skipped ones are exactly those a taken jump or an end leaves out |
| `RunProperties.FailedRunCoverage` | packages/engine/src/core/engine.ts:282-347 | In a failed run: completed or skipped rows, one failed row, then skipped rows to the end when that step's body gave up, and no rows at all when it succeeded with a branch that cannot be followed |
| `Coverage.BadIsAtHead` | packages/engine/src/core/engine.ts:282-347 | A step that is recorded as failed was reached by the loop, and its body gave up or its branch was refused |
| `Shortfalls.BadTargetLeavesStepsUnmarked` | packages/engine/src/core/engine.ts:318-325 | A branch to a position that does not exist: some run fails, and every finished run fails and leaves the step behind the branch without a row |
| `Coverage.ReachedIsHead` | packages/engine/src/core/engine.ts:217-247 | A step that was not jumped over is one the loop stood at |
| `Coverage.SkippedExactly` | packages/engine/src/core/engine.ts:327-341 | A step is skipped if and only if some executed step before it jumped over it, ended the run or failed |
| `ReferenceRun.AtHead` | packages/engine/src/core/engine.ts:217-353 | What the reference run does at each of its heads, by cases: end, gate, body that gives up, route forward, end of run, bad route |
| `Workflow.Route` | packages/engine/src/core/engine.ts:316-352 | A route that is followed leads strictly forward and stays within the list |
| `Workflow.RouteExactly` | packages/engine/src/core/engine.ts:86-115 | A route leads to index j exactly when the branch names j and j lies ahead; ends the run exactly on end; is refused exactly when nothing it names lies ahead |
| `Workflow.RefusedWhy` | packages/engine/src/core/engine.ts:86-115 | A refused target says why: no step with the id, no step at the position, or not ahead of the branch |
| `StepBodies.TargetsExactly` | packages/engine/src/types.ts:150-154 | A target of a config is followed to the step it points at, by action, id or position, exactly when that lies ahead; the action end ends the run and nothing else does |
| `StepBodies.BranchFollowsLastOutput` | packages/engine/src/core/engine.ts:139-166 | With templates, policies and branches filled in: a branch comparing the previous output with v goes to its first target exactly when the last completed step put out v (null behind an approved gate), and to the second otherwise |
| `StepBodies.BranchFollowsIntegers` | packages/engine/src/core/conditions.ts:104-120 | A branch with gt, gte, lt or lte goes to its first target exactly when the last completed output n satisfies n > v, n >= v, n < v or n <= v |
| `StepBodies.BranchFollowsOrder` | packages/engine/src/core/conditions.ts:104-120 | The same for anything both sides of which are read as numbers, texts included |
| `StepBodies.UnorderedBranchFails` | packages/engine/src/core/conditions.ts:104-112 | Where one side is not read as a number an ordering branch goes to its second target |
| `StepBodies.BranchFollowsTest` | packages/engine/src/core/conditions.ts:45-60 | A branch with is_true, is_false, exists or not_exists follows whether the last output is true or its text, false or its text, something other than null, or not |
| `StepBodies.OperatorNames` | packages/engine/src/types.ts:126-140 | Each name in a config stands for one of the fourteen operators, and each operator has one name |
| `StepBodies.BranchRecords` | packages/engine/src/core/engine.ts:154-166 | A branch on the last output records the decision, the path, the operator, what it expected and found, and the target it took |
| `StepBodies.IncompleteBranchFails` | packages/engine/src/core/engine.ts:139-145 | A branch without a path or an operator fails the run at the first attempt |
| `StepBodies.MissingTargetFails` | packages/engine/src/core/engine.ts:149-153 | So does one whose condition decides for a target that is not there |
| `StepBodies.UnreadableBranchRetries` | packages/engine/src/core/conditions.ts:122-127 | One with an unknown operator fails like any other error, after as many attempts as the policy allows |
| `StepBodies.ServiceAttempts` | packages/engine/src/core/retry.ts:77-85 | A step is attempted exactly until its service answers, fails for good, or was called max_attempts times, by the config's number or else the default, and at least once |
| `StepBodies.ServiceDelays` | packages/engine/src/core/retry.ts:77-85 | Its retries wait for the largest number of milliseconds within the drawn part of the window, for the base delay of the config or else the default |
| `StepBodies.PreviousOfRecords` | packages/engine/src/core/engine.ts:306-313 | The context's previous output is that of the last completed step, null for an approved gate |
| `Workflow.FirstWhere` | packages/engine/src/core/engine.ts:97-107 | The first index that satisfies a condition, or nothing when none does |
| `Workflow.FindId` | packages/engine/src/core/engine.ts:97-97 | The index of a step with the id, or nothing when no step has it |
| `Workflow.FirstFrom` | packages/engine/src/core/engine.ts:211-212 | The first index whose position is at least the given one, or the end of the list |
| `Progress.TerminalAbsorbs` | packages/engine/src/core/engine.ts:185-187 | Once a run is over, no later event changes its run row or any step row, or calls a body |
| `Progress.StartWritesNothing` | packages/engine/src/core/engine.ts:185-193 | Any single request of a start delivery on a run that is not pending writes nothing |
| `Progress.OverIsNoop` | packages/engine/src/core/engine.ts:185-187 | A start delivered to a run that is completed, failed or cancelled ends at once without a request that writes |
| `Progress.DuplicateStutters` | packages/engine/src/core/engine.ts:185-193 | A start delivered to a run that is not pending returns noop or skipped, and changes nothing else in the whole state |
| `Progress.SegmentDescends` | packages/engine/src/core/engine.ts:217-353 | Every request of a holder lowers the triple of steps left, stage of the step and attempts left, so every segment terminates |
| `Progress.HolderReturns` | packages/engine/src/core/engine.ts:217-357 | Left alone, a live executor that holds the run returns |
| `Progress.FinishableExactly` | packages/engine/src/core/runs.ts:5-8 | A run can still finish if and only if it is over or no executor crashed while it held it; a crash after the claim leaves it running for ever |
| `Shortfalls.CrashAfterClaimOrphans` | packages/engine/src/core/runs.ts:5-8 | After a start delivery that is claimed and then crashes, no events whatever finish the run |
| `Runner.RunStore.ClaimRunForExecution` | packages/engine/src/core/repository.ts:113-119 | Moves the row out of pending and says whether this call did |
| `Runner.RunStore.UpsertStepRun` | packages/engine/src/core/repository.ts:190-203 | Inserts with the column defaults or updates exactly the patched columns; input and output are kept in their columns' own form |
| `Runner.RunStore.MarkStepsSkipped` | packages/engine/src/core/repository.ts:220-234 | Inserts the missing rows as skipped, leaves the others, and counts the inserted ones |
| `Runner.RunStore.ClaimGate` | packages/engine/src/core/approval.ts:18-43 | Completes the paused, unapproved row for this user and says whether this call did |
| `Runner.Attempt` | packages/engine/src/core/engine.ts:266-281 | The retry loop of a step with the count written after every attempt: ends with the persisted count at the last attempt and the reference's outcome |
| `Runner.FailStep` | packages/engine/src/core/engine.ts:282-296 | A body that gave up: step failed, the rest skipped, run failed, as the reference records it |
| `Runner.FailBranch` | packages/engine/src/core/engine.ts:318-325 | A bad or backward target: step and run failed, later steps unmarked |
| `Runner.StoreAndRoute` | packages/engine/src/core/engine.ts:298-350 | Stores the output, feeds the context and follows the branch to the reference's next head or end |
| `Runner.RunLoop` | packages/engine/src/core/engine.ts:217-356 | The loop, from a head to the next gate or the end: rows, run row, outcome and number of executed steps are the reference's |
| `Runner.ExecuteRun` | packages/engine/src/core/engine.ts:178-357 | A whole start or resume: nothing written for a run that is over or claimed by another, otherwise the segment of the reference run up to its next stop |
| `Runner.ApproveAndResume` | packages/engine/src/core/approval.ts:53-90 | The loser of a race changes nothing; the winner leaves the run at the reference's next stop behind the gate |
| `ContextRebuild.BuildContext` | packages/engine/src/core/engine.ts:57-83 | Filtering, sorting and filling gives the context of the rows in step order, in whatever order the rows were loaded |
| `ContextRebuild.LoadStepRuns` | packages/engine/src/core/repository.ts:74-93 | Joins every row with its step exactly once |
| `ContextRebuild.AscendingUnique` | packages/engine/src/core/engine.ts:67-69 | Sorting by position leaves one possible order: an ascending list is determined by its elements |
| `Retry.WithRetry` | packages/engine/src/core/retry.ts:48-75 | One report per body call, numbered from 1, with error, will-retry flag and delay of that attempt; result and total sleep as specified |
| `Retry.StopsAtFirstLast` | packages/engine/src/core/retry.ts:57-72 | The body runs exactly up to the first success, first permanent error or max(1, maxAttempts), whichever is first, and that attempt's value or error is the result |
| `Retry.OnlyLastIsFinal` | packages/engine/src/core/retry.ts:64-69 | Reports are for attempts 1 to k, and exactly the last one says that no retry follows |
| `Retry.DelayBounds` | packages/engine/src/core/retry.ts:43-46 | A delay is never negative, at most 30000 ms and at most base times 2^(attempt-1) |
| `Retry.DelayIsLargest` | packages/engine/src/core/retry.ts:43-46 | The delay is the largest integer that is at most 30000 and at most the drawn part of base times 2^(attempt-1) |
| `Retry.FullJitter` | packages/engine/src/core/retry.ts:38-46 | Every delay below the window and up to 30000 ms is one that can be drawn |
| `Retry.AttemptsExactly` | packages/engine/src/core/retry.ts:48-75 | By the policy as given: k is the last attempt exactly when it returned, failed for good or reached maxAttempts, and every one before it failed with another attempt allowed |
| `Retry.SleepAtLeast` | packages/engine/src/core/retry.ts:57-72 | Unless 30000 ms are reached, k attempts sleep at least r times base times (2^(k-1)-1) ms, less one for the rounding of each delay, when no number drawn is below r |
| `Retry.SleepBounds` | packages/engine/src/core/retry.ts:57-85 | k attempts sleep in total at most min(30000(k-1), base(2^(k-1)-1)) ms, for any jitter in [0,1) |
| `Quota.QuotaTable.ReserveOrgQuota` | hasura/migrations/default/1786000000000_init_workflow_schema/up.sql:527-571 | One call of the reservation function: new row, new audit entry and answer |
| `Quota.QuotaTable.ReleaseOrgQuota` | hasura/migrations/default/1786000000000_init_workflow_schema/up.sql:574-596 | One call of the refund function, clamped at zero |
| `Quota.QuotaTable.CreateRunWithQuota` | packages/engine/src/core/runs.ts:54-81 | An undisturbed call creates a run exactly when there was room and the insert worked; a unit is gone afterwards only then or when a refund was lost; the audit log stays current |
| `Quota.ExactGrants` | hasura/migrations/default/1786000000000_init_workflow_schema/up.sql:553-570 | N reservations within one period grant exactly min(N, max(limit - used, 0)) |
| `Quota.EachMonthOpensOnce` | hasura/migrations/default/1786000000000_init_workflow_schema/up.sql:544-551 | Periods are opened in strictly rising order, none twice, even when callers captured their month before waiting for the row |
| `Quota.PeriodReachesLatest` | hasura/migrations/default/1786000000000_init_workflow_schema/up.sql:544-551 | The period never moves back and ends at the latest month seen |
| `QuotaCallers.AlwaysSound` | hasura/migrations/default/1786000000000_init_workflow_schema/up.sql:535-596 | Over every interleaving of calls, with resets, failed refunds and crashes: used stays within the limit, differs from what is due by at most the late refunds, and the last audit row shows the current counter |
| `QuotaCallers.QuotaConservation` | packages/engine/src/core/runs.ts:54-81 | Within one period, with refunds that succeed: the counter has grown by runs created plus reservations in flight, and never passes the limit |
| `QuotaCallers.Conservation` | hasura/migrations/default/1786000000000_init_workflow_schema/up.sql:582-585 | Without late refunds the counter is exact at every point, also across resets, crashes and lost refunds, and no outstanding refund can meet the clamp at zero |
| `QuotaCallers.RefundConservesExactly` | hasura/migrations/default/1786000000000_init_workflow_schema/up.sql:582-585 | A refund keeps the counter's error if and only if being of the current period coincides with the counter being positive |
| `QuotaCallers.LateRefundOvergrants` | hasura/migrations/default/1786000000000_init_workflow_schema/up.sql:574-596 | A refund after the monthly reset gives back a unit of the new month: with a limit of one, two runs are created in it |
| `JsonText.StringifyIsInjective` | packages/engine/src/core/conditions.ts:58-69 | Two values have the same serialized text (section 25.5.2 of ECMA-262) if and only if they are equal |
| `JsonText.ValueEnd` | packages/engine/src/core/conditions.ts:58-69 | Inside a text, a serialized value says where it ends and which value it is |
| `JsonText.DecimalIsInjective` | packages/engine/src/core/engine.ts:72-72 | Distinct positions have distinct property names |
| `JsonGrammar.ParseStringify` | packages/engine/src/core/context.ts:72-76 | What is serialized is a text of the grammar of RFC 8259, which parses back to the same value |
| `JsonGrammar.ValueReads` | packages/engine/src/core/context.ts:72-76 | Inside a longer text a serialized value is parsed as itself, up to what follows it |
| `Conditions.EqualsIsEquality` | packages/engine/src/core/conditions.ts:62-67 | equals holds exactly for deeply equal values, of every kind |
| `Conditions.ContainsIsMembership` | packages/engine/src/core/conditions.ts:75-79 | An array contains a value exactly when the value is an element |
| `Conditions.InIsMembership` | packages/engine/src/core/conditions.ts:98-102 | in holds exactly for members of an expected array; a path that finds nothing counts as null |
| `Conditions.EqualsAgreesWithIn` | packages/engine/src/core/conditions.ts:62-102 | equals v and in [v] agree except exactly when the path finds nothing and v is null |
| `Conditions.ContainsIsConverseOfIn` | packages/engine/src/core/conditions.ts:75-102 | An array contains v exactly when v is in the array |
| `Conditions.NotOperatorsAreComplements` | packages/engine/src/core/conditions.ts:49-84 | not_exists, not_equals and not_contains are the exact complements of their positive forms |
| `Conditions.OrderingsAreTotalOnNumbers` | packages/engine/src/core/conditions.ts:104-120 | All four orderings are false unless both sides are numbers, and then they are the relations of a total order |
| `Conditions.OrderingsOnIntegers` | packages/engine/src/core/conditions.ts:114-118 | On integers gt, gte, lt and lte are >, >=, < and <= |
| `Conditions.OrderingsCompare` | packages/engine/src/core/conditions.ts:24-31 | Two values read as numbers, by themselves or from a text that is not blank, are ordered as those numbers |
| `Conditions.OrderingsNeedNumbers` | packages/engine/src/core/conditions.ts:107-112 | No ordering holds where one side is not read as a number |
| `Conditions.ContainsIsSubstring` | packages/engine/src/core/conditions.ts:75-79 | On anything but an array contains finds the expected text anywhere in the shown one, both in lower case |
| `Conditions.MatchesExactly` | packages/engine/src/core/conditions.ts:86-96 | matches applies the first 500 characters of the pattern, and one that does not compile matches nothing |
| `Templates.ResolvePath` | packages/engine/src/core/context.ts:32-53 | The path loop computes the walk along the parts |
| `Templates.ResolveTemplates` | packages/engine/src/core/context.ts:80-92 | The recursive fill computes the specified value |
| `Templates.ResolveFields` | packages/engine/src/core/context.ts:83-90 | Objects are filled key by key into a new one, without the dangerous keys |
| `TemplateLaws.PathsCompose` | packages/engine/src/core/context.ts:32-53 | A joined path finds the front's value and looks up the back in it |
| `TemplateLaws.DangerousIsUnreachable` | packages/engine/src/core/context.ts:28-37 | A path with a part __proto__, constructor or prototype finds nothing, whatever the value |
| `TemplateLaws.EmptyPartsAreIgnored` | packages/engine/src/core/context.ts:32-33 | Leading, trailing and doubled dots in a path change nothing |
| `TemplateLaws.NumberIsRead` | packages/engine/src/core/context.ts:40-43 | An index is read from its leading digits, behind white space and before any text |
| `TemplateLaws.SignIsRead` | packages/engine/src/core/context.ts:40-43 | A sign in front of the digits counts |
| `TemplateLaws.NoNumber` | packages/engine/src/core/context.ts:40-43 | Without a digit there is no index |
| `TemplateLaws.KeyFirst` | packages/engine/src/core/context.ts:48-50 | A path that starts with a plain key looks up that own property first |
| `TemplateLaws.IndexSelects` | packages/engine/src/core/context.ts:40-45 | A decimal index selects the array element, and nothing past the end |
| `TemplateLaws.Locality` | packages/engine/src/core/context.ts:65-92 | Two contexts that agree on every path a config names resolve it to the same value |
| `TemplateLaws.InsertedVerbatim` | packages/engine/src/core/context.ts:72-76 | An inserted value is never rescanned: what follows it comes from the config |
| `TemplateLaws.WholeKeepsType` | packages/engine/src/core/context.ts:66-70 | A string that is one placeholder becomes the value itself, null when absent |
| `TemplateLaws.WholeHasShape` | packages/engine/src/core/context.ts:55-70 | A string taken for one placeholder is braces around a brace-free path with nothing but white space around them |
| `TemplateLaws.ShapeIsWhole` | packages/engine/src/core/context.ts:55-70 | Conversely every such string is taken for one, for the trimmed path, or the last character of a blank one |
| `TemplateLaws.OthersBecomeText` | packages/engine/src/core/context.ts:72-76 | Every other string becomes text |
| `TemplateLaws.ShownExactly` | packages/engine/src/core/context.ts:72-76 | Inside text null and nothing show as nothing, a string as it is, anything else serialized |
| `TemplateLaws.ItemIsFilled` | packages/engine/src/core/context.ts:82-82 | Arrays are filled item by item |
| `TemplateLaws.PropertyIsFilled` | packages/engine/src/core/context.ts:83-90 | Objects are filled property by property, without the three keys of the prototype chain |
| `TemplateLaws.HoleAtStart` | packages/engine/src/core/context.ts:56-56 | Braces around a brace-free non-empty path are a placeholder |
| `TemplateLaws.HoleShape` | packages/engine/src/core/context.ts:56-56 | Every placeholder has that shape |
| `TemplateLaws.TrimStrips` | packages/engine/src/core/context.ts:73-73 | Trimming removes white space at both ends, and only that |
| `TemplateLaws.WhiteExactly` | packages/engine/src/core/context.ts:55-56 | White space is that of sections 12.2 and 12.3 of ECMA-262 |
| `TemplateLaws.FixedPoints` | packages/engine/src/core/context.ts:80-92 | Configs without placeholders and dropped keys are left alone in every context, and nothing else is |
| `RunContext.PutIsAssignment` | packages/engine/src/core/engine.ts:307-312 | Writing the entry of a position is assigning that property and no other |
| `RunContext.PreviousIsLast` | packages/engine/src/core/engine.ts:313-313 | previous.output is the output of the step that completed last |
| `RunContext.OutputByPosition` | packages/engine/src/core/engine.ts:307-312 | A completed step's output is found under its position |
| `RunContext.NamesByPosition` | packages/engine/src/core/engine.ts:307-312 | So are its status, its name and the schema's name of its kind |
| `RunContext.PreviousIsCompleted` | packages/engine/src/core/engine.ts:313-313 | previous.status is that it completed |
| `RunContext.OtherPathsUnchanged` | packages/engine/src/core/engine.ts:306-313 | Completing a step changes no path into another step, into the trigger or into the run |
| `Access.Indistinguishable` | packages/engine/src/core/authz.ts:118-178 | Two databases that agree inside a user's organizations give that user the same answer to both authorization requests, for every id |
| `Access.ExecutionGrantedExactly` | packages/engine/src/core/authz.ts:118-178 | Execution is granted exactly to an owner or editor of the workflow's organization, for a workflow with a step that is not archived, with the fields of the grant; every refusal tells the first reason |
| `Access.ApprovalGrantedExactly` | packages/engine/src/core/authz.ts:229-314 | Approval is granted exactly to an owner or editor of the organization of the run's workflow, for a paused unprocessed gate of a paused run, with the fields of the grant; every refusal tells the first reason |
| `Access.PermittedIsGranted` | packages/engine/src/core/authz.ts:229-314 | The check a run makes of its approver is that decision over the whole database |
| `Access.UuidHasGroups` | packages/engine/src/core/authz.ts:316-318 | An id that passes consists of the five groups of a UUID |
| `Access.GroupsMakeUuid` | packages/engine/src/core/authz.ts:316-318 | Conversely five such groups make an id that passes |
| `Schedule.RunTable.Sweep` | apps/web/app/api/events/scheduled-dispatch/route.ts:77-124 | One sweep: the runs created, the ids dispatched and the reasons skipped; every trigger that has steps, is not archived, is due by its own setting and whose dispatch works is among those dispatched |
| `Schedule.StartedIsCreated` | apps/web/app/api/events/scheduled-dispatch/route.ts:109-119 | The run of such a trigger is created, with the trigger, the workflow, the time and the setting |
| `Schedule.CreatedIsStarted` | apps/web/app/api/events/scheduled-dispatch/route.ts:81-124 | No other run is created |
| `Schedule.SkippedExactly` | apps/web/app/api/events/scheduled-dispatch/route.ts:81-124 | A skipped trigger is told the first reason that applies; one that is not due, how long it waited and has to wait |
| `Schedule.SweepPartitions` | apps/web/app/api/events/scheduled-dispatch/route.ts:81-124 | Each considered trigger is dispatched or skipped, as often as it was considered, whatever dispatches fail |
| `Schedule.SpacingOverAllSweeps` | apps/web/app/api/events/scheduled-dispatch/route.ts:93-107 | Over all sweeps, two scheduled runs of a workflow are at least every_minutes and at least 15 minutes apart, by the setting of the later run's trigger, also when triggers are edited in between; an hour where nothing is set, and with an infinite setting no run follows another |
| `Schedule.DueExactly` | apps/web/app/api/events/scheduled-dispatch/route.ts:93-107 | A trigger is due exactly when since every earlier scheduled run of the workflow every_minutes and 15 minutes have passed, an hour where nothing is set; with an infinite setting only the first time, with one that is not a number always |
| `Http.Follow` | packages/engine/src/steps/http.ts:118-168 | At most four fetches; each URL is the guard's answer to the configured URL or to the redirect before it; the result is that of the last fetch |
| `Http.OnlyGuardedUrls` | packages/engine/src/steps/http.ts:158-165 | Every fetched URL was returned by the guard, and the response kept is never a followable redirect |
| `Http.OneChain` | packages/engine/src/steps/http.ts:122-168 | The fetches are determined by the configured URL and the answers |
| `Http.ReadCapped` | packages/engine/src/steps/http.ts:217-241 | All chunks concatenated when they fit the cap and the stream ends; a failure for now when it breaks within the cap; otherwise a permanent failure at the first chunk that passes it, and no further read |
| `Http.ExecuteHttpRequest` | packages/engine/src/steps/http.ts:109-215 | A request succeeds exactly when the kept response fits the cap, arrives whole, has a status from 200 to 299 or an accepted one and a readable body, with all its bytes; it fails for good exactly when the body is over the cap, or it arrives whole with a status from 400 to 499 other than 408 and 429 that is not accepted, or the redirects end so |
| `Http.Merge` | packages/engine/src/steps/http.ts:234-239 | The buffer holds the chunks in order, every write in bounds |

## Left out

- OrderFree.OrderFreeRunsAgree: the condition on paths is sufficient, not necessary, because an outside service may treat two orders of keys alike; the exact condition, for any bodies and templates, is the one of `Alike.AlikeExactly`. Objects in inputs and answers have distinct keys, as they have in the host language.
- Rereading.SameRun: a special case for runs in which no step completes before an approved gate, or whose bodies put out values in the column's order; the general statements are those of `Alike` and `OrderFree`.
- Alike.AlikeExactly: runs are compared up to what the columns keep, which is all that rows show; a difference that only an outside service sees, and that changes no row and no route, does not count.
- Values jsonb refuses (a NUL character in a string) and its normal form of numbers: `Json` has integers only, and a refused write counts as a crash.
- The outside services (language models, Slack, e-mail, DNS, fetch, timers, abort handling): inputs; only the class of their result matters.
- The text of error messages, and its cut at 2000 characters: messages are symbolic, with the values they mention.
- Times: only whether a timestamp is set is kept in the run and step rows; the quota uses months, the sweep milliseconds.
- Several runs at once: each theorem is about the rows of one run, whose requests touch no other run's rows.
- The id of a step run: identified with the id of its step, which is unique within a run.
- A missing run row, and cancelling: nothing in the code deletes a run or sets `cancelled`.
- Lost replies: in the run protocol a request that took effect but whose answer was lost counts as a crash of the executor. For the quota callers it is assumed away: a lost reply of the insert is caught and refunded although the run exists (runs.ts:77-80), and no such event is modelled.
- `onAttempt` throwing inside the retry loop (retry.ts:58-62): the report is assumed to succeed, or the executor to crash.
- Editing a workflow while a run is paused: the stored position is not a step id, so the theorems fix the step list.
- Fairness and redelivery as such: which deliveries happen is the event sequence; only that a live holder can return, and a live run can finish, is proved.
- Notification delivery: at least once at best, since the handler tests the status in the event's payload.
- Row permissions and session handling of Hasura: declarative, outside the engine.
- Numbers other than integers a double holds exactly, NaN and negative zero in JSON, lone surrogates in strings: not among the values of `Json`.
- `toLowerCase`, `RegExp` and `Number` of a string: inputs of the conditions, quantified over.
- URL parsing, address blocking and the text decoder of the HTTP step: inputs; the guard is any function from URLs to answers.
- Quota limits changed while calls are in flight, and limits already passed: the callers' theorems start from a counter within a fixed limit.
- More than one hundred scheduled triggers: a sweep is given the triggers it read.
- Retry.ResolvePolicy: integer settings only; a fractional setting is not modelled, and `StepBodies.PolicyOf` reads a setting that is not a number as absent.
- Retry.SleepBounds: does not model overflow of the exponential to infinity, because delays are exact reals.
- Schedule.SpacingOverAllSweeps: requires one scheduled trigger per workflow (the schema's uniqueness), sweeps that do not overlap, and database and handler clocks that agree.
- QuotaCallers.QuotaConservation: requires that no call reserves in a later month, no refund fails and nobody crashes; `QuotaCallers.Conservation` and `QuotaCallers.AlwaysSound` cover the rest.
