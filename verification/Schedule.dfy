/**
  The sweep over scheduled triggers: apps/web/app/api/events/scheduled-dispatch/route.ts. One call
  reads the triggers with each workflow's last scheduled run, and then starts what is due.
 */
module Schedule {
  import opened Base

  /** `Number(every_minutes)`; anything that is not a number becomes NaN. */
  datatype Minutes = Finite(minutes: real) | Infinity | MinusInfinity | NaN

  datatype Trigger = Trigger(id: string, workflowId: string, archived: bool, stepCount: nat, every: Option<Minutes>)

  /** A scheduled run, its creation time in milliseconds, and the setting its trigger had then. */
  datatype ScheduledRun = ScheduledRun(id: string, triggerId: string, workflowId: string, createdAt: int, every: Option<Minutes>)

  datatype Reason = WorkflowArchived | NoSteps | NotDue(elapsed: real, interval: Minutes) | DispatchFailed(why: Message)

  datatype Skip = Skip(triggerId: string, reason: Reason)

  /** What `createRunWithQuota` comes to. */
  datatype Dispatch = Made(runId: string, createdAt: int) | Refused(why: Message)

  const MIN_INTERVAL_MINUTES: real := 15.0

  /** `Math.max(15, Number(every_minutes ?? 60))`, where NaN wins. */
  function Interval(t: Trigger): Minutes {
    match t.every
    case None => Finite(60.0)
    case Some(NaN) => NaN
    case Some(Infinity) => Infinity
    case Some(MinusInfinity) => Finite(MIN_INTERVAL_MINUTES)
    case Some(Finite(m)) => Finite(if m < MIN_INTERVAL_MINUTES then MIN_INTERVAL_MINUTES else m)
  }

  /** The creation time of a workflow's latest scheduled run. */
  function LastRun(runs: seq<ScheduledRun>, workflowId: string): Option<int> {
    if runs == [] then None
    else
      var last := LastRun(runs[1..], workflowId);
      if runs[0].workflowId != workflowId then last
      else Some(Max(runs[0].createdAt, last.UnwrapOr(runs[0].createdAt)))
  }

  function Elapsed(now: int, last: int): real { (now - last) as real / 60_000.0 }

  /** `elapsedMinutes < intervalMinutes`; a comparison with NaN is false. */
  predicate Shorter(elapsed: real, interval: Minutes) {
    match interval
    case Finite(m) => elapsed < m
    case Infinity => true
    case _ => false
  }

  /** The reason a trigger is passed over before any dispatch. */
  function PassedOver(runs: seq<ScheduledRun>, t: Trigger, now: int): Option<Reason> {
    if t.archived then Some(WorkflowArchived)
    else if t.stepCount == 0 then Some(NoSteps)
    else
      var last := LastRun(runs, t.workflowId);
      if last.Some? && Shorter(Elapsed(now, last.value), Interval(t))
      then Some(NotDue(Elapsed(now, last.value), Interval(t)))
      else None
  }

  /** The sweep's inputs: what it read, its clock, and how the dispatch for trigger `i` turns out. */
  datatype Input = Input(triggers: seq<Trigger>, now: int, dispatch: nat -> Dispatch)

  /** What becomes of trigger `i`: nothing stands for a run that was created. */
  function Skipped(runs: seq<ScheduledRun>, x: Input, i: nat): Option<Reason>
    requires i < |x.triggers|
  {
    match PassedOver(runs, x.triggers[i], x.now)
    case Some(reason) => Some(reason)
    case None => if x.dispatch(i).Made? then None else Some(DispatchFailed(x.dispatch(i).why))
  }

  function RunOf(x: Input, i: nat): ScheduledRun
    requires i < |x.triggers| && x.dispatch(i).Made?
  {
    var t := x.triggers[i];
    ScheduledRun(x.dispatch(i).runId, t.id, t.workflowId, x.dispatch(i).createdAt, t.every)
  }

  function CreatedBy(runs: seq<ScheduledRun>, x: Input, n: nat): seq<ScheduledRun>
    requires n <= |x.triggers|
  {
    if n == 0 then []
    else if Skipped(runs, x, n - 1).None? then CreatedBy(runs, x, n - 1) + [RunOf(x, n - 1)]
    else CreatedBy(runs, x, n - 1)
  }

  function SkippedBy(runs: seq<ScheduledRun>, x: Input, n: nat): seq<Skip>
    requires n <= |x.triggers|
  {
    if n == 0 then []
    else
      match Skipped(runs, x, n - 1)
      case Some(reason) => SkippedBy(runs, x, n - 1) + [Skip(x.triggers[n - 1].id, reason)]
      case None => SkippedBy(runs, x, n - 1)
  }

  function Ids(runs: seq<ScheduledRun>): seq<string> {
    seq(|runs|, i requires 0 <= i < |runs| => runs[i].id)
  }

  /** The scheduled runs of all workflows. */
  class RunTable {
    var runs: seq<ScheduledRun>

    /** `POST`: the triggers and last runs are read once, before the loop. */
    method Sweep(x: Input) returns (dispatched: seq<string>, skipped: seq<Skip>)
      modifies this
      ensures runs == old(runs) + CreatedBy(old(runs), x, |x.triggers|)
      ensures dispatched == Ids(CreatedBy(old(runs), x, |x.triggers|))
      ensures skipped == SkippedBy(old(runs), x, |x.triggers|)
      ensures forall i: nat :: i < |x.triggers| && Starts(old(runs), x, i) ==> x.dispatch(i).runId in dispatched
    {
      var read := runs;
      dispatched, skipped := [], [];
      for i := 0 to |x.triggers|
        invariant runs == read + CreatedBy(read, x, i)
        invariant dispatched == Ids(CreatedBy(read, x, i))
        invariant skipped == SkippedBy(read, x, i)
      {
        var t := x.triggers[i];
        if t.archived {
          skipped := skipped + [Skip(t.id, WorkflowArchived)];
          continue;
        }
        if t.stepCount == 0 {
          skipped := skipped + [Skip(t.id, NoSteps)];
          continue;
        }
        var last := LastRun(read, t.workflowId);
        if last.Some? {
          var elapsed := Elapsed(x.now, last.value);
          if Shorter(elapsed, Interval(t)) {
            skipped := skipped + [Skip(t.id, NotDue(elapsed, Interval(t)))];
            continue;
          }
        }
        match x.dispatch(i)
        case Made(id, createdAt) =>
          runs := runs + [ScheduledRun(id, t.id, t.workflowId, createdAt, t.every)];
          dispatched := dispatched + [id];
        case Refused(why) =>
          skipped := skipped + [Skip(t.id, DispatchFailed(why))];
      }
      forall i: nat | i < |x.triggers| && Starts(read, x, i) ensures x.dispatch(i).runId in dispatched {
        StartedIsCreated(read, x, |x.triggers|, i);
      }
    }
  }

  // ---------------------------------------------------------------- a sweep partitions its triggers

  function TimesDispatched(runs: seq<ScheduledRun>, trigger: string): nat {
    if runs == [] then 0
    else TimesDispatched(runs[..|runs| - 1], trigger) + (if runs[|runs| - 1].triggerId == trigger then 1 else 0)
  }

  function TimesSkipped(skips: seq<Skip>, trigger: string): nat {
    if skips == [] then 0
    else TimesSkipped(skips[..|skips| - 1], trigger) + (if skips[|skips| - 1].triggerId == trigger then 1 else 0)
  }

  function TimesConsidered(x: Input, n: nat, trigger: string): nat
    requires n <= |x.triggers|
  {
    if n == 0 then 0 else TimesConsidered(x, n - 1, trigger) + (if x.triggers[n - 1].id == trigger then 1 else 0)
  }

  /** Each considered trigger is dispatched or skipped, as often as it was considered, whatever dispatches fail. */
  lemma {:induction false} SweepPartitions(runs: seq<ScheduledRun>, x: Input, n: nat, trigger: string)
    requires n <= |x.triggers|
    ensures TimesDispatched(CreatedBy(runs, x, n), trigger) + TimesSkipped(SkippedBy(runs, x, n), trigger)
         == TimesConsidered(x, n, trigger)
  {
    if n > 0 {
      SweepPartitions(runs, x, n - 1, trigger);
      OneMore(CreatedBy(runs, x, n - 1), CreatedBy(runs, x, n), SkippedBy(runs, x, n - 1), SkippedBy(runs, x, n),
              x.triggers[n - 1].id, trigger);
    }
  }

  /** One of the two lists grows by one entry, for the trigger `id`. */
  lemma {:induction false} OneMore(created: seq<ScheduledRun>, created': seq<ScheduledRun>,
                                   skips: seq<Skip>, skips': seq<Skip>, id: string, trigger: string)
    requires || (skips' == skips && created' != [] && created'[..|created'| - 1] == created
                 && created'[|created'| - 1].triggerId == id)
             || (created' == created && skips' != [] && skips'[..|skips'| - 1] == skips
                 && skips'[|skips'| - 1].triggerId == id)
    ensures TimesDispatched(created', trigger) + TimesSkipped(skips', trigger)
         == TimesDispatched(created, trigger) + TimesSkipped(skips, trigger) + (if id == trigger then 1 else 0)
  {
  }

  // ---------------------------------------------------------------- when a trigger is due

  /** So many milliseconds are long enough for a trigger with the setting `every`. */
  predicate LongEnough(every: Option<Minutes>, ms: int) {
    match every
    case None => ms >= 3_600_000
    case Some(Finite(m)) => ms as real >= m * 60_000.0 && ms >= 900_000
    case Some(MinusInfinity) => ms >= 900_000
    case Some(Infinity) => false
    case Some(NaN) => true
  }

  lemma {:induction false} LastRunIsLatest(runs: seq<ScheduledRun>, i: nat)
    requires i < |runs|
    ensures LastRun(runs, runs[i].workflowId).Some?
    ensures runs[i].createdAt <= LastRun(runs, runs[i].workflowId).value
  {
    if i > 0 {
      LastRunIsLatest(runs[1..], i - 1);
    }
  }

  lemma {:induction false} LastRunIsARun(runs: seq<ScheduledRun>, workflowId: string)
    ensures var last := LastRun(runs, workflowId);
      last.Some? ==> exists k :: 0 <= k < |runs| && runs[k].workflowId == workflowId && runs[k].createdAt == last.value
  {
    if runs != [] {
      LastRunIsARun(runs[1..], workflowId);
      if LastRun(runs[1..], workflowId).Some? {
        var k :| 0 <= k < |runs| - 1 && runs[1..][k].workflowId == workflowId
              && runs[1..][k].createdAt == LastRun(runs[1..], workflowId).value;
        assert runs[k + 1] == runs[1..][k];
      }
    }
  }

  lemma {:induction false} ShorterExactly(t: Trigger, now: int, last: int)
    ensures Shorter(Elapsed(now, last), Interval(t)) <==> !LongEnough(t.every, now - last)
  {
  }

  lemma {:induction false} LongerStill(every: Option<Minutes>, ms: int, more: int)
    requires LongEnough(every, ms) && ms <= more
    ensures LongEnough(every, more)
  {
  }

  /** No run of the workflow is too recent for the trigger. */
  ghost predicate Due(runs: seq<ScheduledRun>, t: Trigger, now: int) {
    forall k :: 0 <= k < |runs| && runs[k].workflowId == t.workflowId ==> LongEnough(t.every, now - runs[k].createdAt)
  }

  /**
    A trigger is due exactly when long enough has passed since every earlier scheduled run of the
    workflow: `every_minutes` and no less than 15, an hour without a setting; with an infinite one
    only the first time, and with one that is not a number on every sweep.
   */
  lemma {:induction false} DueExactly(runs: seq<ScheduledRun>, t: Trigger, now: int)
    requires !t.archived && t.stepCount > 0
    ensures PassedOver(runs, t, now).None? <==> Due(runs, t, now)
  {
    var last := LastRun(runs, t.workflowId);
    LastRunIsARun(runs, t.workflowId);
    if last.Some? {
      ShorterExactly(t, now, last.value);
    }
    forall k | 0 <= k < |runs| && runs[k].workflowId == t.workflowId
      ensures last.Some? && runs[k].createdAt <= last.value
      ensures LongEnough(t.every, now - last.value) ==> LongEnough(t.every, now - runs[k].createdAt)
    {
      LastRunIsLatest(runs, k);
      if LongEnough(t.every, now - last.value) {
        LongerStill(t.every, now - last.value, now - runs[k].createdAt);
      }
    }
  }

  /** What makes a sweep dispatch trigger `i`: steps, not archived, due, and a dispatch that works. */
  ghost predicate Starts(runs: seq<ScheduledRun>, x: Input, i: nat)
    requires i < |x.triggers|
  {
    var t := x.triggers[i];
    !t.archived && t.stepCount > 0 && Due(runs, t, x.now) && x.dispatch(i).Made?
  }

  /** A skipped trigger is told the first reason that applies; one that is not due, how long it waited and has to wait. */
  lemma {:induction false} SkippedExactly(runs: seq<ScheduledRun>, x: Input, i: nat)
    requires i < |x.triggers|
    ensures var t, reason := x.triggers[i], Skipped(runs, x, i);
      && (reason.None? <==> Starts(runs, x, i))
      && (reason == Some(WorkflowArchived) <==> t.archived)
      && (reason == Some(NoSteps) <==> !t.archived && t.stepCount == 0)
      && (reason.Some? && reason.value.NotDue? <==> !t.archived && t.stepCount > 0 && !Due(runs, t, x.now))
      && (reason.Some? && reason.value.NotDue? ==>
            && (exists k :: 0 <= k < |runs| && runs[k].workflowId == t.workflowId
                  && reason.value.elapsed * 60_000.0 == (x.now - runs[k].createdAt) as real)
            && (t.every.None? ==> reason.value.interval == Finite(60.0))
            && (t.every == Some(Infinity) ==> reason.value.interval == Infinity)
            && (t.every.Some? && t.every.value.Finite? ==>
                  reason.value.interval == Finite(t.every.value.minutes) || reason.value.interval == Finite(15.0)))
  {
    var t := x.triggers[i];
    LastRunIsARun(runs, t.workflowId);
    if !t.archived && t.stepCount > 0 {
      DueExactly(runs, t, x.now);
    }
  }

  /** A sweep creates the runs of exactly the triggers that it starts, each under its own id and setting. */
  lemma {:induction false} StartedIsCreated(runs: seq<ScheduledRun>, x: Input, n: nat, i: nat)
    requires i < n <= |x.triggers|
    ensures Starts(runs, x, i) ==>
      var t, made := x.triggers[i], x.dispatch(i);
      && ScheduledRun(made.runId, t.id, t.workflowId, made.createdAt, t.every) in CreatedBy(runs, x, n)
      && made.runId in Ids(CreatedBy(runs, x, n))
  {
    SkippedExactly(runs, x, i);
    var created, before := CreatedBy(runs, x, n), CreatedBy(runs, x, n - 1);
    if i < n - 1 {
      StartedIsCreated(runs, x, n - 1, i);
    } else if Starts(runs, x, i) {
      assert created[|before|] == RunOf(x, i);
    }
    if Starts(runs, x, i) {
      assert RunOf(x, i) in created;
      var k :| 0 <= k < |created| && created[k] == RunOf(x, i);
      assert Ids(created)[k] == created[k].id;
    }
  }

  lemma {:induction false} CreatedIsStarted(runs: seq<ScheduledRun>, x: Input, n: nat, r: ScheduledRun)
    requires n <= |x.triggers| && r in CreatedBy(runs, x, n)
    ensures exists i: nat :: i < n && Starts(runs, x, i) && r == RunOf(x, i)
  {
    SkippedExactly(runs, x, n - 1);
    if Starts(runs, x, n - 1) && r == RunOf(x, n - 1) {
    } else {
      CreatedIsStarted(runs, x, n - 1, r);
    }
  }

  // ---------------------------------------------------------------- spacing over all sweeps

  /** A run comes long enough after every earlier run of the workflow, by the setting its trigger had. */
  ghost predicate Apart(earlier: ScheduledRun, later: ScheduledRun) {
    earlier.workflowId == later.workflowId ==> LongEnough(later.every, later.createdAt - earlier.createdAt)
  }

  ghost predicate Spaced(runs: seq<ScheduledRun>) {
    forall i, j :: 0 <= i < j < |runs| ==> Apart(runs[i], runs[j])
  }

  /** One scheduled trigger per workflow, clocks that agree, and no other sweep in between. */
  ghost predicate Orderly(runs: seq<ScheduledRun>, x: Input) {
    && (forall i, j :: 0 <= i < j < |x.triggers| ==> x.triggers[i].workflowId != x.triggers[j].workflowId)
    && (forall i :: 0 <= i < |runs| ==> runs[i].createdAt <= x.now)
    && (forall i: nat :: i < |x.triggers| && x.dispatch(i).Made? ==> x.now <= x.dispatch(i).createdAt)
  }

  /** A dispatched run is far enough from every run that the sweep could read. */
  lemma {:induction false} DispatchedIsDue(runs: seq<ScheduledRun>, x: Input, i: nat, k: nat)
    requires Orderly(runs, x) && i < |x.triggers| && k < |runs| && Skipped(runs, x, i).None?
    ensures Apart(runs[k], RunOf(x, i))
  {
    SkippedExactly(runs, x, i);
    if runs[k].workflowId == x.triggers[i].workflowId {
      LongerStill(x.triggers[i].every, x.now - runs[k].createdAt, x.dispatch(i).createdAt - runs[k].createdAt);
    }
  }

  lemma {:induction false} SweepKeepsSpacing(runs: seq<ScheduledRun>, x: Input, n: nat)
    requires Spaced(runs) && Orderly(runs, x) && n <= |x.triggers|
    ensures Spaced(runs + CreatedBy(runs, x, n))
    ensures forall r :: r in CreatedBy(runs, x, n) ==> exists i: nat :: i < n && r.workflowId == x.triggers[i].workflowId
  {
    if n > 0 {
      SweepKeepsSpacing(runs, x, n - 1);
      var before := runs + CreatedBy(runs, x, n - 1);
      if Skipped(runs, x, n - 1).None? {
        var run := RunOf(x, n - 1);
        assert runs + CreatedBy(runs, x, n) == before + [run];
        forall k | 0 <= k < |before| ensures Apart(before[k], run) {
          if k < |runs| {
            DispatchedIsDue(runs, x, n - 1, k);
          } else {
            assert before[k] in CreatedBy(runs, x, n - 1);
          }
        }
      } else {
        assert runs + CreatedBy(runs, x, n) == before;
      }
    }
  }

  function AfterSweeps(runs: seq<ScheduledRun>, sweeps: seq<Input>): seq<ScheduledRun>
    decreases |sweeps|
  {
    if sweeps == [] then runs
    else AfterSweeps(runs + CreatedBy(runs, sweeps[0], |sweeps[0].triggers|), sweeps[1..])
  }

  ghost predicate AllOrderly(runs: seq<ScheduledRun>, sweeps: seq<Input>)
    decreases |sweeps|
  {
    sweeps == [] ||
    (Orderly(runs, sweeps[0])
     && AllOrderly(runs + CreatedBy(runs, sweeps[0], |sweeps[0].triggers|), sweeps[1..]))
  }

  /**
    Over all sweeps, two scheduled runs of a workflow are `every_minutes` and at least 15 minutes apart,
    by the setting of the later one's trigger, also when triggers are edited in between; an hour where
    nothing is set, and with an infinite setting there is no run after another.
   */
  lemma {:induction false} SpacingOverAllSweeps(runs: seq<ScheduledRun>, sweeps: seq<Input>)
    requires Spaced(runs) && AllOrderly(runs, sweeps)
    ensures Spaced(AfterSweeps(runs, sweeps))
    decreases |sweeps|
  {
    if sweeps != [] {
      SweepKeepsSpacing(runs, sweeps[0], |sweeps[0].triggers|);
      SpacingOverAllSweeps(runs + CreatedBy(runs, sweeps[0], |sweeps[0].triggers|), sweeps[1..]);
    }
  }
}
