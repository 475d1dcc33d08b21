/**
  Quota reservation and refund: reserve_org_quota and release_org_quota of the migration, the mapping
  in packages/engine/src/core/quota.ts, and createRunWithQuota in packages/engine/src/core/runs.ts.
 */
module Quota {
  import opened Base

  /** A calendar month; only its order matters. */
  type Month = int

  /** An `organizations` row. The schema's checks keep both counters non-negative. */
  datatype Org = Org(used: nat, limit: nat, periodStart: Month)

  datatype Reason = OrganizationNotFound | QuotaExhausted | Refund

  /** A `quota_reservations` row. */
  datatype Reservation = Reservation(allowed: bool, reason: Option<Reason>, used: nat, limit: nat)

  /** The organization row, if there is one, and the audit log. */
  datatype Ledger = Ledger(org: Option<Org>, audit: seq<Reservation>)

  function Logged(l: Ledger, org: Org, allowed: bool, reason: Option<Reason>): (r: (Ledger, Reservation)) {
    var row := Reservation(allowed, reason, org.used, org.limit);
    (Ledger(Some(org), l.audit + [row]), row)
  }

  /** The monthly window: the counter restarts when the caller's month is later than the period's. */
  function Rolled(org: Org, month: Month): Org {
    if org.periodStart < month then org.(used := 0, periodStart := month) else org
  }

  /** `reserve_org_quota`, at the month in which the caller's transaction began. */
  function Reserve(l: Ledger, month: Month): (r: (Ledger, Reservation)) {
    match l.org
    case None => (l, Reservation(false, Some(OrganizationNotFound), 0, 0))
    case Some(stored) =>
      var org := Rolled(stored, month);
      if org.used >= org.limit then Logged(l, org, false, Some(QuotaExhausted))
      else Logged(l, org.(used := org.used + 1), true, None)
  }

  /** `release_org_quota`: one unit back, never below zero. */
  function Release(l: Ledger): Ledger {
    match l.org
    case None => l
    case Some(org) => Logged(l, org.(used := Max(org.used - 1, 0)), false, Some(Refund)).0
  }

  /** The tables, written in place by the two functions. */
  class QuotaTable {
    var org: Option<Org>
    var audit: seq<Reservation>

    ghost function State(): Ledger
      reads this
    {
      Ledger(org, audit)
    }

    method ReserveOrgQuota(month: Month) returns (row: Reservation)
      modifies this
      ensures (State(), row) == Reserve(old(State()), month)
    {
      if org == None {
        return Reservation(false, Some(OrganizationNotFound), 0, 0);
      }
      var o := org.value;
      if o.periodStart < month {
        o := o.(used := 0, periodStart := month);
      }
      var exhausted := o.used >= o.limit;
      if !exhausted {
        o := o.(used := o.used + 1);
      }
      org := Some(o);
      row := Reservation(!exhausted, if exhausted then Some(QuotaExhausted) else None, o.used, o.limit);
      audit := audit + [row];
    }

    method ReleaseOrgQuota()
      modifies this
      ensures State() == Release(old(State()))
    {
      if org != None {
        var o := org.value.(used := Max(org.value.used - 1, 0));
        org := Some(o);
        audit := audit + [Reservation(false, Some(Refund), o.used, o.limit)];
      }
    }

    /**
      `createRunWithQuota`, with the outcomes of the insert and of the refund as inputs. Undisturbed,
      a failed insert leaves the counter as a refused call would, unless its own refund fails.
     */
    method CreateRunWithQuota(month: Month, inserted: bool, refunded: bool) returns (result: Created)
      modifies this
      ensures old(org).None? ==> result == OrgMissing && State() == old(State())
      ensures old(org).Some? ==> org.Some? && CallAccounts(Rolled(old(org.value), month), org.value, result, inserted, refunded)
      ensures old(AuditCurrent(State())) ==> AuditCurrent(State())
    {
      var row := ReserveOrgQuota(month);
      if !row.allowed {
        return if row.reason == Some(OrganizationNotFound) then OrgMissing else Exhausted(row.used, row.limit);
      }
      if inserted {
        return RunCreated(row.used, row.limit);
      }
      if refunded {
        ReleaseOrgQuota();
      }
      result := InsertFailed;
    }
  }

  datatype Created =
    | RunCreated(used: nat, limit: nat)
    | InsertFailed
    | OrgMissing
    | Exhausted(usedNow: nat, limitNow: nat)

  /**
    What one undisturbed call does, from the counter `before` in the caller's month: it creates a run
    exactly when there was room and the insert worked, and only then, or when a refund was lost, is
    a unit gone.
   */
  predicate CallAccounts(before: Org, after: Org, result: Created, inserted: bool, refunded: bool) {
    && after.limit == before.limit && after.periodStart == before.periodStart
    && (result.Exhausted? <==> before.used >= before.limit)
    && (result.RunCreated? <==> before.used < before.limit && inserted)
    && (result.InsertFailed? <==> before.used < before.limit && !inserted)
    && after.used - before.used == (if result.RunCreated? || (result.InsertFailed? && !refunded) then 1 else 0)
    && (result.RunCreated? ==> (result.used, result.limit) == (after.used, after.limit))
    && (result.Exhausted? ==> (result.usedNow, result.limitNow) == (after.used, after.limit))
  }

  /** The last audit row shows the counter and the limit as they are. */
  predicate AuditCurrent(l: Ledger) {
    l.org.Some? && l.audit != [] ==>
      var last := l.audit[|l.audit| - 1];
      last.used == l.org.value.used && last.limit == l.org.value.limit
  }

  // ---------------------------------------------------------------- one reservation after another

  /** The ledger after reservations by callers whose transactions began in `months`. */
  function ReserveAll(l: Ledger, months: seq<Month>): Ledger
    decreases |months|
  {
    if months == [] then l else ReserveAll(Reserve(l, months[0]).0, months[1..])
  }

  function Grants(l: Ledger, months: seq<Month>): nat
    decreases |months|
  {
    if months == [] then 0
    else
      var (next, row) := Reserve(l, months[0]);
      (if row.allowed then 1 else 0) + Grants(next, months[1..])
  }

  /** The periods that reservations opened, in order. */
  function Resets(l: Ledger, months: seq<Month>): seq<Month>
    decreases |months|
  {
    if months == [] then []
    else
      (if l.org.Some? && l.org.value.periodStart < months[0] then [months[0]] else [])
      + Resets(Reserve(l, months[0]).0, months[1..])
  }

  /** In one period N reservations grant exactly what is left of the limit, and no more than N. */
  lemma {:induction false} ExactGrants(l: Ledger, months: seq<Month>)
    requires l.org.Some? && forall m :: m in months ==> m <= l.org.value.periodStart
    ensures var left := Max(l.org.value.limit - l.org.value.used, 0);
      Grants(l, months) == Min(|months|, left)
    ensures var after := ReserveAll(l, months);
      after.org == Some(l.org.value.(used := l.org.value.used + Grants(l, months)))
    decreases |months|
  {
    if months != [] {
      assert months[0] in months && forall m :: m in months[1..] ==> m in months;
      ExactGrants(Reserve(l, months[0]).0, months[1..]);
    }
  }

  predicate Rising(start: Month, resets: seq<Month>) {
    && (forall i :: 0 <= i < |resets| ==> start < resets[i])
    && (forall i, j :: 0 <= i < j < |resets| ==> resets[i] < resets[j])
  }

  /** Periods open in strictly rising order, none twice, whatever order the callers' months come in. */
  lemma {:induction false} EachMonthOpensOnce(l: Ledger, months: seq<Month>)
    requires l.org.Some?
    ensures Rising(l.org.value.periodStart, Resets(l, months))
    ensures forall m :: m in Resets(l, months) ==> m in months
    decreases |months|
  {
    if months != [] {
      var next := Reserve(l, months[0]).0;
      EachMonthOpensOnce(next, months[1..]);
    }
  }

  function Latest(start: Month, months: seq<Month>): Month
    decreases |months|
  {
    if months == [] then start else Latest(Max(start, months[0]), months[1..])
  }

  /** The period never moves back: it ends at the latest month seen. */
  lemma {:induction false} PeriodReachesLatest(l: Ledger, months: seq<Month>)
    requires l.org.Some?
    ensures ReserveAll(l, months).org.Some?
    ensures ReserveAll(l, months).org.value.periodStart == Latest(l.org.value.periodStart, months)
    ensures l.org.value.periodStart <= Latest(l.org.value.periodStart, months)
    decreases |months|
  {
    if months != [] {
      PeriodReachesLatest(Reserve(l, months[0]).0, months[1..]);
    }
  }
}
