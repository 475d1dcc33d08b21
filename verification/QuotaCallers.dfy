/**
  Any number of `createRunWithQuota` calls interleaved over one organization: each call is a
  reservation, an insert and, when the insert fails, a refund, and other calls run in between.
 */
module QuotaCallers {
  import opened Base
  import opened Quota

  /** A call; what it holds of the allowance belongs to the period in which it was reserved. */
  datatype Caller =
    | Waiting
    | Holding(period: Month)
    | Refunding(period: Month)
    | Made(period: Month)      // the run row exists
    | Leaked(period: Month)    // no run row, and no refund: it crashed or its refund failed
    | Turned                   // refused, or refunded

  /**
    `base` is what the counter held when the current period (or the history) began; `astray` counts
    the refunds that arrived in this period from calls of an earlier one.
   */
  datatype Desk = Desk(ledger: Ledger, callers: seq<Caller>, base: nat, astray: nat)

  datatype Event =
    | Arrive
    | TryReserve(c: nat, month: Month)
    | Insert(c: nat, ok: bool)
    | GiveBack(c: nat, ok: bool)
    | CrashAt(c: nat)

  predicate Charges(c: Caller, period: Month) {
    (c.Holding? || c.Refunding? || c.Made? || c.Leaked?) && c.period == period
  }

  function Charged(callers: seq<Caller>, period: Month): nat {
    if callers == [] then 0
    else (if Charges(callers[0], period) then 1 else 0) + Charged(callers[1..], period)
  }

  predicate Open(d: Desk) { d.ledger.org.Some? }

  function Apply(d: Desk, e: Event): (after: Desk)
    requires Open(d)
    ensures Open(after)
  {
    match e
    case Arrive => d.(callers := d.callers + [Waiting])
    case TryReserve(c, month) =>
      if c < |d.callers| && d.callers[c].Waiting? then Reserved(d, c, month) else d
    case Insert(c, ok) =>
      if c < |d.callers| && d.callers[c].Holding? then
        var period := d.callers[c].period;
        d.(callers := d.callers[c := if ok then Made(period) else Refunding(period)])
      else d
    case GiveBack(c, ok) =>
      if c < |d.callers| && d.callers[c].Refunding? then Refunded(d, c, ok) else d
    case CrashAt(c) =>
      if c < |d.callers| && (d.callers[c].Holding? || d.callers[c].Refunding?) then
        d.(callers := d.callers[c := Leaked(d.callers[c].period)])
      else d
  }

  function Reserved(d: Desk, c: nat, month: Month): (after: Desk)
    requires Open(d) && c < |d.callers|
    ensures Open(after)
  {
    var (ledger, row) := Reserve(d.ledger, month);
    var period := ledger.org.value.periodStart;
    var sameMonth := period == d.ledger.org.value.periodStart;
    Desk(ledger, d.callers[c := if row.allowed then Holding(period) else Turned],
         if sameMonth then d.base else 0, if sameMonth then d.astray else 0)
  }

  function Refunded(d: Desk, c: nat, ok: bool): (after: Desk)
    requires Open(d) && c < |d.callers| && d.callers[c].Refunding?
    ensures Open(after)
  {
    var period := d.callers[c].period;
    if !ok then d.(callers := d.callers[c := Leaked(period)])
    else
      Desk(Release(d.ledger), d.callers[c := Turned], d.base,
           d.astray + (if period == d.ledger.org.value.periodStart then 0 else 1))
  }

  function ApplyAll(d: Desk, events: seq<Event>): (after: Desk)
    requires Open(d)
    ensures Open(after)
    decreases |events|
  {
    if events == [] then d else ApplyAll(Apply(d, events[0]), events[1..])
  }

  // ---------------------------------------------------------------- counting

  lemma {:induction false} ChargedConcat(a: seq<Caller>, b: seq<Caller>, period: Month)
    ensures Charged(a + b, period) == Charged(a, period) + Charged(b, period)
  {
    if a == [] {
      assert a + b == b;
    } else {
      assert (a + b)[1..] == a[1..] + b;
      ChargedConcat(a[1..], b, period);
    }
  }

  lemma {:induction false} ChargedUpdate(callers: seq<Caller>, c: nat, now: Caller, period: Month)
    requires c < |callers|
    ensures Charged(callers[c := now], period)
         == Charged(callers, period) - (if Charges(callers[c], period) then 1 else 0) + (if Charges(now, period) then 1 else 0)
  {
    if c == 0 {
      assert callers[c := now][1..] == callers[1..];
    } else {
      assert callers[c := now][1..] == callers[1..][c - 1 := now];
      ChargedUpdate(callers[1..], c - 1, now, period);
    }
  }

  lemma {:induction false} NoneCharged(callers: seq<Caller>, period: Month)
    requires forall c :: c in callers ==> !Charges(c, period)
    ensures Charged(callers, period) == 0
  {
    if callers != [] {
      assert forall c :: c in callers[1..] ==> c in callers;
      NoneCharged(callers[1..], period);
    }
  }

  // ---------------------------------------------------------------- what every step keeps

  /** What the counter should read: the units of this period that calls hold, used or lost. */
  function Due(d: Desk): nat
    requires Open(d)
  {
    d.base + Charged(d.callers, d.ledger.org.value.periodStart)
  }

  /** No call has reserved in a period that has not begun. */
  predicate PeriodsKnown(d: Desk)
    requires Open(d)
  {
    forall c :: c in d.callers && !c.Waiting? && !c.Turned? ==> c.period <= d.ledger.org.value.periodStart
  }

  predicate Sound(d: Desk) {
    && Open(d)
    && PeriodsKnown(d)
    && AuditCurrent(d.ledger)
    && d.ledger.org.value.used <= d.ledger.org.value.limit
    && Due(d) - d.astray <= d.ledger.org.value.used <= Due(d)
  }

  predicate Opening(d: Desk) {
    && Open(d) && d.callers == [] && d.astray == 0 && AuditCurrent(d.ledger)
    && d.base == d.ledger.org.value.used <= d.ledger.org.value.limit
  }

  lemma {:induction false} ReservedKeeps(d: Desk, c: nat, month: Month)
    requires Sound(d) && c < |d.callers| && d.callers[c].Waiting?
    ensures Sound(Reserved(d, c, month))
  {
    var after := Reserved(d, c, month);
    var period := after.ledger.org.value.periodStart;
    ChargedUpdate(d.callers, c, after.callers[c], period);
    if period != d.ledger.org.value.periodStart {
      NoneCharged(d.callers, period);
    }
  }

  lemma {:induction false} RefundedKeeps(d: Desk, c: nat, ok: bool)
    requires Sound(d) && c < |d.callers| && d.callers[c].Refunding?
    ensures Sound(Refunded(d, c, ok))
  {
    ChargedUpdate(d.callers, c, Refunded(d, c, ok).callers[c], d.ledger.org.value.periodStart);
  }

  lemma {:induction false} StepKeeps(d: Desk, e: Event)
    requires Sound(d)
    ensures Sound(Apply(d, e))
    ensures Apply(d, e).ledger.org.value.limit == d.ledger.org.value.limit
    ensures Apply(d, e).ledger.org.value.periodStart >= d.ledger.org.value.periodStart
  {
    var period := d.ledger.org.value.periodStart;
    match e
    case Arrive => ChargedConcat(d.callers, [Waiting], period);
    case TryReserve(c, month) =>
      if c < |d.callers| && d.callers[c].Waiting? {
        ReservedKeeps(d, c, month);
      }
    case GiveBack(c, ok) =>
      if c < |d.callers| && d.callers[c].Refunding? {
        RefundedKeeps(d, c, ok);
      }
    case Insert(c, _) =>
      if c < |d.callers| {
        ChargedUpdate(d.callers, c, Apply(d, e).callers[c], period);
      }
    case CrashAt(c) =>
      if c < |d.callers| {
        ChargedUpdate(d.callers, c, Apply(d, e).callers[c], period);
      }
  }

  /** The limit holds, and the audit log is current, in every interleaving, with resets, failed refunds and crashes. */
  lemma {:induction false} AlwaysSound(d: Desk, events: seq<Event>)
    requires Sound(d)
    ensures Sound(ApplyAll(d, events))
    ensures ApplyAll(d, events).ledger.org.value.limit == d.ledger.org.value.limit
    decreases |events|
  {
    if events != [] {
      StepKeeps(d, events[0]);
      AlwaysSound(Apply(d, events[0]), events[1..]);
    }
  }

  // ---------------------------------------------------------------- conservation

  /** A refund that reaches the database under a later period than its reservation. */
  predicate Late(d: Desk, e: Event)
    requires Open(d)
  {
    e.GiveBack? && e.ok && e.c < |d.callers| && d.callers[e.c].Refunding?
    && d.callers[e.c].period != d.ledger.org.value.periodStart
  }

  predicate NoneLate(d: Desk, events: seq<Event>)
    requires Open(d)
    decreases |events|
  {
    events == [] || (!Late(d, events[0]) && NoneLate(Apply(d, events[0]), events[1..]))
  }

  /** No refund of the current period is outstanding, so none can meet the clamp at zero. */
  predicate NobodyOwed(d: Desk)
    requires Open(d)
  {
    forall c :: c in d.callers && c.Refunding? ==> c.period != d.ledger.org.value.periodStart
  }

  /** Without late refunds the counter is exact at every point, and the clamp at zero never takes effect. */
  lemma {:induction false} Conservation(d: Desk, events: seq<Event>)
    requires Sound(d) && d.astray == 0 && NoneLate(d, events)
    ensures var after := ApplyAll(d, events);
      && after.astray == 0
      && after.ledger.org.value.used == Due(after)
      && (after.ledger.org.value.used == 0 ==> NobodyOwed(after))
    decreases |events|
  {
    if events == [] {
      forall c | 0 <= c < |d.callers| && d.callers[c].Refunding? && d.callers[c].period == d.ledger.org.value.periodStart
        ensures d.ledger.org.value.used >= 1
      {
        ChargedUpdate(d.callers, c, Turned, d.ledger.org.value.periodStart);
      }
    } else {
      StepKeeps(d, events[0]);
      Conservation(Apply(d, events[0]), events[1..]);
    }
  }

  function InFlight(callers: seq<Caller>): nat {
    if callers == [] then 0
    else (if callers[0].Holding? || callers[0].Refunding? then 1 else 0) + InFlight(callers[1..])
  }

  function RunsMade(callers: seq<Caller>): nat {
    if callers == [] then 0 else (if callers[0].Made? then 1 else 0) + RunsMade(callers[1..])
  }

  /** No call reserves in a later month, no refund fails and nobody crashes. */
  predicate Calm(events: seq<Event>, month: Month) {
    forall e :: e in events ==>
      !e.CrashAt? && (e.GiveBack? ==> e.ok) && (e.TryReserve? ==> e.month <= month)
  }

  predicate AllIn(d: Desk, month: Month) {
    && Open(d) && d.ledger.org.value.periodStart == month
    && forall c :: c in d.callers ==> !c.Leaked? && (c.Holding? || c.Refunding? || c.Made? ==> c.period == month)
  }

  lemma {:induction false} CalmStays(d: Desk, events: seq<Event>, month: Month)
    requires AllIn(d, month) && Calm(events, month)
    ensures NoneLate(d, events) && AllIn(ApplyAll(d, events), month) && ApplyAll(d, events).base == d.base
    decreases |events|
  {
    if events != [] {
      assert events[0] in events;
      assert AllIn(Apply(d, events[0]), month);
      assert Calm(events[1..], month);
      CalmStays(Apply(d, events[0]), events[1..], month);
    }
  }

  lemma {:induction false} ChargedSplits(callers: seq<Caller>, month: Month)
    requires forall c :: c in callers ==> !c.Leaked? && (c.Holding? || c.Refunding? || c.Made? ==> c.period == month)
    ensures Charged(callers, month) == RunsMade(callers) + InFlight(callers)
  {
    if callers != [] {
      assert callers[0] in callers;
      assert forall c :: c in callers[1..] ==> c in callers;
      ChargedSplits(callers[1..], month);
    }
  }

  /**
    Within one period, with refunds that succeed: the counter has grown by the runs created plus the
    reservations in flight, and never passes the limit.
   */
  lemma {:induction false} QuotaConservation(d: Desk, events: seq<Event>)
    requires Opening(d) && Calm(events, d.ledger.org.value.periodStart)
    ensures var after := ApplyAll(d, events);
      && after.ledger.org.value.used - d.ledger.org.value.used == RunsMade(after.callers) + InFlight(after.callers)
      && after.ledger.org.value.used <= after.ledger.org.value.limit == d.ledger.org.value.limit
  {
    var month := d.ledger.org.value.periodStart;
    CalmStays(d, events, month);
    Conservation(d, events);
    AlwaysSound(d, events);
    ChargedSplits(ApplyAll(d, events).callers, month);
  }

  /** A successful refund leaves the counter's error as it was exactly when it is of this period and the counter is positive, or neither. */
  lemma {:induction false} RefundConservesExactly(d: Desk, c: nat)
    requires Open(d) && c < |d.callers| && d.callers[c].Refunding?
    ensures var after := Apply(d, GiveBack(c, true)); var org := d.ledger.org.value;
      (after.ledger.org.value.used - Due(after) == org.used - Due(d))
      <==> ((d.callers[c].period == org.periodStart) <==> org.used > 0)
  {
    ChargedUpdate(d.callers, c, Turned, d.ledger.org.value.periodStart);
  }

  lemma {:induction false} ApplyAllConcat(d: Desk, a: seq<Event>, b: seq<Event>)
    requires Open(d)
    ensures ApplyAll(d, a + b) == ApplyAll(ApplyAll(d, a), b)
    decreases |a|
  {
    if a == [] {
      assert a + b == b;
    } else {
      assert (a + b)[1..] == a[1..] + b;
      ApplyAllConcat(Apply(d, a[0]), a[1..], b);
    }
  }

  /** One unit a month. Month 0: a reservation whose insert fails. Month 1: a run, the refund, another run. */
  function OneUnit(): Desk { Desk(Ledger(Some(Org(0, 1, 0)), []), [Waiting, Waiting, Waiting], 0, 0) }

  function EarlyEvents(): seq<Event> { [TryReserve(0, 0), Insert(0, false), TryReserve(1, 1), Insert(1, true)] }

  function LateEvents(): seq<Event> { [GiveBack(0, true), TryReserve(2, 1), Insert(2, true)] }

  function AfterEarly(): Desk {
    var row := Reservation(true, None, 1, 1);
    Desk(Ledger(Some(Org(1, 1, 1)), [row, row]), [Refunding(0), Made(1), Waiting], 0, 0)
  }

  lemma {:induction false} EarlyHalf()
    ensures ApplyAll(OneUnit(), EarlyEvents()) == AfterEarly()
  {
    var row := Reservation(true, None, 1, 1);
    var d := Desk(Ledger(Some(Org(1, 1, 0)), [row]), [Refunding(0), Waiting, Waiting], 0, 0);
    assert Apply(Apply(OneUnit(), TryReserve(0, 0)), Insert(0, false)) == d;
    assert Apply(Apply(d, TryReserve(1, 1)), Insert(1, true)) == AfterEarly();
  }

  lemma {:induction false} LateHalf()
    ensures ApplyAll(AfterEarly(), LateEvents()).callers == [Turned, Made(1), Made(1)]
  {
    var d := Apply(AfterEarly(), GiveBack(0, true));
    assert d.callers == [Turned, Made(1), Waiting] && d.ledger.org == Some(Org(0, 1, 1));
    assert Apply(Apply(d, TryReserve(2, 1)), Insert(2, true)).callers == [Turned, Made(1), Made(1)];
  }

  /** A refund after the reset gives back a unit of the new month: with a limit of one, two runs are created in it. */
  lemma {:induction false} LateRefundOvergrants()
    ensures Sound(OneUnit()) && OneUnit().astray == 0 && OneUnit().ledger.org.value.limit == 1
    ensures ApplyAll(OneUnit(), EarlyEvents() + LateEvents()).callers == [Turned, Made(1), Made(1)]
  {
    NoneCharged(OneUnit().callers, 0);
    ApplyAllConcat(OneUnit(), EarlyEvents(), LateEvents());
    EarlyHalf();
    LateHalf();
  }
}
