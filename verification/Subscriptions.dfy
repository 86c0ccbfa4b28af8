/** Subscription rows and how a validated payment stacks validity on them (payment.service.ts). */
module Subscriptions {
  import opened Wrappers
  import opened Traces
  import opened Calendar

  datatype SubStatus = ACTIVE | PAST_DUE | CANCELED | EXPIRED | TRIALING

  datatype Subscription = Subscription(
    planId: string,
    status: SubStatus,
    startDate: int,
    endDate: Option<int>,
    cancelAtPeriodEnd: bool,
    reminderSentAt: Option<int>)

  /** What one payment buys: 30 days for a company, calendar months for a job seeker. */
  datatype Term = ThirtyDays | Months(k: nat)

  /** planFeatures.durationMonths when it is a positive number, else 1; setMonth drops the fraction. */
  function DurationMonths(durationMonths: Option<real>): nat {
    if durationMonths.Some? && durationMonths.value > 0.0 then durationMonths.value.Floor else 1
  }

  function Extend(term: Term, from: int): int {
    match term
    case ThirtyDays => SetDate(from, DateOf(from) + 30)
    case Months(k) => SetMonth(from, Month(from) + k)
  }

  /** The days a term adds when it starts at from. */
  function TermDays(term: Term, from: int): int {
    match term
    case ThirtyDays => 30
    case Months(k) => DaysInMonths(MonthIndex(from), k)
  }

  lemma ExtendAddsTerm(term: Term, from: int)
    ensures Extend(term, from) == from + TermDays(term, from) * MS_PER_DAY
    ensures TermDays(term, from) >= 0
    ensures term.ThirtyDays? ==> TermDays(term, from) == 30
    ensures term.Months? ==> 28 * term.k <= TermDays(term, from) <= 31 * term.k
  {
    hide MonthIndex, DateOf, Month, SetMonth, SetDate;
    match term
    case ThirtyDays => SetDateShifts(from, 30);
    case Months(k) => SetMonthShifts(from, k);
  }

  /**
   Extending by months is strictly monotone in the start instant exactly for the starts whose day of the month exists
   in the target month: 31 January plus one month lands after 1 February plus one month.
   */
  lemma MonthsMonotoneIff(k: nat, s: int)
    ensures (forall t :: s < t ==> Extend(Months(k), s) < Extend(Months(k), t))
       <==> DateOf(s) <= MonthLength(MonthIndex(s) + k)
  {
    hide MonthStart, MonthLength, Extend;
    if DateOf(s) <= MonthLength(MonthIndex(s) + k) {
      forall t | s < t ensures Extend(Months(k), s) < Extend(Months(k), t) {
        NoOverflowIsMonotone(k, s, t);
      }
    } else {
      OverflowOvertakes(k, s);
    }
  }

  /** After a day overflow, the first instant of the next month is extended no further than s. */
  lemma OverflowOvertakes(k: nat, s: int)
    requires DateOf(s) > MonthLength(MonthIndex(s) + k)
    ensures var t := MakeDate(MonthStart(MonthIndex(s) + 1), 0);
            s < t && Extend(Months(k), t) <= Extend(Months(k), s)
  {
    hide MonthStart, MonthLength, Extend;
    var m := MonthIndex(s);
    var t := MakeDate(MonthStart(m + 1), 0);
    MonthStep(m + k);
    MonthStep(m + 1);
    MonthOfUnique(MonthStart(m + 1), m + 1);
    ExtendByStart(k, s);
    ExtendByStart(k, t);
    assert m + 1 + k == m + k + 1;
  }

  lemma ExtendByStart(k: nat, t: int)
    ensures Extend(Months(k), t) == MakeDate(MonthStart(MonthIndex(t) + k) + DateOf(t) - 1, TimeWithinDay(t))
  {
    hide MonthStart, MonthLength;
    SetMonthShifts(t, k);
    MonthsAdd(MonthIndex(t), k);
  }

  lemma NoOverflowIsMonotone(k: nat, s: int, t: int)
    requires s < t && DateOf(s) <= MonthLength(MonthIndex(s) + k)
    ensures Extend(Months(k), s) < Extend(Months(k), t)
  {
    hide MonthStart, MonthLength, Extend;
    var m, n := MonthIndex(s), MonthIndex(t);
    ExtendByStart(k, s);
    ExtendByStart(k, t);
    MonthStep(m + k);
    if m < n {
      MonthStartMonotone(m + k, n + k);
    } else if n < m {
      MonthStartMonotone(n, m);
    }
  }

  lemma MonthsOf2026()
    ensures MonthStart(12 * 2026) == 20454
    ensures MonthStart(12 * 2026 + 1) == 20485
    ensures MonthStart(12 * 2026 + 2) == 20513
  {
    hide MonthStart, MonthLength;
    YearStart(2026);
    LengthOf(2026, 0);
    LengthOf(2026, 1);
    MonthStep(12 * 2026);
    MonthStep(12 * 2026 + 1);
  }

  lemma ExtendDay(day: int, m: int, k: nat)
    requires InMonth(day, m)
    ensures Extend(Months(k), MakeDate(day, 0)) == MakeDate(MonthStart(m + k) + day - MonthStart(m), 0)
  {
    hide MonthStart, MonthLength, Extend;
    MonthOfUnique(day, m);
    ExtendByStart(k, MakeDate(day, 0));
  }

  /** The overflow in numbers: in 2026, 31 January extends to 3 March and 1 February to 1 March. */
  lemma OverflowExample()
    ensures MakeDay(2026, 0, 31) < MakeDay(2026, 1, 1)
    ensures Extend(Months(1), MakeDate(MakeDay(2026, 0, 31), 0)) == MakeDate(MakeDay(2026, 2, 3), 0)
    ensures Extend(Months(1), MakeDate(MakeDay(2026, 1, 1), 0)) == MakeDate(MakeDay(2026, 2, 1), 0)
  {
    hide MonthStart, MonthLength, Extend;
    MonthsOf2026();
    ExtendDay(20484, 12 * 2026, 1);
    ExtendDay(20485, 12 * 2026 + 1, 1);
  }

  /** Same plan, active and not yet over: the new term is stacked on the old one. */
  predicate Stackable(existing: Option<Subscription>, planId: string, now: int) {
    && existing.Some?
    && existing.value.status == ACTIVE
    && existing.value.planId == planId
    && existing.value.endDate.Some?
    && existing.value.endDate.value > now
  }

  /** The row the upsert leaves. */
  function Granted(existing: Option<Subscription>, planId: string, term: Term, now: int): Subscription {
    var stack := Stackable(existing, planId, now);
    Subscription(
      planId, ACTIVE,
      if stack then existing.value.startDate else now,
      Some(Extend(term, if stack then existing.value.endDate.value else now)),
      false, None)
  }

  /** A payment moves the end of the validity back exactly when it does not stack and a fresh term ends earlier. */
  lemma MovesBackIff(existing: Subscription, planId: string, term: Term, now: int)
    requires existing.endDate.Some?
    ensures Granted(Some(existing), planId, term, now).endDate.value < existing.endDate.value
       <==> !Stackable(Some(existing), planId, now) && Extend(term, now) < existing.endDate.value
  {
    ExtendAddsTerm(term, if Stackable(Some(existing), planId, now) then existing.endDate.value else now);
  }

  predicate Due(sub: Subscription, now: int) {
    sub.status == ACTIVE && sub.endDate.Some? && sub.endDate.value < now
  }

  /** What a sweep that visits the row does to it (subscription.expiry.job.ts). */
  function Expire(sub: Subscription, now: int): Subscription {
    if Due(sub, now) then sub.(status := EXPIRED) else sub
  }

  /** isSubscriptionActive (entitlement.service.ts). */
  predicate IsSubscriptionActive(sub: Option<Subscription>, now: int) {
    && sub.Some?
    && sub.value.status == ACTIVE
    && !(sub.value.endDate.Some? && now > sub.value.endDate.value)
  }

  /* ---- serial runs of payments for one plan, mixed with sweeps ---- */

  datatype Event = Pay(at: int) | Sweep(at: int)

  type Run = Trace<Event>

  /** Where a run begins: the row there is, if any, the instant, and the plan and term that every payment buys. */
  datatype Origin = Origin(sub: Option<Subscription>, at: int, planId: string, term: Term)

  /** The events happen in order, none before the start and none after now. */
  predicate InOrder(run: Run, o: Origin, now: int) {
    o.at <= now && (run.Then? ==> run.event.at <= now && InOrder(run.before, o, run.event.at))
  }

  function Next(sub: Option<Subscription>, planId: string, term: Term, e: Event): Option<Subscription> {
    match e
    case Pay(now) => Some(Granted(sub, planId, term, now))
    case Sweep(now) => if sub.Some? then Some(Expire(sub.value, now)) else None
  }

  function After(run: Run, o: Origin): Option<Subscription> {
    if run.Start? then o.sub else Next(After(run.before, o), o.planId, o.term, run.event)
  }

  /** Where the term of a payment made now begins: at the end of the validity already paid, or now. */
  function TermStart(sub: Option<Subscription>, now: int): int {
    if sub.Some? && sub.value.endDate.Some? && sub.value.endDate.value > now then sub.value.endDate.value else now
  }

  /** The days bought over a run, each term counted from where it begins. */
  function DaysBought(run: Run, o: Origin): int {
    if run.Start? then 0
    else
      DaysBought(run.before, o)
      + if run.event.Pay? then TermDays(o.term, TermStart(After(run.before, o), run.event.at)) else 0
  }

  function Payments(run: Run): nat {
    if run.Start? then 0 else Payments(run.before) + if run.event.Pay? then 1 else 0
  }

  ghost function Interval(a: int, b: int): (s: set<int>)
    ensures forall t :: t in s <==> a <= t < b
    decreases b - a
  {
    if a >= b then {} else Interval(a, b - 1) + {b - 1}
  }

  function EndOf(sub: Option<Subscription>): int {
    if sub.Some? && sub.value.endDate.Some? then sub.value.endDate.value else 0
  }

  /** The instants still valid at the start. */
  ghost function Inherited(o: Origin): set<int> {
    if o.sub.Some? then Interval(o.at, EndOf(o.sub)) else {}
  }

  /** The instants that the row at the start or some payment promised: from the payment to the end date it wrote. */
  ghost function Covered(run: Run, o: Origin): set<int> {
    if run.Start? then Inherited(o)
    else Covered(run.before, o) + if run.event.Pay? then Interval(run.event.at, EndOf(After(run, o))) else {}
  }

  /** A row of the plan: an end date not yet passed means an ACTIVE row. */
  predicate SubInv(sub: Option<Subscription>, planId: string, now: int) {
    sub.Some? ==>
      && sub.value.planId == planId && sub.value.endDate.Some?
      && (sub.value.endDate.value >= now ==> sub.value.status == ACTIVE)
      && (sub.value.status == ACTIVE || sub.value.status == EXPIRED)
  }

  predicate Begins(o: Origin) { SubInv(o.sub, o.planId, o.at) }

  /** Under the invariant every payment stacks on max(end date, now). */
  lemma PayStep(sub: Option<Subscription>, planId: string, term: Term, now: int)
    requires SubInv(sub, planId, now)
    ensures Granted(sub, planId, term, now).status == ACTIVE && Granted(sub, planId, term, now).planId == planId
    ensures Granted(sub, planId, term, now).endDate == Some(Extend(term, TermStart(sub, now)))
    ensures Extend(term, TermStart(sub, now)) == TermStart(sub, now) + TermDays(term, TermStart(sub, now)) * MS_PER_DAY
    ensures TermDays(term, TermStart(sub, now)) >= 0
  {
    ExtendAddsTerm(term, TermStart(sub, now));
  }

  lemma {:induction false} SubInvHolds(run: Run, o: Origin, now: int)
    requires Begins(o) && InOrder(run, o, now)
    ensures SubInv(After(run, o), o.planId, now)
  {
    if run.Then? {
      SubInvHolds(run.before, o, run.event.at);
      PayStep(After(run.before, o), o.planId, o.term, run.event.at);
      hide Extend, TermDays;
    }
  }

  /** The promised instants end where the validity ends, and from now on they have no gap. */
  ghost predicate CoveredInv(covered: set<int>, sub: Option<Subscription>, now: int) {
    && (sub.None? ==> covered == {})
    && (sub.Some? ==>
          && (forall t :: t in covered ==> t < EndOf(sub))
          && (forall t :: now <= t < EndOf(sub) ==> t in covered))
  }

  lemma {:induction false} IntervalSize(a: int, b: int)
    ensures |Interval(a, b)| == if a <= b then b - a else 0
    decreases b - a
  {
    if a < b {
      IntervalSize(a, b - 1);
    }
  }

  /** Adding [now, end) to a cover that reaches from now to from, and no further, adds just [from, end). */
  lemma CoverGrows(covered: set<int>, now: int, from: int, end: int)
    requires now <= from <= end
    requires forall t :: t in covered ==> t < from
    requires forall t :: now <= t < from ==> t in covered
    ensures |covered + Interval(now, end)| == |covered| + (end - from)
  {
    hide Interval;
    IntervalSize(from, end);
    assert covered + Interval(now, end) == covered + Interval(from, end);
    assert covered !! Interval(from, end);
  }

  lemma {:induction false} CoveredInvHolds(run: Run, o: Origin, now: int)
    requires Begins(o) && InOrder(run, o, now)
    ensures CoveredInv(Covered(run, o), After(run, o), now)
  {
    if run.Then? {
      CoveredInvHolds(run.before, o, run.event.at);
      SubInvHolds(run.before, o, run.event.at);
      PayStep(After(run.before, o), o.planId, o.term, run.event.at);
      hide Extend, TermDays, Granted;
    }
  }

  /** Each payment sets the end date to max(end date, now) plus one term, so the end date never moves back. */
  lemma PaymentStacks(run: Run, o: Origin, now: int)
    requires Begins(o) && InOrder(run, o, now)
    ensures var before, after := After(run, o), After(Then(run, Pay(now)), o);
            && after.Some? && after.value.status == ACTIVE
            && after.value.endDate == Some(Extend(o.term, TermStart(before, now)))
            && (before.Some? ==> EndOf(before) <= EndOf(after))
  {
    SubInvHolds(run, o, now);
    PayStep(After(run, o), o.planId, o.term, now);
    hide Granted, Extend, TermDays;
  }

  /** At any later instant the row counts as active exactly until the end date, whatever sweeps ran. */
  lemma ActiveUntilEnd(run: Run, o: Origin, now: int)
    requires Begins(o) && InOrder(run, o, now) && (o.sub.Some? || Payments(run) > 0)
    ensures IsSubscriptionActive(After(run, o), now) <==> now <= EndOf(After(run, o))
  {
    SubInvHolds(run, o, now);
    PaidHasRow(run, o);
  }

  lemma {:induction false} PaidHasRow(run: Run, o: Origin)
    requires o.sub.Some? || Payments(run) > 0
    ensures After(run, o).Some?
  {
    if run.Then? && run.event.Sweep? {
      PaidHasRow(run.before, o);
    }
  }

  /** One payment covers exactly the days of its term more than before. */
  lemma PaymentCovers(covered: set<int>, sub: Option<Subscription>, planId: string, term: Term, now: int)
    requires SubInv(sub, planId, now) && CoveredInv(covered, sub, now)
    ensures |covered + Interval(now, EndOf(Some(Granted(sub, planId, term, now))))|
         == |covered| + TermDays(term, TermStart(sub, now)) * MS_PER_DAY
  {
    var from := TermStart(sub, now);
    PayStep(sub, planId, term, now);
    var end := EndOf(Some(Granted(sub, planId, term, now)));
    assert end == from + TermDays(term, from) * MS_PER_DAY >= from;
    hide Granted, Extend, TermDays, Interval;
    assert forall t :: t in covered ==> t < from;
    CoverGrows(covered, now, from, end);
  }

  /**
   No paid instant is lost and none is counted twice: the covered time is what was left at the start and the days
   bought.
   */
  lemma {:induction false} CoverageIsExact(run: Run, o: Origin, now: int)
    requires Begins(o) && InOrder(run, o, now)
    ensures |Covered(run, o)| == |Inherited(o)| + DaysBought(run, o) * MS_PER_DAY
  {
    hide Granted, Extend, TermDays, TermStart, SubInv, CoveredInv, EndOf;
    if run.Then? {
      var sub, at := After(run.before, o), run.event.at;
      CoverageIsExact(run.before, o, at);
      if run.event.Pay? {
        CoveredInvHolds(run.before, o, at);
        SubInvHolds(run.before, o, at);
        PaymentCovers(Covered(run.before, o), sub, o.planId, o.term, at);
      }
    }
  }

  /** A company gets exactly 30 days per payment. */
  lemma {:induction false} ThirtyDaysEach(run: Run, o: Origin)
    requires o.term == ThirtyDays
    ensures DaysBought(run, o) == 30 * Payments(run)
  {
    hide After, TermStart;
    if run.Then? {
      ThirtyDaysEach(run.before, o);
    }
  }

  /** The months bought over a run. */
  function MonthsBought(run: Run, k: nat): nat {
    if run.Start? then 0 else MonthsBought(run.before, k) + if run.event.Pay? then k else 0
  }

  lemma {:induction false} MonthsPerPayment(run: Run, k: nat)
    ensures MonthsBought(run, k) == k * Payments(run)
  {
    if run.Then? {
      MonthsPerPayment(run.before, k);
      assert k * (Payments(run.before) + 1) == k * Payments(run.before) + k;
    }
  }

  /** A job seeker gets between 28 and 31 days per month bought. */
  lemma {:induction false} MonthsEach(run: Run, o: Origin)
    requires o.term.Months?
    ensures 28 * MonthsBought(run, o.term.k) <= DaysBought(run, o) <= 31 * MonthsBought(run, o.term.k)
    ensures MonthsBought(run, o.term.k) == o.term.k * Payments(run)
  {
    hide After, TermStart, Extend, TermDays;
    MonthsPerPayment(run, o.term.k);
    if run.Then? {
      MonthsEach(run.before, o);
      ExtendAddsTerm(o.term, TermStart(After(run.before, o), run.event.at));
    }
  }

  /**
   Over every serial run of payments for one company plan and sweeps, from any row of the plan or none, n payments cover
   exactly 30 n days more than what was left at the start.
   */
  lemma ThirtyDaysPerPayment(run: Run, o: Origin, now: int)
    requires Begins(o) && InOrder(run, o, now) && o.term == ThirtyDays
    ensures |Covered(run, o)|
         == (if o.sub.Some? && EndOf(o.sub) > o.at then EndOf(o.sub) - o.at else 0) + 30 * Payments(run) * MS_PER_DAY
  {
    CoverageIsExact(run, o, now);
    ThirtyDaysEach(run, o);
    IntervalSize(o.at, EndOf(o.sub));
  }
}
