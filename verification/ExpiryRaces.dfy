/**
 One subscription row under the expiry job and payments (subscription.expiry.job.ts, payment.service.ts). The job reads
 a page and later writes its records by id, without looking at them again; payments may land in between.
 */
module ExpiryRaces {
  import opened Wrappers
  import opened Traces
  import opened Subscriptions

  /** A sweep reads with the instant at which it began; a record's transaction happens later, or throws. */
  datatype Step =
    | ReadPage(sweep: nat, began: int, at: int)
    | WriteRecord(sweep: nat, at: int)
    | RecordFails(sweep: nat, at: int)
    | Pay(at: int)

  /** premium is the flag of the payer; pages are the sweeps that have the row in the page they work on. */
  datatype State = State(sub: Subscription, premium: bool, pages: set<nat>)

  datatype Origin = Origin(state: State, at: int, term: Term)

  function Apply(s: State, term: Term, step: Step): State {
    match step
    case ReadPage(sweep, began, _) =>
      if sweep !in s.pages && Due(s.sub, began) then s.(pages := s.pages + {sweep}) else s
    case WriteRecord(sweep, _) =>
      if sweep in s.pages then State(s.sub.(status := EXPIRED), false, s.pages - {sweep}) else s
    case RecordFails(sweep, _) => s.(pages := s.pages - {sweep})
    case Pay(now) => State(Granted(Some(s.sub), s.sub.planId, term, now), true, s.pages)
  }

  type Run = Trace<Step>

  function After(run: Run, o: Origin): State {
    if run.Start? then o.state else Apply(After(run.before, o), o.term, run.event)
  }

  /** The steps happen in order, and no sweep reads before it began. */
  predicate InOrder(run: Run, o: Origin, now: int) {
    && o.at <= now
    && (run.Then? ==>
          && run.event.at <= now && InOrder(run.before, o, run.event.at)
          && (run.event.ReadPage? ==> run.event.began <= run.event.at))
  }

  /** No sweep is at work yet; an end date not yet passed means an ACTIVE row and a premium payer. */
  predicate Begins(o: Origin) {
    && o.state.pages == {}
    && SubInv(Some(o.state.sub), o.state.sub.planId, o.at)
    && (o.state.sub.endDate.value >= o.at ==> o.state.premium)
  }

  /** A payment has landed since the sweep read the row into its page. */
  predicate PaidSinceRead(run: Run, o: Origin, sweep: nat) {
    run.Then? &&
    if run.event.Pay? then true
    else if run.event.ReadPage? && run.event.sweep == sweep && sweep !in After(run.before, o).pages then false
    else PaidSinceRead(run.before, o, sweep)
  }

  /** The last payment landed between the read and the write of a record. */
  predicate PaymentLost(run: Run, o: Origin) {
    run.Then? &&
    match run.event
    case Pay(_) => false
    case WriteRecord(sweep, _) =>
      if sweep in After(run.before, o).pages then PaidSinceRead(run.before, o, sweep) else PaymentLost(run.before, o)
    case _ => PaymentLost(run.before, o)
  }

  ghost predicate RaceInv(run: Run, o: Origin, now: int) {
    var s := After(run, o);
    && s.sub.endDate.Some? && (s.sub.status == ACTIVE || s.sub.status == EXPIRED)
    && (forall sweep :: sweep in s.pages && !PaidSinceRead(run, o, sweep) ==> s.sub.endDate.value < now)
    && (s.sub.endDate.value >= now ==>
          (s.sub.status == EXPIRED <==> PaymentLost(run, o)) && (s.premium <==> !PaymentLost(run, o)))
  }

  lemma {:induction false} RaceInvHolds(run: Run, o: Origin, now: int)
    requires Begins(o) && InOrder(run, o, now)
    ensures RaceInv(run, o, now)
  {
    hide Extend;
    if run.Then? {
      RaceInvHolds(run.before, o, run.event.at);
    }
  }

  /**
   In every interleaving of payments and sweeps, however many run at once: while the paid time is not over, the row is
   inactive and the payer has lost the flag if and only if the last payment fell between the read and the write of a
   record.
   */
  lemma PaidTimeIsLostIff(run: Run, o: Origin, now: int)
    requires Begins(o) && InOrder(run, o, now) && EndOf(Some(After(run, o).sub)) >= now
    ensures !IsSubscriptionActive(Some(After(run, o).sub), now) <==> PaymentLost(run, o)
    ensures !After(run, o).premium <==> PaymentLost(run, o)
  {
    RaceInvHolds(run, o, now);
    hide After, PaymentLost, PaidSinceRead;
  }

  /** What was lost stays lost: the next payment starts a fresh term, and stacks exactly when nothing was lost. */
  lemma NextPaymentStacksIff(run: Run, o: Origin, now: int)
    requires Begins(o) && InOrder(run, o, now) && EndOf(Some(After(run, o).sub)) > now
    ensures var sub, next := After(run, o).sub, After(Then(run, Step.Pay(now)), o).sub;
      next.endDate == Some(Extend(o.term, if PaymentLost(run, o) then now else EndOf(Some(sub))))
  {
    RaceInvHolds(run, o, now);
    hide Extend, PaymentLost, PaidSinceRead;
  }

  /** The window exists for every row that is due: read, pay, write. */
  lemma PaymentCanBeLost(o: Origin, sweep: nat, now: int)
    requires Begins(o) && Due(o.state.sub, o.at) && o.at <= now
    ensures var run := Then(Then(Then(Start, ReadPage(sweep, o.at, o.at)), Step.Pay(now)), WriteRecord(sweep, now));
      && PaymentLost(run, o)
      && After(run, o).sub.status == EXPIRED && EndOf(Some(After(run, o).sub)) == Extend(o.term, now)
  {
    hide Extend;
    var read: Run := Then(Start, ReadPage(sweep, o.at, o.at));
    assert After(Start, o) == o.state;
    assert After(read, o) == o.state.(pages := {sweep});
    var paid := Then(read, Step.Pay(now));
    assert sweep in After(paid, o).pages;
    assert PaidSinceRead(paid, o, sweep);
  }
}
