/**
 The premium flag and the subscriptions it stands for (auth.service.ts, message.service.ts, subscription.expiry.job.ts).
 */
module Premium {
  import opened Wrappers
  import opened Traces
  import opened Subscriptions
  import opened Accounts
  import opened Entitlements

  /** isUserPremium of the login service. */
  predicate IsUserPremium(db: Db, user: User) {
    || user.isPremium
    || (user.role == EMPLOYER && CompanySub(db, user).Some? && CompanySub(db, user).value.status == ACTIVE)
  }

  /** The subscription a user's plan comes from. */
  function OwnSub(db: Db, userId: string, user: User): Option<Subscription> {
    match user.role
    case EMPLOYER => CompanySub(db, user)
    case JOB_SEEKER => Lookup(db.userSubs, userId)
    case _ => None
  }

  predicate HasActiveSub(db: Db, userId: string, user: User) {
    OwnSub(db, userId, user).Some? && OwnSub(db, userId, user).value.status == ACTIVE
  }

  /* ---- payments in the payer's own category, and expiry sweeps ---- */

  datatype Step =
    | PayForCompany(userId: string, planId: string, at: int)
    | PayForSelf(userId: string, planId: string, k: nat, at: int)
    | SweepSeeker(userId: string, at: int)
    | SweepCompany(companyId: string, at: int)

  /** The transaction of the expiry job for one due job seeker. */
  function ExpireSeeker(db: Db, userId: string, now: int): Db {
    if userId in db.userSubs && Due(db.userSubs[userId], now)
    then SetPremium(db.(userSubs := db.userSubs[userId := Expire(db.userSubs[userId], now)]), userId, false)
    else db
  }

  /** The transaction of the expiry job for one due company: all its users are demoted. */
  function ExpireCompany(db: Db, companyId: string, now: int): Db {
    if companyId in db.companySubs && Due(db.companySubs[companyId], now)
    then db.(
      companySubs := db.companySubs[companyId := Expire(db.companySubs[companyId], now)],
      users := map u | u in db.users ::
        if db.users[u].companyId == Some(companyId) then db.users[u].(isPremium := false) else db.users[u])
    else db
  }

  function Apply(db: Db, step: Step): Db {
    match step
    case PayForCompany(userId, planId, now) =>
      if userId in db.users && db.users[userId].role == EMPLOYER && db.users[userId].companyId.Some?
      then GrantTo(db, EMPLOYER_PLAN, db.users[userId].companyId.value, userId, planId, ThirtyDays, now)
      else db
    case PayForSelf(userId, planId, k, now) =>
      if userId in db.users && db.users[userId].role == JOB_SEEKER
      then GrantTo(db, SEEKER_PREMIUM, userId, userId, planId, Months(k), now)
      else db
    case SweepSeeker(userId, now) => ExpireSeeker(db, userId, now)
    case SweepCompany(companyId, now) => ExpireCompany(db, companyId, now)
  }

  type Run = Trace<Step>

  function After(run: Run, db: Db): Db {
    if run.Start? then db else Apply(After(run.before, db), run.event)
  }

  /** The flag never outlives the ACTIVE status, and a job seeker's flag says exactly that; seekers have no company. */
  predicate PremiumInv(db: Db) {
    && (forall u :: u in db.users && db.users[u].isPremium ==> HasActiveSub(db, u, db.users[u]))
    && (forall u :: u in db.users && db.users[u].role == JOB_SEEKER ==>
          db.users[u].companyId.None? && (HasActiveSub(db, u, db.users[u]) ==> db.users[u].isPremium))
  }

  lemma PaymentKeepsPremium(db: Db, step: Step)
    requires PremiumInv(db) && (step.PayForCompany? || step.PayForSelf?)
    ensures PremiumInv(Apply(db, step))
  {
    hide Extend, Due, Stackable, ExpireSeeker, ExpireCompany;
  }

  lemma ExpiryKeepsPremium(db: Db, step: Step)
    requires PremiumInv(db) && (step.SweepSeeker? || step.SweepCompany?)
    ensures PremiumInv(Apply(db, step))
  {
    hide GrantTo, Due;
  }

  lemma StepKeepsPremium(db: Db, step: Step)
    requires PremiumInv(db)
    ensures PremiumInv(Apply(db, step))
  {
    hide PremiumInv, Apply;
    match step
    case PayForCompany(_, _, _) => PaymentKeepsPremium(db, step);
    case PayForSelf(_, _, _, _) => PaymentKeepsPremium(db, step);
    case SweepSeeker(_, _) => ExpiryKeepsPremium(db, step);
    case SweepCompany(_, _) => ExpiryKeepsPremium(db, step);
  }

  lemma {:induction false} PremiumInvHolds(run: Run, db: Db)
    requires PremiumInv(db)
    ensures PremiumInv(After(run, db))
  {
    if run.Then? {
      PremiumInvHolds(run.before, db);
      StepKeepsPremium(After(run.before, db), run.event);
    }
  }

  /**
   In every serial run the login service calls a company's employee or a job seeker premium exactly when the
   subscription behind them is ACTIVE, for employees who never paid themselves as well.
   */
  lemma PremiumMatchesSubscription(run: Run, db: Db, userId: string)
    requires PremiumInv(db) && userId in After(run, db).users
    ensures IsUserPremium(After(run, db), After(run, db).users[userId])
       <==> HasActiveSub(After(run, db), userId, After(run, db).users[userId])
  {
    PremiumInvHolds(run, db);
    hide After;
  }

  /**
   Buying the seeker plan always makes the buyer premium, and that matches a subscription exactly when the buyer is a
   job seeker or an employee of a company with an ACTIVE plan; for other employers and administrators it does not.
   */
  lemma CrossPurchaseKeepsMatchIff(db: Db, userId: string, planId: string, k: nat, now: int)
    requires userId in db.users
    ensures var after := GrantTo(db, SEEKER_PREMIUM, userId, userId, planId, Months(k), now);
      && userId in after.users
      && IsUserPremium(after, after.users[userId])
      && ((IsUserPremium(after, after.users[userId]) <==> HasActiveSub(after, userId, after.users[userId]))
          <==> db.users[userId].role == JOB_SEEKER || HasActiveSub(db, userId, db.users[userId]))
  {
    hide Extend;
  }

  /* ---- sweeps and entitlements ---- */

  predicate OnlySweeps(run: Run, now: int) {
    run.Then? ==>
      (run.event.SweepSeeker? || run.event.SweepCompany?) && run.event.at <= now && OnlySweeps(run.before, now)
  }

  lemma SweepKeepsDirect(w: World, step: Step, userId: string, t: int)
    requires step.SweepSeeker? || step.SweepCompany?
    requires step.at <= t
    ensures Direct(w.(db := Apply(w.db, step)), userId, t) == Direct(w, userId, t)
  {
  }

  /**
   Whatever rows the sweeps reach or miss, nobody's entitlement computed from the tables at any later instant changes.
   */
  lemma {:induction false} SweepsKeepEntitlements(w: World, run: Run, userId: string, t: int)
    requires OnlySweeps(run, t)
    ensures Direct(w.(db := After(run, w.db)), userId, t) == Direct(w, userId, t)
  {
    if run.Then? {
      SweepsKeepEntitlements(w, run.before, userId, t);
      SweepKeepsDirect(w.(db := After(run.before, w.db)), run.event, userId, t);
      hide Direct, Apply;
    }
  }

  /* ---- the premium check of the message service, for one user and for many ---- */

  predicate Subscribed(sub: Option<Subscription>) {
    sub.Some? && (sub.value.status == ACTIVE || sub.value.status == TRIALING)
  }

  /** checkPremiumStatus does not throw. */
  predicate Passes(db: Db, userId: string, now: int) {
    && userId in db.users
    && var user := db.users[userId];
       || user.isPremium
       || (user.role == EMPLOYER && user.companyId.Some? && user.companyId.value in db.companySubs
           && db.companySubs[user.companyId.value].status in {ACTIVE, TRIALING})
       || (user.role == JOB_SEEKER && userId in db.userSubs
           && var sub := db.userSubs[userId];
              sub.status in {ACTIVE, TRIALING} && (sub.endDate.None? || now < sub.endDate.value))
  }

  /** The batch check reads users and subscriptions once and answers every id as the single check would. */
  method CheckPremiumStatusMultiple(userIds: seq<string>, db: Db, now: int) returns (results: map<string, bool>)
    ensures results.Keys == set id | id in userIds
    ensures forall id :: id in userIds ==> (results[id] <==> Passes(db, id, now))
  {
    var userMap := map id | id in db.users && id in userIds :: db.users[id];
    var employerCompanyIds := set id
      | id in userMap && !userMap[id].isPremium && userMap[id].role == EMPLOYER && userMap[id].companyId.Some?
      :: userMap[id].companyId.value;
    var activeCompanyIds := set c | c in employerCompanyIds && Subscribed(Lookup(db.companySubs, c));
    results := map[];
    for i := 0 to |userIds|
      invariant results.Keys == set id | id in userIds[..i]
      invariant forall id :: id in userIds[..i] ==> (results[id] <==> Passes(db, id, now))
    {
      var userId := userIds[i];
      assert userIds[..i + 1] == userIds[..i] + [userId];
      if userId !in userMap {
        results := results[userId := false];
        continue;
      }
      var user := userMap[userId];
      var isPremium := user.isPremium;
      if !isPremium && user.role == EMPLOYER && user.companyId.Some? {
        if user.companyId.value in activeCompanyIds {
          isPremium := true;
        }
      }
      if !isPremium && user.role == JOB_SEEKER {
        var sub := Lookup(db.userSubs, userId);
        if Subscribed(sub) && (sub.value.endDate.None? || now < sub.value.endDate.value) {
          isPremium := true;
        }
      }
      results := results[userId := isPremium];
    }
    assert userIds[..|userIds|] == userIds;
  }
}
