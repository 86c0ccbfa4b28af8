/** The entitlement service and the TTL cache in front of it (entitlement.service.ts, entitlement.cache.ts). */
module Entitlements {
  import opened Wrappers
  import opened Traces
  import opened Subscriptions
  import opened Accounts

  datatype Flags = Flags(
    maxActiveJobs: int,
    maxUsers: int,
    maxMonthlyApplications: int,
    maxResumes: int,
    canMessage: bool,
    canViewAnalytics: bool,
    canViewProfileAnalytics: bool,
    isFeaturedProfile: bool,
    canMessageEmployer: bool)

  const ADMIN_FLAGS := Flags(9999, 9999, 9999, 9999, true, true, true, true, true)
  const FREE_EMPLOYER_FLAGS := Flags(1, 1, 0, 0, false, false, false, false, false)
  const FREE_SEEKER_FLAGS := Flags(0, 0, 40, 1, false, false, false, false, false)

  const TTL_MS := 5 * 60 * 1000

  /** The tables a lookup reads; every plan id has its features. */
  datatype World = World(db: Db, features: string -> Flags)

  /** What the tables alone say about a user at an instant. */
  function Direct(w: World, userId: string, now: int): Flags {
    if userId !in w.db.users then FREE_SEEKER_FLAGS
    else
      var user := w.db.users[userId];
      match user.role
      case ADMIN => ADMIN_FLAGS
      case SUPER_ADMIN => ADMIN_FLAGS
      case EMPLOYER =>
        var sub := CompanySub(w.db, user);
        if IsSubscriptionActive(sub, now) then w.features(sub.value.planId) else FREE_EMPLOYER_FLAGS
      case JOB_SEEKER =>
        var sub := Lookup(w.db.userSubs, userId);
        if IsSubscriptionActive(sub, now) then w.features(sub.value.planId) else FREE_SEEKER_FLAGS
  }

  /** A subscription that entitles at an instant. */
  predicate Entitles(sub: Subscription, now: int) {
    sub.status == ACTIVE && (sub.endDate.None? || now <= sub.endDate.value)
  }

  /**
   The answer the tables call for, row by row: an employer has the features of the company's plan and a job seeker those
   of the own plan exactly while that subscription entitles, and the free flags of the role otherwise.
   */
  predicate AnswersFromTables(flags: Flags, w: World, userId: string, now: int) {
    if userId !in w.db.users then flags == FREE_SEEKER_FLAGS
    else
      var user := w.db.users[userId];
      && (user.role == ADMIN || user.role == SUPER_ADMIN ==> flags == ADMIN_FLAGS)
      && (user.role == EMPLOYER ==>
            var running := user.companyId.Some? && user.companyId.value in w.db.companySubs
              && Entitles(w.db.companySubs[user.companyId.value], now);
            flags == if running then w.features(w.db.companySubs[user.companyId.value].planId) else FREE_EMPLOYER_FLAGS)
      && (user.role == JOB_SEEKER ==>
            var running := userId in w.db.userSubs && Entitles(w.db.userSubs[userId], now);
            flags == if running then w.features(w.db.userSubs[userId].planId) else FREE_SEEKER_FLAGS)
  }

  lemma DirectInColumns(w: World, userId: string, now: int)
    ensures AnswersFromTables(Direct(w, userId, now), w, userId, now)
  {
  }

  /** The free flags allow one job and user, or forty applications and one resume, and no premium feature. */
  lemma FreeFlags()
    ensures FREE_EMPLOYER_FLAGS.maxActiveJobs == FREE_EMPLOYER_FLAGS.maxUsers == 1
    ensures FREE_SEEKER_FLAGS.maxMonthlyApplications == 40 && FREE_SEEKER_FLAGS.maxResumes == 1
    ensures forall v :: v == FREE_EMPLOYER_FLAGS || v == FREE_SEEKER_FLAGS ==>
      && !v.canMessage && !v.canViewAnalytics && !v.canViewProfileAnalytics
      && !v.isFeaturedProfile && !v.canMessageEmployer
  {
  }

  datatype Entry<V> = Entry(value: V, expiry: int)

  type Cache = map<string, Entry<Flags>>

  predicate Fresh<V>(cache: map<string, Entry<V>>, key: string, now: int) {
    key in cache && now <= cache[key].expiry
  }

  class TTLCache<V> {
    var cache: map<string, Entry<V>>
    const defaultTTLMs: int

    constructor (defaultTTLMs: int)
      ensures cache == map[] && this.defaultTTLMs == defaultTTLMs
    {
      this.defaultTTLMs := defaultTTLMs;
      cache := map[];
    }

    method Set(key: string, value: V, ttlMs: Option<int>, now: int)
      modifies this
      ensures cache == old(cache)[key := Entry(value, now + if ttlMs.Some? then ttlMs.value else defaultTTLMs)]
    {
      var duration := if ttlMs.Some? then ttlMs.value else defaultTTLMs;
      cache := cache[key := Entry(value, now + duration)];
    }

    /** Answers a fresh entry and evicts a stale one. */
    method Get(key: string, now: int) returns (r: Option<V>)
      modifies this
      ensures r == if Fresh(old(cache), key, now) then Some(old(cache)[key].value) else None
      ensures r.Some? <==> key in old(cache) && now <= old(cache)[key].expiry
      ensures cache == if r.Some? then old(cache) else old(cache) - {key}
    {
      if key !in cache {
        assert cache - {key} == cache;
        return None;
      }
      if now > cache[key].expiry {
        cache := cache - {key};
        return None;
      }
      return Some(cache[key].value);
    }

    method Delete(key: string)
      modifies this
      ensures cache == old(cache) - {key}
    {
      cache := cache - {key};
    }

    method Clear()
      modifies this
      ensures cache == map[]
    {
      cache := map[];
    }
  }

  class EntitlementService {
    const entitlementCache: TTLCache<Flags>

    constructor ()
      ensures fresh(entitlementCache) && entitlementCache.cache == map[]
      ensures entitlementCache.defaultTTLMs == TTL_MS
    {
      entitlementCache := new TTLCache(5 * 60 * 1000);
    }

    /** One lookup in which nothing else happens; a database outage is None. */
    method GetUserEntitlements(userId: string, database: Option<World>, now: int) returns (flags: Flags)
      requires entitlementCache.defaultTTLMs == TTL_MS
      modifies entitlementCache
      ensures database.Some? ==>
        var s := Apply(State(database.value, old(entitlementCache.cache), map[]), Ask(0, userId, now));
        var done := if 0 in s.pending then Apply(s, Fill(0, now)) else s;
        Some(flags) == done.answer && entitlementCache.cache == done.cache
      ensures Fresh(old(entitlementCache.cache), userId, now) ==> flags == old(entitlementCache.cache)[userId].value
      ensures !Fresh(old(entitlementCache.cache), userId, now) && database.Some? ==>
        && AnswersFromTables(flags, database.value, userId, now)
        && var emptied := old(entitlementCache.cache) - {userId};
           entitlementCache.cache
           == if userId in database.value.db.users then emptied[userId := Entry(flags, now + 300_000)] else emptied
      ensures database.None? && !Fresh(old(entitlementCache.cache), userId, now) ==>
        flags == FREE_SEEKER_FLAGS && entitlementCache.cache == old(entitlementCache.cache) - {userId}
    {
      if database.Some? {
        DirectInColumns(database.value, userId, now);
      }
      var cached := entitlementCache.Get(userId, now);
      if cached.Some? {
        return cached.value;
      }
      if database.None? {
        return FREE_SEEKER_FLAGS;
      }
      var w := database.value;
      if userId !in w.db.users {
        return FREE_SEEKER_FLAGS;
      }
      var user := w.db.users[userId];
      if user.role == ADMIN || user.role == SUPER_ADMIN {
        flags := ADMIN_FLAGS;
      } else if user.role == EMPLOYER {
        var sub := CompanySub(w.db, user);
        if IsSubscriptionActive(sub, now) {
          flags := w.features(sub.value.planId);
        } else {
          flags := FREE_EMPLOYER_FLAGS;
        }
      } else {
        var sub := Lookup(w.db.userSubs, userId);
        if IsSubscriptionActive(sub, now) {
          flags := w.features(sub.value.planId);
        } else {
          flags := FREE_SEEKER_FLAGS;
        }
      }
      entitlementCache.Set(userId, flags, None, now);
    }

    method InvalidateCache(userId: string)
      modifies entitlementCache
      ensures entitlementCache.cache == old(entitlementCache.cache) - {userId}
    {
      entitlementCache.Delete(userId);
    }
  }

  /* ---- lookups, invalidations and writes, interleaved ---- */

  /**
   A lookup asks the cache and, on a miss, reads the tables; later it computes the flags from what it read and fills
   the cache. In between other lookups, invalidations and table writes can happen.
   */
  datatype Event =
    | Ask(call: nat, user: string, at: int)
    | Fill(call: nat, at: int)
    | Outage(call: nat, at: int)
    | Invalidate(user: string, at: int)
    | Write(world: World, at: int)

  datatype Pending = Pending(user: string, read: World)

  /** answer is what the latest event returned to its caller, if it returned anything. */
  datatype State = State(world: World, cache: Cache, pending: map<nat, Pending>, answer: Option<Flags> := None)

  function Apply(s: State, e: Event): State {
    match e
    case Ask(call, user, now) =>
      if Fresh(s.cache, user, now) then s.(answer := Some(s.cache[user].value))
      else State(s.world, s.cache - {user}, s.pending[call := Pending(user, s.world)])
    case Fill(call, now) =>
      if call !in s.pending then s.(answer := None)
      else
        var user, w := s.pending[call].user, s.pending[call].read;
        var flags := Direct(w, user, now);
        State(s.world,
              if user in w.db.users then s.cache[user := Entry(flags, now + TTL_MS)] else s.cache,
              s.pending - {call}, Some(flags))
    case Outage(call, _) =>
      State(s.world, s.cache, s.pending - {call}, if call in s.pending then Some(FREE_SEEKER_FLAGS) else None)
    case Invalidate(user, _) => State(s.world, s.cache - {user}, s.pending)
    case Write(world, _) => State(world, s.cache, s.pending)
  }

  type Run = Trace<Event>

  function Continue(run: Run, s: State): State {
    if run.Start? then s else Apply(Continue(run.before, s), run.event)
  }

  /** A run from an empty cache. */
  function After(run: Run, w: World): State { Continue(run, State(w, map[], map[])) }

  predicate InOrder(run: Run, now: int) {
    run.Then? ==> run.event.at <= now && InOrder(run.before, run.event.at)
  }

  /** Somewhere in the run the tables were as read. */
  ghost predicate Occurred(run: Run, w0: World, read: World) {
    After(run, w0).world == read || (run.Then? && Occurred(run.before, w0, read))
  }

  /**
   A fill at instant f computed v for the user from tables that had occurred by then, and the user has not been
   invalidated since that fill.
   */
  ghost predicate FilledSince(run: Run, w0: World, user: string, v: Flags, f: int) {
    run.Then? &&
    ((exists read :: FilledNow(run, w0, user, v, f, read)) ||
     (!(run.event.Invalidate? && run.event.user == user) && FilledSince(run.before, w0, user, v, f)))
  }

  ghost predicate FilledNow(run: Run, w0: World, user: string, v: Flags, f: int, read: World)
    requires run.Then?
  {
    && run.event.Fill? && run.event.at == f
    && run.event.call in After(run.before, w0).pending
    && After(run.before, w0).pending[run.event.call] == Pending(user, read)
    && Occurred(run.before, w0, read)
    && v == Direct(read, user, f)
  }

  lemma {:induction false} PendingOccurred(run: Run, w0: World, call: nat)
    requires call in After(run, w0).pending
    ensures Occurred(run, w0, After(run, w0).pending[call].read)
  {
    if run.Then? && call in After(run.before, w0).pending {
      PendingOccurred(run.before, w0, call);
    }
  }

  /** Every cache entry stems from a fill TTL before its expiry, with no invalidation since. */
  lemma {:induction false} EntryStems(run: Run, w0: World, user: string)
    requires user in After(run, w0).cache
    ensures FilledSince(run, w0, user, After(run, w0).cache[user].value, After(run, w0).cache[user].expiry - TTL_MS)
  {
    var s, e := After(run.before, w0), run.event;
    if e.Fill? && e.call in s.pending && s.pending[e.call].user == user && user in s.pending[e.call].read.db.users {
      PendingOccurred(run.before, w0, e.call);
      assert FilledNow(run, w0, user, After(run, w0).cache[user].value, e.at, s.pending[e.call].read);
    } else {
      EntryStems(run.before, w0, user);
    }
  }

  /**
   Whatever runs in between, flags answered from the cache at an instant were computed at most five minutes earlier
   from tables as they really were, and nobody invalidated the user since they were stored.
   */
  lemma StalenessBound(run: Run, w0: World, call: nat, user: string, now: int)
    requires InOrder(run, now) && Fresh(After(run, w0).cache, user, now)
    ensures exists f :: now - 300_000 <= f <= now
              && FilledSince(run, w0, user, After(Then(run, Ask(call, user, now)), w0).answer.value, f)
  {
    EntryStems(run, w0, user);
    var f := After(run, w0).cache[user].expiry - TTL_MS;
    FilledInPast(run, w0, user, After(run, w0).cache[user].value, f, now);
    assert FilledSince(run, w0, user, After(Then(run, Ask(call, user, now)), w0).answer.value, f);
  }

  lemma {:induction false} FilledInPast(run: Run, w0: World, user: string, v: Flags, f: int, now: int)
    requires InOrder(run, now) && FilledSince(run, w0, user, v, f)
    ensures f <= now
  {
    if FilledSince(run.before, w0, user, v, f) {
      FilledInPast(run.before, w0, user, v, f, run.event.at);
    }
  }

  /* ---- lookups that no write disturbs ---- */

  /** Whenever a lookup fills, what it read still gives the flags that the tables give at that instant. */
  predicate Undisturbed(run: Run, w0: World) {
    run.Then? ==>
      && Undisturbed(run.before, w0)
      && var s, e := After(run.before, w0), run.event;
         (e.Fill? && e.call in s.pending ==>
            var user := s.pending[e.call].user;
            Direct(s.pending[e.call].read, user, e.at) == Direct(s.world, user, e.at))
  }

  /** At instant f the tables gave v directly, and the user has not been invalidated since f. */
  ghost predicate TrueSince(run: Run, w0: World, user: string, v: Flags, f: int) {
    run.Then? &&
    ((run.event.at == f && v == Direct(After(run, w0).world, user, f)) ||
     (!(run.event.Invalidate? && run.event.user == user) && TrueSince(run.before, w0, user, v, f)))
  }

  lemma {:induction false} FilledIsTrue(run: Run, w0: World, user: string, v: Flags, f: int)
    requires Undisturbed(run, w0) && FilledSince(run, w0, user, v, f)
    ensures TrueSince(run, w0, user, v, f)
  {
    hide Direct;
    if read :| FilledNow(run, w0, user, v, f, read) {
      assert After(run.before, w0).world == After(run, w0).world;
    } else {
      FilledIsTrue(run.before, w0, user, v, f);
    }
  }

  /**
   While no write changes the flags of a lookup in flight, a cached answer is the direct one of the last five minutes.
   */
  lemma UndisturbedStalenessBound(run: Run, w0: World, call: nat, user: string, now: int)
    requires Undisturbed(run, w0) && InOrder(run, now) && Fresh(After(run, w0).cache, user, now)
    ensures exists f :: now - 300_000 <= f <= now
              && TrueSince(run, w0, user, After(Then(run, Ask(call, user, now)), w0).answer.value, f)
  {
    StalenessBound(run, w0, call, user, now);
    var v := After(run, w0).cache[user].value;
    var f :| now - TTL_MS <= f <= now && FilledSince(run, w0, user, v, f);
    FilledIsTrue(run, w0, user, v, f);
  }

  /** The call has missed, and nothing has been written since; other lookups and invalidations may have happened. */
  predicate QuietSinceMiss(run: Run, w0: World, call: nat) {
    && run.Then? && !run.event.Write?
    && ((run.event.Ask? && run.event.call == call && !Fresh(After(run.before, w0).cache, run.event.user, run.event.at))
        || QuietSinceMiss(run.before, w0, call))
  }

  /** No write falls between the miss of a lookup and its fill. */
  predicate QuietLookups(run: Run, w0: World) {
    run.Then? ==> QuietLookups(run.before, w0) && (run.event.Fill? ==> QuietSinceMiss(run.before, w0, run.event.call))
  }

  lemma {:induction false} QuietReadIsCurrent(run: Run, w0: World, call: nat)
    requires QuietSinceMiss(run, w0, call) && call in After(run, w0).pending
    ensures After(run, w0).pending[call].read == After(run, w0).world
  {
    hide Direct;
    if QuietSinceMiss(run.before, w0, call) && call in After(run.before, w0).pending {
      QuietReadIsCurrent(run.before, w0, call);
    }
  }

  /** In particular writes may come at any moment outside the lookups, however these interleave with each other. */
  lemma {:induction false} QuietIsUndisturbed(run: Run, w0: World)
    requires QuietLookups(run, w0)
    ensures Undisturbed(run, w0)
  {
    hide Direct, Apply;
    if run.Then? {
      QuietIsUndisturbed(run.before, w0);
      if run.event.Fill? && run.event.call in After(run.before, w0).pending {
        QuietReadIsCurrent(run.before, w0, run.event.call);
      }
    }
  }

  /* ---- which reads in flight do harm ---- */

  /** The run goes on after now and writes nothing. */
  predicate Quiet(run: Run, now: int) {
    run.Then? ==> !run.event.Write? && now <= run.event.at && Quiet(run.before, now)
  }

  /** The user's entry is what the tables gave directly when it was filled. */
  predicate EntryIsTrue(s: State, user: string) {
    user in s.cache ==> s.cache[user].value == Direct(s.world, user, s.cache[user].expiry - TTL_MS)
  }

  /** The tables read give the user the same flags as the tables now, at every instant from now on, or no entry. */
  ghost predicate Harmless(read: World, w: World, user: string, now: int) {
    user in read.db.users ==> forall t :: now <= t ==> Direct(read, user, t) == Direct(w, user, t)
  }

  ghost predicate ReadsHarmless(s: State, user: string, now: int) {
    forall call | call in s.pending && s.pending[call].user == user
      :: Harmless(s.pending[call].read, s.world, user, now)
  }

  lemma HarmlessStep(s: State, e: Event, user: string, now: int)
    requires EntryIsTrue(s, user) && ReadsHarmless(s, user, now) && !e.Write? && now <= e.at
    ensures var t := Apply(s, e); t.world == s.world && EntryIsTrue(t, user) && ReadsHarmless(t, user, now)
  {
    hide Direct;
  }

  lemma {:induction false} HarmlessRun(run: Run, s: State, user: string, now: int)
    requires Quiet(run, now) && EntryIsTrue(s, user) && ReadsHarmless(s, user, now)
    ensures var t := Continue(run, s); t.world == s.world && EntryIsTrue(t, user) && ReadsHarmless(t, user, now)
  {
    hide Apply, EntryIsTrue, ReadsHarmless;
    if run.Then? {
      HarmlessRun(run.before, s, user, now);
      HarmlessStep(Continue(run.before, s), run.event, user, now);
    }
  }

  lemma HarmfulRead(s: State, call: nat, user: string, now: int) returns (run: Run)
    requires call in s.pending && s.pending[call].user == user && !Harmless(s.pending[call].read, s.world, user, now)
    ensures Quiet(run, now) && !EntryIsTrue(Continue(run, s), user)
  {
    var read := s.pending[call].read;
    var t :| now <= t && Direct(read, user, t) != Direct(s.world, user, t);
    hide Direct;
    run := Then(Start, Fill(call, t));
    assert Continue(run, s) == Apply(s, Fill(call, t));
  }

  /**
   When an invalidation is effective: after a user's entry has been dropped, every later entry of the user, until the
   next write, is what the tables give directly if and only if every lookup of the user in flight has read tables that
   give the same flags from then on.
   */
  lemma {:induction false} InvalidationHoldsIff(s: State, user: string, now: int)
    requires user !in s.cache
    ensures (forall run: Run :: Quiet(run, now) ==> EntryIsTrue(Continue(run, s), user))
       <==> ReadsHarmless(s, user, now)
  {
    hide Continue, EntryIsTrue, Harmless;
    if ReadsHarmless(s, user, now) {
      NoEntryIsTrue(s, user);
      forall run: Run | Quiet(run, now) ensures EntryIsTrue(Continue(run, s), user) {
        HarmlessRun(run, s, user, now);
      }
    } else {
      var call :| call in s.pending && s.pending[call].user == user
                  && !Harmless(s.pending[call].read, s.world, user, now);
      var run := HarmfulRead(s, call, user, now);
    }
  }

  lemma NoEntryIsTrue(s: State, user: string)
    requires user !in s.cache
    ensures EntryIsTrue(s, user)
  {
  }

  /**
   So a grant is lost for as long as it can be: written and invalidated between the read and the fill of a lookup, it
   leaves the old flags stored, and they are answered for five more minutes.
   */
  lemma InvalidationCanBeLost(w0: World, w1: World, user: string, t: int)
    requires user in w0.db.users
    ensures var run := Then(Then(Then(Then(Start, Ask(0, user, t)), Write(w1, t)), Invalidate(user, t)), Fill(0, t));
      After(Then(run, Ask(1, user, t + TTL_MS)), w0).answer == Some(Direct(w0, user, t))
  {
    assert After(Start, w0) == State(w0, map[], map[]);
    var asked := Then(Start, Ask(0, user, t));
    assert After(asked, w0) == State(w0, map[], map[0 := Pending(user, w0)]);
    var written := Then(asked, Write(w1, t));
    assert After(written, w0) == State(w1, map[], map[0 := Pending(user, w0)]);
    var invalidated := Then(written, Invalidate(user, t));
    assert After(invalidated, w0) == State(w1, map[], map[0 := Pending(user, w0)]);
    var filled := Then(invalidated, Fill(0, t));
    assert After(filled, w0).cache == map[user := Entry(Direct(w0, user, t), t + TTL_MS)];
    hide Direct;
  }

  /* ---- plan flags after the end date ---- */

  /** No plan of the user reaches beyond end: the subscription is not ACTIVE, or it ends by then. */
  predicate EndsBy(w: World, userId: string, end: int) {
    userId in w.db.users ==>
      var user := w.db.users[userId];
      var sub := if user.role == EMPLOYER then CompanySub(w.db, user) else Lookup(w.db.userSubs, userId);
      && (user.role == EMPLOYER || user.role == JOB_SEEKER)
      && (sub.Some? && sub.value.status == ACTIVE ==> sub.value.endDate.Some? && sub.value.endDate.value <= end)
  }

  /** No table state of the run grants the user a plan beyond end; sweeps may or may not have expired the row. */
  predicate NeverGrantedBeyond(run: Run, w0: World, user: string, end: int) {
    EndsBy(After(run, w0).world, user, end) && (run.Then? ==> NeverGrantedBeyond(run.before, w0, user, end))
  }

  predicate IsFree(v: Flags) { v == FREE_EMPLOYER_FLAGS || v == FREE_SEEKER_FLAGS }

  lemma DirectEnds(w: World, user: string, end: int, now: int)
    requires EndsBy(w, user, end) && now > end
    ensures IsFree(Direct(w, user, now))
  {
  }

  lemma {:induction false} OccurredEnds(run: Run, w0: World, user: string, end: int, read: World)
    requires NeverGrantedBeyond(run, w0, user, end) && Occurred(run, w0, read)
    ensures EndsBy(read, user, end)
  {
    if After(run, w0).world != read {
      OccurredEnds(run.before, w0, user, end, read);
    }
  }

  lemma {:induction false} FilledEnds(run: Run, w0: World, user: string, end: int, v: Flags, f: int)
    requires NeverGrantedBeyond(run, w0, user, end) && FilledSince(run, w0, user, v, f) && f > end
    ensures IsFree(v)
  {
    if read :| FilledNow(run, w0, user, v, f, read) {
      OccurredEnds(run.before, w0, user, end, read);
      DirectEnds(read, user, end, f);
    } else {
      FilledEnds(run.before, w0, user, end, v, f);
    }
  }

  /**
   Without a new grant, no lookup of the user returns plan flags later than five minutes after the end date, in any
   interleaving and whether or not a sweep or an invalidation ever ran.
   */
  lemma PlanFlagsEnd(run: Run, w0: World, user: string, end: int, e: Event)
    requires InOrder(run, e.at) && NeverGrantedBeyond(run, w0, user, end)
    requires (e.Ask? && e.user == user)
          || (e.Fill? && e.call in After(run, w0).pending && After(run, w0).pending[e.call].user == user)
    requires e.at > end + 300_000
    ensures After(Then(run, e), w0).answer.Some? ==> IsFree(After(Then(run, e), w0).answer.value)
  {
    if e.Fill? {
      PendingOccurred(run, w0, e.call);
      OccurredEnds(run, w0, user, end, After(run, w0).pending[e.call].read);
      DirectEnds(After(run, w0).pending[e.call].read, user, end, e.at);
    } else if Fresh(After(run, w0).cache, user, e.at) {
      StalenessBound(run, w0, e.call, user, e.at);
      var v := After(run, w0).cache[user].value;
      var f :| e.at - TTL_MS <= f <= e.at && FilledSince(run, w0, user, v, f);
      FilledEnds(run, w0, user, end, v, f);
    }
  }
}
