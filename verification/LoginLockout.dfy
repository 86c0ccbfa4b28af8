/** The lockout counters of login (auth.service.ts). */
module LoginLockout {
  import opened Wrappers
  import opened Traces

  const LOCK_MS := 15 * 60 * 1000
  const MAX_FAILURES := 5

  datatype Counters = Counters(failedLoginAttempts: nat, lockedUntil: Option<int>)

  datatype Outcome = TooManyRequests | InvalidCredentials | PasswordAccepted

  /** A login of an active user; matches is what the password comparison says if it is reached. */
  datatype Login = Login(at: int, matches: bool)

  predicate IsLocked(c: Counters, now: int) { c.lockedUntil.Some? && c.lockedUntil.value > now }

  function Attempt(c: Counters, l: Login): (Counters, Outcome) {
    if IsLocked(c, l.at) then (c, TooManyRequests)
    else if l.matches then (Counters(0, None), PasswordAccepted)
    else
      var count := c.failedLoginAttempts + 1;
      (Counters(count, if count >= MAX_FAILURES then Some(l.at + LOCK_MS) else None), InvalidCredentials)
  }

  class UserRow {
    var failedLoginAttempts: nat
    var lockedUntil: Option<int>

    function Value(): Counters
      reads this
    {
      Counters(failedLoginAttempts, lockedUntil)
    }

    method LogIn(passwordMatches: bool, now: int) returns (outcome: Outcome)
      modifies this
      ensures (Value(), outcome) == Attempt(old(Value()), Login(now, passwordMatches))
      ensures outcome == TooManyRequests <==> old(lockedUntil).Some? && now < old(lockedUntil).value
      ensures outcome == TooManyRequests ==> Value() == old(Value())
      ensures outcome != TooManyRequests ==> (outcome == PasswordAccepted <==> passwordMatches)
      ensures outcome == PasswordAccepted ==> failedLoginAttempts == 0 && lockedUntil == None
      ensures outcome == InvalidCredentials ==>
        && failedLoginAttempts == old(failedLoginAttempts) + 1
        && lockedUntil == if failedLoginAttempts >= 5 then Some(now + 900_000) else None
    {
      if lockedUntil.Some? && lockedUntil.value > now {
        return TooManyRequests;
      }
      if !passwordMatches {
        var newFailCount := failedLoginAttempts + 1;
        var shouldLock := newFailCount >= 5;
        failedLoginAttempts := newFailCount;
        lockedUntil := if shouldLock then Some(now + 15 * 60 * 1000) else None;
        return InvalidCredentials;
      }
      if failedLoginAttempts > 0 || lockedUntil.Some? {
        failedLoginAttempts, lockedUntil := 0, None;
      }
      return PasswordAccepted;
    }
  }

  type Run = Trace<Login>

  const CLEAR := Counters(0, None)

  function After(run: Run): Counters {
    if run.Start? then CLEAR else Attempt(After(run.before), run.event).0
  }

  function OutcomeOf(run: Run): Outcome
    requires run.Then?
  {
    Attempt(After(run.before), run.event).1
  }

  /** The logins happen in order, from t0 to now. */
  predicate Within(run: Run, t0: int, now: int) {
    t0 <= now && (run.Then? ==> run.event.at <= now && Within(run.before, t0, run.event.at))
  }

  predicate NoSuccess(run: Run) {
    run.Then? ==> OutcomeOf(run) != PasswordAccepted && NoSuccess(run.before)
  }

  /** How many wrong passwords reached the comparison. */
  function Compared(run: Run): nat {
    if run.Start? then 0 else Compared(run.before) + if OutcomeOf(run) == InvalidCredentials then 1 else 0
  }

  /** In every run the account carries a lock time exactly when five or more failures are counted. */
  lemma {:induction false} LockedExactlyFromFive(run: Run)
    ensures After(run).lockedUntil.Some? <==> After(run).failedLoginAttempts >= MAX_FAILURES
  {
    if run.Then? {
      LockedExactlyFromFive(run.before);
    }
  }

  /** From the fifth wrong password on, each one moves the end of the lock at least 15 minutes. */
  lemma {:induction false} LockGrows(run: Run, t0: int, now: int)
    requires NoSuccess(run) && Within(run, t0, now)
    ensures After(run).failedLoginAttempts == Compared(run)
    ensures Compared(run) < MAX_FAILURES ==> After(run).lockedUntil == None
    ensures Compared(run) >= MAX_FAILURES ==>
              && After(run).lockedUntil.Some?
              && t0 + (Compared(run) - 4) * LOCK_MS <= After(run).lockedUntil.value <= now + LOCK_MS
  {
    if run.Then? {
      LockGrows(run.before, t0, run.event.at);
    }
  }

  /** Without a successful login at most 5 + floor((now - t0) / 15 min) wrong passwords are compared by now. */
  lemma AtMostFivePlusOnePerLock(run: Run, t0: int, now: int)
    requires NoSuccess(run) && Within(run, t0, now)
    ensures Compared(run) <= 5 + (now - t0) / 900_000
  {
    LockGrows(run, t0, now);
  }

  /** Five wrong passwords at t0, then one each time the lock ends. */
  function Persistent(t0: int, k: nat): Run {
    if k < MAX_FAILURES then (if k == 0 then Start else Then(Persistent(t0, k - 1), Login(t0, false)))
    else Then(Persistent(t0, k - 1), Login(t0 + (k - 5) * LOCK_MS, false))
  }

  /** The bound is reached, so it cannot be lowered. */
  lemma {:induction false} BoundIsReached(t0: int, k: nat)
    ensures var run, now := Persistent(t0, k), if k < MAX_FAILURES then t0 else t0 + (k - 5) * LOCK_MS;
      && NoSuccess(run) && Within(run, t0, now) && Compared(run) == k
      && After(run) == Counters(k, if k < MAX_FAILURES then None else Some(now + LOCK_MS))
  {
    if k > 0 {
      BoundIsReached(t0, k - 1);
      if k > MAX_FAILURES {
        assert t0 + (k - 1 - 5) * LOCK_MS + LOCK_MS == t0 + (k - 5) * LOCK_MS;
      }
    }
  }
}
