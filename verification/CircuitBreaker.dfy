/** The circuit breaker around outgoing calls (circuitBreaker.ts). */
module CircuitBreakers {
  import opened Traces

  datatype Mode = CLOSED | OPEN | HALF_OPEN

  datatype Limits = Limits(threshold: int, cooldown: int)

  /** The three mutable fields. */
  datatype Fields = Fields(mode: Mode, failureCount: int, nextAttemptTime: int)

  /** What a call does to the breaker: it starts, and much later it succeeds or fails. */
  datatype Event = Begin(at: int) | Succeed(at: int) | Fail(at: int)

  predicate Admits(b: Fields, now: int) { b.mode == OPEN ==> now > b.nextAttemptTime }

  function Apply(b: Fields, limits: Limits, e: Event): Fields {
    match e
    case Begin(now) => if b.mode == OPEN && now > b.nextAttemptTime then b.(mode := HALF_OPEN) else b
    case Succeed(_) => Fields(if b.mode == HALF_OPEN then CLOSED else b.mode, 0, b.nextAttemptTime)
    case Fail(now) =>
      if b.mode == OPEN then b
      else if b.failureCount + 1 >= limits.threshold then Fields(OPEN, b.failureCount + 1, now + limits.cooldown)
      else b.(failureCount := b.failureCount + 1)
  }

  /** One call from start to end with nothing in between. */
  datatype Call = Call(start: int, finish: int, ok: bool)

  function Perform(b: Fields, limits: Limits, c: Call): Fields {
    if Admits(b, c.start)
    then Apply(Apply(b, limits, Begin(c.start)), limits, if c.ok then Succeed(c.finish) else Fail(c.finish))
    else b
  }

  const INITIAL := Fields(CLOSED, 0, 0)

  class CircuitBreaker {
    var mode: Mode
    var failureCount: int
    var nextAttemptTime: int
    const limits: Limits

    constructor (failureThreshold: int, cooldownPeriodMs: int)
      ensures Value() == INITIAL && limits == Limits(failureThreshold, cooldownPeriodMs)
    {
      mode, failureCount, nextAttemptTime := CLOSED, 0, 0;
      limits := Limits(failureThreshold, cooldownPeriodMs);
    }

    function Value(): Fields
      reads this
    {
      Fields(mode, failureCount, nextAttemptTime)
    }

    /** The part of execute before the call: false when the request is blocked. */
    method Enter(now: int) returns (admitted: bool)
      modifies this
      ensures admitted == Admits(old(Value()), now)
      ensures Value() == Apply(old(Value()), limits, Begin(now))
      ensures admitted <==> old(mode) != OPEN || now > old(nextAttemptTime)
      ensures mode == (if old(mode) == OPEN && admitted then HALF_OPEN else old(mode))
      ensures failureCount == old(failureCount) && nextAttemptTime == old(nextAttemptTime)
    {
      if mode == OPEN {
        if now > nextAttemptTime {
          mode := HALF_OPEN;
        } else {
          return false;
        }
      }
      return true;
    }

    /** The part of execute after the call returned or threw. */
    method Leave(ok: bool, now: int)
      modifies this
      ensures Value() == Apply(old(Value()), limits, if ok then Succeed(now) else Fail(now))
      ensures ok ==> failureCount == 0 && mode == (if old(mode) == OPEN then OPEN else CLOSED)
      ensures !ok ==> failureCount == old(failureCount) + (if old(mode) == OPEN then 0 else 1)
      ensures !ok ==> (mode == OPEN <==> old(mode) == OPEN || old(failureCount) + 1 >= limits.threshold)
      ensures !ok && mode != OPEN ==> mode == old(mode)
      ensures var tripped := old(mode) != OPEN && mode == OPEN;
        nextAttemptTime == if tripped then now + limits.cooldown else old(nextAttemptTime)
    {
      if ok {
        if mode == HALF_OPEN {
          mode := CLOSED;
        }
        failureCount := 0;
      } else {
        if mode == CLOSED || mode == HALF_OPEN {
          failureCount := failureCount + 1;
          if failureCount >= limits.threshold {
            mode := OPEN;
            nextAttemptTime := now + limits.cooldown;
          }
        }
      }
    }

    /** execute when no other call is in flight. */
    method Execute(call: Call) returns (admitted: bool)
      modifies this
      ensures admitted == Admits(old(Value()), call.start)
      ensures Value() == Perform(old(Value()), limits, call)
    {
      admitted := Enter(call.start);
      if admitted {
        Leave(call.ok, call.finish);
      }
    }
  }

  /* ---- any number of calls in flight ---- */

  type Run = Trace<Event>

  function After(run: Run, limits: Limits): Fields {
    if run.Start? then INITIAL else Apply(After(run.before, limits), limits, run.event)
  }

  predicate InOrder(run: Run, now: int) {
    run.Then? ==> run.event.at <= now && InOrder(run.before, run.event.at)
  }

  predicate IsPrefix(p: Run, run: Run) {
    p == run || (run.Then? && IsPrefix(p, run.before))
  }

  /** p is a moment at which a failure reported at s opens the breaker. */
  predicate OpensAt(p: Run, limits: Limits, s: int) {
    After(p, limits).mode != OPEN && After(Then(p, Fail(s)), limits).mode == OPEN
  }

  /**
   However calls and late completions interleave after the breaker opened at s, no request is admitted
   up to and including s + cooldown.
   */
  lemma {:induction false} NoAdmissionDuringCooldown(p: Run, s: int, run: Run, limits: Limits, now: int)
    requires OpensAt(p, limits, s)
    requires IsPrefix(Then(p, Fail(s)), run) && InOrder(run, now)
    requires now <= s + limits.cooldown
    ensures After(run, limits).mode == OPEN && After(run, limits).nextAttemptTime == s + limits.cooldown
    ensures !Admits(After(run, limits), now)
  {
    if run != Then(p, Fail(s)) {
      NoAdmissionDuringCooldown(p, s, run.before, limits, run.event.at);
    }
  }

  /** Conversely the first request after the cooldown is admitted, as a probe. */
  lemma {:induction false} AdmissionAfterCooldown(p: Run, s: int, run: Run, limits: Limits, now: int)
    requires OpensAt(p, limits, s)
    requires IsPrefix(Then(p, Fail(s)), run) && InOrder(run, s + limits.cooldown)
    ensures Admits(After(run, limits), now) <==> now > s + limits.cooldown
    ensures Admits(After(run, limits), now) ==> After(Then(run, Begin(now)), limits).mode == HALF_OPEN
  {
    NoAdmissionDuringCooldown(p, s, run, limits, s + limits.cooldown);
  }

  /** OPEN is left only by a request that starts after the cooldown; completions never leave it. */
  lemma OpenIsLeftOnlyByARequest(b: Fields, limits: Limits, e: Event)
    requires b.mode == OPEN
    ensures Apply(b, limits, e).mode != OPEN <==> e.Begin? && Admits(b, e.at)
    ensures !e.Begin? ==> Apply(b, limits, e).nextAttemptTime == b.nextAttemptTime
  {
  }

  lemma {:induction false} ClosedInv(run: Run, limits: Limits)
    requires limits.threshold >= 1
    ensures After(run, limits).failureCount >= 0
    ensures After(run, limits).mode == CLOSED ==> After(run, limits).failureCount < limits.threshold
  {
    if run.Then? {
      ClosedInv(run.before, limits);
    }
  }

  /** CLOSED means fewer failures than the threshold in every interleaving, exactly when the threshold is positive. */
  lemma ClosedMeansBelowThreshold(limits: Limits)
    ensures (forall run: Run | After(run, limits).mode == CLOSED :: After(run, limits).failureCount < limits.threshold)
       <==> limits.threshold >= 1
  {
    if limits.threshold >= 1 {
      forall run: Run ensures After(run, limits).mode == CLOSED ==> After(run, limits).failureCount < limits.threshold {
        ClosedInv(run, limits);
      }
    } else {
      assert After(Start, limits) == INITIAL;
    }
  }

  /* ---- the probe of a half-open breaker ---- */

  /** A success has landed while the breaker was open, since it last opened. */
  predicate LateSuccess(run: Run, limits: Limits) {
    run.Then? &&
    if run.event.Fail? && OpensAt(run.before, limits, run.event.at) then false
    else
      || (run.event.Succeed? && After(run.before, limits).mode == OPEN)
      || LateSuccess(run.before, limits)
  }

  /** The failures that counted since the last success: those reported while the breaker was not open. */
  function FailuresSinceSuccess(run: Run, limits: Limits): nat {
    if run.Start? || run.event.Succeed? then 0
    else
      FailuresSinceSuccess(run.before, limits)
      + if run.event.Fail? && After(run.before, limits).mode != OPEN then 1 else 0
  }

  lemma {:induction false} CountsFailures(run: Run, limits: Limits)
    ensures After(run, limits).failureCount == FailuresSinceSuccess(run, limits)
    ensures After(run, limits).mode != CLOSED && !LateSuccess(run, limits) ==>
              After(run, limits).failureCount >= limits.threshold
  {
    if run.Then? {
      CountsFailures(run.before, limits);
    }
  }

  /**
   In every interleaving and for every threshold: a failing probe opens the half-open breaker again if and only if no
   success of an earlier call has landed since the breaker opened, or enough failures have been counted since then.
   */
  lemma ProbeReopensIff(run: Run, limits: Limits, t: int)
    requires After(run, limits).mode == HALF_OPEN
    ensures After(Then(run, Fail(t)), limits).mode == OPEN
       <==> !LateSuccess(run, limits) || FailuresSinceSuccess(run, limits) + 1 >= limits.threshold
  {
    CountsFailures(run, limits);
    hide LateSuccess, FailuresSinceSuccess;
  }

  /* ---- one call at a time ---- */

  type History = Trace<Call>

  function AfterCalls(h: History, limits: Limits): Fields {
    if h.Start? then INITIAL else Perform(AfterCalls(h.before, limits), limits, h.event)
  }

  /** The rule a reader expects: too many failures in a row, the last one not longer than the cooldown ago. */
  predicate Rejects(h: History, limits: Limits, t: int)
    decreases h, 1
  {
    Failures(h, limits) >= limits.threshold && t <= LastFailure(h, limits) + limits.cooldown
  }

  /** Failures in a row since the last success, among the calls that were let through. */
  function Failures(h: History, limits: Limits): nat
    decreases h, 0
  {
    if h.Start? then 0
    else if Rejects(h.before, limits, h.event.start) then Failures(h.before, limits)
    else if h.event.ok then 0
    else Failures(h.before, limits) + 1
  }

  function LastFailure(h: History, limits: Limits): int
    decreases h, 0
  {
    if h.Start? then 0
    else if Rejects(h.before, limits, h.event.start) || h.event.ok then LastFailure(h.before, limits)
    else h.event.finish
  }

  /** Without overlap the breaker is exactly that rule, and a failed probe always opens it again. */
  lemma {:induction false} SequentialRefinement(h: History, limits: Limits, t: int)
    requires limits.threshold >= 1
    ensures AfterCalls(h, limits).failureCount == Failures(h, limits)
    ensures AfterCalls(h, limits).mode == (if Failures(h, limits) >= limits.threshold then OPEN else CLOSED)
    ensures AfterCalls(h, limits).mode == OPEN ==>
              AfterCalls(h, limits).nextAttemptTime == LastFailure(h, limits) + limits.cooldown
    ensures Admits(AfterCalls(h, limits), t) <==> !Rejects(h, limits, t)
  {
    if h.Then? {
      SequentialRefinement(h.before, limits, h.event.start);
    }
  }

  /** An example with threshold 2: the probe fails, and the breaker stays half-open. */
  lemma LateSuccessWeakensProbe(limits: Limits)
    requires limits.threshold == 2 && limits.cooldown == 30000
    ensures var tripped := Then(Then(Then(Then(Then(Start, Begin(0)), Begin(0)), Begin(0)), Fail(1)), Fail(2));
            var probed := Then(Then(tripped, Succeed(3)), Begin(40000));
      && After(tripped, limits).mode == OPEN
      && After(probed, limits).mode == HALF_OPEN
      && After(Then(probed, Fail(40001)), limits).mode == HALF_OPEN
  {
    var begun: Run := Then(Then(Then(Start, Begin(0)), Begin(0)), Begin(0));
    assert After(begun, limits) == INITIAL;
    var tripped := Then(Then(begun, Fail(1)), Fail(2));
    assert After(tripped, limits) == Fields(OPEN, 2, 30002);
    var probed := Then(Then(tripped, Succeed(3)), Begin(40000));
    assert After(probed, limits) == Fields(HALF_OPEN, 0, 30002);
  }
}
