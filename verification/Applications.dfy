/** The intake of applications and the moves of their status (application.service.ts). */
module Applications {
  import opened Wrappers
  import opened Traces
  import opened Jobs

  datatype Status =
    SUBMITTED | REVIEWING | SHORTLISTED | INTERVIEWED | REJECTED | OFFERED | ACCEPTED | WITHDRAWN

  datatype Job = Job(state: Availability, maxApplications: Option<int>, applyCount: int)

  datatype Application = Application(jobId: string, applicantId: string, status: Status, deleted: bool)

  datatype Error = Unauthorized | Missing | Closed | AlreadyApplied | Full | BadStatus | Forbidden

  type Applications = map<int, Application>

  datatype State = State(jobs: map<string, Job>, apps: Applications)

  function RowsOf(apps: Applications, jobId: string): set<int> {
    set id | id in apps && apps[id].jobId == jobId
  }

  /** The rows the intake check counts: not deleted and not WITHDRAWN. */
  function LiveOf(apps: Applications, jobId: string): set<int> {
    set id | id in apps && IsLive(apps[id], jobId)
  }

  predicate IsLive(app: Application, jobId: string) {
    app.jobId == jobId && !app.deleted && app.status != WITHDRAWN
  }

  /** The job's applications that are neither deleted nor WITHDRAWN, column by column. */
  function OpenApplications(apps: Applications, jobId: string): set<int> {
    set id | id in apps && apps[id].jobId == jobId && !apps[id].deleted && apps[id].status != WITHDRAWN
  }

  lemma LiveAreOpen(apps: Applications, jobId: string)
    ensures LiveOf(apps, jobId) == OpenApplications(apps, jobId)
  {
    forall id ensures id in LiveOf(apps, jobId) <==> id in OpenApplications(apps, jobId) {
    }
  }

  predicate HasApplied(apps: Applications, jobId: string, userId: string) {
    exists id :: id in apps && apps[id].jobId == jobId && apps[id].applicantId == userId
  }

  /** What an employer may set through updateStatus. */
  predicate EmployerStatus(status: Status) { status != SUBMITTED && status != WITHDRAWN }

  /**
   The calls. active: the user exists and is active; owns: the employer owns the application's job; id of a creation
   is the fresh key of the new row.
   */
  datatype Step =
    | Create(userId: string, active: bool, jobId: string, id: int, at: int)
    | UpdateStatus(id: int, owns: bool, status: Status)
    | ScheduleInterview(id: int, owns: bool)
    | Withdraw(userId: string, id: int)

  function CreateError(s: State, userId: string, active: bool, jobId: string, now: int): Option<Error> {
    if !active then Some(Unauthorized)
    else
      var state := if jobId in s.jobs then Some(s.jobs[jobId].state) else None;
      var reason := ApplicationClosedReason(state, now);
      if reason.Some? then Some(if reason == Some(NotFound) then Missing else Closed)
      else if HasApplied(s.apps, jobId, userId) then Some(AlreadyApplied)
      else
        var max := s.jobs[jobId].maxApplications;
        if max.Some? && max.value != 0 && |LiveOf(s.apps, jobId)| >= max.value then Some(Full) else None
  }

  function EmployerError(s: State, id: int, owns: bool, status: Status): Option<Error> {
    if id !in s.apps then Some(Missing)
    else if !owns then Some(Forbidden)
    else if !EmployerStatus(status) then Some(BadStatus)
    else None
  }

  function WithdrawError(s: State, userId: string, id: int): Option<Error> {
    if id !in s.apps || s.apps[id].applicantId != userId then Some(Forbidden)
    else if s.apps[id].status == WITHDRAWN then None
    else if s.apps[id].status != SUBMITTED && s.apps[id].status != REVIEWING then Some(BadStatus)
    else None
  }

  function ErrorOf(s: State, step: Step): Option<Error> {
    match step
    case Create(userId, active, jobId, _, now) => CreateError(s, userId, active, jobId, now)
    case UpdateStatus(id, owns, status) => EmployerError(s, id, owns, status)
    case ScheduleInterview(id, owns) => EmployerError(s, id, owns, INTERVIEWED)
    case Withdraw(userId, id) => WithdrawError(s, userId, id)
  }

  function SetStatus(s: State, id: int, status: Status): State
    requires id in s.apps
  {
    s.(apps := s.apps[id := s.apps[id].(status := status)])
  }

  function Apply(s: State, step: Step): State {
    if ErrorOf(s, step).Some? then s
    else
      match step
      case Create(userId, _, jobId, id, _) =>
        if id in s.apps then s
        else State(s.jobs[jobId := s.jobs[jobId].(applyCount := s.jobs[jobId].applyCount + 1)],
                   s.apps[id := Application(jobId, userId, SUBMITTED, false)])
      case UpdateStatus(id, _, status) => SetStatus(s, id, status)
      case ScheduleInterview(id, _) => SetStatus(s, id, INTERVIEWED)
      case Withdraw(_, id) => SetStatus(s, id, WITHDRAWN)
  }

  class ApplicationService {
    var jobs: map<string, Job>
    var apps: Applications

    function Value(): State
      reads this
    {
      State(jobs, apps)
    }

    method CreateApplication(userId: string, active: bool, jobId: string, id: int, now: int)
      returns (error: Option<Error>)
      requires id !in apps
      modifies this
      ensures error == ErrorOf(old(Value()), Create(userId, active, jobId, id, now))
      ensures Value() == Apply(old(Value()), Create(userId, active, jobId, id, now))
      ensures error.None? <==>
        && active && jobId in jobs && IsOpen(old(jobs)[jobId].state, now)
        && (forall i :: i in old(apps) && old(apps)[i].jobId == jobId ==> old(apps)[i].applicantId != userId)
        && var max := old(jobs)[jobId].maxApplications;
           max.None? || max.value == 0 || |OpenApplications(old(apps), jobId)| < max.value
      ensures error == Some(Unauthorized) <==> !active
      ensures error == Some(Missing) <==> active && (jobId !in old(jobs) || old(jobs)[jobId].state.deletedAt.Some?)
      ensures error == Some(Closed) <==>
        && active && jobId in old(jobs) && old(jobs)[jobId].state.deletedAt.None?
        && !IsOpen(old(jobs)[jobId].state, now)
      ensures error == Some(AlreadyApplied) <==>
        && active && jobId in old(jobs) && IsOpen(old(jobs)[jobId].state, now)
        && exists i :: i in old(apps) && old(apps)[i].jobId == jobId && old(apps)[i].applicantId == userId
      ensures error.Some? ==> apps == old(apps) && jobs == old(jobs)
      ensures error.None? ==>
        && apps == old(apps)[id := Application(jobId, userId, SUBMITTED, false)]
        && jobs == old(jobs)[jobId := old(jobs)[jobId].(applyCount := old(jobs)[jobId].applyCount + 1)]
    {
      if !active {
        return Some(Unauthorized);
      }
      var closedReason := ApplicationClosedReason(if jobId in jobs then Some(jobs[jobId].state) else None, now);
      if closedReason.Some? {
        return Some(if closedReason.value == NotFound then Missing else Closed);
      }
      var job := jobs[jobId];
      if HasApplied(apps, jobId, userId) {
        return Some(AlreadyApplied);
      }
      LiveAreOpen(apps, jobId);
      if job.maxApplications.Some? && job.maxApplications.value != 0 {
        var applicationCount := |LiveOf(apps, jobId)|;
        if applicationCount >= job.maxApplications.value {
          return Some(Full);
        }
      }
      apps := apps[id := Application(jobId, userId, SUBMITTED, false)];
      jobs := jobs[jobId := job.(applyCount := job.applyCount + 1)];
      return None;
    }

    method ChangeStatus(id: int, owns: bool, status: Status) returns (error: Option<Error>)
      modifies this
      ensures error == ErrorOf(old(Value()), UpdateStatus(id, owns, status))
      ensures Value() == Apply(old(Value()), UpdateStatus(id, owns, status))
      ensures error.None? <==>
        && id in old(apps) && owns
        && status in {REVIEWING, SHORTLISTED, INTERVIEWED, REJECTED, OFFERED, ACCEPTED}
      ensures error == Some(Missing) <==> id !in old(apps)
      ensures error == Some(Forbidden) <==> id in old(apps) && !owns
      ensures jobs == old(jobs)
      ensures apps == if error.None? then old(apps)[id := old(apps)[id].(status := status)] else old(apps)
    {
      if id !in apps {
        return Some(Missing);
      }
      if !owns {
        return Some(Forbidden);
      }
      if !EmployerStatus(status) {
        return Some(BadStatus);
      }
      apps := apps[id := apps[id].(status := status)];
      return None;
    }

    method Schedule(id: int, owns: bool) returns (error: Option<Error>)
      modifies this
      ensures error == ErrorOf(old(Value()), ScheduleInterview(id, owns))
      ensures Value() == Apply(old(Value()), ScheduleInterview(id, owns))
      ensures error.None? <==> id in old(apps) && owns
      ensures error == Some(Missing) <==> id !in old(apps)
      ensures error == Some(Forbidden) <==> id in old(apps) && !owns
      ensures jobs == old(jobs)
      ensures apps == if error.None? then old(apps)[id := old(apps)[id].(status := INTERVIEWED)] else old(apps)
    {
      if id !in apps {
        return Some(Missing);
      }
      if !owns {
        return Some(Forbidden);
      }
      apps := apps[id := apps[id].(status := INTERVIEWED)];
      return None;
    }

    method WithdrawApplication(userId: string, id: int) returns (error: Option<Error>)
      modifies this
      ensures error == ErrorOf(old(Value()), Withdraw(userId, id))
      ensures Value() == Apply(old(Value()), Withdraw(userId, id))
      ensures error.None? <==>
        && id in old(apps) && old(apps)[id].applicantId == userId
        && old(apps)[id].status in {SUBMITTED, REVIEWING, WITHDRAWN}
      ensures error == Some(Forbidden) <==> id !in old(apps) || old(apps)[id].applicantId != userId
      ensures jobs == old(jobs)
      ensures apps == if error.None? then old(apps)[id := old(apps)[id].(status := WITHDRAWN)] else old(apps)
    {
      if id !in apps || apps[id].applicantId != userId {
        return Some(Forbidden);
      }
      if apps[id].status == WITHDRAWN {
        assert apps[id := apps[id].(status := WITHDRAWN)] == apps;
        return None;
      }
      if apps[id].status != SUBMITTED && apps[id].status != REVIEWING {
        return Some(BadStatus);
      }
      apps := apps[id := apps[id].(status := WITHDRAWN)];
      return None;
    }
  }

  /* ---- whole runs ---- */

  type Run = Trace<Step>

  function After(run: Run, s0: State): State {
    if run.Start? then s0 else Apply(After(run.before, s0), run.event)
  }

  ghost predicate UniqueApplicants(apps: Applications) {
    forall i, j | i in apps && j in apps && apps[i].jobId == apps[j].jobId && apps[i].applicantId == apps[j].applicantId
      :: i == j
  }

  /** An employer moves an application out of WITHDRAWN. */
  predicate Revives(s: State, step: Step, jobId: string) {
    && (step.UpdateStatus? || step.ScheduleInterview?)
    && ErrorOf(s, step).None?
    && s.apps[step.id].jobId == jobId && s.apps[step.id].status == WITHDRAWN && !s.apps[step.id].deleted
  }

  lemma RowsAfter(s: State, step: Step, jobId: string)
    requires jobId in s.jobs
    ensures jobId in Apply(s, step).jobs
    ensures Apply(s, step).jobs[jobId].applyCount - |RowsOf(Apply(s, step).apps, jobId)|
         == s.jobs[jobId].applyCount - |RowsOf(s.apps, jobId)|
    ensures Apply(s, step).jobs[jobId].maxApplications == s.jobs[jobId].maxApplications
  {
    var t := Apply(s, step);
    if step.Create? && step.id in t.apps && step.id !in s.apps && step.jobId == jobId {
      assert RowsOf(t.apps, jobId) == RowsOf(s.apps, jobId) + {step.id};
    } else {
      assert RowsOf(t.apps, jobId) == RowsOf(s.apps, jobId);
    }
  }

  lemma UniqueAfter(s: State, step: Step)
    requires UniqueApplicants(s.apps)
    ensures UniqueApplicants(Apply(s, step).apps)
  {
    hide ApplicationClosedReason;
  }

  lemma LiveUpdate(apps: Applications, id: int, app: Application, jobId: string)
    ensures |LiveOf(apps[id := app], jobId)|
         == |LiveOf(apps, jobId)|
            + (if IsLive(app, jobId) then 1 else 0) - (if id in apps && IsLive(apps[id], jobId) then 1 else 0)
  {
    hide IsLive;
    var was, now := LiveOf(apps, jobId), LiveOf(apps[id := app], jobId);
    assert now == if IsLive(app, jobId) then was + {id} else was - {id};
  }

  /** A job's live count grows only by an accepted creation or by an employer reviving a withdrawn application. */
  lemma LiveAfter(s: State, step: Step, jobId: string)
    ensures |LiveOf(Apply(s, step).apps, jobId)| <= |LiveOf(s.apps, jobId)| + 1
    ensures Revives(s, step, jobId) ==> |LiveOf(Apply(s, step).apps, jobId)| == |LiveOf(s.apps, jobId)| + 1
    ensures !Revives(s, step, jobId) && !(step.Create? && step.jobId == jobId && ErrorOf(s, step).None?) ==>
              |LiveOf(Apply(s, step).apps, jobId)| <= |LiveOf(s.apps, jobId)|
  {
    hide LiveOf, CreateError;
    if ErrorOf(s, step).None? {
      match step
      case Create(userId, _, job, id, _) => LiveUpdate(s.apps, id, Application(job, userId, SUBMITTED, false), jobId);
      case UpdateStatus(id, _, status) => LiveUpdate(s.apps, id, s.apps[id].(status := status), jobId);
      case ScheduleInterview(id, _) => LiveUpdate(s.apps, id, s.apps[id].(status := INTERVIEWED), jobId);
      case Withdraw(_, id) => LiveUpdate(s.apps, id, s.apps[id].(status := WITHDRAWN), jobId);
    }
  }

  /**
   A cap that holds is broken by a step exactly when the job is full and an employer revives a withdrawn application.
   */
  lemma CapBrokenIff(s: State, step: Step, jobId: string)
    requires jobId in s.jobs && s.jobs[jobId].maxApplications.Some? && s.jobs[jobId].maxApplications.value != 0
    requires |LiveOf(s.apps, jobId)| <= s.jobs[jobId].maxApplications.value
    ensures |LiveOf(Apply(s, step).apps, jobId)| > s.jobs[jobId].maxApplications.value
       <==> |LiveOf(s.apps, jobId)| == s.jobs[jobId].maxApplications.value && Revives(s, step, jobId)
  {
    LiveAfter(s, step, jobId);
    hide Apply, LiveOf;
  }

  predicate NoRevival(run: Run, s0: State, jobId: string) {
    run.Then? ==> NoRevival(run.before, s0, jobId) && !Revives(After(run.before, s0), run.event, jobId)
  }

  /**
   Over every serial run applyCount grows by exactly the rows created for the job, a user applies at most once per
   job, and a nonzero cap holds as long as employers do not revive withdrawn applications of the job.
   */
  lemma {:induction false} IntakeAccount(run: Run, s0: State, jobId: string)
    requires jobId in s0.jobs && UniqueApplicants(s0.apps)
    ensures var s := After(run, s0);
      && jobId in s.jobs && UniqueApplicants(s.apps)
      && s.jobs[jobId].applyCount - s0.jobs[jobId].applyCount == |RowsOf(s.apps, jobId)| - |RowsOf(s0.apps, jobId)|
      && s.jobs[jobId].maxApplications == s0.jobs[jobId].maxApplications
    ensures var max := s0.jobs[jobId].maxApplications;
      max.Some? && max.value != 0 && |LiveOf(s0.apps, jobId)| <= max.value && NoRevival(run, s0, jobId) ==>
        |LiveOf(After(run, s0).apps, jobId)| <= max.value
  {
    if run.Then? {
      IntakeAccount(run.before, s0, jobId);
      var s := After(run.before, s0);
      RowsAfter(s, run.event, jobId);
      UniqueAfter(s, run.event);
      var max := s0.jobs[jobId].maxApplications;
      if max.Some? && max.value != 0 && |LiveOf(s.apps, jobId)| <= max.value {
        CapBrokenIff(s, run.event, jobId);
      }
      hide Apply, LiveOf, RowsOf, UniqueApplicants, Revives;
    }
  }
}
