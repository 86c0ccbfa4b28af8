/** When a job is open: for the public listing (job.service.ts) and for applicants (application.service.ts). */
module Jobs {
  import opened Wrappers

  /** The columns both checks look at. */
  datatype Availability = Availability(
    status: string,
    deletedAt: Option<int>,
    applicationDeadline: Option<int>,
    expiresAt: Option<int>)

  datatype Reason = NotFound | NotAccepting | DeadlinePassed | Expired

  /** getPublicJobUnavailableReason. */
  function PublicJobUnavailableReason(job: Availability, now: int): Option<Reason> {
    if job.deletedAt.Some? then Some(NotFound)
    else if job.status != "ACTIVE" then Some(NotFound)
    else if job.applicationDeadline.Some? && job.applicationDeadline.value <= now then Some(DeadlinePassed)
    else if job.expiresAt.Some? && job.expiresAt.value <= now then Some(Expired)
    else None
  }

  /** getApplicationClosedReason; None is a job that was not found. */
  function ApplicationClosedReason(job: Option<Availability>, now: int): Option<Reason> {
    if job.None? || job.value.deletedAt.Some? then Some(NotFound)
    else if job.value.status != "ACTIVE" then Some(NotAccepting)
    else if job.value.applicationDeadline.Some? && job.value.applicationDeadline.value <= now then Some(DeadlinePassed)
    else if job.value.expiresAt.Some? && job.value.expiresAt.value <= now then Some(Expired)
    else None
  }

  predicate IsOpen(job: Availability, now: int) {
    && job.deletedAt.None?
    && job.status == "ACTIVE"
    && (job.applicationDeadline.Some? ==> now < job.applicationDeadline.value)
    && (job.expiresAt.Some? ==> now < job.expiresAt.value)
  }

  /** Both checks let through exactly the open jobs, so what the public sees can be applied for. */
  lemma BothChecksAgree(job: Availability, now: int)
    ensures PublicJobUnavailableReason(job, now) == None <==> IsOpen(job, now)
    ensures ApplicationClosedReason(Some(job), now) == None <==> IsOpen(job, now)
  {
  }

  /** Why a job is refused: gone or hidden before a deadline that has passed, and that before its expiry. */
  lemma ReasonsInOrder(job: Availability, now: int)
    ensures var late := job.applicationDeadline.Some? && job.applicationDeadline.value <= now;
      var over := job.expiresAt.Some? && job.expiresAt.value <= now;
      var gone, active := job.deletedAt.Some?, job.status == "ACTIVE";
      && (PublicJobUnavailableReason(job, now) == Some(NotFound) <==> gone || !active)
      && (PublicJobUnavailableReason(job, now) == Some(DeadlinePassed) <==> !gone && active && late)
      && (PublicJobUnavailableReason(job, now) == Some(Expired) <==> !gone && active && !late && over)
      && (ApplicationClosedReason(Some(job), now) == Some(NotFound) <==> gone)
      && (ApplicationClosedReason(Some(job), now) == Some(NotAccepting) <==> !gone && !active)
      && (ApplicationClosedReason(Some(job), now) == Some(DeadlinePassed) <==> !gone && active && late)
      && (ApplicationClosedReason(Some(job), now) == Some(Expired) <==> !gone && active && !late && over)
      && ApplicationClosedReason(None, now) == Some(NotFound)
  {
  }
}
