/**
 * Deadline planning: from an authoritative reading, a local clock reading and
 * the caller's target, decide whether the run is rejected and, if not, at
 * which local instant the job must fire.
 */
module Planner {
  import opened Time
  import opened TimeSource

  datatype Plan =
    | PreloadFailed          // the form could not be pre-loaded; nothing else happens
    | Expired                // the target lies strictly before the authoritative now
    | Scheduled(adjusted: Instant)  // fire when the local clock reads `adjusted`

  /** Signed offset of the authoritative clock against the local clock. */
  function Offset(ntpNow: Instant, localNow: Instant): (d: Duration)
    ensures localNow + d == ntpNow
  {
    ntpNow - localNow
  }

  /** The authoritative time when the local clock reads `local`, for a fixed offset. */
  function AuthoritativeAt(local: Instant, offset: Duration): (t: Instant)
    ensures t - local == offset
  {
    local + offset
  }

  /**
   * Plans one run. The form is pre-loaded first; then the authoritative now is
   * compared with the target; then the target is moved into the local frame.
   */
  function PlanRun(preloaded: bool, ntpNow: Instant, localNow: Instant, execute: Instant): (p: Plan)
    ensures p == PreloadFailed <==> !preloaded
    ensures p == Expired <==> preloaded && ntpNow > execute
    ensures p.Scheduled? <==> preloaded && ntpNow <= execute
    ensures p.Scheduled? ==> AuthoritativeAt(p.adjusted, Offset(ntpNow, localNow)) == execute
    ensures p.Scheduled? ==> p.adjusted - localNow == execute - ntpNow
    ensures p.Scheduled? ==> localNow <= p.adjusted
  {
    if !preloaded then PreloadFailed
    else if ntpNow > execute then Expired
    else Scheduled(execute - Offset(ntpNow, localNow))
  }

  /** A target equal to the authoritative now is still scheduled, to fire at once. */
  lemma TargetNowIsScheduled(ntpNow: Instant, localNow: Instant)
    ensures PlanRun(true, ntpNow, localNow, ntpNow) == Scheduled(localNow)
  {
  }

  /**
   * Degraded mode: when the time server fails, the local clock is the
   * authoritative one, the offset is zero and the local deadline is the target.
   */
  lemma DegradedModeFiresAtTarget(localNow: Instant, execute: Instant)
    ensures Offset(NtpTime(Failed, localNow), localNow) == 0
    ensures PlanRun(true, NtpTime(Failed, localNow), localNow, execute)
         == if localNow <= execute then Scheduled(execute) else Expired
  {
  }

  /**
   * A server ahead of the local clock moves the deadline earlier than the
   * target by exactly the offset; a server behind moves it later.
   */
  lemma OffsetDirection(ntpNow: Instant, localNow: Instant, execute: Instant)
    requires ntpNow <= execute
    ensures var p := PlanRun(true, ntpNow, localNow, execute);
      && p.Scheduled?
      && execute - p.adjusted == Offset(ntpNow, localNow)
      && (p.adjusted < execute <==> ntpNow > localNow)
      && (p.adjusted > execute <==> ntpNow < localNow)
  {
  }

  /** Moving the target later moves the local deadline later by the same amount. */
  lemma LaterTargetLaterDeadline(ntpNow: Instant, localNow: Instant, e1: Instant, e2: Instant)
    requires e1 <= e2
    requires PlanRun(true, ntpNow, localNow, e1).Scheduled?
    ensures PlanRun(true, ntpNow, localNow, e2).Scheduled?
    ensures PlanRun(true, ntpNow, localNow, e2).adjusted - PlanRun(true, ntpNow, localNow, e1).adjusted == e2 - e1
  {
  }
}
