/**
 * The periodic resynchronisation rule: a new authoritative reading is
 * compared with the stored one; a drift of more than one second replaces the
 * stored reading, recomputes the deadline and either reschedules the pending
 * job or shuts the scheduler down.
 */
module Resync {
  import opened Time
  import Planner

  /** The two values the rule keeps between runs. */
  datatype State = State(currentNtp: Instant, adjusted: Instant)

  /** What a run asks of the scheduler. */
  datatype Outcome =
    | Absorbed                    // drift within one second: nothing changes
    | Rescheduled(runDate: Instant)  // the job is moved to `runDate`
    | Shutdown                    // the target has passed: the scheduler stops
    | JobGone                     // state updated, but no pending job to move

  /** Change from one value to the next, in microseconds. */
  function Drift(before: int, after: int): (d: Duration)
    ensures before + d == after
  {
    after - before
  }

  /**
   * More than one second of drift (the threshold is exclusive), in either
   * direction. As written the values are two authoritative readings; the
   * corrected rule applies it to two clock offsets.
   */
  function Drifted(before: int, after: int): (b: bool)
    ensures b <==> after > before + Second || after < before - Second
  {
    Abs(Drift(before, after)) > Second
  }

  /**
   * One run of the rule, as written: the recomputed deadline is
   * `reading + (execute - reading)`, that is the target itself, with no offset.
   */
  function Step(s: State, reading: Instant, execute: Instant, jobPending: bool): (r: (State, Outcome))
    ensures !Drifted(s.currentNtp, reading) ==> r == (s, Absorbed)
    ensures Drifted(s.currentNtp, reading) ==> r.0 == State(reading, execute)
    ensures r.1.Rescheduled? <==> Drifted(s.currentNtp, reading) && jobPending && reading < execute
    ensures r.1.Rescheduled? ==> r.1.runDate == r.0.adjusted == execute
    ensures r.1 == Shutdown <==> Drifted(s.currentNtp, reading) && jobPending && execute <= reading
    ensures r.1 == JobGone <==> Drifted(s.currentNtp, reading) && !jobPending
  {
    if !Drifted(s.currentNtp, reading) then (s, Absorbed)
    else
      var t := State(reading, reading + (execute - reading));
      var outcome :=
        if !jobPending then JobGone
        else if execute - reading > 0 then Rescheduled(t.adjusted)
        else Shutdown;
      (t, outcome)
  }

  /** Running the rule twice with the same reading changes nothing the second time. */
  lemma StepIdempotent(s: State, reading: Instant, execute: Instant, jobPending: bool)
    ensures var t := Step(s, reading, execute, jobPending).0;
      Step(t, reading, execute, jobPending) == (t, Absorbed)
  {
  }

  /**
   * The state captured by the scheduling session: the stored authoritative
   * reading and the local deadline, both replaced by `Resync`.
   */
  class SyncSession {
    const execute: Instant
    var currentNtp: Instant
    var adjusted: Instant

    /** A session starts from a plan that was scheduled. */
    constructor (ntpNow: Instant, localNow: Instant, execute: Instant)
      requires ntpNow <= execute
      ensures this.execute == execute && currentNtp == ntpNow
      ensures Planner.PlanRun(true, ntpNow, localNow, execute) == Planner.Scheduled(adjusted)
    {
      this.execute := execute;
      currentNtp := ntpNow;
      adjusted := execute - Planner.Offset(ntpNow, localNow);
    }

    function Snapshot(): (s: State)
      reads this
      ensures s.currentNtp == currentNtp && s.adjusted == adjusted
    {
      State(currentNtp, adjusted)
    }

    method Resync(reading: Instant, jobPending: bool) returns (outcome: Outcome)
      modifies this
      ensures (Snapshot(), outcome) == Step(old(Snapshot()), reading, execute, jobPending)
      ensures outcome == Absorbed ==> currentNtp == old(currentNtp) && adjusted == old(adjusted)
      ensures outcome != Absorbed ==> currentNtp == reading && adjusted == execute
    {
      var drift := reading - currentNtp;
      if Abs(drift) > Second {
        currentNtp := reading;
        adjusted := currentNtp + (execute - currentNtp);
        if !jobPending {
          outcome := JobGone;
        } else if execute - currentNtp > 0 {
          outcome := Rescheduled(adjusted);
        } else {
          outcome := Shutdown;
        }
      } else {
        outcome := Absorbed;
      }
    }
  }

  /**
   * As written, the rule loses the clock offset. Take any scheduled session
   * and any later reading that drifts while the target is still ahead: the
   * planned deadline met the target, the rescheduled one misses it by exactly
   * the offset. With the server two seconds ahead, a target 120 s after the
   * epoch and a reading one minute later, the deadline moves from local 118 s
   * to local 120 s, which is authoritative 122 s.
   */
  lemma ResyncLosesOffset(ntpNow: Instant, localNow: Instant, reading: Instant, execute: Instant)
    requires ntpNow <= execute && reading < execute && Drifted(ntpNow, reading)
    ensures var offset := Planner.Offset(ntpNow, localNow);
      var planned := Planner.PlanRun(true, ntpNow, localNow, execute);
      var r := Step(State(ntpNow, planned.adjusted), reading, execute, true);
      && Planner.AuthoritativeAt(planned.adjusted, offset) == execute
      && r.1 == Rescheduled(execute)
      && Planner.AuthoritativeAt(r.0.adjusted, offset) - execute == offset
  {
  }

  /** The corrected rule keeps the offset itself and the deadline derived from it. */
  datatype OffsetState = OffsetState(offset: Duration, adjusted: Instant)

  /**
   * The rule as evidently intended: drift is the change in the offset between
   * the authoritative and the local clock, and the deadline is the target
   * moved into the local frame by the new offset.
   */
  function CorrectedStep(s: OffsetState, reading: Instant, localNow: Instant, execute: Instant, jobPending: bool)
    : (r: (OffsetState, Outcome))
    ensures !Drifted(s.offset, Planner.Offset(reading, localNow)) ==> r == (s, Absorbed)
    ensures Drifted(s.offset, Planner.Offset(reading, localNow)) ==>
      && r.0.offset == Planner.Offset(reading, localNow)
      && Planner.AuthoritativeAt(r.0.adjusted, r.0.offset) == execute
    ensures r.1.Rescheduled? <==> Drifted(s.offset, Planner.Offset(reading, localNow)) && jobPending && reading < execute
    ensures r.1.Rescheduled? ==> r.1.runDate == r.0.adjusted && localNow < r.0.adjusted
    ensures r.1 == Shutdown <==> Drifted(s.offset, Planner.Offset(reading, localNow)) && jobPending && execute <= reading
    ensures r.1 == JobGone <==> Drifted(s.offset, Planner.Offset(reading, localNow)) && !jobPending
  {
    var offset := Planner.Offset(reading, localNow);
    if !Drifted(s.offset, offset) then (s, Absorbed)
    else
      var t := OffsetState(offset, execute - offset);
      var outcome :=
        if !jobPending then JobGone
        else if execute - reading > 0 then Rescheduled(t.adjusted)
        else Shutdown;
      (t, outcome)
  }

  /**
   * With the corrected rule, a steady clock never moves a planned deadline,
   * however much time passes between readings, and the deadline still meets
   * the target.
   */
  lemma CorrectedKeepsSteadyDeadline(ntpNow: Instant, localNow: Instant, later: Duration, execute: Instant, jobPending: bool)
    requires ntpNow <= execute
    ensures var offset := Planner.Offset(ntpNow, localNow);
      var planned := Planner.PlanRun(true, ntpNow, localNow, execute);
      var s := OffsetState(offset, planned.adjusted);
      && CorrectedStep(s, ntpNow + later, localNow + later, execute, jobPending) == (s, Absorbed)
      && Planner.AuthoritativeAt(s.adjusted, s.offset) == execute
  {
  }
}
