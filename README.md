# auto_apply timing core, in Dafny

`auto_apply` submits a leave-application web form at a chosen instant. The
local clock may be off from the clock the form's server goes by, so the
program reads an authoritative time from an NTP server. It rejects a target
that has already passed. Otherwise it moves the target into the local clock's
frame and schedules one job at that local deadline. A resync rule, written
but never registered, compares a later NTP reading with the stored one. The
target URL is built from the configured base URL and the application fields.

This project models that logic on exact integer time: instants and durations
are microseconds (`Time.Instant`, `Time.Duration`). The modules are:

- `TimeSource`: which NTP server is asked, and the reading, with the fallback
  to the local clock when the query fails.
- `Planner`: the pre-load check, the expiry check and the local deadline
  (`PlanRun`).
- `Resync`: the drift rule as a pure step function (`Step`) and as the class
  `SyncSession`. The class holds the two values the rule updates in place:
  the stored reading and the deadline.
- `Query`: the target URL. For fields whose keys hold no `&` or `=` and
  whose values hold no `&`, a reference parser (`Split`, `Cut`, `ParseQuery`)
  recovers the fields from it.
- `Cli`: the check that the remote driver's URL and port come together, and
  the endpoint built from them.

Behaviours of the program that the model keeps as they are:

- A target equal to the authoritative now is scheduled (strict `>` at
  src/auto_apply.py:257).
- The resync rule compares two raw NTP readings and resets the deadline to the
  target with no offset (src/auto_apply.py:306-310). `SyncSession` keeps this
  behaviour as written, because the job is never registered. The corrected
  rule is `CorrectedStep` (see Findings).
- The program schedules a single job (src/auto_apply.py:296-300).

## Model

| member | source | states |
|---|---|---|
| `Time.Abs` | src/auto_apply.py:308 | the magnitude of a drift is non-negative and equals the drift or its negation |
| `TimeSource.ServerAddress` | src/auto_apply.py:224-227 | a present, non-empty argument (Python truthiness, `Given`) is the server; a None or empty argument gives `pool.ntp.org`; the address is never empty |
| `TimeSource.NtpTime` | src/auto_apply.py:222-233 | a reply gives the server's transmit time; a failed query gives the local clock reading |
| `Planner.Offset` | src/auto_apply.py:288-290 | the signed offset, added to the local reading, gives the authoritative reading |
| `Planner.PlanRun` | src/auto_apply.py:243-293 | a failed pre-load aborts; otherwise the result is Expired exactly when the authoritative now is strictly after the target. When scheduled, the authoritative time at the local deadline is the target, the wait in the local frame equals the time left in the authoritative frame, and the deadline is not before the local now |
| `Planner.TargetNowIsScheduled` | src/auto_apply.py:256-259 | a target equal to the authoritative now is scheduled, to fire at the local now |
| `Planner.DegradedModeFiresAtTarget` | src/auto_apply.py:230-293 | after a failed time query the offset is zero; the deadline is the target itself, or Expired if the target is past |
| `Planner.OffsetDirection` | src/auto_apply.py:288-293 | the deadline is earlier than the target by exactly the offset: earlier iff the server is ahead, later iff it is behind |
| `Planner.LaterTargetLaterDeadline` | src/auto_apply.py:256-293 | a later target is still scheduled, and its deadline is later by the same amount |
| `Resync.Drift` | src/auto_apply.py:305-306 | the drift, added to the stored reading, gives the new reading |
| `Resync.Drifted` | src/auto_apply.py:308 | drift exceeds the threshold iff the new value is more than one second above or below the old one (exclusive, as `abs(time_drift) > 1`) |
| `Resync.Step` | src/auto_apply.py:303-323 | drift of at most one second changes nothing. Larger drift stores the new reading and sets the deadline to the target. The job is rescheduled to the target iff it is pending and the target is still ahead. It shuts down iff the job is pending and the target has passed. Otherwise only the state changes |
| `Resync.StepIdempotent` | src/auto_apply.py:306-310 | a second run with the same reading is absorbed and leaves the state unchanged |
| `Resync.SyncSession.constructor` | src/auto_apply.py:251-293 | a session starts from a scheduled plan: the stored reading is the authoritative now and the deadline is `PlanRun`'s |
| `Resync.SyncSession.Resync` | src/auto_apply.py:303-323 | the new state and the outcome are those of `Step`; an absorbed run leaves both fields unchanged, any other stores the reading and sets the deadline to the target |
| `Resync.ResyncLosesOffset` | src/auto_apply.py:306-310 | as written: for every scheduled session and every drifted reading taken while the target is still ahead, the planned deadline met the target and the rescheduled one misses it by exactly the clock offset (2 s late with the server 2 s ahead) |
| `Resync.CorrectedStep` | src/auto_apply.py:302-323 | corrected rule: drift is the change in offset; after a drift the authoritative time at the new deadline is the target; reschedule and shutdown conditions as in `Step` |
| `Resync.CorrectedKeepsSteadyDeadline` | src/auto_apply.py:302-310 | with the corrected rule a steady clock never moves a planned deadline, however far apart the readings are |
| `Query.Segment` | src/auto_apply.py:426 | a segment is the key, one `=`, then the value |
| `Query.Segments` | src/auto_apply.py:425-427 | one segment per field, in field order |
| `Query.TargetUrl` | src/auto_apply.py:425-427 | the URL starts with the base URL followed by `/viewform?`, and ends right there exactly when there are no fields |
| `Query.Join` | src/auto_apply.py:425 | `"&".join`: no parts give the empty string; n parts give their total length plus n - 1 separators, starting with the first part |
| `Query.JoinSeparators` | src/auto_apply.py:425 | joining n parts with `&` adds exactly n - 1 `&` characters |
| `Query.TargetUrlRoundTrip` | src/auto_apply.py:425-427 | for fields whose keys hold no `&` or `=` and whose values hold no `&`, parsing the query gives back the fields in order, with n - 1 `&` separators for n fields |
| `Cli.DriverEndpoint` | src/auto_apply.py:400-422 | an argument error iff exactly one of URL and port is given. A remote endpoint `http://<url>:<port>` iff both are given and non-empty. Otherwise a local driver |
| `Cli.EmptyArgumentFallsBackToLocal` | src/auto_apply.py:400-422 | an empty URL given with a port passes the pairing check and selects the local driver |

## Left out

- Browser automation: loading the form, waiting for elements, clicking submit, starting and quitting the driver (src/auto_apply.py:30-43, 103-207, 348-371). These are calls into Selenium. Whether the pre-load succeeded is the `preloaded` parameter of `PlanRun`.
- The NTP network query (src/auto_apply.py:223-229). Its answer is the `Reply` parameter.
- The scheduler, the shutdown thread and the forced process exit (src/auto_apply.py:261-287, 296-300, 336-345). These are real-time waiting and process control. The resync rule's outcome names the scheduler call it would make.
- The wiring of the resync job. It is never registered, because its `add_job` is commented out (src/auto_apply.py:328-334). It would raise a TypeError, because `_get_ntp_time()` is called without its argument (src/auto_apply.py:305). Exceptions from rescheduling are logged and swallowed (src/auto_apply.py:324-325). The model covers the decision rule only.
- Logging setup, configuration-file reading, argument parsing, `--version`, `--dry-run` and date parsing (src/auto_apply.py:46-100, 210-214, 379-398, 403-415). These are standard-library I/O.
- A configuration without an `ntp_server` entry raises KeyError at src/auto_apply.py:251; nothing catches it, so the run ends there. `TimeSource.ServerAddress` models the function's argument, which is then always present.
- `_find_chromedriver` (src/auto_apply.py:121-157). It searches the file system and the environment.
- The immediate-run branch of `main` when no date is given (src/auto_apply.py:430-443). It only calls the browser automation.
- `Planner.PlanRun`: does not model float rounding. Time is exact integer microseconds; the source converts the offset through `total_seconds()` and back through a float.
- `Resync.Drifted`: does not model float rounding either. The one-second threshold is compared on exact microseconds.
- `Planner.DegradedModeFiresAtTarget`: treats two local clock reads as one instant. The fallback reading (src/auto_apply.py:233) and the later local reading (src/auto_apply.py:289) are separate calls, microseconds apart.
- `Query.TargetUrl`: models the application data as a sequence of pairs in insertion order. A Python dict also has unique keys; the model allows duplicates.

## Findings

| source | as written | input that shows it | evidently intended | confidence | as-written member | corrected member |
|---|---|---|---|---|---|---|
| src/auto_apply.py:306-310 | drift is the difference of two raw NTP readings, and the new deadline `new + (execute - new)` is the target itself | server 2 s ahead, steady clock, target at 120 s, stored reading 0 s, next reading 60 s: deadline moves from local 118 s to local 120 s, i.e. authoritative 122 s | drift measured as the change in clock offset; deadline recomputed as target minus the new offset | medium, not executed | `Resync.ResyncLosesOffset` | `Resync.CorrectedStep` |
