# Alarm clock driven by calendar events — scheduling core

This project models the scheduling engine of the Java alarm clock `Alarm.java`, and proves what it does.
Once an hour the program looks at the day's calendar events and works out an alarm time from them.
It keeps one cancellable one-shot timer aimed at that time. When the timer fires, the alarm sounds until `stop` is typed.

The model has four modules:

- `Optional` holds the `Option` type. It stands in for Java's `null`.
- `Time` holds the calendar arithmetic. An instant is a count of milliseconds on the local wall clock. A `Fields` value is the broken-down form a `java.util.Calendar` keeps: a day index, then hour, minute, second and millisecond.
  - `CheckDate` picks the day to check: today, or tomorrow from 12:00 on.
  - `SearchWindow` computes the query window the same way the source does. It sets the calendar to 03:00:00 in place and keeps its millisecond field. The window ends one day later.
- `Resolver` models `getAlarmTimeForDate`.
  - A feed holds the result count the service reports (`totalResults`) and the entries it delivers, ordered by start.
  - `AlarmTimeOf` is the specification. `ResolveAlarmTime` is the source's loop, kept with its `firstEvent`, `alarmEvent` and `break`, and proved equal to `AlarmTimeOf`.
  - If the feed reports no results, there is no alarm.
  - Otherwise the alarm is the start of the first entry whose lower-cased title is `alarm`.
  - Failing that, it is the first entry's start plus `ALARM_OFFSET_FROM_EVENT` (−100 minutes).
  - If the feed reports results but delivers no entry, it throws: the source dereferences a null `firstEvent`.
- `Scheduler` models `AlarmCheck.run` and `AlarmActivate.run`.
  - The object's fields are `alarmTimer` and `nextAlarmTime`. The model also keeps every `Timer` the object has created, in order, each with the state of its task: none yet, pending, run or cancelled. `alarmTimer` is the position of the current one. `ringing` counts the alarms that are sounding and waiting for `stop`.
  - Pure step functions over a `Snapshot` value specify a poll, a timer firing and a typed line. The invariant `Inv` says three things: every replaced timer has been cancelled, the current one has not, and a pending task is for `nextAlarmTime`. Every step keeps `Inv`.
  - The class `Alarm` carries the same fields. Its methods `Poll`, `Fire` and `EnterLine` change them step by step, as the Java does. Each method is proved to reach the state its step function gives.
  - `Poll` takes the calendar query as a function from the window to its result. That result is either a feed or an exception.

Four points of the code's behaviour are easy to misread. The model keeps each of them as the code has it:

- The "no events" test is on the service's reported `totalResults`, not on the entries delivered. A feed that reports results but delivers none throws inside the poll, and the poll catches it.
- `nextAlarmTime` is compared with exact millisecond equality, not at minute precision.
- Typing `stop` when no alarm is sounding does nothing. Any other line is answered and ignored.
- The day is chosen with one clock read (`Calendar.getInstance()` at line 147). The "already passed" test uses a second read, taken after the fetch (line 160). `Poll` takes both, as `now` and `nowAfterFetch`.

Lower-casing is modelled for ASCII letters only. Java's `toLowerCase` maps no other character to the letters `a`, `l`, `r` or `m`, so the test "lower-cases to `alarm`" comes out the same.

## Model

| member | source | states |
|---|---|---|
| `Time.CheckDate` | src/net/dennistsang/alarm/Alarm.java:146-151 | the checked date is a normalized calendar denoting `now` itself before 12:00, and `now` plus one day from 12:00 on |
| `Time.SearchWindow` | src/net/dennistsang/alarm/Alarm.java:292-298 | the window starts at 03:00:00 on the given day, with the millisecond field of the given calendar; it ends at 03:00:00 on the next day, exactly one day after the start |
| `Time.PollWindow` | src/net/dennistsang/alarm/Alarm.java:292-298 | a poll at `now` queries from 03:00:00 on today (before noon) or tomorrow (from noon on), keeping `now`'s milliseconds |
| `Time.AfternoonPollQueriesTomorrow` | src/net/dennistsang/alarm/Alarm.java:146-151 | a poll at 13:00 on day 20 checks day 21; its window opens at 03:00 on day 21 and closes at 03:00 on day 22 |
| `Time.MorningPollQueriesToday` | src/net/dennistsang/alarm/Alarm.java:293-298 | a poll at 08:15:30.250 queries from 03:00:00.250 the same day |
| `Resolver.IsAlarmTitle` | src/net/dennistsang/alarm/Alarm.java:250 | a title matches exactly when it has five characters, each the letter of "alarm" at that place in lower or upper case |
| `Resolver.AlarmTimeOf` | src/net/dennistsang/alarm/Alarm.java:228-282 | no alarm exactly when the feed reports zero results; an exception exactly when it reports results but delivers no entry; an alarm instant otherwise |
| `Resolver.FirstAlarmEvent` | src/net/dennistsang/alarm/Alarm.java:244-255 | the position found holds an entry titled `alarm` in any case, and no earlier entry is; no position means no entry is |
| `Resolver.ResolveAlarmTime` | src/net/dennistsang/alarm/Alarm.java:228-282 | the loop with `firstEvent`, `alarmEvent` and `break`, followed by the choice of event, computes exactly `AlarmTimeOf` |
| `Resolver.NoResultsNoAlarm` | src/net/dennistsang/alarm/Alarm.java:234-239 | a feed that reports zero results gives no alarm, whatever its entries |
| `Resolver.AlarmEventWins` | src/net/dennistsang/alarm/Alarm.java:260-264 | with an alarm entry at position k and none before it, the alarm is exactly that entry's start, with no offset |
| `Resolver.LaterEventsIgnored` | src/net/dennistsang/alarm/Alarm.java:250-254 | replacing everything after the first alarm entry, later alarm entries included, leaves the result unchanged |
| `Resolver.OffsetFromFirstEvent` | src/net/dennistsang/alarm/Alarm.java:266-274 | with no alarm entry, the alarm is the first entry's start minus 100 minutes |
| `Resolver.MissingEntriesThrow` | src/net/dennistsang/alarm/Alarm.java:266-269 | a feed that reports results but has no entry throws, because `firstEvent` is null |
| `Resolver.AlarmComesFromFeed` | src/net/dennistsang/alarm/Alarm.java:258-281 | every alarm instant is the start of an alarm entry, or the offset start of the first entry |
| `Resolver.AlarmTitleExamples` | src/net/dennistsang/alarm/Alarm.java:250 | `alarm`, `ALARM` and `Alarm` match; `alarms`, ` alarm`, the empty title and `Lunch` do not |
| `Resolver.StandupExample` | src/net/dennistsang/alarm/Alarm.java:35-40 | a single 09:00 event gives a 07:20 alarm |
| `Resolver.MarkerExample` | src/net/dennistsang/alarm/Alarm.java:244-264 | an `alarm` entry at 06:30 listed after a 12:00 entry gives a 06:30 alarm |
| `Scheduler.Arm` | src/net/dennistsang/alarm/Alarm.java:164-172 | re-arming keeps the invariant: every earlier timer is cancelled, one timer is added and holds the task at `t`, and `nextAlarmTime` becomes `t` |
| `Scheduler.Reconcile` | src/net/dennistsang/alarm/Alarm.java:156-179 | the decision on the candidate keeps the invariant |
| `Scheduler.PollStep` | src/net/dennistsang/alarm/Alarm.java:153-185 | a poll keeps the invariant, whether the query fails or succeeds |
| `Scheduler.FireStep` | src/net/dennistsang/alarm/Alarm.java:195-205 | a timer firing keeps the invariant |
| `Scheduler.StopStep` | src/net/dennistsang/alarm/Alarm.java:206-215 | a typed line keeps the invariant |
| `Scheduler.Step` | src/net/dennistsang/alarm/Alarm.java:130-134 | any one input, sent to its step (the poll timer, the alarm timer or the dismissal loop), keeps the invariant |
| `Scheduler.Run` | src/net/dennistsang/alarm/Alarm.java:130-134 | any sequence of polls, timer firings and typed lines keeps the invariant |
| `Scheduler.AtMostOneLive` | src/net/dennistsang/alarm/Alarm.java:164-172 | under the invariant, at most one task is pending; it is on the current timer and aimed at `nextAlarmTime` |
| `Scheduler.AtMostOneLiveAlways` | src/net/dennistsang/alarm/Alarm.java:110-112 | from the initial state, after any sequence of inputs, at most one task is pending, and it is the current timer's, aimed at `nextAlarmTime` |
| `Scheduler.PollUnchangedIff` | src/net/dennistsang/alarm/Alarm.java:153-185 | a poll leaves the state unchanged if and only if one of these holds: the query failed, resolution threw, there is no alarm, the candidate is before the clock, or it equals `nextAlarmTime` |
| `Scheduler.PollArms` | src/net/dennistsang/alarm/Alarm.java:164-175 | a future candidate different from `nextAlarmTime` cancels the previous timer, adds exactly one timer with its task pending at the candidate, leaves that task the only pending one, and records the candidate |
| `Scheduler.FirstCandidateArms` | src/net/dennistsang/alarm/Alarm.java:112 | from the initial state (`nextAlarmTime` null), the first future candidate arms: the initial timer is cancelled and a new one holds the candidate |
| `Scheduler.PollIdempotent` | src/net/dennistsang/alarm/Alarm.java:164-179 | a second poll whose query fails, or gives the same candidate as the first poll's (the feeds may differ), with the clock not gone back, changes nothing |
| `Scheduler.FailedFetchesChangeNothing` | src/net/dennistsang/alarm/Alarm.java:181-185 | any run of polls whose queries all fail leaves the state exactly as it was |
| `Scheduler.FireConsumesTrigger` | src/net/dennistsang/alarm/Alarm.java:195-205 | a due task runs: no task is left pending, the current timer's task is spent, `nextAlarmTime` is kept and one more alarm sounds |
| `Scheduler.NoEarlyFire` | src/net/dennistsang/alarm/Alarm.java:171 | when no task is pending, or its instant has not come, a timer step changes nothing |
| `Scheduler.StopEndsRinging` | src/net/dennistsang/alarm/Alarm.java:206-215 | the line `stop` ends one sounding alarm; any other line, or no sounding alarm, changes nothing; nothing else changes |
| `Scheduler.AlarmScenario` | src/net/dennistsang/alarm/Alarm.java:164-215 | from the initial state, a future candidate is armed; firing at that instant makes it sound with nothing pending; `stop` silences it and `nextAlarmTime` is kept |
| `Scheduler.Alarm.constructor` | src/net/dennistsang/alarm/Alarm.java:108-125 | the object starts with one fresh timer holding no task and no alarm time, and satisfies the invariant |
| `Scheduler.Alarm.Poll` | src/net/dennistsang/alarm/Alarm.java:142-187 | the method queries the window `SearchWindow` computes for `CheckDate(now)`, keeps the invariant, and reaches exactly the state `PollStep` gives for what that query returned |
| `Scheduler.Alarm.Fire` | src/net/dennistsang/alarm/Alarm.java:199-205 | the method keeps the invariant and reaches exactly the state `FireStep` gives |
| `Scheduler.Alarm.EnterLine` | src/net/dennistsang/alarm/Alarm.java:206-215 | the method keeps the invariant and reaches exactly the state `StopStep` gives |
| `Scheduler.PollTwice` | src/net/dennistsang/alarm/Alarm.java:142-187 | two polls on one object at any two clock times in order, whose queries give the same candidate, leave it exactly as the first poll left it |

## Left out

- `main` is not modelled: the command-line prompts, the `Preferences` store and the audio test mode are I/O.
- The calendar query is not modelled: building the URI, calling `CalendarService.query`, and turning its exceptions into messages. The query is a parameter of `Poll` that returns a feed or a failure. All failures are alike, because the poll handles them alike.
- The `java.util.Timer` threads are not modelled, nor the hourly cadence of `scheduleAtFixedRate`. Each poll, timer firing and typed line is an explicit call. Mutual exclusion between them is not modelled either.
- In the source, a poll can cancel the alarm timer while that timer's task is sounding and waiting for `stop`; the sound goes on. The model keeps `ringing` apart from the timers, so it shows the same thing, but it does not model the threads.
- `AePlayWave.java` and the sound it plays are not modelled: they are audio I/O on a thread. Starting the sound is `ringing + 1`; interrupting it is `ringing - 1`.
- Console output (`println`, `printStackTrace`) is not modelled.
- Time zones, daylight saving and the field rules of `Calendar` are not modelled. Every day is 24 hours. Adding minutes, or one day, adds a fixed number of milliseconds.
- Every entry is assumed to have a start time. An entry whose `getTimes()` is empty would throw at `get(0)`, and the poll would catch that.
- `StopStep`: a line typed while no alarm is sounding is dropped. In the source, such a line stays buffered on standard input, and the next alarm's loop would read it.
- `Resolver.LowerCase` lower-cases ASCII letters only. This does not change the test against `alarm`; see above.
