/**
 * The poll/trigger state machine of Alarm.java.
 *
 * The fields the Java object updates are `alarmTimer`, the one-shot
 * `java.util.Timer` that holds the pending alarm task, and `nextAlarmTime`,
 * the alarm instant last armed. Each `Timer` the object ever creates is kept
 * here, in creation order, with the state of its single task; `alarmTimer`
 * is the position of the current one. `ringing` counts the alarm tasks that
 * have started their sound and are waiting for "stop" to be typed.
 *
 * The pure functions over `Snapshot` specify one step each; the class
 * `Alarm` performs the same steps by updating its fields.
 */
module Scheduler {
  import opened Optional
  import opened Time
  import opened Resolver

  /** The task of one `java.util.Timer`: none yet, pending, run, or cancelled. */
  datatype TimerState = Unscheduled | Scheduled(at: Instant) | Ran | Cancelled

  datatype Snapshot = Snapshot(timers: seq<TimerState>, alarmTimer: nat, nextAlarmTime: Option<Instant>, ringing: nat)

  /** What the calendar query gives back: a feed, or an exception. */
  datatype Fetch = Fetched(feed: Feed) | FetchFailed

  /**
   * One event from outside: an hourly poll, a timer step, or a line typed on
   * the keyboard. A poll's `fetch` is the answer to the window that `now`
   * picks (`Alarm.Poll` performs that query); the step itself needs only the
   * answer and the clock read after it.
   */
  datatype Input = PollTick(now: Instant, fetch: Fetch, nowAfterFetch: Instant) | TimerStep(clock: Instant) | Line(text: string)

  /** The text that ends a ringing alarm. */
  const StopCommand: string := "stop"

  /** The state right after construction: one fresh `Timer` with no task, no alarm time. */
  const Initial: Snapshot := Snapshot([Unscheduled], 0, None, 0)

  /**
   * Every replaced timer has been cancelled, the current one has not, and a
   * pending alarm task is for `nextAlarmTime`.
   */
  ghost predicate Inv(s: Snapshot)
  {
    && s.alarmTimer < |s.timers|
    && (forall i :: 0 <= i < |s.timers| && i != s.alarmTimer ==> s.timers[i] == Cancelled)
    && s.timers[s.alarmTimer] != Cancelled
    && (s.timers[s.alarmTimer].Scheduled? ==> s.nextAlarmTime == Some(s.timers[s.alarmTimer].at))
  }

  /** The timers whose alarm task is still pending. */
  function Live(s: Snapshot): set<int>
  {
    set i | 0 <= i < |s.timers| && s.timers[i].Scheduled?
  }

  /** The alarm task is pending and its instant has come. */
  predicate Due(s: Snapshot, clock: Instant)
    requires s.alarmTimer < |s.timers|
  {
    s.timers[s.alarmTimer].Scheduled? && s.timers[s.alarmTimer].at <= clock
  }

  /** Cancel the current timer, create a new one and schedule the alarm task on it at `t`. */
  function Arm(s: Snapshot, t: Instant): (u: Snapshot)
    requires Inv(s)
    ensures Inv(u) && u.nextAlarmTime == Some(t) && u.ringing == s.ringing
    ensures |u.timers| == |s.timers| + 1 && u.timers[u.alarmTimer] == Scheduled(t)
    ensures forall i :: 0 <= i < |s.timers| ==> u.timers[i] == Cancelled
  {
    Snapshot(s.timers[s.alarmTimer := Cancelled] + [Scheduled(t)], |s.timers|, Some(t), s.ringing)
  }

  /** The decision of `AlarmCheck.run` once the candidate is known. */
  function Reconcile(s: Snapshot, r: Resolution, now: Instant): (u: Snapshot)
    requires Inv(s)
    ensures Inv(u)
  {
    match r
    case NoAlarm => s
    case Thrown => s
    case AlarmAt(t) =>
      if t < now then s
      else if s.nextAlarmTime == Some(t) then s
      else Arm(s, t)
  }

  /** One poll, given what the query returned and the clock read after it. */
  function PollStep(s: Snapshot, f: Fetch, nowAfterFetch: Instant): (u: Snapshot)
    requires Inv(s)
    ensures Inv(u)
  {
    match f
    case FetchFailed => s
    case Fetched(feed) => Reconcile(s, AlarmTimeOf(feed), nowAfterFetch)
  }

  /** The alarm task runs once its instant has come: the task is spent, the sound starts. */
  function FireStep(s: Snapshot, clock: Instant): (u: Snapshot)
    requires Inv(s)
    ensures Inv(u)
  {
    if Due(s, clock) then s.(timers := s.timers[s.alarmTimer := Ran], ringing := s.ringing + 1) else s
  }

  /** A typed line: "stop" ends one ringing alarm, anything else is answered and ignored. */
  function StopStep(s: Snapshot, line: string): (u: Snapshot)
    requires Inv(s)
    ensures Inv(u)
  {
    if s.ringing > 0 && line == StopCommand then s.(ringing := s.ringing - 1) else s
  }

  /** Each input goes to its step: the poll timer, the alarm timer, or the dismissal loop. */
  function Step(s: Snapshot, input: Input): (u: Snapshot)
    requires Inv(s)
    ensures Inv(u)
  {
    match input
    case PollTick(now, f, later) => PollStep(s, f, later)
    case TimerStep(clock) => FireStep(s, clock)
    case Line(text) => StopStep(s, text)
  }

  /** The state after a sequence of inputs, in order. */
  function Run(s: Snapshot, inputs: seq<Input>): (u: Snapshot)
    requires Inv(s)
    ensures Inv(u)
    decreases |inputs|
  {
    if inputs == [] then s else Run(Step(s, inputs[0]), inputs[1..])
  }

  /** At most one alarm task is pending, on the current timer, and it is for `nextAlarmTime`. */
  lemma AtMostOneLive(s: Snapshot)
    requires Inv(s)
    ensures Live(s) <= {s.alarmTimer} && |Live(s)| <= 1
    ensures forall i :: i in Live(s) ==> s.nextAlarmTime == Some(s.timers[i].at)
  {
    if s.timers[s.alarmTimer].Scheduled? {
      assert Live(s) == {s.alarmTimer};
    } else {
      assert Live(s) == {};
    }
  }

  /** After any sequence of polls, timer steps and typed lines from the start, at most one trigger is live. */
  lemma AtMostOneLiveAlways(inputs: seq<Input>)
    ensures var s := Run(Initial, inputs);
      |Live(s)| <= 1 && forall i :: i in Live(s) ==> i == s.alarmTimer && s.nextAlarmTime == Some(s.timers[i].at)
  {
    AtMostOneLive(Run(Initial, inputs));
  }

  /**
   * A poll changes nothing exactly when the query failed, the resolution
   * threw, there is no alarm, the alarm is already past, or it equals
   * `nextAlarmTime`.
   */
  lemma PollUnchangedIff(s: Snapshot, f: Fetch, now: Instant)
    requires Inv(s)
    ensures PollStep(s, f, now) == s <==>
      (|| f.FetchFailed?
       || !AlarmTimeOf(f.feed).AlarmAt?
       || AlarmTimeOf(f.feed).time < now
       || s.nextAlarmTime == Some(AlarmTimeOf(f.feed).time))
  {
    if f.Fetched? && AlarmTimeOf(f.feed).AlarmAt? {
      var t := AlarmTimeOf(f.feed).time;
      if now <= t && s.nextAlarmTime != Some(t) {
        assert |PollStep(s, f, now).timers| == |s.timers| + 1;
      }
    }
  }

  /**
   * A poll with a future candidate that differs from `nextAlarmTime`
   * cancels the previous timer, leaves exactly one pending task, at the
   * candidate, and records the candidate.
   */
  lemma PollArms(s: Snapshot, feed: Feed, now: Instant)
    requires Inv(s)
    requires AlarmTimeOf(feed).AlarmAt? && now <= AlarmTimeOf(feed).time
    requires s.nextAlarmTime != Some(AlarmTimeOf(feed).time)
    ensures var u, t := PollStep(s, Fetched(feed), now), AlarmTimeOf(feed).time;
      && u.timers[s.alarmTimer] == Cancelled
      && u.timers[..|s.timers|] == s.timers[s.alarmTimer := Cancelled]
      && |u.timers| == |s.timers| + 1
      && Live(u) == {u.alarmTimer}
      && u.timers[u.alarmTimer] == Scheduled(t)
      && u.nextAlarmTime == Some(t)
      && u.ringing == s.ringing
  {
    var u := PollStep(s, Fetched(feed), now);
    assert u.timers[..|s.timers|] == s.timers[s.alarmTimer := Cancelled];
    assert Live(u) == {u.alarmTimer} by {
      forall i | 0 <= i < |u.timers| && i != u.alarmTimer
        ensures !u.timers[i].Scheduled?
      {
      }
    }
  }

  /** Because `nextAlarmTime` starts out null, the first future candidate always arms. */
  lemma FirstCandidateArms(feed: Feed, now: Instant)
    requires AlarmTimeOf(feed).AlarmAt? && now <= AlarmTimeOf(feed).time
    ensures var u := PollStep(Initial, Fetched(feed), now);
      u.nextAlarmTime == Some(AlarmTimeOf(feed).time) && u.timers == [Cancelled, Scheduled(AlarmTimeOf(feed).time)]
  {
  }

  /**
   * The second of two polls adds nothing to the first in two cases: its own
   * query failed, or it gives the same candidate as the first poll's query.
   * The two feeds may differ.
   */
  predicate SameAnswer(first: Fetch, second: Fetch)
  {
    || second.FetchFailed?
    || (first.Fetched? && second.Fetched? && AlarmTimeOf(first.feed) == AlarmTimeOf(second.feed))
  }

  /**
   * A second poll with the same candidate, and a clock that has not gone
   * back, is a no-op. The two feeds may differ, for example by a later event.
   */
  lemma PollIdempotent(s: Snapshot, first: Fetch, second: Fetch, now: Instant, later: Instant)
    requires Inv(s) && now <= later
    requires SameAnswer(first, second)
    ensures PollStep(PollStep(s, first, now), second, later) == PollStep(s, first, now)
  {
  }

  /** Any number of failed queries in a row leave the state as it was. */
  lemma {:induction false} FailedFetchesChangeNothing(s: Snapshot, inputs: seq<Input>)
    requires Inv(s)
    requires forall k :: 0 <= k < |inputs| ==> inputs[k].PollTick? && inputs[k].fetch == FetchFailed
    ensures Run(s, inputs) == s
  {
    if inputs != [] {
      FailedFetchesChangeNothing(s, inputs[1..]);
    }
  }

  /**
   * Firing consumes the pending task and starts the sound; `nextAlarmTime`
   * is kept, and no task is left pending.
   */
  lemma FireConsumesTrigger(s: Snapshot, clock: Instant)
    requires Inv(s) && Due(s, clock)
    ensures var u := FireStep(s, clock);
      && Live(u) == {}
      && u.nextAlarmTime == s.nextAlarmTime
      && u.alarmTimer == s.alarmTimer
      && u.timers[u.alarmTimer] == Ran
      && u.ringing == s.ringing + 1
  {
    var u := FireStep(s, clock);
    assert Live(u) == {} by {
      forall i | 0 <= i < |u.timers|
        ensures !u.timers[i].Scheduled?
      {
      }
    }
  }

  /** Nothing fires before its instant, and nothing fires without a pending task. */
  lemma NoEarlyFire(s: Snapshot, clock: Instant)
    requires Inv(s) && !Due(s, clock)
    ensures FireStep(s, clock) == s
  {
  }

  /** Typing "stop" while an alarm rings ends it; other lines, or no ringing alarm, change nothing. */
  lemma StopEndsRinging(s: Snapshot, line: string)
    requires Inv(s)
    ensures StopStep(s, line).ringing == if s.ringing > 0 && line == StopCommand then s.ringing - 1 else s.ringing
    ensures StopStep(s, line).(ringing := s.ringing) == s
  {
  }

  /** Arming, firing and stopping a single alarm from the start. */
  lemma AlarmScenario(feed: Feed, now: Instant)
    requires AlarmTimeOf(feed).AlarmAt? && now <= AlarmTimeOf(feed).time
    ensures var t := AlarmTimeOf(feed).time;
      var polled := PollStep(Initial, Fetched(feed), now);
      var fired := FireStep(polled, t);
      var stopped := StopStep(fired, StopCommand);
      && polled.timers[polled.alarmTimer] == Scheduled(t)
      && fired.ringing == 1 && Live(fired) == {}
      && stopped.ringing == 0 && stopped.nextAlarmTime == Some(t)
  {
    var t := AlarmTimeOf(feed).time;
    var polled := PollStep(Initial, Fetched(feed), now);
    FireConsumesTrigger(polled, t);
  }

  /**
   * The Java object: its two timer fields, the alarm time, and the count of
   * ringing alarms. Its methods run one step each.
   */
  class Alarm {
    var timers: seq<TimerState>
    var alarmTimer: nat
    var nextAlarmTime: Option<Instant>
    var ringing: nat

    function State(): Snapshot
      reads this
    {
      Snapshot(timers, alarmTimer, nextAlarmTime, ringing)
    }

    ghost predicate Valid()
      reads this
    {
      Inv(State())
    }

    constructor ()
      ensures Valid() && State() == Initial
    {
      timers := [Unscheduled];
      alarmTimer := 0;
      nextAlarmTime := None;
      ringing := 0;
    }

    /**
     * `AlarmCheck.run`: pick the day, query its window through `source`, resolve
     * the candidate and re-arm the alarm timer when the candidate is new and
     * not yet past. `now` is the clock read that picks the day and
     * `nowAfterFetch` the one the candidate is compared with.
     */
    method Poll(now: Instant, source: (Instant, Instant) -> Fetch, nowAfterFetch: Instant)
      requires Valid()
      modifies this
      ensures Valid()
      ensures State() == PollStep(old(State()), source(WindowStart(CheckDate(now)), WindowStart(CheckDate(now)) + MsPerDay), nowAfterFetch)
    {
      var checkDate := CheckDate(now);
      var start, end := SearchWindow(checkDate);
      var fetched := source(start, end);
      if fetched.FetchFailed? {
        return;
      }
      var retrieved := ResolveAlarmTime(fetched.feed);
      if retrieved.Thrown? {
        return;
      }
      if retrieved.NoAlarm? {
      } else if retrieved.time < nowAfterFetch {
      } else if Some(retrieved.time) != nextAlarmTime {
        timers := timers[alarmTimer := Cancelled];
        timers := timers + [Unscheduled];
        alarmTimer := |timers| - 1;
        timers := timers[alarmTimer := Scheduled(retrieved.time)];
        nextAlarmTime := Some(retrieved.time);
      }
    }

    /** The alarm timer's thread at `clock`: runs `AlarmActivate` if its task is due. */
    method Fire(clock: Instant)
      requires Valid()
      modifies this
      ensures Valid()
      ensures State() == FireStep(old(State()), clock)
    {
      if timers[alarmTimer].Scheduled? && timers[alarmTimer].at <= clock {
        timers := timers[alarmTimer := Ran];
        ringing := ringing + 1;
      }
    }

    /** One line read by the dismissal loop of `AlarmActivate`. */
    method EnterLine(line: string)
      requires Valid()
      modifies this
      ensures Valid()
      ensures State() == StopStep(old(State()), line)
    {
      if ringing > 0 && line == StopCommand {
        ringing := ringing - 1;
      }
    }
  }

  /**
   * Two polls in a row, say an hour apart, whose queries give the same
   * candidate: the second one leaves the object as the first one left it.
   */
  method PollTwice(a: Alarm, now: Instant, source: (Instant, Instant) -> Fetch,
                   later: Instant, laterSource: (Instant, Instant) -> Fetch)
    requires a.Valid() && now <= later
    requires SameAnswer(source(WindowStart(CheckDate(now)), WindowStart(CheckDate(now)) + MsPerDay),
                        laterSource(WindowStart(CheckDate(later)), WindowStart(CheckDate(later)) + MsPerDay))
    modifies a
    ensures a.Valid()
    ensures a.State() == PollStep(old(a.State()), source(WindowStart(CheckDate(now)), WindowStart(CheckDate(now)) + MsPerDay), now)
  {
    a.Poll(now, source, now);
    a.Poll(later, laterSource, later);
    PollIdempotent(old(a.State()),
                   source(WindowStart(CheckDate(now)), WindowStart(CheckDate(now)) + MsPerDay),
                   laterSource(WindowStart(CheckDate(later)), WindowStart(CheckDate(later)) + MsPerDay),
                   now, later);
  }
}
