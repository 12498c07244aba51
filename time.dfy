/**
 * Instants, calendar fields and the one-day search window.
 *
 * An instant is a count of milliseconds on the local wall clock since day 0.
 * A `Fields` value is the broken-down form that `java.util.Calendar` keeps:
 * a day index and the hour, minute, second and millisecond within that day.
 * Time zones and daylight saving are not modelled, so every day is 24 hours.
 */
module Time {

  type Instant = int

  const MsPerSecond: int := 1000
  const MsPerMinute: int := 60000
  const MsPerHour: int := 3600000
  const MsPerDay: int := 86400000

  /** From this hour of the day on, a poll looks at tomorrow's events. */
  const DayRolloverHour: int := 12

  /** The hour of the day at which the search window opens. */
  const WindowStartHour: int := 3

  datatype Fields = Fields(day: int, hour: int, minute: int, second: int, milli: int)

  /** Every field inside its calendar range, as a Calendar always keeps them. */
  predicate Normalized(f: Fields)
  {
    && 0 <= f.hour < 24
    && 0 <= f.minute < 60
    && 0 <= f.second < 60
    && 0 <= f.milli < 1000
  }

  /** The instant that a set of calendar fields denotes (`Calendar.getTime`). */
  function TimeOf(f: Fields): Instant
  {
    f.day * MsPerDay + f.hour * MsPerHour + f.minute * MsPerMinute + f.second * MsPerSecond + f.milli
  }

  /** The calendar fields of an instant (`Calendar.setTime`). */
  function FieldsOf(t: Instant): (f: Fields)
    ensures Normalized(f)
    ensures TimeOf(f) == t
  {
    var inDay := t % MsPerDay;
    var inHour := inDay % MsPerHour;
    var inMinute := inHour % MsPerMinute;
    Fields(t / MsPerDay, inDay / MsPerHour, inHour / MsPerMinute, inMinute / MsPerSecond, inMinute % MsPerSecond)
  }

  /** Normalized fields are recovered exactly from the instant they denote. */
  lemma FieldsOfTimeOf(f: Fields)
    requires Normalized(f)
    ensures FieldsOf(TimeOf(f)) == f
  {
    var inMinute := f.second * MsPerSecond + f.milli;
    var inHour := f.minute * MsPerMinute + inMinute;
    var inDay := f.hour * MsPerHour + inHour;
    assert TimeOf(f) / MsPerDay == f.day && TimeOf(f) % MsPerDay == inDay;
    assert inDay / MsPerHour == f.hour && inDay % MsPerHour == inHour;
    assert inHour / MsPerMinute == f.minute && inHour % MsPerMinute == inMinute;
    assert inMinute / MsPerSecond == f.second && inMinute % MsPerSecond == f.milli;
  }

  /**
   * The day a poll at `now` checks (Alarm.java, AlarmCheck.run): the current
   * calendar, moved one day on when the hour of day is at or past noon.
   */
  function CheckDate(now: Instant): (date: Fields)
    ensures Normalized(date)
    ensures TimeOf(date) == if FieldsOf(now).hour >= DayRolloverHour then now + MsPerDay else now
  {
    var cal := FieldsOf(now);
    if cal.hour >= DayRolloverHour then cal.(day := cal.day + 1) else cal
  }

  /** The instant at which the search window for `date` opens. */
  function WindowStart(date: Fields): Instant
  {
    TimeOf(date.(hour := WindowStartHour, minute := 0, second := 0))
  }

  /**
   * The search window of `getCalendarEventFeedForDate`: the calendar is set
   * to 03:00:00 in place (its millisecond field is left as it was), and the
   * end is a copy of it moved one calendar day on.
   */
  method SearchWindow(date: Fields) returns (start: Instant, end: Instant)
    requires Normalized(date)
    ensures start == WindowStart(date) && end == start + MsPerDay
    ensures FieldsOf(start) == Fields(date.day, WindowStartHour, 0, 0, date.milli)
    ensures FieldsOf(end) == Fields(date.day + 1, WindowStartHour, 0, 0, date.milli)
  {
    var cal := date;
    cal := cal.(hour := WindowStartHour);
    cal := cal.(minute := 0);
    cal := cal.(second := 0);
    var endDate := cal;
    endDate := endDate.(day := endDate.day + 1);
    start := TimeOf(cal);
    end := TimeOf(endDate);
    FieldsOfTimeOf(cal);
    FieldsOfTimeOf(endDate);
  }

  /**
   * The window a poll at `now` queries opens at 03:00:00 on today, or on
   * tomorrow from noon on, with the millisecond field of `now`.
   */
  lemma PollWindow(now: Instant)
    ensures var c := FieldsOf(now);
      FieldsOf(WindowStart(CheckDate(now)))
        == Fields(if c.hour >= DayRolloverHour then c.day + 1 else c.day, WindowStartHour, 0, 0, c.milli)
  {
    FieldsOfTimeOf(CheckDate(now).(hour := WindowStartHour, minute := 0, second := 0));
  }

  /** A poll at 13:00 on day 20 queries [day 21 03:00, day 22 03:00). */
  lemma AfternoonPollQueriesTomorrow()
    ensures CheckDate(TimeOf(Fields(20, 13, 0, 0, 0))) == Fields(21, 13, 0, 0, 0)
    ensures WindowStart(CheckDate(TimeOf(Fields(20, 13, 0, 0, 0)))) == TimeOf(Fields(21, 3, 0, 0, 0))
    ensures WindowStart(CheckDate(TimeOf(Fields(20, 13, 0, 0, 0)))) + MsPerDay == TimeOf(Fields(22, 3, 0, 0, 0))
  {
    FieldsOfTimeOf(Fields(20, 13, 0, 0, 0));
  }

  /** A poll at 08:15:30.250 on day 20 queries from 03:00:00.250 the same day. */
  lemma MorningPollQueriesToday()
    ensures WindowStart(CheckDate(TimeOf(Fields(20, 8, 15, 30, 250)))) == TimeOf(Fields(20, 3, 0, 0, 250))
  {
    FieldsOfTimeOf(Fields(20, 8, 15, 30, 250));
  }
}
