/**
 * Alarm-time resolution (`getAlarmTimeForDate` in Alarm.java): from the
 * day's event feed, the start of the first event titled "alarm" (in any
 * letter case), or else the start of the first event moved by a fixed
 * offset, or no alarm when the feed reports no results.
 */
module Resolver {
  import opened Optional
  import opened Time

  /** Minutes added to the first event's start when no alarm event exists. */
  const AlarmOffsetFromEvent: int := -100

  /** The title, after lower-casing, that marks an explicit alarm event. */
  const AlarmEventTitle: string := "alarm"

  datatype Event = Event(title: string, start: Instant)

  /**
   * What the calendar service returns: the total result count it reports
   * and the entries it delivers, ordered by start time.
   */
  datatype Feed = Feed(totalResults: int, entries: seq<Event>)

  /**
   * The outcome of resolution: no alarm (`null`), an alarm instant, or an
   * exception (a feed that reports results but delivers no entry leaves
   * `firstEvent` null, and dereferencing it throws).
   */
  datatype Resolution = NoAlarm | AlarmAt(time: Instant) | Thrown

  function ToLower(c: char): char
  {
    if 'A' <= c <= 'Z' then (c as int + 32) as char else c
  }

  function LowerCase(s: string): string
  {
    seq(|s|, i requires 0 <= i < |s| => ToLower(s[i]))
  }

  /** The title is "alarm" with each letter in either case, and nothing more. */
  predicate IsAlarmTitle(title: string)
    ensures IsAlarmTitle(title) <==>
      |title| == |AlarmEventTitle| && forall i :: 0 <= i < |title| ==> title[i] == "alarm"[i] || title[i] == "ALARM"[i]
  {
    LowerCase(title) == AlarmEventTitle
  }

  /** The position of the first alarm event in `es`, if there is one. */
  function FirstAlarmEvent(es: seq<Event>): (k: Option<nat>)
    ensures k.Some? ==> k.value < |es| && IsAlarmTitle(es[k.value].title)
    ensures k.Some? ==> forall j :: 0 <= j < k.value ==> !IsAlarmTitle(es[j].title)
    ensures k.None? ==> forall j :: 0 <= j < |es| ==> !IsAlarmTitle(es[j].title)
  {
    if es == [] then None
    else if IsAlarmTitle(es[0].title) then Some(0)
    else match FirstAlarmEvent(es[1..])
      case None => None
      case Some(k) => Some(k + 1)
  }

  /**
   * The alarm time the source computes for a feed: no alarm exactly when no
   * results are reported, an exception exactly when results are reported
   * but no entry is delivered, and an alarm instant otherwise.
   */
  function AlarmTimeOf(feed: Feed): (r: Resolution)
    ensures r.NoAlarm? <==> feed.totalResults == 0
    ensures r.Thrown? <==> feed.totalResults != 0 && |feed.entries| == 0
  {
    if feed.totalResults == 0 then NoAlarm
    else match FirstAlarmEvent(feed.entries)
      case Some(k) => AlarmAt(feed.entries[k].start)
      case None =>
        if |feed.entries| == 0 then Thrown
        else AlarmAt(feed.entries[0].start + AlarmOffsetFromEvent * MsPerMinute)
  }

  /**
   * The loop of `getAlarmTimeForDate`: remember the first entry, stop at the
   * first alarm entry, then choose between them.
   */
  method ResolveAlarmTime(feed: Feed) returns (r: Resolution)
    ensures r == AlarmTimeOf(feed)
  {
    if feed.totalResults == 0 {
      return NoAlarm;
    }
    var firstEvent: Option<Event> := None;
    var alarmEvent: Option<Event> := None;
    var i := 0;
    while i < |feed.entries|
      invariant 0 <= i <= |feed.entries|
      invariant alarmEvent == None
      invariant firstEvent == if i == 0 then None else Some(feed.entries[0])
      invariant forall j :: 0 <= j < i ==> !IsAlarmTitle(feed.entries[j].title)
    {
      var e := feed.entries[i];
      if firstEvent == None {
        firstEvent := Some(e);
      }
      if IsAlarmTitle(e.title) {
        alarmEvent := Some(e);
        break;
      }
      i := i + 1;
    }
    if alarmEvent.Some? {
      r := AlarmAt(alarmEvent.value.start);
    } else if firstEvent.None? {
      r := Thrown;
    } else {
      r := AlarmAt(firstEvent.value.start + AlarmOffsetFromEvent * MsPerMinute);
    }
  }

  /** A feed that reports no results gives no alarm, whatever its entries. */
  lemma NoResultsNoAlarm(entries: seq<Event>)
    ensures AlarmTimeOf(Feed(0, entries)) == NoAlarm
  {
  }

  /**
   * With an alarm event at position k and none before it, the alarm is
   * exactly that event's start, with no offset.
   */
  lemma AlarmEventWins(feed: Feed, k: nat)
    requires feed.totalResults != 0
    requires k < |feed.entries| && IsAlarmTitle(feed.entries[k].title)
    requires forall j :: 0 <= j < k ==> !IsAlarmTitle(feed.entries[j].title)
    ensures AlarmTimeOf(feed) == AlarmAt(feed.entries[k].start)
  {
  }

  /**
   * Entries after the first alarm event, alarm events among them, do not
   * change the result.
   */
  lemma LaterEventsIgnored(feed: Feed, k: nat, rest: seq<Event>)
    requires FirstAlarmEvent(feed.entries) == Some(k)
    ensures AlarmTimeOf(Feed(feed.totalResults, feed.entries[..k + 1] + rest)) == AlarmTimeOf(feed)
  {
    var es := feed.entries[..k + 1] + rest;
    assert forall j :: 0 <= j <= k ==> es[j] == feed.entries[j];
    if feed.totalResults != 0 {
      AlarmEventWins(Feed(feed.totalResults, es), k);
      AlarmEventWins(feed, k);
    }
  }

  /**
   * Without an alarm event, the alarm is the first entry's start moved by
   * the offset, 100 minutes earlier.
   */
  lemma OffsetFromFirstEvent(feed: Feed)
    requires feed.totalResults != 0 && |feed.entries| > 0
    requires forall j :: 0 <= j < |feed.entries| ==> !IsAlarmTitle(feed.entries[j].title)
    ensures AlarmTimeOf(feed) == AlarmAt(feed.entries[0].start - 100 * MsPerMinute)
  {
  }

  /** A feed that reports results but delivers no entry throws. */
  lemma MissingEntriesThrow(n: int)
    requires n != 0
    ensures AlarmTimeOf(Feed(n, [])) == Thrown
  {
  }

  /** Every alarm instant is the start of an alarm event or the offset start of the first entry. */
  lemma AlarmComesFromFeed(feed: Feed)
    requires AlarmTimeOf(feed).AlarmAt?
    ensures var t := AlarmTimeOf(feed).time;
      || (exists k :: 0 <= k < |feed.entries| && IsAlarmTitle(feed.entries[k].title) && t == feed.entries[k].start)
      || (|feed.entries| > 0 && t == feed.entries[0].start + AlarmOffsetFromEvent * MsPerMinute)
  {
    var m := FirstAlarmEvent(feed.entries);
    if m.Some? {
      assert IsAlarmTitle(feed.entries[m.value].title);
    }
  }

  /** The title match ignores letter case and nothing else. */
  lemma AlarmTitleExamples()
    ensures IsAlarmTitle("alarm") && IsAlarmTitle("ALARM") && IsAlarmTitle("Alarm")
    ensures !IsAlarmTitle("alarms") && !IsAlarmTitle(" alarm") && !IsAlarmTitle("") && !IsAlarmTitle("Lunch")
  {
    assert LowerCase("Lunch")[0] == 'l';
    assert LowerCase("alarm") == "alarm";
    assert LowerCase("ALARM") == "alarm";
    assert LowerCase("Alarm") == "alarm";
  }

  /** A 09:00 event and no alarm event give a 07:20 alarm. */
  lemma StandupExample()
    ensures AlarmTimeOf(Feed(1, [Event("Standup", 9 * MsPerHour)])) == AlarmAt(7 * MsPerHour + 20 * MsPerMinute)
  {
    OffsetFromFirstEvent(Feed(1, [Event("Standup", 9 * MsPerHour)]));
  }

  /** An alarm event at 06:30 wins over an earlier-listed 12:00 event. */
  lemma MarkerExample()
    ensures AlarmTimeOf(Feed(2, [Event("Lunch", 12 * MsPerHour), Event("alarm", 6 * MsPerHour + 30 * MsPerMinute)]))
      == AlarmAt(6 * MsPerHour + 30 * MsPerMinute)
  {
    var feed := Feed(2, [Event("Lunch", 12 * MsPerHour), Event("alarm", 6 * MsPerHour + 30 * MsPerMinute)]);
    AlarmTitleExamples();
    AlarmEventWins(feed, 1);
  }
}
