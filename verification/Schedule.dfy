/**
 When a schedule runs next (src/domain/schedule.go), in a zone with a fixed offset. Instants are numbers of nanoseconds;
 day 0 of the count is a Thursday.
 */
module Schedule {
  import opened Basics

  const SECOND := 1_000_000_000
  const MINUTE := 60_000_000_000
  const DAY := 86_400_000_000_000
  const MIN_INTERVAL := 1
  const MAX_INTERVAL := 10080

  datatype Frequency = Interval | Daily | Weekly | Unsupported

  /** The time of day as it is written, hours and minutes apart. */
  datatype Recurrence = Recurrence(frequency: Frequency, intervalMinutes: int, hour: int, minute: int,
      weekdays: seq<int>)

  predicate TimeOk(r: Recurrence) {
    0 <= r.hour <= 23 && 0 <= r.minute <= 59
  }

  predicate Acceptable(r: Recurrence) {
    match r.frequency
    case Interval => MIN_INTERVAL <= r.intervalMinutes <= MAX_INTERVAL
    case Daily => TimeOk(r)
    case Weekly => TimeOk(r) && r.weekdays != [] && forall d :: d in r.weekdays ==> 0 <= d <= 6
    case Unsupported => false
  }

  /** Every whole number of minutes up to a week, every minute of a day, and every choice of weekdays but none. */
  lemma AcceptableExactly(r: Recurrence)
    ensures r.frequency.Interval? ==> (Acceptable(r) <==> 0 < r.intervalMinutes < 7 * 24 * 60 + 1)
    ensures r.frequency.Daily? ==> (Acceptable(r) <==> !(r.hour < 0 || r.minute < 0 || 24 <= r.hour || 60 <= r.minute))
    ensures r.frequency.Weekly? ==> (Acceptable(r) <==>
        && Acceptable(r.(frequency := Daily)) && |r.weekdays| > 0
        && forall d :: d in r.weekdays ==> d in {0, 1, 2, 3, 4, 5, 6})
    ensures r.frequency.Unsupported? ==> !Acceptable(r)
  {
  }

  // ---- Days ----

  function DayOf(instant: int, zone: int): int {
    (instant + zone) / DAY
  }

  function WeekdayOf(day: int): int {
    (day + 4) % 7
  }

  /** The instant of a time of day on a day. */
  function OnDay(day: int, hour: int, minute: int, zone: int): int {
    day * DAY + (hour * 60 + minute) * MINUTE - zone
  }

  /** The instant shows the time of day and falls on an allowed weekday. */
  predicate Occurs(t: int, hour: int, minute: int, zone: int, days: set<int>) {
    t == OnDay(DayOf(t, zone), hour, minute, zone) && WeekdayOf(DayOf(t, zone)) in days
  }

  const EVERY_DAY := {0, 1, 2, 3, 4, 5, 6}

  /** Day 0 is a Thursday, the first day of the year 2000 a Saturday, and the days of the week follow each other. */
  lemma Weekdays(day: int)
    ensures WeekdayOf(0) == 4 && WeekdayOf(10957) == 6 && 0 <= WeekdayOf(day) <= 6
    ensures WeekdayOf(day + 1) == if WeekdayOf(day) == 6 then 0 else WeekdayOf(day) + 1
  {
  }

  lemma OnTheMinute(minutes: int)
    ensures (minutes * MINUTE) % MINUTE == 0
  {
  }

  /** Within its day the instant is so many hours and minutes behind midnight, on the minute. */
  lemma ShowsTime(day: int, hour: int, minute: int, zone: int)
    requires 0 <= hour <= 23 && 0 <= minute <= 59
    ensures var t := OnDay(day, hour, minute, zone);
            && DayOf(t, zone) == day && t + zone == day * (24 * 60 * MINUTE) + (hour * 60 + minute) * MINUTE
            && (t + zone) % MINUTE == 0
  {
    DayOfOnDay(day, hour, minute, zone);
    OnTheMinute(day * 1440 + (hour * 60 + minute));
  }

  lemma DayOfOnDay(day: int, hour: int, minute: int, zone: int)
    requires 0 <= hour <= 23 && 0 <= minute <= 59
    ensures DayOf(OnDay(day, hour, minute, zone), zone) == day
  {
    var rest := (hour * 60 + minute) * MINUTE;
    assert 0 <= rest < DAY;
    assert (day * DAY + rest) / DAY == day;
  }

  /** The next occurrence: none of its kind lies between. */
  predicate NextAfter(t: int, after: int, hour: int, minute: int, zone: int, days: set<int>) {
    after < t && Occurs(t, hour, minute, zone, days)
  }

  ghost predicate LeastAfter(t: int, after: int, hour: int, minute: int, zone: int, days: set<int>) {
    NextAfter(t, after, hour, minute, zone, days) && forall u ::
        NextAfter(u, after, hour, minute, zone, days) ==> t <= u
  }

  /** The days from one to another hold no occurrence. */
  predicate NoneOn(first: int, end: int, after: int, hour: int, minute: int, zone: int, days: set<int>) {
    forall day :: first <= day < end ==> !NextAfter(OnDay(day, hour, minute, zone), after, hour, minute, zone, days)
  }

  /** A scan over days that starts on the day of the argument finds the least occurrence. */
  lemma ScanFinds(after: int, k: nat, hour: int, minute: int, zone: int, days: set<int>)
    requires 0 <= hour <= 23 && 0 <= minute <= 59
    requires NextAfter(OnDay(DayOf(after, zone) + k, hour, minute, zone), after, hour, minute, zone, days)
    requires NoneOn(DayOf(after, zone), DayOf(after, zone) + k, after, hour, minute, zone, days)
    ensures LeastAfter(OnDay(DayOf(after, zone) + k, hour, minute, zone), after, hour, minute, zone, days)
  {
    var today := DayOf(after, zone);
    forall u | NextAfter(u, after, hour, minute, zone, days) ensures OnDay(today + k, hour, minute, zone) <= u {
      var day := DayOf(u, zone);
      assert today <= day;
      assert u == OnDay(day, hour, minute, zone);
      assert today + k <= day;
    }
  }

  /** An occurrence on any later day than that of the argument lies behind the argument. */
  lemma LaterDay(after: int, k: nat, hour: int, minute: int, zone: int, days: set<int>)
    requires 0 <= hour <= 23 && 0 <= minute <= 59 && 1 <= k
    ensures after < OnDay(DayOf(after, zone) + k, hour, minute, zone)
    ensures WeekdayOf(DayOf(after, zone) + k) in days ==>
              NextAfter(OnDay(DayOf(after, zone) + k, hour, minute, zone), after, hour, minute, zone, days)
  {
    DayOfOnDay(DayOf(after, zone) + k, hour, minute, zone);
  }

  lemma DailyFinds(after: int, k: nat, hour: int, minute: int, zone: int)
    requires 0 <= hour <= 23 && 0 <= minute <= 59 && after < OnDay(DayOf(after, zone) + k, hour, minute, zone)
    requires NoneOn(DayOf(after, zone), DayOf(after, zone) + k, after, hour, minute, zone, EVERY_DAY)
    ensures LeastAfter(OnDay(DayOf(after, zone) + k, hour, minute, zone), after, hour, minute, zone, EVERY_DAY)
  {
    DayOfOnDay(DayOf(after, zone) + k, hour, minute, zone);
    Weekdays(DayOf(after, zone) + k);
    ScanFinds(after, k, hour, minute, zone, EVERY_DAY);
  }

  /** Every weekday falls on one of the seven days after today. */
  lemma WeekdayWithinWeek(today: int, weekday: int) returns (k: nat)
    requires 0 <= weekday <= 6
    ensures 1 <= k <= 7 && WeekdayOf(today + k) == weekday
  {
    k := (weekday - WeekdayOf(today) + 6) % 7 + 1;
  }

  function Days(values: seq<int>): set<int> {
    set d | d in values
  }

  // ---- The source's own form ----

  lemma SameDays(values: seq<int>, days: set<int>, sorted: seq<int>)
    requires days == Days(values) && values != [] && forall d :: d in sorted <==> d in days
    ensures sorted != [] && Days(sorted) == Days(values)
  {
    var first := values[0];
    assert first in values && first in days;
    assert first in sorted;
    forall d ensures d in Days(sorted) <==> d in days {
    }
  }

  /** Weekdays in order and without repetition. */
  method NormalizeWeekdays(values: seq<int>) returns (days: Option<seq<int>>)
    ensures days.Some? <==> values != [] && forall d :: d in values ==> 0 <= d <= 6
    ensures days.Some? ==> days.value != [] && Increasing(days.value) && Days(days.value) == Days(values)
  {
    var seen := {};
    for i := 0 to |values|
      invariant seen == Days(values[..i])
      invariant forall d :: d in values[..i] ==> 0 <= d <= 6
    {
      assert values[..i + 1] == values[..i] + [values[i]];
      if values[i] < 0 || values[i] > 6 {
        assert values[i] in values;
        return None;
      }
      seen := seen + {values[i]};
    }
    assert values[..|values|] == values;
    if |values| == 0 {
      return None;
    }
    var sorted := Sorted(seen);
    SameDays(values, seen, sorted);
    return Some(sorted);
  }

  /** The next time a schedule runs. It fails exactly when the recurrence is not acceptable; the ends of the scans are
      never reached. */
  method Next(r: Recurrence, after: int, zone: int) returns (next: Option<int>)
    ensures next.Some? <==> Acceptable(r)
    ensures next.Some? && r.frequency.Interval? ==>
        next.value == after + r.intervalMinutes * MINUTE && after < next.value
    ensures next.Some? && r.frequency.Daily? ==> LeastAfter(next.value, after, r.hour, r.minute, zone, EVERY_DAY)
    ensures next.Some? && r.frequency.Weekly? ==>
        LeastAfter(next.value, after, r.hour, r.minute, zone, Days(r.weekdays))
    ensures next.Some? ==> after < next.value
    ensures next.Some? && r.frequency.Weekly? ==> WeekdayOf(DayOf(next.value, zone)) in r.weekdays
  {
    match r.frequency {
      case Interval =>
        if r.intervalMinutes < MIN_INTERVAL || r.intervalMinutes > MAX_INTERVAL {
          return None;
        }
        return Some(after + r.intervalMinutes * MINUTE);
      case Daily =>
        if !TimeOk(r) {
          return None;
        }
        next := NextDaily(r.hour, r.minute, after, zone);
      case Weekly =>
        if !TimeOk(r) {
          return None;
        }
        var days := NormalizeWeekdays(r.weekdays);
        if days.None? {
          return None;
        }
        assert forall d :: d in days.value ==> d in Days(days.value);
        next := NextWeekly(r.hour, r.minute, days.value, after, zone);
      case Unsupported => return None;
    }
  }

  /** Today or tomorrow is enough. */
  method NextDaily(hour: int, minute: int, after: int, zone: int) returns (next: Option<int>)
    requires 0 <= hour <= 23 && 0 <= minute <= 59
    ensures next.Some? && LeastAfter(next.value, after, hour, minute, zone, EVERY_DAY)
  {
    ghost var today := DayOf(after, zone);
    LaterDay(after, 1, hour, minute, zone, EVERY_DAY);
    for offset := 0 to 2
      invariant NoneOn(today, today + offset, after, hour, minute, zone, EVERY_DAY) && offset <= 1
    {
      var candidate := WallClock(after, zone, offset, hour, minute);
      if candidate > after {
        DailyFinds(after, offset, hour, minute, zone);
        return Some(candidate);
      }
    }
    assert false;
  }

  /** The same weekday of next week is enough. */
  method NextWeekly(hour: int, minute: int, weekdays: seq<int>, after: int, zone: int) returns (next: Option<int>)
    requires 0 <= hour <= 23 && 0 <= minute <= 59 && weekdays != [] && forall d :: d in weekdays ==> 0 <= d <= 6
    ensures next.Some? && LeastAfter(next.value, after, hour, minute, zone, Days(weekdays))
  {
    var days := Days(weekdays);
    ghost var today := DayOf(after, zone);
    ghost var weekday := weekdays[0];
    assert weekday in weekdays;
    ghost var k := WeekdayWithinWeek(today, weekday);
    LaterDay(after, k, hour, minute, zone, days);
    for offset := 0 to 8
      invariant offset <= k
      invariant NoneOn(today, today + offset, after, hour, minute, zone, days)
    {
      var candidate := WallClock(after, zone, offset, hour, minute);
      if WeekdayOf(DayOf(candidate, zone)) !in days {
        continue;
      }
      if candidate > after {
        ScanFinds(after, offset, hour, minute, zone, days);
        return Some(candidate);
      }
    }
    assert false;
  }

  /** The time of day, some days after the day of a reference. */
  method WallClock(reference: int, zone: int, dayOffset: nat, hour: int, minute: int) returns (t: int)
    requires 0 <= hour <= 23 && 0 <= minute <= 59
    ensures t == OnDay(DayOf(reference, zone) + dayOffset, hour, minute, zone)
    ensures DayOf(t, zone) == DayOf(reference, zone) + dayOffset && 0 <= WeekdayOf(DayOf(t, zone)) <= 6
  {
    t := OnDay(DayOf(reference, zone) + dayOffset, hour, minute, zone);
    DayOfOnDay(DayOf(reference, zone) + dayOffset, hour, minute, zone);
  }
}
