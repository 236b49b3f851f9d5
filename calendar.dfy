/**
  * Calendar arithmetic on minute instants, and the table that maps the form's
  * weekday names to the numbers `getDay` reports (Sunday is 0).
  */
module Calendar {
  import opened Types

  const MinutesPerDay: int := 1440

  /** Day 0, 1970-01-01, was a Thursday. */
  const EpochWeekday: int := 4

  /** The calendar day an instant falls on. */
  function DayOf(t: int): int { t / MinutesPerDay }

  /** Minutes since midnight of the instant's own day (`getHours() * 60 + getMinutes()`). */
  function MinuteOfDay(t: int): int { t % MinutesPerDay }

  /** Day `d` with its clock set to `minutes` after midnight (`setHours`), overflow carried. */
  function AtTime(d: int, minutes: int): int { d * MinutesPerDay + minutes }

  function WeekdayOfDay(d: int): int { (d + EpochWeekday) % 7 }

  /** The weekday of an instant (`getDay`). */
  function Weekday(t: int): int { WeekdayOfDay(DayOf(t)) }

  /** The start of the range: the start date at 00:00. */
  function RangeStart(c: Config): int { AtTime(c.startDay, 0) }

  /** The end of the range: the end date at 23:59 (23:59:59 on a whole-minute clock). */
  function RangeEnd(c: Config): int { AtTime(c.endDay, MinutesPerDay - 1) }

  /** What a time input yields: an hour 0-23 and a minute 0-59. */
  predicate ClockTime(hour: int, minute: int) { 0 <= hour < 24 && 0 <= minute < 60 }

  /** An instant set to a clock time on day `d` is on day `d` at that minute. */
  lemma AtTimeParts(d: int, m: int)
    requires 0 <= m < MinutesPerDay
    ensures DayOf(AtTime(d, m)) == d && MinuteOfDay(AtTime(d, m)) == m
  {
  }

  /** Every instant is its day's midnight plus its minute of day. */
  lemma Split(t: int)
    ensures t == AtTime(DayOf(t), MinuteOfDay(t)) && 0 <= MinuteOfDay(t) < MinutesPerDay
  {
  }

  /** The `dayMap` table of the form's weekday names. */
  function DayNumber(name: string): (n: Option<int>)
    ensures n.Some? ==> 0 <= n.value < 7
  {
    if name == "sunday" then Some(0)
    else if name == "monday" then Some(1)
    else if name == "tuesday" then Some(2)
    else if name == "wednesday" then Some(3)
    else if name == "thursday" then Some(4)
    else if name == "friday" then Some(5)
    else if name == "saturday" then Some(6)
    else None
  }

  /** The name the form uses for weekday `n`; a reference for the table above. */
  function DayName(n: int): string
    requires 0 <= n < 7
  {
    ["sunday", "monday", "tuesday", "wednesday", "thursday", "friday", "saturday"][n]
  }

  /** The table is a bijection between the seven names and the numbers 0-6; any other name is unmapped. */
  lemma DayNumberBijective(name: string, n: int)
    ensures DayNumber(name) == Some(n) <==> 0 <= n < 7 && name == DayName(n)
  {
  }

  /** `allowedDays.map(day => dayMap[day])`; an unknown name maps to nothing. */
  function AllowedDayNumbers(days: seq<string>): seq<Option<int>>
  {
    seq(|days|, i requires 0 <= i < |days| => DayNumber(days[i]))
  }

  /** `allowedDayNumbers.includes(w)`. */
  predicate IsAllowed(days: seq<string>, w: int)
  {
    Some(w) in AllowedDayNumbers(days)
  }

  /** A weekday is allowed exactly when its name was selected. */
  lemma IsAllowedIffNamed(days: seq<string>, w: int)
    ensures IsAllowed(days, w) <==> 0 <= w < 7 && DayName(w) in days
  {
    var nums := AllowedDayNumbers(days);
    if IsAllowed(days, w) {
      var i :| 0 <= i < |nums| && nums[i] == Some(w);
      DayNumberBijective(days[i], w);
    }
    if 0 <= w < 7 && DayName(w) in days {
      var i :| 0 <= i < |days| && days[i] == DayName(w);
      DayNumberBijective(days[i], w);
      assert nums[i] == Some(w);
    }
  }
}
