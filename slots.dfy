/**
  * Slot enumeration: one instant per qualifying calendar day of the range, at
  * the window's opening time. The automated planner spreads its items over these.
  */
module Slots {
  import opened Types
  import opened Calendar

  /** Whether day `d` contributes its window-open instant as a slot. */
  predicate KeepsDay(c: Config, d: int)
  {
    IsAllowed(c.allowedDays, WeekdayOfDay(d)) &&
    RangeStart(c) <= AtTime(d, c.window.From()) <= RangeEnd(c)
  }

  /** The slots of the days from the start date up to, but not including, day `d`. */
  function SlotsBefore(c: Config, d: int): seq<int>
    decreases d - c.startDay
  {
    if d <= c.startDay then []
    else SlotsBefore(c, d - 1) + (if KeepsDay(c, d - 1) then [AtTime(d - 1, c.window.From())] else [])
  }

  /** The slots of the whole range, start and end dates included. */
  function TimeSlots(c: Config): seq<int>
  {
    SlotsBefore(c, c.endDay + 1)
  }

  /** `calculateTimeSlots`: walk the range a day at a time and keep each allowed day's opening instant. */
  method CalculateTimeSlots(c: Config) returns (slots: seq<int>)
    ensures slots == TimeSlots(c)
  {
    slots := [];
    var startDate, endDate := RangeStart(c), RangeEnd(c);
    var from := c.window.From();
    var allowedDayNumbers := AllowedDayNumbers(c.allowedDays);
    var currentDate := startDate;
    ghost var d := c.startDay;
    while currentDate <= endDate
      invariant currentDate == AtTime(d, 0)
      invariant c.startDay <= d && (d <= c.endDay + 1 || d == c.startDay)
      invariant slots == SlotsBefore(c, d)
      decreases endDate - currentDate
    {
      AtTimeParts(d, 0);
      var dayOfWeek := Weekday(currentDate);
      if Some(dayOfWeek) in allowedDayNumbers {
        var slotDate := AtTime(DayOf(currentDate), from);
        if slotDate >= startDate && slotDate <= endDate {
          slots := slots + [slotDate];
        }
      }
      currentDate := currentDate + MinutesPerDay;
      d := d + 1;
    }
  }

  /** With a clock-time opening, every day of the range whose weekday is allowed is kept. */
  lemma KeepsDayInRange(c: Config, d: int)
    requires ClockTime(c.window.fromHour, c.window.fromMinute)
    requires c.startDay <= d <= c.endDay
    ensures KeepsDay(c, d) <==> IsAllowed(c.allowedDays, WeekdayOfDay(d))
  {
  }

  /** After the days before `d`, each slot is the opening of a kept day before `d`. */
  lemma {:induction false} SlotsBeforeDays(c: Config, d: int)
    requires ClockTime(c.window.fromHour, c.window.fromMinute)
    ensures forall i :: 0 <= i < |SlotsBefore(c, d)| ==>
      var t := SlotsBefore(c, d)[i];
      MinuteOfDay(t) == c.window.From() && c.startDay <= DayOf(t) < d && KeepsDay(c, DayOf(t))
    decreases d - c.startDay
  {
    if d > c.startDay {
      SlotsBeforeDays(c, d - 1);
      AtTimeParts(d - 1, c.window.From());
    }
  }

  /** After the days before `d`, the slots' days strictly increase. */
  lemma {:induction false} SlotsBeforeOrdered(c: Config, d: int)
    requires ClockTime(c.window.fromHour, c.window.fromMinute)
    ensures forall i, j :: 0 <= i < j < |SlotsBefore(c, d)| ==>
      DayOf(SlotsBefore(c, d)[i]) < DayOf(SlotsBefore(c, d)[j])
    decreases d - c.startDay
  {
    if d > c.startDay {
      SlotsBeforeOrdered(c, d - 1);
      SlotsBeforeDays(c, d - 1);
      AtTimeParts(d - 1, c.window.From());
    }
  }

  /** After the days before `d`, every kept day before `d` has its slot. */
  lemma {:induction false} SlotsBeforeComplete(c: Config, d: int)
    ensures forall e :: c.startDay <= e < d && KeepsDay(c, e) ==> AtTime(e, c.window.From()) in SlotsBefore(c, d)
    decreases d - c.startDay
  {
    if d > c.startDay {
      SlotsBeforeComplete(c, d - 1);
    }
  }

  /**
    * Each slot is at the window's opening minute on an allowed day of the
    * range; slots fall on strictly increasing days and strictly ascend.
    */
  lemma TimeSlotsSound(c: Config)
    requires ClockTime(c.window.fromHour, c.window.fromMinute)
    ensures forall i :: 0 <= i < |TimeSlots(c)| ==>
      MinuteOfDay(TimeSlots(c)[i]) == c.window.From() &&
      c.startDay <= DayOf(TimeSlots(c)[i]) <= c.endDay &&
      IsAllowed(c.allowedDays, Weekday(TimeSlots(c)[i])) &&
      RangeStart(c) <= TimeSlots(c)[i] <= RangeEnd(c)
    ensures forall i, j :: 0 <= i < j < |TimeSlots(c)| ==>
      DayOf(TimeSlots(c)[i]) < DayOf(TimeSlots(c)[j]) && TimeSlots(c)[i] < TimeSlots(c)[j]
  {
    var s := TimeSlots(c);
    var from := c.window.From();
    SlotsBeforeDays(c, c.endDay + 1);
    SlotsBeforeOrdered(c, c.endDay + 1);
    forall i | 0 <= i < |s|
      ensures s[i] == AtTime(DayOf(s[i]), from)
    {
      Split(s[i]);
    }
    forall i, j | 0 <= i < j < |s|
      ensures s[i] < s[j]
    {
      assert DayOf(s[i]) < DayOf(s[j]);
      assert s[i] == AtTime(DayOf(s[i]), from) && s[j] == AtTime(DayOf(s[j]), from);
    }
  }

  /** Every day of the range whose weekday is allowed yields a slot at the window's opening. */
  lemma TimeSlotsComplete(c: Config)
    requires ClockTime(c.window.fromHour, c.window.fromMinute)
    ensures forall d :: c.startDay <= d <= c.endDay && IsAllowed(c.allowedDays, WeekdayOfDay(d)) ==>
      AtTime(d, c.window.From()) in TimeSlots(c)
  {
    SlotsBeforeComplete(c, c.endDay + 1);
    forall d | c.startDay <= d <= c.endDay && IsAllowed(c.allowedDays, WeekdayOfDay(d))
      ensures KeepsDay(c, d)
    {
      KeepsDayInRange(c, d);
    }
  }
}
