/**
  * Worked requests, evaluated through the model. Day 19723 is Monday
  * 2024-01-01; a clock time of 09:00 is minute 540.
  */
module Scenarios {
  import opened Types
  import opened Calendar
  import opened PlanSummary
  import opened Slots
  import opened Manual
  import opened Automated
  import opened Planning

  const Monday: int := 19723
  const NineAm: int := 540

  function MonWedFri(total: int): Config
  {
    Config("folder-1", Automated(total), Monday, Monday + 6,
      ["monday", "wednesday", "friday"], Window(9, 0, 9, 0))
  }

  /** In that week, exactly Monday, Wednesday and Friday are kept. */
  lemma MonWedFriKeeps(total: int, d: int)
    requires Monday <= d <= Monday + 6
    ensures KeepsDay(MonWedFri(total), d) <==> d == Monday || d == Monday + 2 || d == Monday + 4
  {
    IsAllowedIffNamed(MonWedFri(total).allowedDays, WeekdayOfDay(d));
  }

  /** A week with Monday, Wednesday and Friday allowed has three slots, at 09:00 on those days. */
  lemma WeekSlots(total: int)
    ensures TimeSlots(MonWedFri(total)) ==
      [AtTime(Monday, NineAm), AtTime(Monday + 2, NineAm), AtTime(Monday + 4, NineAm)]
  {
    var c := MonWedFri(total);
    MonWedFriKeeps(total, Monday);
    MonWedFriKeeps(total, Monday + 1);
    MonWedFriKeeps(total, Monday + 2);
    MonWedFriKeeps(total, Monday + 3);
    MonWedFriKeeps(total, Monday + 4);
    MonWedFriKeeps(total, Monday + 5);
    MonWedFriKeeps(total, Monday + 6);
    assert SlotsBefore(c, Monday + 1) == [AtTime(Monday, NineAm)];
    assert SlotsBefore(c, Monday + 2) == SlotsBefore(c, Monday + 1);
    assert SlotsBefore(c, Monday + 3) == SlotsBefore(c, Monday + 2) + [AtTime(Monday + 2, NineAm)];
    assert SlotsBefore(c, Monday + 4) == SlotsBefore(c, Monday + 3);
    assert SlotsBefore(c, Monday + 5) == SlotsBefore(c, Monday + 4) + [AtTime(Monday + 4, NineAm)];
    assert SlotsBefore(c, Monday + 6) == SlotsBefore(c, Monday + 5);
    assert SlotsBefore(c, Monday + 7) == SlotsBefore(c, Monday + 6);
  }

  /** Ten items over those three slots: four, three, three, the extra item on Monday. */
  lemma TenItemsOverThreeSlots()
    ensures AutomatedSchedule(MonWedFri(10)) ==
      [Execution(AtTime(Monday, NineAm), 4), Execution(AtTime(Monday + 2, NineAm), 3),
       Execution(AtTime(Monday + 4, NineAm), 3)]
  {
    WeekSlots(10);
  }

  /** Two items over three slots: one each on Monday and Wednesday; Friday's empty slot is dropped. */
  lemma TwoItemsOverThreeSlots()
    ensures AutomatedSchedule(MonWedFri(2)) ==
      [Execution(AtTime(Monday, NineAm), 1), Execution(AtTime(Monday + 2, NineAm), 1)]
  {
    WeekSlots(2);
  }

  /** Every four hours from 09:00 to 17:00 on one Monday: 09:00, 13:00 and 17:00, the end included. */
  lemma EveryFourHoursOnOneMonday()
    ensures var c := Config("folder-1", Manual(5, 240), Monday, Monday, ["monday"], Window(9, 0, 17, 0));
      ManualSchedule(c) ==
        [Execution(AtTime(Monday, NineAm), 5), Execution(AtTime(Monday, 780), 5),
         Execution(AtTime(Monday, 1020), 5)]
  {
    var c := Config("folder-1", Manual(5, 240), Monday, Monday, ["monday"], Window(9, 0, 17, 0));
    var t0, t1, t2 := AtTime(Monday, NineAm), AtTime(Monday, 780), AtTime(Monday, 1020);
    AtTimeParts(Monday, NineAm);
    AtTimeParts(Monday, 780);
    AtTimeParts(Monday, 1020);
    AtTimeParts(Monday, 1260);
    AtTimeParts(Monday + 1, NineAm);
    IsAllowedIffNamed(c.allowedDays, 1);
    assert Weekday(t0) == 1 && Weekday(t1) == 1 && Weekday(t2) == 1;
    assert Advance(c, t0) == t1 && Advance(c, t1) == t2;
    assert Advance(c, t2) == AtTime(Monday + 1, NineAm);
    assert ManualFrom(c, AtTime(Monday + 1, NineAm)) == [];
    assert ManualFrom(c, t2) == [Execution(t2, 5)];
    assert ManualFrom(c, t1) == [Execution(t1, 5), Execution(t2, 5)];
    assert ManualFrom(c, t0) == [Execution(t0, 5), Execution(t1, 5), Execution(t2, 5)];
  }

  /**
    * The day-skip quirk: with every day allowed, a 09:00-17:00 window and a
    * 20-hour frequency, the move from Monday 09:00 lands on Tuesday 05:00,
    * before the window, and the snap goes on to Wednesday: Tuesday gets nothing.
    */
  lemma TwentyHourFrequencySkipsTuesday()
    ensures var c := Config("folder-1", Manual(5, 1200), Monday, Monday + 2,
        ["sunday", "monday", "tuesday", "wednesday", "thursday", "friday", "saturday"],
        Window(9, 0, 17, 0));
      ManualSchedule(c) ==
        [Execution(AtTime(Monday, NineAm), 5), Execution(AtTime(Monday + 2, NineAm), 5)]
  {
    var c := Config("folder-1", Manual(5, 1200), Monday, Monday + 2,
        ["sunday", "monday", "tuesday", "wednesday", "thursday", "friday", "saturday"],
        Window(9, 0, 17, 0));
    var t0, t1 := AtTime(Monday, NineAm), AtTime(Monday + 2, NineAm);
    AtTimeParts(Monday, NineAm);
    AtTimeParts(Monday + 1, 300);
    AtTimeParts(Monday + 2, NineAm);
    AtTimeParts(Monday + 3, 300);
    AtTimeParts(Monday + 4, NineAm);
    IsAllowedIffNamed(c.allowedDays, 1);
    IsAllowedIffNamed(c.allowedDays, 3);
    assert Weekday(t0) == 1 && Weekday(t1) == 3;
    assert Advance(c, t0) == t1;
    assert Advance(c, t1) == AtTime(Monday + 4, NineAm);
    assert ManualFrom(c, AtTime(Monday + 4, NineAm)) == [];
    assert ManualFrom(c, t1) == [Execution(t1, 5)];
    assert ManualFrom(c, t0) == [Execution(t0, 5), Execution(t1, 5)];
  }

  /** A one-day range is rejected before planning. */
  lemma SameDayRangeRejected(c: Config)
    requires c.startDay == c.endDay
    ensures Gate(c) == InvalidDateRange
  {
  }

  /** Only Sunday allowed over a Monday-Tuesday range: no valid slots. */
  lemma SundayOnlyOverMondayTuesday()
    ensures Gate(Config("folder-1", Automated(10), Monday, Monday + 1, ["sunday"], Window(9, 0, 17, 0)))
      == NoValidSlots
  {
    var c := Config("folder-1", Automated(10), Monday, Monday + 1, ["sunday"], Window(9, 0, 17, 0));
    assert !IsAllowed(c.allowedDays, WeekdayOfDay(Monday));
    assert !IsAllowed(c.allowedDays, WeekdayOfDay(Monday + 1));
    assert SlotsBefore(c, Monday + 1) == [];
    assert TimeSlots(c) == [];
  }

  /**
    * Walking through a disallowed day can cost the allowed day after it.
    * From Sunday 09:00 every 20 hours with Tuesday not allowed: the move lands
    * on Monday 05:00 and snaps to Tuesday 09:00, which emits nothing; the next
    * move lands on Wednesday 05:00 and snaps to Thursday, so Wednesday gets
    * nothing although it is allowed.
    */
  lemma DisallowedTuesdayCostsWednesday()
    ensures var c := Config("folder-1", Manual(5, 1200), Monday - 1, Monday + 3,
        ["sunday", "monday", "wednesday", "thursday"], Window(9, 0, 17, 0));
      ManualSchedule(c) ==
        [Execution(AtTime(Monday - 1, NineAm), 5), Execution(AtTime(Monday + 3, NineAm), 5)]
  {
    var c := Config("folder-1", Manual(5, 1200), Monday - 1, Monday + 3,
        ["sunday", "monday", "wednesday", "thursday"], Window(9, 0, 17, 0));
    var t0, t1, t2, t3 := AtTime(Monday - 1, NineAm), AtTime(Monday + 1, NineAm),
      AtTime(Monday + 3, NineAm), AtTime(Monday + 5, NineAm);
    AtTimeParts(Monday - 1, NineAm);
    AtTimeParts(Monday, 300);
    AtTimeParts(Monday + 1, NineAm);
    AtTimeParts(Monday + 2, 300);
    AtTimeParts(Monday + 3, NineAm);
    AtTimeParts(Monday + 4, 300);
    AtTimeParts(Monday + 5, NineAm);
    IsAllowedIffNamed(c.allowedDays, 0);
    IsAllowedIffNamed(c.allowedDays, 2);
    IsAllowedIffNamed(c.allowedDays, 4);
    assert Weekday(t0) == 0 && Weekday(t1) == 2 && Weekday(t2) == 4;
    assert Advance(c, t0) == t1;
    assert Advance(c, t1) == t2;
    assert Advance(c, t2) == t3;
    assert ManualFrom(c, t3) == [];
    assert ManualFrom(c, t2) == [Execution(t2, 5)];
    assert ManualFrom(c, t1) == [Execution(t2, 5)];
    assert ManualFrom(c, t0) == [Execution(t0, 5), Execution(t2, 5)];
  }
}
