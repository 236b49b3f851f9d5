/**
  * The manual planner: a cursor starts on the start date at the window's
  * opening and moves forward by a fixed frequency; it emits the configured batch
  * whenever it sits on an allowed weekday inside the window, and snaps to the
  * next day's opening whenever a move leaves the window.
  */
module Manual {
  import opened Types
  import opened Calendar

  /** A manual request whose window opens at a clock time, as a time input yields. */
  predicate OpensAtClockTime(c: Config)
  {
    c.mode.Manual? && ClockTime(c.window.fromHour, c.window.fromMinute)
  }

  /**
    * What the planner needs in order to stop: in addition, a positive
    * frequency. With a zero frequency the cursor stands still inside the
    * window forever (`ZeroFrequencyStalls`).
    */
  predicate ManualReady(c: Config)
  {
    OpensAtClockTime(c) && c.mode.frequencyMinutes > 0
  }

  /** The cursor's minute of day lies in the window, both ends included. */
  predicate InWindow(c: Config, t: int)
  {
    c.window.From() <= MinuteOfDay(t) <= c.window.To()
  }

  /** The cursor position at which an execution is emitted. */
  predicate Emits(c: Config, t: int)
  {
    IsAllowed(c.allowedDays, Weekday(t)) && InWindow(c, t)
  }

  /**
    * One move of the cursor: forward by the frequency and, if that leaves the
    * window, to the opening of the day after the one it landed on. The cursor
    * gains at least the frequency, and lands inside the window or at its opening.
    */
  function Advance(c: Config, t: int): (r: int)
    requires OpensAtClockTime(c)
    ensures r >= t + c.mode.frequencyMinutes
    ensures InWindow(c, r) || MinuteOfDay(r) == c.window.From()
  {
    var next := t + c.mode.frequencyMinutes;
    if !InWindow(c, next) then
      AtTimeParts(DayOf(next) + 1, c.window.From());
      AtTime(DayOf(next) + 1, c.window.From())
    else
      next
  }

  /** The executions emitted at cursor position `t` itself. */
  function EmittedAt(c: Config, t: int): seq<Execution>
    requires c.mode.Manual?
  {
    if Emits(c, t) then [Execution(t, c.mode.batchSize)] else []
  }

  /** The executions emitted from cursor position `t` on. */
  function ManualFrom(c: Config, t: int): seq<Execution>
    requires ManualReady(c)
    decreases RangeEnd(c) - t
  {
    if t > RangeEnd(c) then [] else EmittedAt(c, t) + ManualFrom(c, Advance(c, t))
  }

  /** The cursor's first position: the start date at the window's opening. */
  function FirstCursor(c: Config): int
  {
    AtTime(c.startDay, c.window.From())
  }

  /** The manual plan of a request. */
  function ManualSchedule(c: Config): seq<Execution>
    requires ManualReady(c)
  {
    ManualFrom(c, FirstCursor(c))
  }

  /**
    * One step of the cursor's path keeps "what was emitted so far, then the
    * rest of the path" equal to the whole plan.
    */
  lemma ManualFromStep(c: Config, before: seq<Execution>, t: int)
    requires ManualReady(c) && t <= RangeEnd(c)
    requires before + ManualFrom(c, t) == ManualSchedule(c)
    ensures (before + EmittedAt(c, t)) + ManualFrom(c, Advance(c, t)) == ManualSchedule(c)
  {
    ConcatAssociates(before, EmittedAt(c, t), ManualFrom(c, Advance(c, t)));
  }

  lemma ConcatAssociates(a: seq<Execution>, b: seq<Execution>, d: seq<Execution>)
    ensures (a + b) + d == a + (b + d)
  {
  }

  /**
    * The cursor move of `calculateManualSchedule`: add the frequency, snap to
    * the opening of the day after the landing day if outside the window. The
    * cursor gains at least the frequency and lands in the window or at its
    * opening; a landing before the opening skips the landing day.
    */
  method NextCursor(c: Config, currentDate: int) returns (next: int)
    requires OpensAtClockTime(c)
    ensures next >= currentDate + c.mode.frequencyMinutes
    ensures InWindow(c, next) || MinuteOfDay(next) == c.window.From()
    ensures MinuteOfDay(currentDate + c.mode.frequencyMinutes) < c.window.From() ==>
      DayOf(next) == DayOf(currentDate + c.mode.frequencyMinutes) + 1
    ensures next == Advance(c, currentDate)
  {
    var fromTime, toTime := c.window.From(), c.window.To();
    next := currentDate + c.mode.frequencyMinutes;
    var newTime := MinuteOfDay(next);
    if newTime < fromTime || newTime > toTime {
      AtTimeParts(DayOf(next) + 1, fromTime);
      next := AtTime(DayOf(next) + 1, fromTime);
    }
  }

  /** `calculateManualSchedule`. */
  method CalculateManualSchedule(c: Config) returns (executions: seq<Execution>)
    requires ManualReady(c)
    ensures executions == ManualSchedule(c)
  {
    executions := [];
    var endDate := RangeEnd(c);
    var fromTime, toTime := c.window.From(), c.window.To();
    var allowedDayNumbers := AllowedDayNumbers(c.allowedDays);
    var currentDate := FirstCursor(c);
    while currentDate <= endDate
      invariant executions + ManualFrom(c, currentDate) == ManualSchedule(c)
      decreases endDate - currentDate
    {
      ghost var cursor, before := currentDate, executions;
      var currentTime := MinuteOfDay(currentDate);
      if Some(Weekday(currentDate)) in allowedDayNumbers && currentTime >= fromTime && currentTime <= toTime {
        executions := executions + [Execution(currentDate, c.mode.batchSize)];
      }
      assert executions == before + EmittedAt(c, cursor);
      currentDate := NextCursor(c, currentDate);
      ManualFromStep(c, before, cursor);
    }
  }

  /**
    * Every execution from cursor `t` on is on an allowed weekday, inside the
    * window, carries the configured batch size and lies between `t` and the end
    * of the range; any two are at least the frequency apart.
    */
  lemma {:induction false} ManualFromSound(c: Config, t: int)
    requires ManualReady(c)
    ensures forall i :: 0 <= i < |ManualFrom(c, t)| ==>
      Emits(c, ManualFrom(c, t)[i].timestamp) &&
      ManualFrom(c, t)[i].batchSize == c.mode.batchSize &&
      t <= ManualFrom(c, t)[i].timestamp <= RangeEnd(c)
    ensures forall i, j :: 0 <= i < j < |ManualFrom(c, t)| ==>
      ManualFrom(c, t)[i].timestamp + c.mode.frequencyMinutes <= ManualFrom(c, t)[j].timestamp
    decreases RangeEnd(c) - t
  {
    if t <= RangeEnd(c) {
      ManualFromSound(c, Advance(c, t));
    }
  }

  /**
    * The manual plan: allowed weekdays only, inside the window, the configured
    * batch size, within the range, strictly ascending and at least the frequency apart.
    */
  lemma ManualScheduleSound(c: Config)
    requires ManualReady(c)
    ensures var s := ManualSchedule(c);
      forall i :: 0 <= i < |s| ==>
        IsAllowed(c.allowedDays, Weekday(s[i].timestamp)) &&
        c.window.From() <= MinuteOfDay(s[i].timestamp) <= c.window.To() &&
        s[i].batchSize == c.mode.batchSize &&
        RangeStart(c) <= s[i].timestamp <= RangeEnd(c)
    ensures var s := ManualSchedule(c);
      forall i, j :: 0 <= i < j < |s| ==>
        s[i].timestamp + c.mode.frequencyMinutes <= s[j].timestamp && s[i].timestamp < s[j].timestamp
  {
    ManualFromSound(c, FirstCursor(c));
  }

  /** When the frequency is longer than the window, no day gets two executions. */
  lemma ManualOnePerDay(c: Config)
    requires ManualReady(c)
    requires c.mode.frequencyMinutes > c.window.To() - c.window.From()
    ensures var s := ManualSchedule(c);
      forall i, j :: 0 <= i < j < |s| ==> DayOf(s[i].timestamp) < DayOf(s[j].timestamp)
  {
    var s := ManualSchedule(c);
    ManualScheduleSound(c);
    forall i, j | 0 <= i < j < |s|
      ensures DayOf(s[i].timestamp) < DayOf(s[j].timestamp)
    {
      Split(s[i].timestamp);
      Split(s[j].timestamp);
    }
  }

  /**
    * The snap's day skip, for every request: when a move from `t` lands
    * before the opening on day `D`, the snap goes to day `D + 1`, so no
    * execution from `t` on falls on day `D`, whatever its weekday.
    */
  lemma SnapSkipsLandingDay(c: Config, t: int)
    requires ManualReady(c)
    requires MinuteOfDay(t + c.mode.frequencyMinutes) < c.window.From()
    ensures forall i :: 0 <= i < |ManualFrom(c, t)| ==>
      DayOf(ManualFrom(c, t)[i].timestamp) != DayOf(t + c.mode.frequencyMinutes)
  {
    var landing := t + c.mode.frequencyMinutes;
    var d := DayOf(landing);
    if t <= RangeEnd(c) {
      var next := Advance(c, t);
      AtTimeParts(d + 1, c.window.From());
      assert DayOf(next) == d + 1;
      ManualFromSound(c, next);
      forall i | 0 <= i < |ManualFrom(c, next)|
        ensures DayOf(ManualFrom(c, next)[i].timestamp) > d
      {
        Split(ManualFrom(c, next)[i].timestamp);
      }
      if Emits(c, t) {
        Split(t);
        Split(landing);
        assert DayOf(t) != d;
      }
    }
  }

  /**
    * With a zero frequency and a window that is not inverted, the first cursor
    * lies inside the range and the move leaves it where it is: the loop's
    * condition `currentDate <= endDate` never becomes false.
    */
  lemma ZeroFrequencyStalls(c: Config)
    requires OpensAtClockTime(c) && c.mode.frequencyMinutes == 0
    requires c.window.From() <= c.window.To() && c.startDay <= c.endDay
    ensures FirstCursor(c) <= RangeEnd(c)
    ensures Advance(c, FirstCursor(c)) == FirstCursor(c)
  {
    AtTimeParts(c.startDay, c.window.From());
  }
}
