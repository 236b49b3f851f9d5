/**
  * The planning gate shared by the preview and the submission: the request is
  * checked in a fixed order, the mode's planner runs, and an empty plan is
  * reported instead of summarised.
  */
module Planning {
  import opened Types
  import opened Calendar
  import opened PlanSummary
  import opened Slots
  import opened Manual
  import opened Automated

  /** The outcome the user sees. */
  datatype Outcome =
    | InvalidDateRange
    | MissingFolder
    | NoDaysSelected
    | NoValidSlots
    | Planned(executions: seq<Execution>, summary: Summary)

  /** `validateDates`: the end date must come after the start date. */
  predicate DatesValid(c: Config)
  {
    c.endDay > c.startDay
  }

  /** The three checks made before any planning. */
  predicate PassesChecks(c: Config)
  {
    DatesValid(c) && |c.folder| > 0 && |c.allowedDays| > 0
  }

  /** The planner of the request's mode can run to completion. */
  predicate CanPlan(c: Config)
  {
    c.mode.Manual? ==> ManualReady(c)
  }

  /** The plan the request's mode produces. */
  function Schedule(c: Config): seq<Execution>
    requires CanPlan(c)
  {
    match c.mode
    case Manual(_, _) => ManualSchedule(c)
    case Automated(_) => AutomatedSchedule(c)
  }

  /**
    * The gate. Each rejection is reported exactly when every earlier check
    * passed and its own failed; a plan is reported only when it is non-empty,
    * together with its summary.
    */
  function Gate(c: Config): (o: Outcome)
    requires PassesChecks(c) ==> CanPlan(c)
    ensures o.InvalidDateRange? <==> c.endDay <= c.startDay
    ensures o.MissingFolder? <==> c.endDay > c.startDay && c.folder == ""
    ensures o.NoDaysSelected? <==> c.endDay > c.startDay && c.folder != "" && c.allowedDays == []
    ensures o.NoValidSlots? <==> PassesChecks(c) && Schedule(c) == []
    ensures o.Planned? <==> PassesChecks(c) && Schedule(c) != []
    ensures o.Planned? ==>
      o.executions == Schedule(c) && |o.executions| > 0 &&
      o.summary.totalExecutions == |o.executions| &&
      o.summary.totalItems == TotalItems(o.executions) &&
      o.summary.firstExecution == o.executions[0].timestamp &&
      o.summary.lastExecution == o.executions[|o.executions| - 1].timestamp
  {
    if !DatesValid(c) then InvalidDateRange
    else if |c.folder| == 0 then MissingFolder
    else if |c.allowedDays| == 0 then NoDaysSelected
    else
      var executions := Schedule(c);
      if |executions| == 0 then NoValidSlots
      else Planned(executions, Summarize(executions))
  }

  /** `generatePreview` / `handleSubmit` up to the hand-off: the gate, run with the planning methods. */
  method GeneratePlan(c: Config) returns (o: Outcome)
    requires PassesChecks(c) ==> CanPlan(c)
    ensures o == Gate(c)
  {
    if c.endDay <= c.startDay {
      return InvalidDateRange;
    }
    if |c.folder| == 0 {
      return MissingFolder;
    }
    if |c.allowedDays| == 0 {
      return NoDaysSelected;
    }
    var executions;
    if c.mode.Manual? {
      executions := CalculateManualSchedule(c);
    } else {
      executions := CalculateAutomatedSchedule(c);
    }
    if |executions| == 0 {
      return NoValidSlots;
    }
    o := Planned(executions, Summarize(executions));
  }

  /**
    * A reported plan is sound in either mode: every execution is on an allowed
    * weekday within the range, at or after the window's opening minute, the
    * timestamps ascend and the summary's first and last bound them; in manual
    * mode each run carries the batch size, in automated mode the items add up
    * to the total, which is then positive.
    */
  lemma PlannedSound(c: Config)
    requires PassesChecks(c) && CanPlan(c)
    requires ClockTime(c.window.fromHour, c.window.fromMinute)
    ensures var o := Gate(c);
      o.Planned? ==>
        Ascending(o.executions) &&
        (forall i :: 0 <= i < |o.executions| ==>
          var t := o.executions[i].timestamp;
          IsAllowed(c.allowedDays, Weekday(t)) && c.startDay <= DayOf(t) <= c.endDay &&
          c.window.From() <= MinuteOfDay(t) &&
          o.summary.firstExecution <= t <= o.summary.lastExecution) &&
        (c.mode.Manual? ==> o.summary.totalItems == o.summary.totalExecutions * c.mode.batchSize) &&
        (c.mode.Automated? ==> o.summary.totalItems == c.mode.totalCount > 0)
  {
    var o := Gate(c);
    if o.Planned? {
      var s := o.executions;
      if c.mode.Manual? {
        ManualScheduleSound(c);
        TotalItemsUniform(s, c.mode.batchSize);
        forall i | 0 <= i < |s|
          ensures c.startDay <= DayOf(s[i].timestamp) <= c.endDay
        {
          Split(s[i].timestamp);
        }
      } else {
        var slots := TimeSlots(c);
        if slots == [] || c.mode.totalCount < 0 {
          AutomatedScheduleEmpty(c);
          assert false;
        } else {
          AutomatedScheduleSound(c);
          AutomatedScheduleTotal(c);
          DistributeExact(slots, c.mode.totalCount);
        }
      }
      assert Ascending(s);
    }
  }
}
