# Drip-mode scheduler: the planning core in Dafny

This project models the scheduling core of the drip-mode scheduler's
`IntegratedScheduler` (`app.js`): the slot enumerator, the manual
(fixed-frequency) planner, the automated (even-distribution) planner, the plan
summary, and the gate that `generatePreview` and `handleSubmit` run before
they hand a plan on.

Time is abstracted to whole minutes since 1970-01-01 00:00 local wall-clock
time. A calendar date is a day number from that date. `DayOf(t) = t / 1440`,
`MinuteOfDay(t) = t % 1440` (floor division, so dates before 1970 work too),
and the weekday is `(day + 4) % 7`, because 1970-01-01 was a Thursday and
`getDay` numbers Sunday 0. `setHours(h, m, 0, 0)` on day `d` is
`AtTime(d, h * 60 + m)`, with overflow carried as JavaScript carries it. The
range runs from the start date at 00:00 to the end date at 23:59; on a
whole-minute clock that is the same bound as 23:59:59.

Modules, in dependency order:

- `Types` (types.dfy): the request (`Config`), the window, the two modes and `Execution`.
- `Calendar` (calendar.dfy): minute/day arithmetic and the weekday-name table.
- `PlanSummary` (summary.dfy): the `reduce` over batch sizes and the summary record.
- `Slots` (slots.dfy): `calculateTimeSlots`.
- `Manual` (manual.dfy): `calculateManualSchedule`.
- `Automated` (automated.dfy): `calculateAutomatedSchedule`.
- `Planning` (planning.dfy): the checks, the mode dispatch, and the "no valid slots" outcome.
- `Scenarios` (scenarios.dfy): worked requests evaluated through the model.

Each planner is a method with a loop. It is proved equal to a recursive
function: `CalculateTimeSlots` to `TimeSlots`, `CalculateManualSchedule` to
`ManualSchedule`, and `CalculateAutomatedSchedule` to `AutomatedSchedule`. The
properties the source promises are lemmas about those functions. The summary
and the gate are functions.

Behaviour of the code that the model keeps:

- Slot enumeration never reads the window's closing time. Automated slots sit
  at the opening minute even when it is later than the closing minute.
- The manual planner's snap moves the cursor to the day after the one the move
  landed on. So a move that crosses midnight and lands before the opening skips
  that whole day. `Scenarios.TwentyHourFrequencySkipsTuesday` shows this.
- The snap does not check the new day's weekday. The cursor may land on a
  disallowed day and then walk through it without emitting anything. That walk
  can cost the next day too: if the following move crosses midnight and lands
  before the opening, the snap skips that day even when it is allowed.
  `Manual.SnapSkipsLandingDay` states the skip for every request, and
  `Scenarios.DisallowedTuesdayCostsWednesday` shows an allowed Wednesday lost
  after a disallowed Tuesday.
- `totalCount % n` truncates as JavaScript's `%` does. A negative total
  therefore gives every slot a negative share, and the plan is empty.
- The code does not require `from <= to`. With an inverted window the manual
  planner emits nothing and the automated planner is unaffected. The model
  does not require it either.

## Model

| member | source | states |
|---|---|---|
| `Calendar.DayNumber` | app.js:194-197 | the name table maps only into the weekday numbers 0-6 |
| `Calendar.DayNumberBijective` | app.js:194-197 | a name maps to `n` exactly when `n` is 0-6 and the name is that weekday's lower-case name; every other name maps to nothing |
| `Calendar.IsAllowedIffNamed` | app.js:199 | a weekday passes `allowedDayNumbers.includes` exactly when its name was selected |
| `Slots.CalculateTimeSlots` | app.js:186-219 | the day-by-day walk over the range returns exactly `TimeSlots`, the day-ordered slots of the kept days |
| `Slots.KeepsDayInRange` | app.js:207-212 | with an opening at a clock time, the range check never drops a day of the range: a day is kept exactly when its weekday is allowed |
| `Slots.SlotsBeforeDays` | app.js:203-213 | after the days before `d`, each slot is at the opening minute of a kept day before `d` |
| `Slots.SlotsBeforeOrdered` | app.js:203-216 | after the days before `d`, the slots' days strictly increase |
| `Slots.SlotsBeforeComplete` | app.js:203-216 | after the days before `d`, every kept day before `d` has its slot |
| `Slots.TimeSlotsSound` | app.js:201-216 | each slot is at the opening minute of an allowed day within [start 00:00, end 23:59]; slots are on strictly increasing days, so at most one per day, and strictly ascend |
| `Slots.TimeSlotsComplete` | app.js:201-216 | every day of the range whose weekday is allowed yields a slot at the opening minute |
| `Manual.Advance` | app.js:259-270 | a move gains at least the frequency, and lands inside the window or at its opening minute |
| `Manual.NextCursor` | app.js:259-270 | the source's move gains at least the frequency and lands in the window or at its opening; a landing before the opening moves the cursor to the day after the landing day; the move is `Advance` |
| `Manual.SnapSkipsLandingDay` | app.js:259-269 | when a move lands before the opening on some day, no execution from the moving cursor on falls on that day, whatever its weekday |
| `Manual.ZeroFrequencyStalls` | app.js:238-270 | with a zero frequency and `from <= to`, the first cursor is inside the range and the move leaves it where it is, so the loop never ends |
| `Manual.ManualFromStep` | app.js:249-270 | one loop turn keeps "emitted so far, then the rest of the cursor's path" equal to the whole plan |
| `Manual.CalculateManualSchedule` | app.js:222-274 | the cursor loop returns exactly `ManualSchedule`, the executions of the cursor's path from the start date's opening to the range's end |
| `Manual.ManualFromSound` | app.js:241-271 | from any cursor position, each execution is on an allowed weekday, inside the window, carries the batch size, and lies between that position and the range's end; any two are at least the frequency apart |
| `Manual.ManualScheduleSound` | app.js:238-271 | manual executions are on allowed weekdays, with a minute of day in [from, to], the configured batch size, inside the range, strictly ascending and at least the frequency apart |
| `Manual.ManualOnePerDay` | app.js:259-270 | when the frequency is longer than the window, no two executions fall on the same day |
| `Automated.JsRemainder` | app.js:288 | the remainder of division truncated toward zero: `a = n * trunc(a / n) + r`, with `|r| < n` and `r` taking the sign of `a` |
| `Automated.CalculateAutomatedSchedule` | app.js:277-303 | the slot loop returns exactly `AutomatedSchedule`, the distribution of the total over `TimeSlots`, which is empty when there are no slots |
| `Automated.BatchSizesBalanced` | app.js:287-292 | shares never grow along the slots and differ by at most one; a slot gets `base + 1` exactly when its index is below `total % n`, and `base` otherwise |
| `Automated.PlanPrefixShape` | app.js:290-300 | over the first `k` slots there are `min(k, total)` executions, and execution `m` is slot `m` with its share: zero shares form a suffix that is dropped, and slot order is kept |
| `Automated.PlanPrefixItems` | app.js:287-299 | the first `k` slots hold `k * base + min(k, remainder)` items |
| `Automated.DistributeExact` | app.js:287-299 | with at least one slot and a non-negative total, the emitted sizes sum to exactly the total; there are `min(n, total)` executions, each at least one item, at its slot |
| `Automated.NegativeTotalPlansNothing` | app.js:287-299 | a negative total emits nothing |
| `Automated.AutomatedScheduleEmpty` | app.js:280-284 | with no slots, or with a negative total, the automated plan is empty |
| `Automated.AutomatedScheduleTotal` | app.js:286-302 | with at least one slot and a non-negative total, the emitted batch sizes sum to exactly the total |
| `Automated.AutomatedScheduleSound` | app.js:277-303 | automated executions are at the opening minute of allowed days of the range, on strictly increasing days, strictly ascending, each of at least one item |
| `PlanSummary.TotalItems` | app.js:344 | the left fold of batch sizes from 0 is non-negative when every size is |
| `PlanSummary.TotalItemsUniform` | app.js:465 | when every batch has the same size, the total items are that size times the number of executions |
| `PlanSummary.Summarize` | app.js:463-468 | the summary counts the executions, and on an ascending list its first and last timestamps bound every execution's |
| `Planning.Gate` | app.js:424-454 | rejects a range whose end is not after its start; then an empty folder; then an empty day selection; then reports "no valid slots" exactly when the mode's plan is empty, and otherwise returns the plan with its summary |
| `Planning.GeneratePlan` | app.js:305-337 | the checks followed by the planning methods give exactly the outcome `Gate` describes |
| `Planning.PlannedSound` | app.js:443-468 | a reported plan is ascending; its executions are on allowed weekdays within the range, at or after the opening minute, and between the summary's first and last; manual items are count times batch size; automated items equal a positive total |
| `Scenarios.WeekSlots` | app.js:201-216 | a Monday-to-Sunday week with Monday, Wednesday and Friday allowed has three slots, at 09:00 on those days |
| `Scenarios.TenItemsOverThreeSlots` | app.js:287-299 | ten items over those slots give 4, 3 and 3 |
| `Scenarios.TwoItemsOverThreeSlots` | app.js:292-299 | two items give one each on Monday and Wednesday, and Friday's zero share is dropped |
| `Scenarios.EveryFourHoursOnOneMonday` | app.js:241-271 | a 4-hour frequency in a 09:00-17:00 window on one Monday gives 09:00, 13:00 and 17:00, the end included |
| `Scenarios.TwentyHourFrequencySkipsTuesday` | app.js:266-269 | with every day allowed and a 20-hour frequency, Monday 09:00 is followed by Wednesday 09:00, and Tuesday gets nothing |
| `Scenarios.DisallowedTuesdayCostsWednesday` | app.js:249-269 | Sunday to Thursday, every 20 hours, Tuesday not allowed: only Sunday 09:00 and Thursday 09:00 are planned, and the allowed Wednesday is skipped |
| `Scenarios.SameDayRangeRejected` | app.js:136-139 | a range whose end date equals its start date is rejected before planning |
| `Scenarios.SundayOnlyOverMondayTuesday` | app.js:451-454 | only Sunday allowed over a Monday-Tuesday range gives "no valid slots" |

## Left out

- DOM reads and writes, event listeners, HTML building, scrolling and showing or hiding sections: UI. The gate returns an `Outcome` value where the code shows a status message.
- Fetching folder options and posting the payload, with the button bookkeeping: network I/O. The payload's ISO-8601 timestamps and the rest of its fields are left out with it.
- Saving and restoring the form in `localStorage`, and clearing the status with `setTimeout`: persistence and timing.
- JavaScript `Date` semantics are replaced by integer minutes. This covers parsing `YYYY-MM-DD`, the local time zone, daylight-saving shifts when milliseconds are added, and date formatting. `validateDates` parses its dates as UTC midnight while the planners use local midnight; with day numbers both compare the same days.
- Parsing `HH:MM` with `split(':').map(Number)`: the window arrives as hour and minute integers.
- `parseFloat`/`parseInt` of the form fields, including `NaN` results: the batch size and total are integers, and the frequency is a whole number of minutes.
- The average batch size (`avgBatchSize`, `toFixed(1)`): floating point.
- The mode string: any value other than `'manual'` selects the automated planner in the code; the model has the two modes as a datatype.
- Determinism is not stated as a lemma: every planner is a function of its request, so two calls with the same request agree by construction.
- `Manual.CalculateManualSchedule`, `Manual.ManualFromStep`, `Manual.SnapSkipsLandingDay`, `Manual.ManualFromSound`, `Manual.ManualScheduleSound`, `Manual.ManualOnePerDay`, `Planning.Gate`, `Planning.GeneratePlan`: require, for a manual request that passes the checks, a positive frequency and an opening at a clock time (hour 0-23, minute 0-59, what a time input yields). With a zero frequency the code's loop never ends once the cursor is inside the window (see "## Findings"). Fractional-minute frequencies are not modelled.
- `Slots.TimeSlotsSound`, `Slots.TimeSlotsComplete`, `Automated.AutomatedScheduleSound`, `Planning.PlannedSound`: require the opening to be a clock time. Otherwise `setHours` would carry into another day, and "at the opening minute" would not hold.

## Findings

| source | as written | input that shows it | evidently intended | confidence | as-written member | corrected member |
|---|---|---|---|---|---|---|
| app.js:238-270 | the manual loop advances the cursor by `frequencyHours` with no check that it is positive | a frequency of 0 with `from <= to` and a valid range: the first cursor is inside the window and the range, and every move leaves it there | a manual plan is computed only for a positive frequency, so the loop always ends | not executed; the fixed point is proved | `Manual.ZeroFrequencyStalls` | `Manual.CalculateManualSchedule` |
