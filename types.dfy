/**
  * Values shared by the scheduling core: a planning request, its parts, and the
  * executions a planner produces. Every instant is a whole number of minutes
  * since 1970-01-01 00:00 local wall-clock time; every calendar date is a day
  * number counted from that same date.
  */
module Types {

  datatype Option<T> = None | Some(value: T)

  /** The daily window; each end is an hour and a minute on a 24-hour clock. */
  datatype Window = Window(fromHour: int, fromMinute: int, toHour: int, toMinute: int)
  {
    /** The window's opening, in minutes after midnight. */
    function From(): int { fromHour * 60 + fromMinute }

    /** The window's closing, in minutes after midnight. */
    function To(): int { toHour * 60 + toMinute }
  }

  /** The two planning modes and the parameters each one reads. */
  datatype Mode =
    | Manual(batchSize: int, frequencyMinutes: int)
    | Automated(totalCount: int)

  /** One planning request, as the form hands it to the planners. */
  datatype Config = Config(
    folder: string,
    mode: Mode,
    startDay: int,
    endDay: int,
    allowedDays: seq<string>,
    window: Window)

  /** One planned run: when it fires and how many items it sends. */
  datatype Execution = Execution(timestamp: int, batchSize: int)
}
