/** UTC timestamps as microseconds since 1970-01-01T00:00:00Z, and the
    calendar arithmetic the routes do with `datetime`: the date of a
    timestamp, its time of day, and the weekday of a date. */
module Calendar {
  const MicrosPerSecond: int := 1000000
  const MicrosPerMinute: int := 60 * MicrosPerSecond
  const MicrosPerHour: int := 60 * MicrosPerMinute
  const MicrosPerDay: int := 24 * MicrosPerHour

  /** `ts.date()`, as a day number (0 is 1970-01-01). */
  function DayOf(ts: int): int
  {
    ts / MicrosPerDay
  }

  /** `ts.time()`, in microseconds since midnight. */
  function TimeOfDay(ts: int): int
  {
    ts % MicrosPerDay
  }

  /** `date.weekday()`: Monday is 0 (1970-01-01 was a Thursday). */
  function Weekday(day: int): int
  {
    (day + 3) % 7
  }

  /** The weekday counted from Sunday = 0. */
  function SundayWeekday(day: int): int
  {
    (day + 4) % 7
  }

  /** A timestamp is its date's midnight plus its time of day, which lies
      within the day. */
  lemma DayAndTime(ts: int)
    ensures ts == DayOf(ts) * MicrosPerDay + TimeOfDay(ts)
    ensures 0 <= TimeOfDay(ts) < MicrosPerDay
  {
  }

  /** Wednesday 2025-01-01 is day 20089 and Sunday 2025-01-05 day 20093. */
  lemma KnownDates()
    ensures Weekday(20089) == 2 && SundayWeekday(20089) == 3
    ensures Weekday(20093) == 6 && SundayWeekday(20093) == 0
  {
  }
}
