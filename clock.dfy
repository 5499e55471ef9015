/**
 * Wall-clock readings. Every `time.time()` / `datetime.now()` of the source is an
 * explicit integer number of seconds passed in by the caller; calendar days and
 * hours of the day are derived from it.
 */
module Clock {
  const SecondsPerHour: int := 3600
  const SecondsPerDay: int := 86400

  /** The calendar day a timestamp falls on (the `%Y-%m-%d` string of the source). */
  function DayOf(t: int): int
  {
    t / SecondsPerDay
  }

  /** The hour of the day (0..23) of a timestamp. */
  function HourOf(t: int): (h: int)
    ensures 0 <= h < 24
  {
    (t / SecondsPerHour) % 24
  }
}
