/** Go's time.Duration units, counted in nanoseconds; instants are nanoseconds too. */
module GoTime {
  const Nanosecond: int := 1
  const Millisecond: int := 1_000_000
  const Second: int := 1_000_000_000
  const Minute: int := 60_000_000_000        // 60 seconds
  const Hour: int := 3_600_000_000_000        // 60 minutes
  const Day: int := 86_400_000_000_000        // 24 hours
  const Week: int := 604_800_000_000_000      // 7 days

  /** Duration.Milliseconds(): the count of whole milliseconds, truncated toward zero. */
  function Milliseconds(d: int): (ms: int)
    ensures d >= 0 ==> 0 <= ms * Millisecond <= d < (ms + 1) * Millisecond
    ensures d < 0 ==> (ms - 1) * Millisecond < d <= ms * Millisecond <= 0
  {
    if d >= 0 then d / Millisecond else -((-d) / Millisecond)
  }
}
