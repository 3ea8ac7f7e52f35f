/** Instants and durations: whole nanoseconds, as the services' clocks measure them. */
module Clock {
  type Time = int

  const SECOND: int := 1_000_000_000
  const DAY: int := 86_400 * SECOND

  /** Whole seconds since the epoch, rounded down also before it. */
  function Unix(t: Time): int { t / SECOND }
}
