/** Durations in nanoseconds. An instant is a number of nanoseconds since Go's zero time. */
module Clock {
  const SECOND: nat := 1_000_000_000
  const MINUTE: nat := 60 * SECOND

  /** The minimum gap between two sweeps of expired entries, in every limiter. */
  const PRUNE_EVERY: nat := 10 * SECOND
}
