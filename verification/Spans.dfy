/** Spans of time, in seconds. */
module Spans {
  const DAY := 86400

  /** Least time between two sync triggers of a user. */
  const MIN_GAP: nat := 1200

  predicate Apart(a: int, b: int) { a + MIN_GAP <= b || b + MIN_GAP <= a }
}
