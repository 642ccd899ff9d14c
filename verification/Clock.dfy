// Wall-clock time in milliseconds, and what is left of it in the database.
module Clock {
  type Millis = int

  const SECOND: Millis := 1000
  const MINUTE: Millis := 60 * SECOND

  /** Timestamps are stored in RFC 3339 form, which drops the fraction of a second. */
  function Rfc3339(t: Millis): Millis {
    t - t % SECOND
  }
}
