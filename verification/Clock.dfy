/** Time in nanoseconds; 0 stands for Go's zero time. */
module Clock {

  type Time = nat

  const MILLISECOND: Time := 1_000_000
  const MINUTE: Time := 60_000 * MILLISECOND

  /** How far a request's timestamp may be from the clock. */
  const SKEW: Time := 2 * MINUTE

  function Distance(a: int, b: int): nat {
    if a <= b then b - a else a - b
  }
}
