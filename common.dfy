/** Small shared vocabulary: optional values, durations and integer min/max. */
module Common {

  /** A value that may be absent (nil in the modelled client). */
  datatype Option<+T> = None | Some(value: T)

  /** A duration in nanoseconds, as the client's durations are. */
  type Duration = int

  const Millisecond: Duration := 1_000_000
  const Second: Duration := 1_000 * Millisecond

  function Min(a: int, b: int): (m: int)
    ensures m <= a && m <= b && (m == a || m == b)
  {
    if a <= b then a else b
  }

  function Max(a: int, b: int): (m: int)
    ensures m >= a && m >= b && (m == a || m == b)
  {
    if a >= b then a else b
  }
}
