/**
 * Time on an exact integer scale. An instant is a number of microseconds since
 * an epoch (standing in for a `datetime`), a duration a signed number of
 * microseconds (standing in for a `timedelta`).
 */
module Time {
  type Instant = int
  type Duration = int

  /** One second, in microseconds. */
  const Second: Duration := 1_000_000

  function Abs(d: Duration): (r: Duration)
    ensures r >= 0
    ensures r == d || r == -d
  {
    if d < 0 then -d else d
  }
}
