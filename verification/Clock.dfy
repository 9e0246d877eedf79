/**
Instants and durations: whole nanoseconds, instants counted from the Unix epoch.
Durations are 64-bit, and the arithmetic on them wraps or saturates as Go's does.
*/
module Clock {
  type Time = int
  type Duration = int

  const MAX_INT64 := 0x7FFF_FFFF_FFFF_FFFF
  const MIN_INT64 := -0x8000_0000_0000_0000

  const MILLISECOND: Duration := 1_000_000
  const SECOND: Duration := 1_000_000_000
  const MINUTE: Duration := 60_000_000_000
  const HOUR: Duration := 3_600_000_000_000

  /** The zero value of an instant: midnight, 1 January of year 1. */
  const ZERO_TIME: Time := -62_135_596_800_000_000_000

  /** What 64-bit arithmetic leaves of an exact result. */
  function Wrap64(x: int): (r: int)
    ensures MIN_INT64 <= r <= MAX_INT64
    ensures MIN_INT64 <= x <= MAX_INT64 ==> r == x
  {
    (x - MIN_INT64) % 0x1_0000_0000_0000_0000 + MIN_INT64
  }

  /** The difference of two instants saturates at the ends of the 64-bit range. */
  function Since(t: Time, u: Time): Duration {
    if t - u > MAX_INT64 then MAX_INT64 else if t - u < MIN_INT64 then MIN_INT64 else t - u
  }

  /** Of all 64-bit durations it is the nearest to the exact difference. */
  lemma SinceIsNearest(t: Time, u: Time, d: Duration)
    requires MIN_INT64 <= d <= MAX_INT64
    ensures MIN_INT64 <= Since(t, u) <= MAX_INT64
    ensures t - u >= d ==> d <= Since(t, u) <= t - u
    ensures t - u <= d ==> t - u <= Since(t, u) <= d
  {
  }

  /** Integer division that truncates toward zero. */
  function TruncDiv(a: int, b: int): int
    requires b > 0
  {
    if a >= 0 then a / b else -((-a) / b)
  }

  /** The largest multiple of `d` that is not above `t`. */
  function FloorTo(t: int, d: int): (f: int)
    requires d > 0
    ensures f <= t < f + d && f % d == 0
  {
    assert (t - t % d) % d == 0 by { FloorIsMultiple(t, d); }
    t - t % d
  }

  /** `Time.Truncate`: multiples count from the zero instant, which for minutes is no different. */
  function Truncated(t: Time, d: Duration): (f: Time)
    requires d > 0
    ensures f <= t < f + d
    ensures d == MINUTE ==> f == FloorTo(t, d)
  {
    ZERO_TIME + FloorTo(t - ZERO_TIME, d)
  }

  lemma FloorIsMultiple(t: int, d: int)
    requires d > 0
    ensures (t - t % d) % d == 0
  {
    assert t - t % d == (t / d) * d;
    MultipleMod(t / d, d);
  }

  lemma MultipleMod(q: int, d: int)
    requires d > 0
    ensures (q * d) % d == 0
  {
    var x := q * d;
    assert x == (x / d) * d + x % d;
    MultipleBound(q - x / d, d);
  }

  lemma MultipleBound(k: int, d: int)
    requires d > 0
    ensures k >= 1 ==> k * d >= d
    ensures k <= -1 ==> k * d <= -d
  {
  }
}
