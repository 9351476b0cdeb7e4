/**
 * `java.time.Duration`, held as a whole number of nanoseconds. The 64-bit
 * seconds field of the Java class and its overflow checks are not modelled.
 */
module Durations {

  datatype Duration = Duration(nanos: int)

  const NanosPerMilli: int := 1_000_000
  const NanosPerSecond: int := 1_000_000_000
  const NanosPerMinute: int := 60 * NanosPerSecond
  const NanosPerHour: int := 60 * NanosPerMinute
  const NanosPerDay: int := 24 * NanosPerHour

  /** `Duration.ZERO`. */
  const Zero := Duration(0)

  /** `Duration.ofMillis(-1)`: the value the expiry parsers use for "never expires". */
  const Forever := Duration(-NanosPerMilli)

  function OfNanos(n: int): Duration {
    Duration(n)
  }

  function OfMillis(n: int): Duration {
    Duration(n * NanosPerMilli)
  }

  function OfSeconds(n: int): Duration {
    Duration(n * NanosPerSecond)
  }

  function OfMinutes(n: int): Duration {
    Duration(n * NanosPerMinute)
  }

  function OfHours(n: int): Duration {
    Duration(n * NanosPerHour)
  }

  function OfDays(n: int): Duration {
    Duration(n * NanosPerDay)
  }

  predicate IsZero(d: Duration) {
    d.nanos == 0
  }

  predicate IsNegative(d: Duration) {
    d.nanos < 0
  }

  /** `Duration.getSeconds`: whole seconds, rounded towards negative infinity. */
  function GetSeconds(d: Duration): (r: int)
    ensures r * NanosPerSecond <= d.nanos < (r + 1) * NanosPerSecond
  {
    d.nanos / NanosPerSecond
  }

  /** `Duration.toMillis`: whole milliseconds, truncated towards zero. */
  function ToMillis(d: Duration): (r: int)
    ensures d.nanos >= 0 ==> r * NanosPerMilli <= d.nanos < (r + 1) * NanosPerMilli
    ensures d.nanos < 0 ==> (r - 1) * NanosPerMilli < d.nanos <= r * NanosPerMilli
  {
    if d.nanos >= 0 then d.nanos / NanosPerMilli else -((-d.nanos) / NanosPerMilli)
  }

  /** Java's `(int)` cast of a `long`: the low 32 bits read as a signed value. */
  function ToInt32(n: int): (r: int)
    ensures -0x8000_0000 <= r < 0x8000_0000
    ensures (r - n) % 0x1_0000_0000 == 0
    ensures -0x8000_0000 <= n < 0x8000_0000 ==> r == n
  {
    var low := n % 0x1_0000_0000;
    if low < 0x8000_0000 then low else low - 0x1_0000_0000
  }
}
