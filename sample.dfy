/** The sample keeper of a stream: a sample count and a microsecond clock that advances by a
    fixed period on every increment. Only the integer part is modelled; the floating-point
    rate and the period in seconds are not part of this model. */
module Timing {

  import opened FixedWidth

  /** The period in microseconds that `set_rate_hz(value)` derives: the period `1 / value`
      seconds cast to whole microseconds, truncating. Exact rational arithmetic stands in for
      the double arithmetic of the source. */
  function PeriodMicroseconds(rateHz: real): (p: int)
    requires rateHz > 0.0
    ensures p >= 0
    ensures p as real <= 1000000.0 / rateHz < p as real + 1.0
  {
    (1000000.0 / rateHz).Floor
  }

  class Sample {

    var count: UInt64
    var microseconds: int
    var periodMicroseconds: int

    /** Every field starts at zero. */
    constructor ()
      ensures count == 0 && microseconds == 0 && periodMicroseconds == 0
    {
      count, microseconds, periodMicroseconds := 0, 0, 0;
    }

    /** The constructors taking a period set only the floating-point period and rate: the
        period in microseconds stays zero, so the clock does not advance until `SetRateHz`. */
    constructor FromPeriod(periodSec: real)
      requires periodSec > 0.0
      ensures count == 0 && microseconds == 0 && periodMicroseconds == 0
    {
      count, microseconds, periodMicroseconds := 0, 0, 0;
    }

    /** `incrementCount()`: advances the clock by one period and returns the new count. */
    method IncrementCount() returns (c: UInt64)
      modifies this
      ensures c == ToUInt64(old(count) + 1) && count == c
      ensures old(count) < TWO_64 - 1 ==> c == old(count) + 1
      ensures microseconds == old(microseconds) + old(periodMicroseconds)
      ensures periodMicroseconds == old(periodMicroseconds)
    {
      microseconds := microseconds + periodMicroseconds;
      count := ToUInt64(count + 1);
      c := count;
    }

    /** `incrementCount(usec)`: sets the clock from outside and returns the new count. */
    method IncrementCountAt(usec: Int64) returns (c: UInt64)
      modifies this
      ensures c == ToUInt64(old(count) + 1) && count == c
      ensures microseconds == usec
      ensures periodMicroseconds == old(periodMicroseconds)
    {
      microseconds := usec;
      count := ToUInt64(count + 1);
      c := count;
    }

    /** `set_rate_hz(value)`: the integer period follows the rate; count and clock stay. */
    method SetRateHz(value: real)
      requires value > 0.0
      modifies this
      ensures periodMicroseconds == PeriodMicroseconds(value)
      ensures count == old(count) && microseconds == old(microseconds)
    {
      periodMicroseconds := PeriodMicroseconds(value);
    }

    /** The implicitly defined copy assignment, field by field. */
    method Assign(other: Sample)
      modifies this
      ensures count == old(other.count)
      ensures microseconds == old(other.microseconds)
      ensures periodMicroseconds == old(other.periodMicroseconds)
    {
      count, microseconds, periodMicroseconds := other.count, other.microseconds, other.periodMicroseconds;
    }

    function Count(): UInt64
      reads this
    {
      count
    }

    function Microseconds(): int
      reads this
    {
      microseconds
    }

    function PeriodMicros(): int
      reads this
    {
      periodMicroseconds
    }
  }

  /** A clock set to `rateHz` and incremented `n` times from the default state counts `n`
      samples and reads `n` periods. */
  method CountTicks(rateHz: real, n: nat) returns (count: UInt64, usec: int, period: int)
    requires rateHz > 0.0 && n < TWO_64
    ensures count == n
    ensures period == PeriodMicroseconds(rateHz)
    ensures usec == n * period
  {
    var s := new Sample();
    s.SetRateHz(rateHz);
    var i := 0;
    while i < n
      invariant 0 <= i <= n
      invariant s.count == i
      invariant s.periodMicroseconds == PeriodMicroseconds(rateHz)
      invariant s.microseconds == i * s.periodMicroseconds
    {
      var _ := s.IncrementCount();
      i := i + 1;
    }
    count, usec, period := s.Count(), s.Microseconds(), s.PeriodMicros();
  }

  /** With the period-taking constructor and no rate set, increments move the count and
      never the clock. */
  method CountWithoutRate(periodSec: real, n: nat) returns (count: UInt64, usec: int)
    requires periodSec > 0.0 && n < TWO_64
    ensures count == n && usec == 0
  {
    var s := new Sample.FromPeriod(periodSec);
    var i := 0;
    while i < n
      invariant 0 <= i <= n
      invariant s.count == i && s.microseconds == 0 && s.periodMicroseconds == 0
    {
      var _ := s.IncrementCount();
      i := i + 1;
    }
    count, usec := s.Count(), s.Microseconds();
  }
}
