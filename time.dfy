/** Durations and deadlines (Sources/Venice/Time.swift): millisecond counts
    held in a 64-bit integer.  The clock (`now()` of libdill) is a parameter. */
module Time {
  import opened Base

  /** A relative span, in milliseconds. */
  datatype Duration = Duration(value: int)

  /** An absolute point on libdill's millisecond clock. */
  datatype Deadline = Deadline(value: int)

  /** The deadline meaning "do not block". */
  const Immediately: Deadline := Deadline(0)

  /** The deadline meaning "block for as long as needed". */
  const Never: Deadline := Deadline(-1)

  /** `Deadline.now()`: the clock reading, given as `clock`. */
  function Now(clock: int): Deadline
  {
    Deadline(clock)
  }

  /** `Duration.fromNow()`: the deadline `value` milliseconds after `clock`.
      Swift traps on overflow, so the sum must fit in 64 bits. */
  function FromNow(d: Duration, clock: int): Deadline
    requires IsInt64(d.value + clock)
  {
    Deadline(d.value + clock)
  }

  // The `Int` unit accessors.  Swift traps when a product overflows, so each
  // accessor requires its largest intermediate product to fit in 64 bits.

  function Millisecond(n: int): Duration
    requires IsInt64(n)
  {
    Duration(n)
  }

  function Milliseconds(n: int): Duration
    requires IsInt64(n)
  {
    Millisecond(n)
  }

  function Second(n: int): Duration
    requires IsInt64(n * 1000)
  {
    Duration(n * 1000)
  }

  function Seconds(n: int): Duration
    requires IsInt64(n * 1000)
  {
    Second(n)
  }

  function Minute(n: int): Duration
    requires IsInt64(n * 1000) && IsInt64(n * 1000 * 60)
  {
    Duration(n * 1000 * 60)
  }

  function Minutes(n: int): Duration
    requires IsInt64(n * 1000) && IsInt64(n * 1000 * 60)
  {
    Minute(n)
  }

  function Hour(n: int): Duration
    requires IsInt64(n * 1000) && IsInt64(n * 1000 * 60) && IsInt64(n * 1000 * 60 * 60)
  {
    Duration(n * 1000 * 60 * 60)
  }

  function Hours(n: int): Duration
    requires IsInt64(n * 1000) && IsInt64(n * 1000 * 60) && IsInt64(n * 1000 * 60 * 60)
  {
    Hour(n)
  }

  /** Duration's `==` compares the millisecond values. */
  function DurationEqual(lhs: Duration, rhs: Duration): (r: bool)
    ensures r <==> lhs == rhs
  {
    lhs.value == rhs.value
  }

  /** Every accessor yields the stated number of milliseconds, and each plural
      accessor is its singular form. */
  lemma UnitFactors(n: int)
    requires IsInt64(n * 1000 * 60 * 60)
    ensures IsInt64(n) && IsInt64(n * 1000) && IsInt64(n * 1000 * 60)
    ensures Millisecond(n).value == n && Milliseconds(n) == Millisecond(n)
    ensures Second(n).value == n * 1000 && Seconds(n) == Second(n)
    ensures Minute(n).value == n * 60000 && Minutes(n) == Minute(n)
    ensures Hour(n).value == n * 3600000 && Hours(n) == Hour(n)
  {
    assert n * 1000 * 60 * 60 == n * 3600000;
    if n > 0 {
      assert n <= n * 1000 <= n * 60000 <= n * 3600000;
    } else if n < 0 {
      assert n * 3600000 <= n * 60000 <= n * 1000 <= n;
    }
  }

  /** The unit relations of the time test: 1000 ms is a second, 60000 ms a
      minute, 3600000 ms an hour, as `==` judges them. */
  lemma UnitEquivalences()
    ensures DurationEqual(Millisecond(1), Millisecond(1))
    ensures DurationEqual(Millisecond(1000), Second(1))
    ensures DurationEqual(Millisecond(60000), Minute(1))
    ensures DurationEqual(Millisecond(3600000), Hour(1))
  {
  }

  /** The sentinels are 0 and -1 and sit on either side of every deadline
      `fromNow()` yields for a non-negative duration at a non-negative clock. */
  lemma Sentinels(d: Duration, clock: int)
    requires d.value >= 0 && clock >= 0 && IsInt64(d.value + clock)
    ensures Immediately.value == 0 && Never.value == -1
    ensures Never.value < Immediately.value <= FromNow(d, clock).value
  {
  }

  /** `fromNow()` adds the duration to the clock, so for a fixed clock it is
      monotone in the duration and shifts by exactly the difference. */
  lemma FromNowMonotone(d1: Duration, d2: Duration, clock: int)
    requires IsInt64(d1.value + clock) && IsInt64(d2.value + clock)
    ensures FromNow(d1, clock).value - FromNow(d2, clock).value == d1.value - d2.value
    ensures d1.value <= d2.value <==> FromNow(d1, clock).value <= FromNow(d2, clock).value
  {
  }
}
