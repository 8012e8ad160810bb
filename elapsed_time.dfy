/**
  The integer part of `getElapsedTime` (src/Speedtest.c): the difference of two
  `struct timeval` values, seconds and microseconds subtracted separately, with a
  borrow of one second when the microseconds come out negative.
  The end time, which the program reads from `gettimeofday`, is a parameter here.
 */
module ElapsedTime {

  const MicrosPerSecond: int := 1000000

  /** A `struct timeval`: whole seconds and microseconds. */
  datatype TimeVal = TimeVal(sec: int, usec: int)

  /** A time value whose microsecond part lies in [0, 1000000), as `gettimeofday` yields. */
  predicate Normal(t: TimeVal) {
    0 <= t.usec < MicrosPerSecond
  }

  /** The instant a time value stands for, in microseconds. */
  function Micros(t: TimeVal): int {
    t.sec * MicrosPerSecond + t.usec
  }

  /** The normalised time value for a count of microseconds (reference definition). */
  function FromMicros(m: int): (t: TimeVal)
    ensures Normal(t) && Micros(t) == m
  {
    TimeVal(m / MicrosPerSecond, m % MicrosPerSecond)
  }

  /** `end - start`, computed field by field with a borrow, as `getElapsedTime` does. */
  function GetElapsedTime(start: TimeVal, end: TimeVal): (d: TimeVal)
    ensures Micros(d) == Micros(end) - Micros(start)
    ensures Normal(start) && Normal(end) ==> Normal(d)
    ensures Normal(start) && Normal(end) && Micros(start) <= Micros(end) ==> d.sec >= 0
  {
    var diff := TimeVal(end.sec - start.sec, end.usec - start.usec);
    if diff.usec < 0 then TimeVal(diff.sec - 1, diff.usec + MicrosPerSecond) else diff
  }

  /** Two normalised time values that stand for the same instant are the same value. */
  lemma NormalIsUnique(a: TimeVal, b: TimeVal)
    requires Normal(a) && Normal(b) && Micros(a) == Micros(b)
    ensures a == b
  {
  }

  /** On normalised inputs the borrow yields exactly the canonical difference. */
  lemma ElapsedIsCanonical(start: TimeVal, end: TimeVal)
    requires Normal(start) && Normal(end)
    ensures GetElapsedTime(start, end) == FromMicros(Micros(end) - Micros(start))
  {
  }
}
