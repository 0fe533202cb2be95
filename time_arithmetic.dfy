/** Nanosecond-field handling of a `struct timespec` deadline: the
    normalisation that carries whole seconds out of the nanosecond field. */
module TimeArithmetic {

  /** SECONDS: nanoseconds in one second. */
  const NanosPerSecond: nat := 1000 * 1000 * 1000
  /** SECONDS_INCREMENT: what one carry adds to the seconds field. */
  const SecondsIncrement: int := 1

  /** The value of a `struct timespec`: `tv_sec` and `tv_nsec`, both signed. */
  datatype Time = Time(sec: int, nsec: int)

  /** The absolute point in time a timespec denotes, in nanoseconds. */
  function TotalNs(t: Time): int
  {
    t.sec * NanosPerSecond + t.nsec
  }

  /** The nanosecond field lies in [0, 10^9). */
  predicate IsNormal(t: Time)
  {
    0 <= t.nsec < NanosPerSecond
  }

  /** What the normalisation loop leaves behind: while the nanosecond field
      exceeds one second less one nanosecond, move one second out of it. */
  function NormalForm(t: Time): (r: Time)
    decreases t.nsec
    ensures r.nsec <= NanosPerSecond - 1
    ensures TotalNs(r) == TotalNs(t)
    ensures r.sec >= t.sec
    ensures t.nsec >= 0 ==> IsNormal(r)
    ensures t.nsec <= NanosPerSecond - 1 ==> r == t
  {
    if t.nsec > NanosPerSecond - 1 then
      NormalForm(Time(t.sec + SecondsIncrement, t.nsec - NanosPerSecond))
    else
      t
  }

  /** For a non-negative nanosecond field, normalisation is Euclidean division
      of that field by 10^9: the quotient goes to the seconds, the remainder
      stays. */
  lemma {:induction false} NormalFormIsDivMod(t: Time)
    requires t.nsec >= 0
    ensures NormalForm(t) == Time(t.sec + t.nsec / NanosPerSecond, t.nsec % NanosPerSecond)
    decreases t.nsec
  {
    if t.nsec > NanosPerSecond - 1 {
      var n := t.nsec - NanosPerSecond;
      NormalFormIsDivMod(Time(t.sec + SecondsIncrement, n));
      assert t.nsec / NanosPerSecond == n / NanosPerSecond + 1;
      assert t.nsec % NanosPerSecond == n % NanosPerSecond;
    }
  }

  /** Normalising twice is normalising once. */
  lemma NormalFormIdempotent(t: Time)
    ensures NormalForm(NormalForm(t)) == NormalForm(t)
  {
  }

  /** nanoSecondFieldConversion: carry whole seconds out of the nanosecond
      field, one at a time. The absolute time is preserved; a field that is
      already at most 10^9 - 1 (negative ones included) is left alone. */
  method Normalize(t: Time) returns (r: Time)
    ensures r == NormalForm(t)
    ensures TotalNs(r) == TotalNs(t)
    ensures t.nsec >= 0 ==> IsNormal(r) && r.sec == t.sec + t.nsec / NanosPerSecond
    ensures t.nsec <= NanosPerSecond - 1 ==> r == t
  {
    var sec, nsec := t.sec, t.nsec;
    while nsec > NanosPerSecond - 1
      invariant NormalForm(Time(sec, nsec)) == NormalForm(t)
      decreases nsec
    {
      sec := sec + SecondsIncrement;
      nsec := nsec - NanosPerSecond;
    }
    r := Time(sec, nsec);
    if t.nsec >= 0 {
      NormalFormIsDivMod(t);
    }
  }
}
