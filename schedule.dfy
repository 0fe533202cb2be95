/** The periodic deadline schedule shared by the publisher, subscriber and
    user-application threads, and the publisher's transmission time. */
module Schedule {
  import opened TimeArithmetic

  /** SECONDS_SLEEP: every role starts this many seconds after its clock reading. */
  const SecondsSleep: int := 5
  /** The factor turning the qbvOffset option (microseconds) into nanoseconds. */
  const MicroToNano: int := 1000
  /** The subscriber's first nanosecond field, `(long)subWakeupPercentage`:
      the wake fraction itself truncated, which is 0 for its fixed value 0.0. */
  const SubscriberInitialNsec: int := 0

  /** The first deadline of a role: the clock reading's seconds plus
      SecondsSleep, the nanosecond field replaced by the phase, normalised. */
  function FirstDeadline(now: Time, phaseNs: int): Time
  {
    NormalForm(Time(now.sec + SecondsSleep, phaseNs))
  }

  /** One cycle's advance: add the period to the nanosecond field, normalise. */
  function Advance(t: Time, intervalNs: nat): Time
  {
    NormalForm(Time(t.sec, t.nsec + intervalNs))
  }

  /** The deadline a role sleeps until in its cycle k (counting from 0). */
  function DeadlineAfter(d0: Time, intervalNs: nat, k: nat): Time
  {
    if k == 0 then d0 else Advance(DeadlineAfter(d0, intervalNs, k - 1), intervalNs)
  }

  /** The first n deadlines of a role, in order. */
  function Deadlines(d0: Time, intervalNs: nat, n: nat): (r: seq<Time>)
    ensures |r| == n
    ensures forall j {:trigger r[j]} :: 0 <= j < n ==> r[j] == DeadlineAfter(d0, intervalNs, j)
  {
    if n == 0 then [] else Deadlines(d0, intervalNs, n - 1) + [DeadlineAfter(d0, intervalNs, n - 1)]
  }

  /** The transmission time handed to the transport in a publisher cycle:
      the deadline in nanoseconds plus the rest of the cycle plus the Qbv
      offset. */
  function TransmissionTime(deadline: Time, roundOffCycleTime: nat, qbvOffset: int): int
  {
    TotalNs(deadline) + roundOffCycleTime + qbvOffset * MicroToNano
  }

  /** The start of a role's schedule: take the clock reading's seconds plus
      SecondsSleep, put the phase in the nanosecond field, normalise. */
  method StartDeadline(now: Time, phaseNs: int) returns (r: Time)
    ensures r == FirstDeadline(now, phaseNs)
  {
    r := Time(now.sec + SecondsSleep, phaseNs);
    r := Normalize(r);
  }

  /** The end of a role's cycle: add the period to the nanosecond field of
      the deadline, normalise. */
  method AdvanceDeadline(t: Time, intervalNs: nat) returns (r: Time)
    ensures r == Advance(t, intervalNs)
  {
    r := t.(nsec := t.nsec + intervalNs);
    r := Normalize(r);
  }

  /** A non-negative phase gives a normalised first deadline at exactly
      (clock seconds + 5) s + phase; a phase below one second is kept as is. */
  lemma FirstDeadlineValue(now: Time, phaseNs: nat)
    ensures IsNormal(FirstDeadline(now, phaseNs))
    ensures TotalNs(FirstDeadline(now, phaseNs)) == (now.sec + SecondsSleep) * NanosPerSecond + phaseNs
    ensures phaseNs < NanosPerSecond ==> FirstDeadline(now, phaseNs) == Time(now.sec + SecondsSleep, phaseNs)
  {
  }

  /** No drift: after k advances the deadline is exactly k periods later, and
      a normalised start stays normalised. */
  lemma {:induction false} NoDrift(d0: Time, intervalNs: nat, k: nat)
    ensures TotalNs(DeadlineAfter(d0, intervalNs, k)) == TotalNs(d0) + k * intervalNs
    ensures IsNormal(d0) ==> IsNormal(DeadlineAfter(d0, intervalNs, k))
  {
    if k > 0 {
      NoDrift(d0, intervalNs, k - 1);
      assert (k - 1) * intervalNs + intervalNs == k * intervalNs;
    }
  }

  /** Consecutive deadlines are exactly one period apart. */
  lemma OnePeriodApart(d0: Time, intervalNs: nat, k: nat)
    ensures TotalNs(DeadlineAfter(d0, intervalNs, k + 1)) == TotalNs(DeadlineAfter(d0, intervalNs, k)) + intervalNs
  {
    NoDrift(d0, intervalNs, k);
    NoDrift(d0, intervalNs, k + 1);
    assert (k + 1) * intervalNs == k * intervalNs + intervalNs;
  }

  /** A closed form of the k-th deadline from a normalised start. */
  lemma DeadlineClosedForm(d0: Time, intervalNs: nat, k: nat)
    requires IsNormal(d0)
    ensures DeadlineAfter(d0, intervalNs, k)
         == Time(d0.sec + (d0.nsec + k * intervalNs) / NanosPerSecond,
                 (d0.nsec + k * intervalNs) % NanosPerSecond)
  {
    var d := DeadlineAfter(d0, intervalNs, k);
    NoDrift(d0, intervalNs, k);
    var n := d0.nsec + k * intervalNs;
    assert (d.sec - d0.sec) * NanosPerSecond + d.nsec == n;
    QuotientRemainder(d.sec - d0.sec, d.nsec, n);
  }

  /** A value split as q seconds and m < 10^9 nanoseconds has q as its
      quotient and m as its remainder by 10^9. */
  lemma QuotientRemainder(q: int, m: int, n: int)
    requires 0 <= m < NanosPerSecond && q * NanosPerSecond + m == n
    ensures q == n / NanosPerSecond && m == n % NanosPerSecond
  {
  }

  /** When the phase and the round-off add up to one period, the publisher's
      transmission time in cycle k is the next cycle boundary, (k + 1) periods
      after the start second, plus the Qbv offset. */
  lemma TransmissionAtNextBoundary(now: Time, intervalNs: nat, phaseNs: nat, roundOffCycleTime: nat, qbvOffset: int, k: nat)
    requires phaseNs + roundOffCycleTime == intervalNs
    ensures TransmissionTime(DeadlineAfter(FirstDeadline(now, phaseNs), intervalNs, k), roundOffCycleTime, qbvOffset)
         == (now.sec + SecondsSleep) * NanosPerSecond + (k + 1) * intervalNs + qbvOffset * MicroToNano
  {
    NoDrift(FirstDeadline(now, phaseNs), intervalNs, k);
    assert (k + 1) * intervalNs == k * intervalNs + intervalNs;
  }

  /** The default configuration: a 0.25 ms cycle, wake fraction 0.6 (phase
      150000 ns, round-off 100000 ns) and Qbv offset 125 put the transmission
      225000 ns after the deadline, 125000 ns after the next cycle boundary. */
  lemma DefaultTransmissionTime(now: Time, k: nat)
    ensures var d := DeadlineAfter(FirstDeadline(now, 150000), 250000, k);
            TransmissionTime(d, 100000, 125) == TotalNs(d) + 225000
            && TransmissionTime(d, 100000, 125) == (now.sec + SecondsSleep) * NanosPerSecond + (k + 1) * 250000 + 125000
  {
    TransmissionAtNextBoundary(now, 250000, 150000, 100000, 125, k);
  }

  /** publisherETF: sleep until each deadline, compute the transmission time
      handed to the transport with that cycle's frame, advance the deadline
      by one period. `cycles` is the number of times `running` was found
      true; the clock reading is `now`. Returns the deadlines slept until and
      the transmission times, one per cycle. */
  method PublisherETF(now: Time, intervalNs: nat, phaseNs: nat, roundOffCycleTime: nat, qbvOffset: int, cycles: nat)
    returns (wakeups: seq<Time>, transmissionTimes: seq<int>)
    ensures |wakeups| == cycles && |transmissionTimes| == cycles
    ensures forall k {:trigger wakeups[k]} :: 0 <= k < cycles ==> wakeups[k] == DeadlineAfter(FirstDeadline(now, phaseNs), intervalNs, k)
    ensures forall k :: 0 <= k < cycles ==>
      IsNormal(wakeups[k])
      && TotalNs(wakeups[k]) == (now.sec + SecondsSleep) * NanosPerSecond + phaseNs + k * intervalNs
    ensures forall k :: 0 <= k < cycles ==>
      transmissionTimes[k] == TotalNs(wakeups[k]) + roundOffCycleTime + qbvOffset * MicroToNano
  {
    var next := StartDeadline(now, phaseNs);
    ghost var d0 := FirstDeadline(now, phaseNs);
    wakeups, transmissionTimes := [], [];
    var k := 0;
    while k < cycles
      invariant 0 <= k <= cycles
      invariant next == DeadlineAfter(d0, intervalNs, k)
      invariant |wakeups| == k && |transmissionTimes| == k
      invariant forall j {:trigger wakeups[j]} :: 0 <= j < k ==> wakeups[j] == DeadlineAfter(d0, intervalNs, j)
      invariant forall j {:trigger transmissionTimes[j]} :: 0 <= j < k ==> transmissionTimes[j] == TransmissionTime(wakeups[j], roundOffCycleTime, qbvOffset)
    {
      wakeups := wakeups + [next];
      var transmissionTime := TransmissionTime(next, roundOffCycleTime, qbvOffset);
      transmissionTimes := transmissionTimes + [transmissionTime];
      next := AdvanceDeadline(next, intervalNs);
      k := k + 1;
    }
    FirstDeadlineValue(now, phaseNs);
    forall j | 0 <= j < cycles
      ensures IsNormal(wakeups[j])
      ensures TotalNs(wakeups[j]) == (now.sec + SecondsSleep) * NanosPerSecond + phaseNs + j * intervalNs
    {
      NoDrift(d0, intervalNs, j);
    }
  }

  /** subscriber: sleep until each deadline, poll the transport, advance the
      deadline by one period. The first nanosecond field is
      SubscriberInitialNsec. Returns the deadlines slept until. */
  method Subscriber(now: Time, intervalNs: nat, cycles: nat) returns (wakeups: seq<Time>)
    ensures |wakeups| == cycles
    ensures forall k {:trigger wakeups[k]} :: 0 <= k < cycles ==> wakeups[k] == DeadlineAfter(FirstDeadline(now, SubscriberInitialNsec), intervalNs, k)
    ensures forall k :: 0 <= k < cycles ==>
      IsNormal(wakeups[k]) && TotalNs(wakeups[k]) == (now.sec + SecondsSleep) * NanosPerSecond + k * intervalNs
  {
    var next := StartDeadline(now, SubscriberInitialNsec);
    ghost var d0 := FirstDeadline(now, SubscriberInitialNsec);
    wakeups := [];
    var k := 0;
    while k < cycles
      invariant 0 <= k <= cycles
      invariant next == DeadlineAfter(d0, intervalNs, k)
      invariant |wakeups| == k
      invariant forall j {:trigger wakeups[j]} :: 0 <= j < k ==> wakeups[j] == DeadlineAfter(d0, intervalNs, j)
    {
      wakeups := wakeups + [next];
      next := AdvanceDeadline(next, intervalNs);
      k := k + 1;
    }
    FirstDeadlineValue(now, SubscriberInitialNsec);
    forall j | 0 <= j < cycles
      ensures IsNormal(wakeups[j])
      ensures TotalNs(wakeups[j]) == (now.sec + SecondsSleep) * NanosPerSecond + j * intervalNs
    {
      NoDrift(d0, intervalNs, j);
    }
  }
}
