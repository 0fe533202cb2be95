/** The bounded measurement logs on values: records are appended while
    there is room, and a record offered to a full log is dropped and
    clears the process-wide `running` flag. */
module Measurements {
  import opened TimeArithmetic

  /** MAX_MEASUREMENTS: the capacity of each log. */
  const MaxMeasurements: nat := 10000000

  /** One log record: when the counter was sampled and its value. */
  datatype Sample = Sample(timestamp: Time, counterValue: nat)

  /** A log's records together with the process-wide `running` flag. */
  datatype Logged = Logged(samples: seq<Sample>, running: bool)

  /** updateMeasurementsPublisher / updateMeasurementsSubscriber on values:
      a full log stores nothing and clears `running`; otherwise the sample
      is appended and `running` is left alone. */
  function Record(log: Logged, capacity: nat, s: Sample): (r: Logged)
    ensures log.samples <= r.samples && |r.samples| <= |log.samples| + 1
    ensures |log.samples| <= capacity ==> |r.samples| <= capacity
    ensures r.running <==> log.running && |log.samples| < capacity
  {
    if |log.samples| >= capacity then log.(running := false)
    else log.(samples := log.samples + [s])
  }

  /** The effect of recording every sample of `ss` in turn. */
  function RecordAll(log: Logged, capacity: nat, ss: seq<Sample>): Logged
  {
    if ss == [] then log
    else Record(RecordAll(log, capacity, ss[..|ss| - 1]), capacity, ss[|ss| - 1])
  }

  function Min(a: int, b: int): int
  {
    if a <= b then a else b
  }

  /** A log within its capacity keeps the samples offered while there was
      room, in order, and drops the rest; `running` survives exactly when
      nothing had to be dropped. */
  lemma {:induction false} RecordAllEffect(log: Logged, capacity: nat, ss: seq<Sample>)
    requires |log.samples| <= capacity
    ensures |RecordAll(log, capacity, ss).samples| <= capacity
    ensures RecordAll(log, capacity, ss).samples
         == log.samples + ss[..Min(|ss|, capacity - |log.samples|)]
    ensures RecordAll(log, capacity, ss).running
         == (log.running && |log.samples| + |ss| <= capacity)
  {
    if ss != [] {
      var init := ss[..|ss| - 1];
      RecordAllEffect(log, capacity, init);
      var n := Min(|init|, capacity - |log.samples|);
      assert init[..n] == ss[..n];
      if n < capacity - |log.samples| {
        assert ss[..n] + [ss[|ss| - 1]] == ss[..n + 1];
      }
    }
  }

  /** capacity + 1 records into an empty log leave exactly the first
      capacity samples and `running` false. */
  lemma OverflowStopsRunning(capacity: nat, ss: seq<Sample>)
    requires |ss| == capacity + 1
    ensures RecordAll(Logged([], true), capacity, ss) == Logged(ss[..capacity], false)
  {
    RecordAllEffect(Logged([], true), capacity, ss);
  }
}
