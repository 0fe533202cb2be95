/** The process-wide state the threads share (the `running` flag, the
    publisher's counter cells and the two measurement logs) and the
    user-application thread that bumps the counters and fills the logs. */
module UserApplication {
  import opened TimeArithmetic
  import opened Schedule
  import opened Measurements

  /** REPEATED_NODECOUNTS: how many repeated counter cells are published. */
  const RepeatedNodeCounts: nat := 2
  /** The value the user application gives every repeated counter at start. */
  const RepeatedCounterInit: nat := 10

  /** What one user-application cycle reads from outside: the two clock
      readings it takes and the subscriber counter, which the subscriber
      thread writes. */
  datatype CycleInput = CycleInput(modificationTime: Time, receiveTime: Time, subCounter: nat)

  /** The abstract value of the shared state. */
  datatype AppState = AppState(
    running: bool,
    pubCounter: nat,
    repeatedCounters: seq<nat>,
    pubSamples: seq<Sample>,
    subSamples: seq<Sample>)

  function RecordPublisher(st: AppState, s: Sample): AppState
  {
    var l := Record(Logged(st.pubSamples, st.running), MaxMeasurements, s);
    st.(pubSamples := l.samples, running := l.running)
  }

  function RecordSubscriber(st: AppState, s: Sample): AppState
  {
    var l := Record(Logged(st.subSamples, st.running), MaxMeasurements, s);
    st.(subSamples := l.samples, running := l.running)
  }

  /** The state the user application sets up before its first cycle. */
  function Initialised(st: AppState): AppState
  {
    st.(pubCounter := 0, repeatedCounters := seq(RepeatedNodeCounts, i => RepeatedCounterInit))
  }

  /** The counter step of a cycle: every publisher counter goes up by one. */
  function Bumped(st: AppState): AppState
  {
    var c := st.repeatedCounters;
    st.(pubCounter := st.pubCounter + 1, repeatedCounters := seq(|c|, i requires 0 <= i < |c| => c[i] + 1))
  }

  /** The logging step of a cycle: with CSV logging on, the publisher counter
      is logged, and the subscriber counter is logged when it is positive. */
  function LoggingStep(st: AppState, enableCsvLog: bool, c: CycleInput): AppState
  {
    var logged := if enableCsvLog then RecordPublisher(st, Sample(c.modificationTime, st.pubCounter)) else st;
    if enableCsvLog && c.subCounter > 0 then RecordSubscriber(logged, Sample(c.receiveTime, c.subCounter)) else logged
  }

  /** One user-application cycle. */
  function UserCycle(st: AppState, enableCsvLog: bool, c: CycleInput): AppState
  {
    LoggingStep(Bumped(st), enableCsvLog, c)
  }

  /** The state after the first n cycles, cycle k reading inputs[k]. */
  function UserRun(st: AppState, enableCsvLog: bool, inputs: seq<CycleInput>, n: nat): AppState
    requires n <= |inputs|
  {
    if n == 0 then st
    else UserCycle(UserRun(st, enableCsvLog, inputs, n - 1), enableCsvLog, inputs[n - 1])
  }

  /** The number of cycles a run from `st` goes through when cycle k reads
      inputs[k]: cycles continue from cycle n on while `running` holds and
      inputs remain. */
  function CyclesFrom(st: AppState, enableCsvLog: bool, inputs: seq<CycleInput>, n: nat): (r: nat)
    requires n <= |inputs|
    decreases |inputs| - n
    ensures n <= r <= |inputs|
    ensures forall j :: n <= j < r ==> UserRun(st, enableCsvLog, inputs, j).running
    ensures r < |inputs| ==> !UserRun(st, enableCsvLog, inputs, r).running
  {
    if n == |inputs| || !UserRun(st, enableCsvLog, inputs, n).running then n
    else CyclesFrom(st, enableCsvLog, inputs, n + 1)
  }

  /** n cycles add n to the publisher counter and to every repeated counter:
      no increment is lost or repeated. */
  lemma {:induction false} UserRunCounters(st: AppState, enableCsvLog: bool, inputs: seq<CycleInput>, n: nat)
    requires n <= |inputs|
    ensures UserRun(st, enableCsvLog, inputs, n).pubCounter == st.pubCounter + n
    ensures |UserRun(st, enableCsvLog, inputs, n).repeatedCounters| == |st.repeatedCounters|
    ensures forall i :: 0 <= i < |st.repeatedCounters| ==>
      UserRun(st, enableCsvLog, inputs, n).repeatedCounters[i] == st.repeatedCounters[i] + n
  {
    if n > 0 {
      UserRunCounters(st, enableCsvLog, inputs, n - 1);
    }
  }

  /** A run from the start state has set every counter to its start value
      and bumped it once per cycle. */
  lemma {:induction false} CountersAfterRun(st: AppState, enableCsvLog: bool, inputs: seq<CycleInput>, n: nat)
    requires n <= |inputs|
    ensures var r := UserRun(Initialised(st), enableCsvLog, inputs, n);
      && r.pubCounter == n
      && |r.repeatedCounters| == RepeatedNodeCounts
      && forall i :: 0 <= i < RepeatedNodeCounts ==> r.repeatedCounters[i] == RepeatedCounterInit + n
  {
    UserRunCounters(Initialised(st), enableCsvLog, inputs, n);
  }

  /** Over any run the logs only grow and stay within MaxMeasurements;
      without CSV logging neither they nor `running` change; every record
      added to the subscriber log holds a positive counter; and `running`,
      once false, stays false. */
  lemma {:induction false} UserRunLogs(st: AppState, enableCsvLog: bool, inputs: seq<CycleInput>, n: nat)
    requires n <= |inputs|
    requires |st.pubSamples| <= MaxMeasurements && |st.subSamples| <= MaxMeasurements
    ensures var r := UserRun(st, enableCsvLog, inputs, n);
      && |r.pubSamples| <= MaxMeasurements && |r.subSamples| <= MaxMeasurements
      && st.pubSamples <= r.pubSamples && st.subSamples <= r.subSamples
      && (forall j :: |st.subSamples| <= j < |r.subSamples| ==> r.subSamples[j].counterValue > 0)
      && (r.running ==> st.running)
      && (!enableCsvLog ==> r.pubSamples == st.pubSamples && r.subSamples == st.subSamples && r.running == st.running)
  {
    if n > 0 {
      UserRunLogs(st, enableCsvLog, inputs, n - 1);
    }
  }

  /** With CSV logging on and room in the publisher log, a cycle appends
      the modification time with the counter value it has just published. */
  lemma PublisherRecordOfCycle(st: AppState, c: CycleInput)
    requires |st.pubSamples| < MaxMeasurements
    ensures UserCycle(st, true, c).pubSamples == st.pubSamples + [Sample(c.modificationTime, st.pubCounter + 1)]
  {
  }

  /** With CSV logging on and room for every record, cycle k appends
      exactly one publisher record: the modification time of that cycle
      with the counter value it has just published. */
  lemma {:induction false} PublisherLogOfRun(st: AppState, inputs: seq<CycleInput>, n: nat)
    requires n <= |inputs|
    requires |st.pubSamples| + n <= MaxMeasurements
    ensures var r := UserRun(st, true, inputs, n).pubSamples;
      && |r| == |st.pubSamples| + n
      && r[..|st.pubSamples|] == st.pubSamples
      && forall k :: 0 <= k < n ==> r[|st.pubSamples| + k] == Sample(inputs[k].modificationTime, st.pubCounter + k + 1)
  {
    if n > 0 {
      PublisherLogOfRun(st, inputs, n - 1);
      UserRunCounters(st, true, inputs, n - 1);
      PublisherRecordOfCycle(UserRun(st, true, inputs, n - 1), inputs[n - 1]);
    }
  }

  /** With CSV logging on, a run of n <= MaxMeasurements cycles from the
      start state with an empty publisher log leaves exactly the records
      (modification time of cycle k, k + 1), one per cycle, in order. */
  lemma PublisherLogAfterRun(st: AppState, inputs: seq<CycleInput>, n: nat)
    requires n <= |inputs| && n <= MaxMeasurements
    requires st.pubSamples == []
    ensures UserRun(Initialised(st), true, inputs, n).pubSamples
      == seq(n, k requires 0 <= k < n => Sample(inputs[k].modificationTime, k + 1))
  {
    PublisherLogOfRun(Initialised(st), inputs, n);
  }

  /** In one cycle the subscriber log gains a record exactly when CSV logging
      is on, the subscriber counter is positive and the log has room; the
      record is then the receive time with that counter. */
  lemma SubscriberLoggedExactlyWhen(st: AppState, enableCsvLog: bool, c: CycleInput)
    ensures var r := UserCycle(st, enableCsvLog, c);
      (|r.subSamples| == |st.subSamples| + 1) <==> (enableCsvLog && c.subCounter > 0 && |st.subSamples| < MaxMeasurements)
    ensures var r := UserCycle(st, enableCsvLog, c);
      |r.subSamples| != |st.subSamples| + 1 ==> r.subSamples == st.subSamples
    ensures var r := UserCycle(st, enableCsvLog, c);
      |r.subSamples| == |st.subSamples| + 1 ==> r.subSamples == st.subSamples + [Sample(c.receiveTime, c.subCounter)]
  {
  }

  /** The globals of the program that the threads share. */
  class SharedState {
    var running: bool
    var pubCounter: nat
    const repeatedCounters: array<nat>
    const publishTimestamp: array<Time>
    const publishCounterValue: array<nat>
    var measurementsPublisher: nat
    const subscribeTimestamp: array<Time>
    const subscribeCounterValue: array<nat>
    var measurementsSubscriber: nat
    const enableCsvLog: bool
    /** The records of the two logs. */
    ghost var PubSamples: seq<Sample>
    ghost var SubSamples: seq<Sample>

    ghost predicate Valid()
      reads this, publishTimestamp, publishCounterValue, subscribeTimestamp, subscribeCounterValue
    {
      && publishTimestamp != subscribeTimestamp
      && publishCounterValue != subscribeCounterValue
      && repeatedCounters != publishCounterValue
      && repeatedCounters != subscribeCounterValue
      && repeatedCounters.Length == RepeatedNodeCounts
      && publishTimestamp.Length == MaxMeasurements && publishCounterValue.Length == MaxMeasurements
      && subscribeTimestamp.Length == MaxMeasurements && subscribeCounterValue.Length == MaxMeasurements
      && measurementsPublisher <= MaxMeasurements && |PubSamples| == measurementsPublisher
      && (forall i :: 0 <= i < measurementsPublisher ==>
            PubSamples[i] == Sample(publishTimestamp[i], publishCounterValue[i]))
      && measurementsSubscriber <= MaxMeasurements && |SubSamples| == measurementsSubscriber
      && (forall i :: 0 <= i < measurementsSubscriber ==>
            SubSamples[i] == Sample(subscribeTimestamp[i], subscribeCounterValue[i]))
    }

    ghost function View(): AppState
      reads this, repeatedCounters
    {
      AppState(running, pubCounter, repeatedCounters[..], PubSamples, SubSamples)
    }

    /** Start-up: `running` set, counter cells zeroed, both logs empty. */
    constructor (enableCsvLog: bool)
      ensures Valid() && this.enableCsvLog == enableCsvLog
      ensures View() == AppState(true, 0, seq(RepeatedNodeCounts, i => 0), [], [])
      ensures fresh(repeatedCounters) && fresh(publishTimestamp) && fresh(publishCounterValue)
      ensures fresh(subscribeTimestamp) && fresh(subscribeCounterValue)
    {
      running := true;
      pubCounter := 0;
      repeatedCounters := new nat[RepeatedNodeCounts](i => 0);
      publishTimestamp := new Time[MaxMeasurements];
      publishCounterValue := new nat[MaxMeasurements];
      measurementsPublisher := 0;
      subscribeTimestamp := new Time[MaxMeasurements];
      subscribeCounterValue := new nat[MaxMeasurements];
      measurementsSubscriber := 0;
      this.enableCsvLog := enableCsvLog;
      PubSamples, SubSamples := [], [];
    }

    /** updateMeasurementsPublisher: with room left, write the record at
        index measurementsPublisher and bump it; on a full log store
        nothing and clear `running`. */
    method UpdateMeasurementsPublisher(startTime: Time, counterValue: nat)
      requires Valid()
      modifies this, publishTimestamp, publishCounterValue
      ensures Valid()
      ensures View() == RecordPublisher(old(View()), Sample(startTime, counterValue))
      ensures old(measurementsPublisher) < MaxMeasurements ==>
        && measurementsPublisher == old(measurementsPublisher) + 1
        && publishTimestamp[old(measurementsPublisher)] == startTime
        && publishCounterValue[old(measurementsPublisher)] == counterValue
        && running == old(running)
      ensures old(measurementsPublisher) >= MaxMeasurements ==>
        measurementsPublisher == old(measurementsPublisher) && !running
      ensures forall i :: 0 <= i < MaxMeasurements && i != old(measurementsPublisher) ==>
        publishTimestamp[i] == old(publishTimestamp[i]) && publishCounterValue[i] == old(publishCounterValue[i])
      ensures measurementsSubscriber == old(measurementsSubscriber)
    {
      if measurementsPublisher >= MaxMeasurements {
        running := false;
        return;
      }
      publishTimestamp[measurementsPublisher] := startTime;
      publishCounterValue[measurementsPublisher] := counterValue;
      PubSamples := PubSamples + [Sample(startTime, counterValue)];
      measurementsPublisher := measurementsPublisher + 1;
    }

    /** updateMeasurementsSubscriber: the same for the subscriber log. */
    method UpdateMeasurementsSubscriber(receiveTime: Time, counterValue: nat)
      requires Valid()
      modifies this, subscribeTimestamp, subscribeCounterValue
      ensures Valid()
      ensures View() == RecordSubscriber(old(View()), Sample(receiveTime, counterValue))
      ensures old(measurementsSubscriber) < MaxMeasurements ==>
        && measurementsSubscriber == old(measurementsSubscriber) + 1
        && subscribeTimestamp[old(measurementsSubscriber)] == receiveTime
        && subscribeCounterValue[old(measurementsSubscriber)] == counterValue
        && running == old(running)
      ensures old(measurementsSubscriber) >= MaxMeasurements ==>
        measurementsSubscriber == old(measurementsSubscriber) && !running
      ensures forall i :: 0 <= i < MaxMeasurements && i != old(measurementsSubscriber) ==>
        subscribeTimestamp[i] == old(subscribeTimestamp[i]) && subscribeCounterValue[i] == old(subscribeCounterValue[i])
      ensures measurementsPublisher == old(measurementsPublisher)
    {
      if measurementsSubscriber >= MaxMeasurements {
        running := false;
        return;
      }
      subscribeTimestamp[measurementsSubscriber] := receiveTime;
      subscribeCounterValue[measurementsSubscriber] := counterValue;
      SubSamples := SubSamples + [Sample(receiveTime, counterValue)];
      measurementsSubscriber := measurementsSubscriber + 1;
    }

    /** The start of the user application: the publisher counter becomes 0
        and every repeated counter RepeatedCounterInit. */
    method InitialiseCounters()
      requires Valid()
      modifies this, repeatedCounters
      ensures Valid()
      ensures View() == Initialised(old(View()))
    {
      pubCounter := 0;
      var i := 0;
      while i < RepeatedNodeCounts
        invariant 0 <= i <= RepeatedNodeCounts
        invariant forall j :: 0 <= j < i ==> repeatedCounters[j] == RepeatedCounterInit
        modifies repeatedCounters
      {
        repeatedCounters[i] := RepeatedCounterInit;
        i := i + 1;
      }
      assert repeatedCounters[..] == seq(RepeatedNodeCounts, i => RepeatedCounterInit);
    }

    /** The counter step of a user-application cycle: the publisher counter
        and every repeated counter go up by one. */
    method IncrementPublisherCounters()
      requires Valid()
      modifies this, repeatedCounters
      ensures Valid()
      ensures View() == Bumped(old(View()))
    {
      pubCounter := pubCounter + 1;
      var i := 0;
      while i < RepeatedNodeCounts
        invariant 0 <= i <= RepeatedNodeCounts
        invariant forall j :: 0 <= j < i ==> repeatedCounters[j] == old(repeatedCounters[j]) + 1
        invariant forall j :: i <= j < RepeatedNodeCounts ==> repeatedCounters[j] == old(repeatedCounters[j])
        modifies repeatedCounters
      {
        repeatedCounters[i] := repeatedCounters[i] + 1;
        i := i + 1;
      }
    }

    /** The logging step of a user-application cycle, reading the two clock
        readings and the subscriber counter from `c`. */
    method LogMeasurements(c: CycleInput)
      requires Valid()
      modifies this, publishTimestamp, publishCounterValue, subscribeTimestamp, subscribeCounterValue
      ensures Valid()
      ensures View() == LoggingStep(old(View()), enableCsvLog, c)
    {
      var dataModificationTime := c.modificationTime;
      var dataReceiveTime := c.receiveTime;
      if enableCsvLog {
        UpdateMeasurementsPublisher(dataModificationTime, pubCounter);
        if c.subCounter > 0 {
          UpdateMeasurementsSubscriber(dataReceiveTime, c.subCounter);
        }
      }
    }

    /** Cycle k of a run from `init` that found `running` set: the counters
        and logs move from the state after k cycles to the state after
        k + 1, and the deadline advances to that of cycle k + 1. */
    method UserApplicationCycle(ghost init: AppState, inputs: seq<CycleInput>, k: nat,
                                ghost d0: Time, periodNs: nat, next: Time)
      returns (following: Time)
      requires Valid() && k < |inputs| && running
      requires View() == UserRun(init, enableCsvLog, inputs, k)
      requires next == DeadlineAfter(d0, periodNs, k)
      modifies this, repeatedCounters, publishTimestamp, publishCounterValue, subscribeTimestamp, subscribeCounterValue
      ensures Valid()
      ensures View() == UserRun(init, enableCsvLog, inputs, k + 1)
      ensures CyclesFrom(init, enableCsvLog, inputs, k + 1) == CyclesFrom(init, enableCsvLog, inputs, k)
      ensures following == DeadlineAfter(d0, periodNs, k + 1)
    {
      IncrementPublisherCounters();
      LogMeasurements(inputs[k]);
      following := AdvanceDeadline(next, periodNs);
    }

    /** userApplicationPubSub: set the counters to their start values, then
        once per cycle while `running` holds: sleep until the deadline, bump
        the publisher counters, log them (and a positive subscriber counter)
        when CSV logging is on, advance the deadline by one period. Cycle k
        reads inputs[k]; the thread is stopped from outside after
        |inputs| cycles at the latest. Returns the deadlines slept until. */
    method UserApplicationPubSub(now: Time, periodNs: nat, phaseNs: nat, inputs: seq<CycleInput>)
      returns (wakeups: seq<Time>)
      requires Valid()
      modifies this, repeatedCounters, publishTimestamp, publishCounterValue, subscribeTimestamp, subscribeCounterValue
      ensures Valid()
      ensures |wakeups| == CyclesFrom(Initialised(old(View())), enableCsvLog, inputs, 0)
      ensures View() == UserRun(Initialised(old(View())), enableCsvLog, inputs, |wakeups|)
      ensures wakeups == Deadlines(FirstDeadline(now, phaseNs), periodNs, |wakeups|)
    {
      var next := StartDeadline(now, phaseNs);
      ghost var d0 := FirstDeadline(now, phaseNs);

      InitialiseCounters();
      ghost var init := View();

      wakeups := [];
      var k := 0;
      while running && k < |inputs|
        invariant Valid()
        invariant 0 <= k <= |inputs| && |wakeups| == k
        invariant next == DeadlineAfter(d0, periodNs, k)
        invariant wakeups == Deadlines(d0, periodNs, k)
        invariant View() == UserRun(init, enableCsvLog, inputs, k)
        invariant CyclesFrom(init, enableCsvLog, inputs, k) == CyclesFrom(init, enableCsvLog, inputs, 0)
      {
        wakeups := wakeups + [next];
        next := UserApplicationCycle(init, inputs, k, d0, periodNs, next);
        k := k + 1;
      }
    }
  }
}
