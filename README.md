# Cycle timing and bookkeeping of the real-time PubSub example

This project models the sequential core of the open62541 real-time
publisher/subscriber example `pubsub_TSN_publisher.c`. Four threads run in
that program: a publisher, a subscriber, a user application and the OPC UA
server. Each of the first three wakes at a fixed phase of every cycle. The
core modelled here is what those threads compute between the OS and library
calls:

- **`TimeArithmetic`**: `nanoSecondFieldConversion`. A loop moves whole
  seconds out of the nanosecond field of a `struct timespec` deadline.
  `Normalize` is that loop. `NormalForm` is its specification, together
  with lemmas on conservation, bounds, division and idempotence.
- **`Schedule`**: the periodic deadline shared by the three role threads.
  - Start: the clock's seconds plus 5, the phase in the nanosecond field,
    normalised.
  - Each cycle: add the period, normalise.
  - The publisher's ETF transmission time.
  - `PublisherETF` and `Subscriber` are the two thread loops, with the
    sleep and the transport callback reduced to a trace of deadlines
    (and, for the publisher, of transmission times).
- **`Measurements`**: the bounded measurement logs, on values. A record
  offered to a full log is dropped and clears `running`.
- **`UserApplication`**: the program's globals as a class `SharedState`.
  - `running`, the publisher counter and the repeated counter cells.
  - The two pairs of fixed-size timestamp/counter arrays with their fill
    counts.
  - `updateMeasurementsPublisher`/`updateMeasurementsSubscriber` and the
    `userApplicationPubSub` thread loop, each proved against value-level
    functions (`RecordPublisher`, `UserCycle`, `UserRun`, `CyclesFrom`).
- **`Startup`**: the option loop of `main` and the checks that can end the
  program before any node, connection or thread is created: help, missing
  interface, cycle time below 0.125 ms, failed transport allocation.

Outside inputs are parameters of the model:

- the clock readings;
- the subscriber counter written by the subscriber thread;
- the outcome of the allocation;
- the number of cycles a thread makes before `running` is cleared from
  outside.

The period, the phase offsets and the round-off are natural numbers of
nanoseconds. In the program they come from a `double` cycle time.

Two details follow the code as written:
- The subscriber's first nanosecond field is `(long)subWakeupPercentage`
  (pubsub_TSN_publisher.c:833), the wake fraction itself truncated, not the
  fraction times the cycle. `SubscriberInitialNsec` is that value (0 for
  the program's 0.0).
- `main` returns -1 for a missing interface or a short cycle time, and
  EXIT_FAILURE (1) when the transport layers cannot be allocated.

The file as written does not preprocess and compile cleanly. The model
takes the evident intent with `PUBLISHER` and `SUBSCRIBER` both defined:
- The `#if` at :849 is never closed.
- `ethernetETFtransportSettings` (:783-784) is undeclared; the model does
  not model that transport setting.
- The reader group's `CYCLE_TIME` (:362) is undefined. The model reads it
  as `cycleTimeInMsec`: each role's period is a parameter of that role.

## Model

| member | source | states |
|---|---|---|
| TimeArithmetic.NormalForm | examples/pubsub_realtime/pubsub_TSN_publisher.c:234-242 | the result's nanosecond field is at most 10^9-1, the absolute time `sec*10^9+nsec` is unchanged, seconds never decrease, a non-negative field ends in [0, 10^9), and a field already at most 10^9-1 (negative included) is left as is |
| TimeArithmetic.NormalFormIsDivMod | examples/pubsub_realtime/pubsub_TSN_publisher.c:236-239 | for a non-negative nanosecond field, seconds grow by exactly `nsec div 10^9` and the field becomes `nsec mod 10^9` |
| TimeArithmetic.NormalFormIdempotent | examples/pubsub_realtime/pubsub_TSN_publisher.c:234-240 | normalising twice is normalising once |
| TimeArithmetic.Normalize | examples/pubsub_realtime/pubsub_TSN_publisher.c:234-242 | the loop computes the normal form, preserves the absolute time, leaves a normal value for a non-negative field with seconds advanced by `nsec div 10^9`, and changes nothing when the field is at most 10^9-1 |
| Schedule.StartDeadline | examples/pubsub_realtime/pubsub_TSN_publisher.c:773-777 | the first deadline is the clock's seconds plus 5 with the phase as nanosecond field, normalised |
| Schedule.AdvanceDeadline | examples/pubsub_realtime/pubsub_TSN_publisher.c:799-800 | one cycle's advance is the period added to the nanosecond field, normalised |
| Schedule.Deadlines | examples/pubsub_realtime/pubsub_TSN_publisher.c:794-800 | the list of the first n deadlines has n entries and entry j is the deadline after j advances |
| Schedule.FirstDeadlineValue | examples/pubsub_realtime/pubsub_TSN_publisher.c:773-777 | a non-negative phase gives a normal first deadline at exactly (seconds + 5)·10^9 + phase ns; a phase below one second is kept as the nanosecond field |
| Schedule.NoDrift | examples/pubsub_realtime/pubsub_TSN_publisher.c:794-800 | after k advances the deadline is exactly TotalNs(start) + k·period, and a normal start stays normal |
| Schedule.OnePeriodApart | examples/pubsub_realtime/pubsub_TSN_publisher.c:799-800 | consecutive deadlines are exactly one period apart |
| Schedule.DeadlineClosedForm | examples/pubsub_realtime/pubsub_TSN_publisher.c:794-800 | from a normal start the k-th deadline is (sec + (nsec + k·period) div 10^9, (nsec + k·period) mod 10^9) |
| Schedule.TransmissionAtNextBoundary | examples/pubsub_realtime/pubsub_TSN_publisher.c:792-796 | when phase plus round-off is one period, the transmission time of cycle k is the next cycle boundary, (k+1) periods after the start second, plus qbvOffset·1000 |
| Schedule.DefaultTransmissionTime | examples/pubsub_realtime/pubsub_TSN_publisher.c:792-796 | with a 0.25 ms cycle, wake fraction 0.6 and Qbv offset 125, the transmission time is the deadline + 100000 + 125000 ns, 125000 ns after the next cycle boundary |
| Schedule.TransmissionTime | examples/pubsub_realtime/pubsub_TSN_publisher.c:796 | the transmission time handed to the ETF transport for a cycle: the deadline in nanoseconds plus the round-off plus qbvOffset·1000; what it means for the schedule is stated by TransmissionAtNextBoundary and DefaultTransmissionTime |
| Schedule.PublisherETF | examples/pubsub_realtime/pubsub_TSN_publisher.c:756-807 | cycle k sleeps until the k-th deadline, which is normal and lies exactly (seconds + 5)·10^9 + phase + k·period ns; its transmission time is that deadline plus round-off plus qbvOffset·1000 |
| Schedule.Subscriber | examples/pubsub_realtime/pubsub_TSN_publisher.c:816-846 | cycle k sleeps until the k-th deadline from the first nanosecond field `(long)subWakeupPercentage`, normal and exactly (seconds + 5)·10^9 + k·period ns |
| Measurements.Record | examples/pubsub_realtime/pubsub_TSN_publisher.c:716-727 | one call of the update functions on values keeps the old records as a prefix and adds at most one, never takes a log within its capacity past it, and leaves `running` set exactly when it was set and the log had room; a sequence of calls is covered by RecordAllEffect |
| Measurements.RecordAllEffect | examples/pubsub_realtime/pubsub_TSN_publisher.c:716-727 | a log never exceeds its capacity, keeps exactly the offered records that fitted, in order, and `running` survives exactly when nothing was dropped |
| Measurements.OverflowStopsRunning | examples/pubsub_realtime/pubsub_TSN_publisher.c:718-722 | capacity + 1 records into an empty log leave exactly the first capacity records and `running` false |
| UserApplication.CyclesFrom | examples/pubsub_realtime/pubsub_TSN_publisher.c:869-893 | the number of cycles of a run: every cycle before it was entered with `running` set, and the run stops early only because `running` was cleared |
| UserApplication.UserCycle | examples/pubsub_realtime/pubsub_TSN_publisher.c:869-892 | one cycle of the thread on values: the counters go up by one and the measurements are logged; its effect over a run is stated by UserRunCounters, UserRunLogs and SubscriberLoggedExactlyWhen |
| UserApplication.UserRunCounters | examples/pubsub_realtime/pubsub_TSN_publisher.c:872-874 | n cycles add exactly n to the publisher counter and to every repeated counter |
| UserApplication.CountersAfterRun | examples/pubsub_realtime/pubsub_TSN_publisher.c:863-874 | after n cycles from the start `pubCounter == n` and each of the two repeated counters is 10 + n |
| UserApplication.UserRunLogs | examples/pubsub_realtime/pubsub_TSN_publisher.c:880-888 | over a run the logs only grow and stay within MAX_MEASUREMENTS, every new subscriber record holds a positive counter, `running` never becomes true again, and without CSV logging neither log nor `running` changes |
| UserApplication.PublisherRecordOfCycle | examples/pubsub_realtime/pubsub_TSN_publisher.c:872-883 | with CSV logging on and room in the publisher log, one cycle appends exactly the modification time with the counter value it has just published |
| UserApplication.PublisherLogOfRun | examples/pubsub_realtime/pubsub_TSN_publisher.c:869-888 | with CSV logging on and room for every record, n cycles keep the old publisher records and append exactly n more, record k being cycle k's modification time with the counter value that cycle published |
| UserApplication.PublisherLogAfterRun | examples/pubsub_realtime/pubsub_TSN_publisher.c:863-888 | with CSV logging on, n cycles from the start state with an empty publisher log leave exactly the records (modification time of cycle k, k + 1) for k < n |
| UserApplication.SubscriberLoggedExactlyWhen | examples/pubsub_realtime/pubsub_TSN_publisher.c:880-888 | in one cycle the subscriber log gains a record iff CSV logging is on, the subscriber counter is positive and the log has room; the record is then (receive time, counter), otherwise the log is unchanged |
| UserApplication.SharedState.constructor | examples/pubsub_realtime/pubsub_TSN_publisher.c:125-183 | the globals start with `running` set, counters zero (as `main` also sets the counter cells at :589 and :623) and both logs empty, in newly allocated arrays the threads may then update |
| UserApplication.SharedState.UpdateMeasurementsPublisher | examples/pubsub_realtime/pubsub_TSN_publisher.c:716-727 | with room, the pair is written at index `measurementsPublisher`, which grows by one, `running` and every other entry unchanged; when full, nothing is stored, the count stays and `running` becomes false |
| UserApplication.SharedState.UpdateMeasurementsSubscriber | examples/pubsub_realtime/pubsub_TSN_publisher.c:735-746 | the same for the subscriber arrays and `measurementsSubscriber` |
| UserApplication.SharedState.InitialiseCounters | examples/pubsub_realtime/pubsub_TSN_publisher.c:863-867 | the publisher counter becomes 0 and every repeated counter 10, nothing else changes |
| UserApplication.SharedState.IncrementPublisherCounters | examples/pubsub_realtime/pubsub_TSN_publisher.c:872-874 | the publisher counter and every repeated counter go up by one, nothing else changes |
| UserApplication.SharedState.LogMeasurements | examples/pubsub_realtime/pubsub_TSN_publisher.c:880-888 | with CSV logging on, the publisher counter is logged and the subscriber counter when positive; otherwise nothing changes |
| UserApplication.SharedState.UserApplicationCycle | examples/pubsub_realtime/pubsub_TSN_publisher.c:869-892 | one cycle takes the state after k cycles to the state after k + 1, the deadline to the (k+1)-th, and does not change the number of cycles the run makes |
| UserApplication.SharedState.UserApplicationPubSub | examples/pubsub_realtime/pubsub_TSN_publisher.c:854-896 | the thread makes exactly CyclesFrom cycles, ends in the state UserRun gives for them from the initialised counters, and cycle k sleeps until the k-th deadline of its schedule |
| Startup.Launch | examples/pubsub_realtime/pubsub_TSN_publisher.c:1146-1202 | start-up either returns -1 or EXIT_FAILURE, or goes on with no help request, an interface set, a cycle time of at least 0.125 ms and the transport layers allocated; the exact conditions are in LaunchOutcomes |
| Startup.OptionsKeep | examples/pubsub_realtime/pubsub_TSN_publisher.c:1102-1150 | options that do not set the interface or the cycle time leave it as it was; the interface is unset exactly when no option sets it |
| Startup.LastInterfaceWins | examples/pubsub_realtime/pubsub_TSN_publisher.c:1104-1106 | the interface in effect is that of the last `-interface` option |
| Startup.LastCycleTimeWins | examples/pubsub_realtime/pubsub_TSN_publisher.c:1107-1109 | the cycle time in effect is that of the last `-cycleTimeInMsec` option |
| Startup.LaunchOutcomes | examples/pubsub_realtime/pubsub_TSN_publisher.c:1146-1202 | main returns -1 iff help is asked, no interface is given or the cycle time is below 0.125 ms; it returns EXIT_FAILURE iff those pass and the allocation fails; it goes on to the threads iff all pass |
| Startup.ProcessArguments | examples/pubsub_realtime/pubsub_TSN_publisher.c:1102-1202 | the option loop, which stops at a help request, and the checks after it give exactly the outcome `Launch` defines |

## Left out

- OPC UA server, connection, writer/reader group and node set-up, the transport callbacks, thread creation, CPU affinity, joins and signal handling: library and OS calls whose effect is not visible here.
- `clock_gettime` and `clock_nanosleep`: the clock reading is a parameter; a sleep is recorded as the deadline it waits for.
- CSV file output at the end of `main`: I/O.
- The concurrency between the threads: `running` cleared by another thread or a signal is modelled as a cycle count (`PublisherETF`, `Subscriber`) or as the end of the inputs (`UserApplicationPubSub`). The subscriber counter the user application reads is an input per cycle.
- Floating point: the period, the phases and the round-off are given as whole nanoseconds. The truncating `double`-to-integer conversions that produce them are not modelled. The cycle-time check is `cycleTimeNs < 125000`.
- Schedule.TransmissionTime: does not model the 64-bit unsigned wrap-around of the sum, nor the 32-bit `qbvOffset * 1000` before its cast. Integers are unbounded here, so a negative or very large Qbv offset gives the mathematical value.
- Deadline arithmetic: seconds and nanosecond fields are unbounded integers, so neither the 64-bit overflow of `tv_sec` nor that of `tv_nsec += interval` (:799, :839, :891) is modelled. This covers `Normalize`, `StartDeadline`, `AdvanceDeadline`, `PublisherETF`, `Subscriber` and `UserApplicationPubSub`.
- UserApplication.SharedState.UserApplicationPubSub: counters are unbounded, so the 64-bit wrap-around of `pubCounterData` and the repeated counters is not modelled.
- Startup.ProcessArguments: the priorities, cores, MAC addresses, `socketPriority` and `disableSoTxtime` options are read but have no effect in the model. Unknown options are not distinguished from them.
- The `txtime_enabled` transport setting (:783), which names an undeclared variable.
