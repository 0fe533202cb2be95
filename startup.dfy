/** The start of `main`: the command-line options are read in order, then
    the interface and the cycle time are checked and the transport layers
    allocated before any node, connection or thread is set up. */
module Startup {

  datatype Option<T> = None | Some(value: T)

  /** The smallest accepted cycle time, 0.125 ms, in nanoseconds. */
  const MinCycleTimeNs: int := 125000
  /** DEFAULT_CYCLE_TIME, 0.25 ms, in nanoseconds. */
  const DefaultCycleTimeNs: int := 250000
  /** DEFAULT_QBV_OFFSET, in microseconds. */
  const DefaultQbvOffset: int := 125
  /** What `main` returns after printing the usage text. */
  const UsageFailure: int := -1
  /** EXIT_FAILURE: what `main` returns when the transport layers cannot be
      allocated. */
  const ExitFailure: int := 1

  /** One command-line option as `getopt_long_only` hands it over. The
      priorities, cores, MAC addresses and `disableSoTxtime` only set
      globals this model does not read; they are `Other`. */
  datatype Arg =
    | Interface(name: string)
    | CycleTime(ns: int)
    | QbvOffset(us: int)
    | EnableCsvLog
    | Help
    | Other

  /** The option values `main` goes on with. */
  datatype Settings = Settings(interface: Option<string>, cycleTimeNs: int, qbvOffset: int, enableCsvLog: bool)

  /** How `main` ends its start-up: it returns `code`, or it goes on to
      build the server and start the threads with `settings`. */
  datatype Outcome = Exit(code: int) | Start(settings: Settings)

  function Defaults(): Settings
  {
    Settings(None, DefaultCycleTimeNs, DefaultQbvOffset, false)
  }

  /** The effect of one option other than `Help` on the settings. */
  function Apply(s: Settings, a: Arg): Settings
  {
    match a
    case Interface(name) => s.(interface := Some(name))
    case CycleTime(ns) => s.(cycleTimeNs := ns)
    case QbvOffset(us) => s.(qbvOffset := us)
    case EnableCsvLog => s.(enableCsvLog := true)
    case Help => s
    case Other => s
  }

  /** The settings after reading the options `args` in order, starting
      from `s`. */
  function ReadOptions(s: Settings, args: seq<Arg>): Settings
    decreases |args|
  {
    if args == [] then s else ReadOptions(Apply(s, args[0]), args[1..])
  }

  /** The settings after reading every option of `args`. */
  function Settle(args: seq<Arg>): Settings
  {
    ReadOptions(Defaults(), args)
  }

  /** What start-up does with the options `args`; `transportAllocated`
      says whether the allocation of the transport layers succeeded. */
  function Launch(args: seq<Arg>, transportAllocated: bool): (r: Outcome)
    ensures r.Exit? ==> r.code == UsageFailure || r.code == ExitFailure
    ensures r.Start? ==>
      && Help !in args
      && transportAllocated
      && r.settings.interface.Some?
      && r.settings.cycleTimeNs >= MinCycleTimeNs
  {
    if Help in args then Exit(UsageFailure)
    else
      var s := Settle(args);
      if s.interface.None? then Exit(UsageFailure)
      else if s.cycleTimeNs < MinCycleTimeNs then Exit(UsageFailure)
      else if !transportAllocated then Exit(ExitFailure)
      else Start(s)
  }

  /** Options that do not set the interface or the cycle time leave it as
      it was; the interface ends up unset exactly when it was unset and no
      option sets it. */
  lemma {:induction false} OptionsKeep(s: Settings, args: seq<Arg>)
    ensures (forall i :: 0 <= i < |args| ==> !args[i].Interface?) ==> ReadOptions(s, args).interface == s.interface
    ensures (forall i :: 0 <= i < |args| ==> !args[i].CycleTime?) ==> ReadOptions(s, args).cycleTimeNs == s.cycleTimeNs
    ensures ReadOptions(s, args).interface.None? <==> s.interface.None? && forall i :: 0 <= i < |args| ==> !args[i].Interface?
    decreases |args|
  {
    if args != [] {
      OptionsKeep(Apply(s, args[0]), args[1..]);
    }
  }

  /** The last occurrence of an option wins: the interface is that of the
      last `Interface` option. */
  lemma {:induction false} LastInterfaceWins(s: Settings, args: seq<Arg>, i: nat)
    requires i < |args| && args[i].Interface?
    requires forall j :: i < j < |args| ==> !args[j].Interface?
    ensures ReadOptions(s, args).interface == Some(args[i].name)
    decreases i
  {
    if i > 0 {
      LastInterfaceWins(Apply(s, args[0]), args[1..], i - 1);
    } else {
      OptionsKeep(Apply(s, args[0]), args[1..]);
    }
  }

  /** The cycle time is that of the last `CycleTime` option. */
  lemma {:induction false} LastCycleTimeWins(s: Settings, args: seq<Arg>, i: nat)
    requires i < |args| && args[i].CycleTime?
    requires forall j :: i < j < |args| ==> !args[j].CycleTime?
    ensures ReadOptions(s, args).cycleTimeNs == args[i].ns
    decreases i
  {
    if i > 0 {
      LastCycleTimeWins(Apply(s, args[0]), args[1..], i - 1);
    } else {
      OptionsKeep(Apply(s, args[0]), args[1..]);
    }
  }

  /** A help request, a missing interface or a cycle time below 0.125 ms
      make `main` return -1, and nothing else does; with those passed, a
      failed allocation makes it return EXIT_FAILURE; start-up goes on to
      the threads exactly when all checks pass. */
  lemma LaunchOutcomes(args: seq<Arg>, transportAllocated: bool)
    ensures Launch(args, transportAllocated) == Exit(UsageFailure)
        <==> (Help in args
              || (forall i :: 0 <= i < |args| ==> !args[i].Interface?)
              || Settle(args).cycleTimeNs < MinCycleTimeNs)
    ensures Launch(args, transportAllocated) == Exit(ExitFailure)
        <==> (Help !in args
              && (exists i :: 0 <= i < |args| && args[i].Interface?)
              && Settle(args).cycleTimeNs >= MinCycleTimeNs
              && !transportAllocated)
    ensures Launch(args, transportAllocated).Start?
        <==> (Help !in args
              && (exists i :: 0 <= i < |args| && args[i].Interface?)
              && Settle(args).cycleTimeNs >= MinCycleTimeNs
              && transportAllocated)
    ensures Launch(args, transportAllocated).Start? ==>
      Launch(args, transportAllocated).settings == Settle(args)
  {
    OptionsKeep(Defaults(), args);
  }

  /** The option loop and the checks after it, up to the point where the
      server is built. A help request ends the loop at once. */
  method ProcessArguments(args: seq<Arg>, transportAllocated: bool) returns (result: Outcome)
    ensures result == Launch(args, transportAllocated)
  {
    var settings := Defaults();
    var i := 0;
    while i < |args|
      invariant 0 <= i <= |args|
      invariant ReadOptions(settings, args[i..]) == Settle(args)
      invariant forall j :: 0 <= j < i ==> !args[j].Help?
    {
      if args[i].Help? {
        return Exit(UsageFailure);
      }
      assert args[i..][1..] == args[i + 1..];
      settings := Apply(settings, args[i]);
      i := i + 1;
    }
    if settings.interface.None? || settings.cycleTimeNs < MinCycleTimeNs {
      result := Exit(UsageFailure);
    } else if !transportAllocated {
      result := Exit(ExitFailure);
    } else {
      result := Start(settings);
    }
  }
}
