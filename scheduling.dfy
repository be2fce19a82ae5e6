/**
 * The validation and scheduling loop of `runWithDirector` (ooni/oonicli.py):
 * every loader's options are checked, its reporters are built, and the start
 * of its net test is chained onto the director's deferred; `shutdown` is
 * chained once after all of them. The outcome of `checkOptions` and whether
 * the collector reporter accepts its address are inputs of the model.
 */
module Scheduling {
  import opened Wrappers
  import CliOptions
  import opened TestList

  /** A reporter, built over the details of one net test. */
  datatype Reporter =
    | YAMLReporter(testDetails: NetTestLoader)
    | OONIBReporter(testDetails: NetTestLoader, collectorAddress: string)

  /** What `checkOptions` does for a loader: returns, or raises one of two errors. */
  datatype CheckOutcome =
    | OptionsOk
    | MissingRequiredOption(optionName: string)
    | OptionUsageError(message: string)

  /**
   * A callback chained on the deferred: the start of one net test with its
   * reporters (chained with `addCallback`), or `shutdown` (chained with `addBoth`).
   */
  datatype Callback =
    | StartNetTest(loader: NetTestLoader, reporters: seq<Reporter>)
    | Shutdown

  /**
   * How a run ends: the process exits with a code before the reactor runs,
   * an uncaught key error from the test deck ends it, or the reactor runs
   * the chained callbacks.
   */
  datatype RunOutcome =
    | Exit(code: int)
    | Crash(error: KeyError)
    | ReactorRun(chain: seq<Callback>)

  /** The deferred returned by `director.start()`, seen as the callbacks chained on it. */
  class Deferred {
    var callbacks: seq<Callback>

    constructor ()
      ensures callbacks == []
    {
      callbacks := [];
    }

    /** `addCallback` / `addBoth`: appends one callback to the chain. */
    method AddCallback(c: Callback)
      modifies this
      ensures callbacks == old(callbacks) + [c]
    {
      callbacks := callbacks + [c];
    }
  }

  /**
   * The reporters of one loader: the YAML reporter, then the collector
   * reporter exactly when a collector is configured.
   */
  function Reporters(loader: NetTestLoader, collector: Option<string>): (r: seq<Reporter>)
    ensures 1 <= |r| <= 2 && r[0] == YAMLReporter(loader)
    ensures |r| == 2 <==> CliOptions.Truthy(collector)
    ensures |r| == 2 ==> r[1] == OONIBReporter(loader, collector.value)
  {
    [YAMLReporter(loader)] + if CliOptions.Truthy(collector) then [OONIBReporter(loader, collector.value)] else []
  }

  /** A loader passes setup: its options check and, if configured, its collector reporter succeed. */
  predicate Admitted(loader: NetTestLoader, collector: Option<string>,
                     check: NetTestLoader -> CheckOutcome, accepts: (NetTestLoader, string) -> bool)
  {
    check(loader).OptionsOk? && (CliOptions.Truthy(collector) ==> accepts(loader, collector.value))
  }

  /** The exit code of a loader that is not admitted: 2 for an option error, 1 for a bad collector address. */
  function ExitCode(loader: NetTestLoader, check: NetTestLoader -> CheckOutcome): int
  {
    if check(loader).OptionsOk? then 1 else 2
  }

  /** Puts `prefix` in front of a chain; an exit or a crash stays as it is. */
  function Prefixed(prefix: seq<Callback>, outcome: RunOutcome): RunOutcome
  {
    if outcome.ReactorRun? then ReactorRun(prefix + outcome.chain) else outcome
  }

  /** The outcome of the loop, loader by loader. */
  function Plan(loaders: seq<NetTestLoader>, collector: Option<string>,
                check: NetTestLoader -> CheckOutcome, accepts: (NetTestLoader, string) -> bool): RunOutcome
  {
    if loaders == [] then ReactorRun([Shutdown])
    else if !check(loaders[0]).OptionsOk? then Exit(2)
    else if CliOptions.Truthy(collector) && !accepts(loaders[0], collector.value) then Exit(1)
    else Prefixed([StartNetTest(loaders[0], Reporters(loaders[0], collector))],
                  Plan(loaders[1..], collector, check, accepts))
  }

  /** The number of leading loaders that are admitted. */
  function FirstRejected(loaders: seq<NetTestLoader>, collector: Option<string>,
                         check: NetTestLoader -> CheckOutcome, accepts: (NetTestLoader, string) -> bool): (k: nat)
    ensures k <= |loaders|
    ensures forall i :: 0 <= i < k ==> Admitted(loaders[i], collector, check, accepts)
    ensures k < |loaders| ==> !Admitted(loaders[k], collector, check, accepts)
  {
    if loaders == [] || !Admitted(loaders[0], collector, check, accepts) then 0
    else 1 + FirstRejected(loaders[1..], collector, check, accepts)
  }

  /** The start callbacks of the loaders, one per loader, in order, each with its own reporters. */
  function Starts(loaders: seq<NetTestLoader>, collector: Option<string>): (chain: seq<Callback>)
    ensures |chain| == |loaders|
  {
    seq(|loaders|, i requires 0 <= i < |loaders| => StartNetTest(loaders[i], Reporters(loaders[i], collector)))
  }

  /** `FirstRejected` is the one position with every loader before it admitted and itself not. */
  lemma FirstRejectedAt(loaders: seq<NetTestLoader>, k: nat, collector: Option<string>,
                        check: NetTestLoader -> CheckOutcome, accepts: (NetTestLoader, string) -> bool)
    requires k <= |loaders|
    requires forall i :: 0 <= i < k ==> Admitted(loaders[i], collector, check, accepts)
    requires k < |loaders| ==> !Admitted(loaders[k], collector, check, accepts)
    ensures FirstRejected(loaders, collector, check, accepts) == k
  {
  }

  /** The start callbacks grow by one as the loop admits one more loader. */
  lemma StartsExtend(loaders: seq<NetTestLoader>, i: nat, collector: Option<string>)
    requires i < |loaders|
    ensures Starts(loaders[..i + 1], collector) ==
              Starts(loaders[..i], collector) + [StartNetTest(loaders[i], Reporters(loaders[i], collector))]
  {
    var longer, shorter := Starts(loaders[..i + 1], collector), Starts(loaders[..i], collector);
    forall j | 0 <= j < i ensures longer[j] == shorter[j] {
      assert loaders[..i + 1][j] == loaders[..i][j];
    }
  }

  /**
   * The loop in one statement: if every loader is admitted, the reactor runs
   * the starts of all loaders in order and then a single shutdown; otherwise
   * the process exits with the code of the first loader not admitted.
   */
  lemma {:induction false} PlanIsFirstRejection(loaders: seq<NetTestLoader>, collector: Option<string>,
                                                check: NetTestLoader -> CheckOutcome,
                                                accepts: (NetTestLoader, string) -> bool)
    ensures var k := FirstRejected(loaders, collector, check, accepts);
            Plan(loaders, collector, check, accepts) ==
              if k == |loaders| then ReactorRun(Starts(loaders, collector) + [Shutdown])
              else Exit(ExitCode(loaders[k], check))
  {
    if loaders != [] && Admitted(loaders[0], collector, check, accepts) {
      PlanIsFirstRejection(loaders[1..], collector, check, accepts);
      assert Starts(loaders, collector) ==
               [StartNetTest(loaders[0], Reporters(loaders[0], collector))] + Starts(loaders[1..], collector);
    }
  }

  /** The chain, when the reactor runs: one start per loader in order, then shutdown, exactly once and last. */
  lemma ScheduledChain(loaders: seq<NetTestLoader>, collector: Option<string>,
                       check: NetTestLoader -> CheckOutcome, accepts: (NetTestLoader, string) -> bool)
    ensures Plan(loaders, collector, check, accepts).ReactorRun? <==>
              forall i :: 0 <= i < |loaders| ==> Admitted(loaders[i], collector, check, accepts)
    ensures Plan(loaders, collector, check, accepts).ReactorRun? ==>
              var chain := Plan(loaders, collector, check, accepts).chain;
              && |chain| == |loaders| + 1
              && (forall i :: 0 <= i < |loaders| ==>
                    chain[i] == StartNetTest(loaders[i], Reporters(loaders[i], collector)))
              && chain[|loaders|] == Shutdown
              && (forall i :: 0 <= i < |loaders| ==> chain[i] != Shutdown)
  {
    PlanIsFirstRejection(loaders, collector, check, accepts);
  }

  /**
   * The process exits with code 2 exactly when some loader fails its options
   * check and every loader before it was admitted.
   */
  lemma ExitTwoIff(loaders: seq<NetTestLoader>, collector: Option<string>,
                   check: NetTestLoader -> CheckOutcome, accepts: (NetTestLoader, string) -> bool)
    ensures Plan(loaders, collector, check, accepts) == Exit(2) <==>
              exists k :: 0 <= k < |loaders| && !check(loaders[k]).OptionsOk? &&
                          forall i :: 0 <= i < k ==> Admitted(loaders[i], collector, check, accepts)
  {
    PlanIsFirstRejection(loaders, collector, check, accepts);
    if exists k :: 0 <= k < |loaders| && !check(loaders[k]).OptionsOk? &&
                   forall i :: 0 <= i < k ==> Admitted(loaders[i], collector, check, accepts) {
      var k :| 0 <= k < |loaders| && !check(loaders[k]).OptionsOk? &&
               forall i :: 0 <= i < k ==> Admitted(loaders[i], collector, check, accepts);
      FirstRejectedAt(loaders, k, collector, check, accepts);
    }
  }

  /**
   * The process exits with code 1 exactly when a collector is configured and
   * some loader passes its options check, its collector reporter rejects the
   * address, and every loader before it was admitted.
   */
  lemma ExitOneIff(loaders: seq<NetTestLoader>, collector: Option<string>,
                   check: NetTestLoader -> CheckOutcome, accepts: (NetTestLoader, string) -> bool)
    ensures Plan(loaders, collector, check, accepts) == Exit(1) <==>
              CliOptions.Truthy(collector) &&
              exists k :: 0 <= k < |loaders| && check(loaders[k]).OptionsOk? &&
                          !accepts(loaders[k], collector.value) &&
                          forall i :: 0 <= i < k ==> Admitted(loaders[i], collector, check, accepts)
  {
    PlanIsFirstRejection(loaders, collector, check, accepts);
    if CliOptions.Truthy(collector) &&
       exists k :: 0 <= k < |loaders| && check(loaders[k]).OptionsOk? &&
                   !accepts(loaders[k], collector.value) &&
                   forall i :: 0 <= i < k ==> Admitted(loaders[i], collector, check, accepts) {
      var k :| 0 <= k < |loaders| && check(loaders[k]).OptionsOk? &&
               !accepts(loaders[k], collector.value) &&
               forall i :: 0 <= i < k ==> Admitted(loaders[i], collector, check, accepts);
      FirstRejectedAt(loaders, k, collector, check, accepts);
    }
  }

  /**
   * Loaders are validated in order and the first one not admitted ends the
   * process: the loaders after it are never looked at.
   */
  lemma {:induction false} LaterLoadersIgnored(loaders: seq<NetTestLoader>, later: seq<NetTestLoader>,
                                               collector: Option<string>,
                                               check: NetTestLoader -> CheckOutcome,
                                               accepts: (NetTestLoader, string) -> bool)
    requires exists i :: 0 <= i < |loaders| && !Admitted(loaders[i], collector, check, accepts)
    ensures Plan(loaders + later, collector, check, accepts) == Plan(loaders, collector, check, accepts)
    ensures Plan(loaders, collector, check, accepts).Exit?
  {
    if Admitted(loaders[0], collector, check, accepts) {
      assert exists i :: 0 <= i < |loaders[1..]| && !Admitted(loaders[1..][i], collector, check, accepts) by {
        var i :| 0 <= i < |loaders| && !Admitted(loaders[i], collector, check, accepts);
        assert loaders[1..][i - 1] == loaders[i];
      }
      LaterLoadersIgnored(loaders[1..], later, collector, check, accepts);
      assert (loaders + later)[1..] == loaders[1..] + later;
    }
  }

  /**
   * The loop of `runWithDirector` from `director.start()` to the start of
   * the reactor: exits with 2 or 1 at the first loader not admitted, chains
   * each admitted loader's start with its reporters, then chains `shutdown`.
   */
  method ScheduleTests(testList: seq<NetTestLoader>, collector: Option<string>,
                       check: NetTestLoader -> CheckOutcome, accepts: (NetTestLoader, string) -> bool)
    returns (outcome: RunOutcome)
    ensures outcome == Plan(testList, collector, check, accepts)
  {
    PlanIsFirstRejection(testList, collector, check, accepts);
    var d := new Deferred();
    var i := 0;
    while i < |testList|
      invariant 0 <= i <= |testList|
      invariant forall j :: 0 <= j < i ==> Admitted(testList[j], collector, check, accepts)
      invariant d.callbacks == Starts(testList[..i], collector)
    {
      var netTestLoader := testList[i];
      if !check(netTestLoader).OptionsOk? {
        FirstRejectedAt(testList, i, collector, check, accepts);
        return Exit(2);
      }
      var reporters := [YAMLReporter(netTestLoader)];
      if CliOptions.Truthy(collector) {
        if !accepts(netTestLoader, collector.value) {
          FirstRejectedAt(testList, i, collector, check, accepts);
          return Exit(1);
        }
        reporters := reporters + [OONIBReporter(netTestLoader, collector.value)];
      }
      assert reporters == Reporters(netTestLoader, collector);
      d.AddCallback(StartNetTest(netTestLoader, reporters));
      StartsExtend(testList, i, collector);
      i := i + 1;
    }
    d.AddCallback(Shutdown);
    assert testList[..i] == testList;
    FirstRejectedAt(testList, i, collector, check, accepts);
    outcome := ReactorRun(d.callbacks);
  }
}
