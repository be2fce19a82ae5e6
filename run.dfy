/**
 * `runWithDirector` (ooni/oonicli.py) from the parsed command line to the
 * start of the reactor: parse the options, build the test list from the deck
 * or from the command line, then validate and schedule every test.
 * The loaded test deck and the two foreign outcomes are inputs.
 */
module Run {
  import opened Wrappers
  import CliOptions
  import opened TestList
  import opened Scheduling

  /**
   * What a run comes to, given the option values the option parser found,
   * the positional arguments, the loaded deck and the foreign outcomes.
   * A usage error ends the process through `SystemExit` with a message,
   * which is exit status 1.
   */
  function RunPlan(testdeck: Option<string>, collector: Option<string>, args: seq<string>,
                   deck: seq<DeckEntry>, check: NetTestLoader -> CheckOutcome,
                   accepts: (NetTestLoader, string) -> bool): RunOutcome
  {
    match CliOptions.SplitArgs(CliOptions.Truthy(testdeck), args)
    case Err(_) => Exit(1)
    case Ok(DeckGiven) =>
      (match DeckLoaders(deck)
       case Err(e) => Crash(e)
       case Ok(loaders) => Plan(loaders, collector, check, accepts))
    case Ok(TestArgs(test, subargs)) => Plan([NetTestLoader(test, subargs)], collector, check, accepts)
  }

  /** `runWithDirector` up to `reactor.run()`. */
  method RunWithDirector(testdeck: Option<string>, collector: Option<string>, args: seq<string>,
                         deck: seq<DeckEntry>, check: NetTestLoader -> CheckOutcome,
                         accepts: (NetTestLoader, string) -> bool)
    returns (outcome: RunOutcome)
    ensures outcome == RunPlan(testdeck, collector, args, deck, check, accepts)
  {
    var parsed := CliOptions.ParseOptions(testdeck, collector, args);
    if parsed.Err? {
      return Exit(1);
    }
    var globalOptions := parsed.value;
    var testList: seq<NetTestLoader> := [];
    if CliOptions.Truthy(globalOptions.testdeck) {
      var built := BuildTestList(deck);
      if built.Err? {
        return Crash(built.error);
      }
      testList := built.value;
    } else {
      testList := testList + [NetTestLoader(globalOptions.test.value, globalOptions.subargs.value)];
      assert testList == [NetTestLoader(args[0], args[1..])];
    }
    outcome := ScheduleTests(testList, globalOptions.collector, check, accepts);
  }

  /** The process only ever exits early with code 1 or 2. */
  lemma ExitCodes(testdeck: Option<string>, collector: Option<string>, args: seq<string>,
                  deck: seq<DeckEntry>, check: NetTestLoader -> CheckOutcome,
                  accepts: (NetTestLoader, string) -> bool)
    ensures RunPlan(testdeck, collector, args, deck, check, accepts).Exit? ==>
              RunPlan(testdeck, collector, args, deck, check, accepts).code in {1, 2}
  {
    match CliOptions.SplitArgs(CliOptions.Truthy(testdeck), args)
    case Err(_) =>
    case Ok(DeckGiven) =>
      if DeckLoaders(deck).Ok? {
        PlanIsFirstRejection(DeckLoaders(deck).value, collector, check, accepts);
      }
    case Ok(TestArgs(test, subargs)) =>
      PlanIsFirstRejection([NetTestLoader(test, subargs)], collector, check, accepts);
  }

  /** With a test deck, the positional arguments make no difference to the run. */
  lemma DeckIgnoresArguments(testdeck: Option<string>, collector: Option<string>,
                             args: seq<string>, otherArgs: seq<string>,
                             deck: seq<DeckEntry>, check: NetTestLoader -> CheckOutcome,
                             accepts: (NetTestLoader, string) -> bool)
    requires CliOptions.Truthy(testdeck)
    ensures RunPlan(testdeck, collector, args, deck, check, accepts) ==
            RunPlan(testdeck, collector, otherArgs, deck, check, accepts)
  {
  }

  /**
   * Without a deck: no argument is a usage error (exit 1); otherwise the one
   * loader for the first argument and the remaining ones is either started
   * and followed by shutdown, or ends the process with its exit code.
   */
  lemma SingleTestRun(testdeck: Option<string>, collector: Option<string>, args: seq<string>,
                      deck: seq<DeckEntry>, check: NetTestLoader -> CheckOutcome,
                      accepts: (NetTestLoader, string) -> bool)
    requires !CliOptions.Truthy(testdeck)
    ensures args == [] ==> RunPlan(testdeck, collector, args, deck, check, accepts) == Exit(1)
    ensures args != [] ==>
              var loader := NetTestLoader(args[0], args[1..]);
              RunPlan(testdeck, collector, args, deck, check, accepts) ==
                if Admitted(loader, collector, check, accepts)
                then ReactorRun([StartNetTest(loader, Reporters(loader, collector)), Shutdown])
                else Exit(ExitCode(loader, check))
  {
    if args != [] {
      var loader := NetTestLoader(args[0], args[1..]);
      PlanIsFirstRejection([loader], collector, check, accepts);
      assert Starts([loader], collector) == [StartNetTest(loader, Reporters(loader, collector))];
    }
  }

  /**
   * With a deck, a malformed entry crashes the run, and a run that reaches the
   * reactor starts one test per deck entry, in deck order, then shuts down.
   */
  lemma DeckRun(testdeck: Option<string>, collector: Option<string>, args: seq<string>,
                deck: seq<DeckEntry>, check: NetTestLoader -> CheckOutcome,
                accepts: (NetTestLoader, string) -> bool)
    requires CliOptions.Truthy(testdeck)
    ensures RunPlan(testdeck, collector, args, deck, check, accepts).Crash? <==>
              exists i :: 0 <= i < |deck| && !WellFormed(deck[i])
    ensures RunPlan(testdeck, collector, args, deck, check, accepts).ReactorRun? ==>
              var chain := RunPlan(testdeck, collector, args, deck, check, accepts).chain;
              && (forall i :: 0 <= i < |deck| ==> WellFormed(deck[i]))
              && |chain| == |deck| + 1
              && (forall i :: 0 <= i < |deck| ==>
                    chain[i] == StartNetTest(EntryLoader(deck[i]), Reporters(EntryLoader(deck[i]), collector)))
              && chain[|deck|] == Shutdown
  {
    DeckLoadersOkIff(deck);
    if DeckLoaders(deck).Ok? {
      DeckLoadersWellFormed(deck);
      PlanIsFirstRejection(AllLoaders(deck), collector, check, accepts);
      ScheduledChain(AllLoaders(deck), collector, check, accepts);
    }
  }
}
