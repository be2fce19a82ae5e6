/**
 * The ooniprobe command line: the `Options` object and how its positional
 * arguments are split into the test to run and that test's own arguments
 * (ooni/oonicli.py, class Options and parseOptions).
 */
module CliOptions {
  import opened Wrappers

  /** Python truthiness of an optional string option: `None` and `""` are false. */
  predicate Truthy(value: Option<string>)
  {
    value.Some? && value.value != ""
  }

  /** The message of the usage error raised when no test is named. */
  const NoTestFilename: string := "No test filename specified!"

  datatype UsageError = UsageError(message: string)

  /** What `parseArgs` makes of the positional arguments. */
  datatype Positional =
    | DeckGiven                                   // a test deck is set: arguments ignored
    | TestArgs(test: string, subargs: seq<string>)  // the test file and its sub-arguments

  /**
   * The positional-argument split of `parseArgs`: a deck makes the arguments
   * irrelevant; otherwise the first argument is the test and the rest are its
   * sub-arguments, and no argument at all is a usage error.
   */
  function SplitArgs(deckGiven: bool, args: seq<string>): (r: Result<Positional, UsageError>)
    ensures deckGiven ==> r == Ok(DeckGiven)
    ensures !deckGiven && args == [] ==> r == Err(UsageError(NoTestFilename))
    ensures !deckGiven && args != [] ==>
              r.Ok? && r.value.TestArgs? && [r.value.test] + r.value.subargs == args
  {
    if deckGiven then Ok(DeckGiven)
    else if |args| == 0 then Err(UsageError(NoTestFilename))
    else Ok(TestArgs(args[0], args[1..]))
  }

  /** The option dictionary `dict(cmd_line_options)` that parseOptions hands on. */
  datatype GlobalOptions = GlobalOptions(
    testdeck: Option<string>,
    collector: Option<string>,
    test: Option<string>,
    subargs: Option<seq<string>>)

  /**
   * The command-line options object. `testdeck` and `collector` are the values
   * the option parser found; `test` starts as `None` and `subargs` starts
   * absent, and `ParseArgs` fills them in.
   */
  class Options {
    var testdeck: Option<string>
    var collector: Option<string>
    var test: Option<string>
    var subargs: Option<seq<string>>

    constructor (testdeck: Option<string>, collector: Option<string>)
      ensures this.testdeck == testdeck && this.collector == collector
      ensures test == None && subargs == None
    {
      this.testdeck := testdeck;
      this.collector := collector;
      test := None;
      subargs := None;
    }

    /** The dictionary view of the options. */
    function AsDict(): (g: GlobalOptions)
      reads this
    {
      GlobalOptions(testdeck, collector, test, subargs)
    }

    /** `parseArgs`: stores the test and its sub-arguments, or raises a usage error. */
    method ParseArgs(args: seq<string>) returns (error: Option<UsageError>)
      modifies this
      ensures testdeck == old(testdeck) && collector == old(collector)
      ensures match SplitArgs(Truthy(old(testdeck)), args)
        case Ok(DeckGiven) => error == None && test == old(test) && subargs == old(subargs)
        case Ok(TestArgs(t, rest)) => error == None && test == Some(t) && subargs == Some(rest)
        case Err(e) => error == Some(e) && test == old(test) && subargs == old(subargs)
    {
      error := None;
      if Truthy(testdeck) {
        return;
      }
      if |args| == 0 {
        error := Some(UsageError(NoTestFilename));
        return;
      }
      test := Some(args[0]);
      subargs := Some(args[1..]);
    }
  }

  /**
   * `parseOptions`: builds the options object, lets it split the positional
   * arguments and returns its dictionary; a usage error becomes the error
   * result (the source turns it into `SystemExit`).
   */
  method ParseOptions(testdeck: Option<string>, collector: Option<string>, args: seq<string>)
    returns (r: Result<GlobalOptions, UsageError>)
    ensures Truthy(testdeck) ==>
              r == Ok(GlobalOptions(testdeck, collector, None, None))
    ensures !Truthy(testdeck) && args != [] ==>
              r == Ok(GlobalOptions(testdeck, collector, Some(args[0]), Some(args[1..])))
    ensures !Truthy(testdeck) && args == [] ==> r == Err(UsageError(NoTestFilename))
  {
    var options := new Options(testdeck, collector);
    var error := options.ParseArgs(args);
    if error.Some? {
      return Err(error.value);
    }
    r := Ok(options.AsDict());
  }
}
