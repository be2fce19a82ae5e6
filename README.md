# ooniprobe command-line run setup, modelled in Dafny

This project models the run-setup logic of ooniprobe's command-line entry
point, `ooni/oonicli.py`. That logic decides which network tests are run,
with which reporters, and in what order. It does not run any test itself:
the Twisted reactor does that afterwards.

- **Positional arguments** (`Options.parseArgs`, module `CliOptions`).
  With a test deck (`--testdeck`), the positional arguments are ignored.
  Otherwise the first one names the test file and the rest are its
  sub-arguments. With no argument at all, it is a usage error.
  `parseOptions` turns that usage error into `SystemExit`.
- **Option-table extension** (`parseNetTestOptions`, module
  `NetTestOptions`). The input-file parameter, the base parameters and the
  base flags are appended in place to the option tables of a net test's
  options class. Each table is created first if it is missing.
- **Test list** (module `TestList`). With a deck there is one
  `NetTestLoader` per deck entry, in deck order. Each is built from the
  entry's `options.test` and `options.subargs`. Without a deck there is a
  single loader for the command-line test and its sub-arguments.
- **Validation and scheduling** (module `Scheduling`, glued together in
  `Run`). Loaders are walked in order:
  - A failing option check exits with code 2.
  - Otherwise the YAML reporter is built, and then the collector reporter
    if a collector is configured.
  - A rejected collector address exits with code 1.
  - Otherwise the test's start is chained on the director's deferred.
  - After the loop, `shutdown` is chained once.
- **Status line** (module `StatusBar`): `[<test file>] <progress>%`.

Code from outside `oonicli.py` is not modelled. Its results are inputs:
- what `NetTestLoader.checkOptions` does (returns, raises
  `MissingRequiredOption`, or raises `UsageError`);
- whether `OONIBReporter` accepts the collector address;
- the test deck as YAML loading returns it;
- the option values found by Twisted's option parser.

The model's result is one of three things:
- `Exit(code)`;
- `Crash(KeyError(key))`, when a deck entry lacks a key;
- `ReactorRun(chain)`: the callbacks chained before `reactor.run()`, in order.

Each loop is proved equal to a function that defines its result
outright: `TestList.BuildTestList` to `TestList.DeckLoaders`,
`Scheduling.ScheduleTests` to `Scheduling.Plan`, `Run.RunWithDirector` to
`Run.RunPlan`, and `NetTestOptions.ParseNetTestOptions` to
`NetTestOptions.ExtendedParameters` and `NetTestOptions.ExtendedFlags`.
The lemmas in the table below state what these functions mean.

Python truthiness of `testdeck` and `collector` is `CliOptions.Truthy`:
both `None` and `""` count as false.

Notes on what the code does:
- A usage error from the positional arguments does not exit with code 2.
  `parseOptions` raises `SystemExit` with a message, so the exit status is 1.
- Each test's start is chained with `addCallback`. Twisted skips
  `addCallback` links after a failure, so a failing test would skip the
  tests chained after it. Only `shutdown` is chained with `addBoth`. The model records which
  callbacks are chained, but not how they run.
- The `parallelism` option is not used on this run path. Tests are chained
  one after another.
- `director.start()` is called before any loader is validated. An exit with
  code 1 or 2 therefore comes after the director has started, but always
  before the reactor runs.

## Model

| member | source | states |
|---|---|---|
| CliOptions.SplitArgs | ooni/oonicli.py:66-73 | with a deck the arguments are ignored; otherwise no argument is the "No test filename specified!" usage error, and else the test followed by its sub-arguments is exactly the argument list, so one argument gives empty sub-arguments |
| CliOptions.Options.constructor | ooni/oonicli.py:51-53 | a new options object has `test` set to `None` and no `subargs` |
| CliOptions.Options.ParseArgs | ooni/oonicli.py:66-73 | with a deck nothing changes; with arguments `test` becomes the first and `subargs` the rest; with none the usage error is returned and nothing changes; the deck and collector options are untouched |
| CliOptions.ParseOptions | ooni/oonicli.py:147-156 | the option dictionary: with a deck `test` stays `None` and `subargs` is absent; without one `test` is `args[0]` and `subargs` is `args[1..]`; no argument and no deck gives the usage error |
| NetTestOptions.ParseNetTestOptions | ooni/oonicli.py:75-95 | the parameter table becomes the old one (or empty if missing) followed by the input file (if any) and the base parameters in order; the flag table becomes the old one (or empty) followed by the base flags when there are base flags, and is untouched otherwise |
| NetTestOptions.ExtendedFlags | ooni/oonicli.py:86-90 | the flag table exists afterwards exactly when it existed before or there are base flags; with no base flags it is unchanged |
| NetTestOptions.ExtendedParametersLayout | ooni/oonicli.py:76-84 | the old parameter rows stay as a prefix in order, the input file follows them, and the base parameters end the table in order |
| NetTestOptions.ParametersTwice | ooni/oonicli.py:79-84 | a second call appends the same rows again, so the table is unchanged only when there is no input file and no base parameter |
| NetTestOptions.FlagsTwice | ooni/oonicli.py:86-90 | a second call appends the base flags again and so changes the table whenever there are base flags |
| TestList.BuildTestList | ooni/oonicli.py:177-183 | the deck loop yields the deck's loaders, or the key error of its first malformed entry |
| TestList.DeckLoadersWellFormed | ooni/oonicli.py:179-183 | a deck of well-formed entries gives one loader per entry, in deck order, from that entry's `test` and `subargs` |
| TestList.DeckLoadersMalformed | ooni/oonicli.py:179-182 | the first entry missing `options`, `test` or `subargs` fails the deck with that key, whatever follows it |
| TestList.DeckLoadersOkIff | ooni/oonicli.py:179-183 | the deck yields loaders if and only if every entry is well-formed |
| TestList.FirstMalformed | ooni/oonicli.py:179-182 | the first malformed entry of a deck: every entry before it is well-formed |
| Scheduling.Reporters | ooni/oonicli.py:206-213 | the YAML reporter comes first, and the collector reporter is second if and only if a collector is configured |
| Scheduling.FirstRejected | ooni/oonicli.py:193-218 | the count of leading loaders that pass both the option check and the collector check; the loader after them fails one |
| Scheduling.PlanIsFirstRejection | ooni/oonicli.py:193-222 | if every loader is admitted, the chain is the starts of all loaders in order followed by one shutdown; otherwise the exit code is that of the first loader not admitted |
| Scheduling.ScheduledChain | ooni/oonicli.py:193-222 | the reactor runs if and only if every loader is admitted; its chain has one start per loader, in list order, with that loader's reporters, then `shutdown` exactly once and last |
| Scheduling.ExitTwoIff | ooni/oonicli.py:193-204 | exit code 2 if and only if some loader fails its option check and every loader before it was admitted |
| Scheduling.ExitOneIff | ooni/oonicli.py:209-218 | exit code 1 if and only if a collector is configured and some loader passes its option check, its collector reporter rejects the address, and every loader before it was admitted |
| Scheduling.LaterLoadersIgnored | ooni/oonicli.py:193-218 | once a loader is not admitted, the run exits and loaders after it make no difference |
| Scheduling.ScheduleTests | ooni/oonicli.py:190-223 | the validation loop computes exactly `Scheduling.Plan`: the starts of all loaders then one shutdown, or the exit code of the first loader not admitted |
| Scheduling.Deferred.AddCallback | ooni/oonicli.py:221-222 | chaining a callback appends it to the end of the deferred's chain |
| Run.RunWithDirector | ooni/oonicli.py:165-223 | the whole setup: usage error exits with 1, a malformed deck crashes, and otherwise the outcome is the validation and scheduling of the deck's or the command line's loaders |
| Run.ExitCodes | ooni/oonicli.py:165-223 | the only early exit codes are 1 and 2 |
| Run.DeckIgnoresArguments | ooni/oonicli.py:66-68 | with a deck, the positional arguments do not change the run |
| Run.SingleTestRun | ooni/oonicli.py:184-186 | without a deck, no argument exits with 1; otherwise the single loader for the first argument and the rest is started and followed by shutdown, or the run exits with that loader's code |
| Run.DeckRun | ooni/oonicli.py:177-183 | with a deck, the run crashes if and only if an entry is malformed; a run that reaches the reactor starts one test per deck entry in deck order, then shuts down |
| StatusBar.StatusLine | ooni/oonicli.py:103 | the line is `[`, the test file, `] `, the progress text and `%`, and nothing else |
| StatusBar.StatusLineRoundTrip | ooni/oonicli.py:103 | a line whose progress text has no space reads back as its test file and progress |
| StatusBar.ParsedLineIsStatusLine | ooni/oonicli.py:103 | every line that reads back is the status line of what it reads back to |
| StatusBar.StatusLineInjective | ooni/oonicli.py:103 | different tests or progress texts without spaces give different lines |

## Left out

- The Twisted reactor, `Deferred` execution, `DeferredList` and `LoopingCall`. The model gives the order of the chained callbacks, not how they run.
- `runTestList`, `testsEnded`, `testFailed` and `errorRunningTests`. They are not on the run path, and `runTestList` uses an undefined `runner`.
- `updateStatusBar`'s loop over the global `config.state` and its `eta()` and `progress()` calls. Only the format of one line is modelled. The progress is taken as the text `%s` makes of it.
- NetTestOptions.ParseNetTestOptions: the final `usageOptions()` instantiation and `parseOptions(argv)` are Twisted code and are not modelled. The method returns nothing.
- NetTestOptions.ParseNetTestOptions: the tables are modelled as values held by the options class. If a base list were the very same list object as the table, appending while iterating would not terminate in Python. That aliasing is not modelled.
- `Options.opt_asciilulz`, `opt_spew`, `getUsage`, the `len(sys.argv) == 1` branch, `log.*` and `print`. These are output only.
- Reading the deck file (`yaml.safe_load`). The loaded deck is an input: a list of entries whose keys may be missing. A document that is not such a list, and `null` values inside entries, are not modelled.
- The internals of `Director`, `NetTestLoader.checkOptions`, `YAMLReporter` and `OONIBReporter`. Their outcomes are inputs. A reporter holds its loader in place of the loader's `testDetails`. Exceptions these raise other than the ones caught in `oonicli.py` are not modelled.
- Scheduling.ScheduleTests: the outcome of `checkOptions` and the collector reporter's verdict are functions of the loader's value. In the source each deck entry gets its own stateful `NetTestLoader` object, so two entries with the same test and sub-arguments could get different outcomes there; the model gives them the same ones.
- The text of the `SystemExit` message from `parseOptions`. Only its exit status, 1, is modelled.
