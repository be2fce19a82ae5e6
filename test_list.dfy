/**
 * The list of net test loaders `runWithDirector` builds (ooni/oonicli.py):
 * one per test-deck entry, in deck order, or a single one for the test named
 * on the command line.
 */
module TestList {
  import opened Wrappers

  /** A `NetTestLoader(test_file, test_subargs)`: the test to load and its sub-arguments. */
  datatype NetTestLoader = NetTestLoader(testFile: string, subargs: seq<string>)

  /** The `options` mapping of a deck entry; `None` stands for a missing key. */
  datatype DeckOptions = DeckOptions(test: Option<string>, subargs: Option<seq<string>>)

  /** One entry of the loaded test deck; `None` stands for a missing `options` key. */
  datatype DeckEntry = DeckEntry(options: Option<DeckOptions>)

  /** The `KeyError` a deck entry without one of the looked-up keys raises. */
  datatype KeyError = KeyError(key: string)

  predicate WellFormed(entry: DeckEntry)
  {
    entry.options.Some? && entry.options.value.test.Some? && entry.options.value.subargs.Some?
  }

  /** The first key the lookups `entry['options']['test']`, `['subargs']` miss. */
  function MissingKey(entry: DeckEntry): string
    requires !WellFormed(entry)
  {
    if entry.options.None? then "options"
    else if entry.options.value.test.None? then "test"
    else "subargs"
  }

  /** The loader built from a well-formed deck entry. */
  function EntryLoader(entry: DeckEntry): NetTestLoader
    requires WellFormed(entry)
  {
    NetTestLoader(entry.options.value.test.value, entry.options.value.subargs.value)
  }

  /** The loaders of a deck, or the key error of its first malformed entry. */
  function DeckLoaders(deck: seq<DeckEntry>): Result<seq<NetTestLoader>, KeyError>
  {
    if deck == [] then Ok([])
    else if !WellFormed(deck[0]) then Err(KeyError(MissingKey(deck[0])))
    else match DeckLoaders(deck[1..])
      case Ok(rest) => Ok([EntryLoader(deck[0])] + rest)
      case Err(e) => Err(e)
  }

  /** The loaders of a deck whose entries are all well-formed, by position. */
  function AllLoaders(deck: seq<DeckEntry>): (loaders: seq<NetTestLoader>)
    requires forall i :: 0 <= i < |deck| ==> WellFormed(deck[i])
    ensures |loaders| == |deck|
  {
    seq(|deck|, i requires 0 <= i < |deck| => EntryLoader(deck[i]))
  }

  /**
   * A deck whose entries are all well-formed yields one loader per entry,
   * in deck order, each built from that entry's `test` and `subargs`.
   */
  lemma {:induction false} DeckLoadersWellFormed(deck: seq<DeckEntry>)
    requires forall i :: 0 <= i < |deck| ==> WellFormed(deck[i])
    ensures DeckLoaders(deck) == Ok(AllLoaders(deck))
  {
    if deck != [] {
      DeckLoadersWellFormed(deck[1..]);
      assert AllLoaders(deck) == [EntryLoader(deck[0])] + AllLoaders(deck[1..]);
    }
  }

  /**
   * A deck whose first malformed entry is at `k` fails with the key that
   * entry misses, whatever follows it.
   */
  lemma {:induction false} DeckLoadersMalformed(deck: seq<DeckEntry>, k: nat)
    requires k < |deck| && !WellFormed(deck[k])
    requires forall i :: 0 <= i < k ==> WellFormed(deck[i])
    ensures DeckLoaders(deck) == Err(KeyError(MissingKey(deck[k])))
  {
    if k > 0 {
      DeckLoadersMalformed(deck[1..], k - 1);
    }
  }

  /** The deck yields loaders exactly when every entry is well-formed. */
  lemma DeckLoadersOkIff(deck: seq<DeckEntry>)
    ensures DeckLoaders(deck).Ok? <==> forall i :: 0 <= i < |deck| ==> WellFormed(deck[i])
  {
    if forall i :: 0 <= i < |deck| ==> WellFormed(deck[i]) {
      DeckLoadersWellFormed(deck);
    } else {
      var k := FirstMalformed(deck);
      DeckLoadersMalformed(deck, k);
    }
  }

  /** The position of the first malformed entry of a deck that has one. */
  function FirstMalformed(deck: seq<DeckEntry>): (k: nat)
    requires exists i :: 0 <= i < |deck| && !WellFormed(deck[i])
    ensures k < |deck| && !WellFormed(deck[k])
    ensures forall i :: 0 <= i < k ==> WellFormed(deck[i])
  {
    if !WellFormed(deck[0]) then 0
    else
      assert exists i :: 0 <= i < |deck[1..]| && !WellFormed(deck[1..][i]) by {
        var i :| 0 <= i < |deck| && !WellFormed(deck[i]);
        assert deck[1..][i - 1] == deck[i];
      }
      1 + FirstMalformed(deck[1..])
  }

  /**
   * `runWithDirector`'s deck loop: appends one loader per entry, in order,
   * and stops with the key error of the first entry missing a key.
   */
  method BuildTestList(deck: seq<DeckEntry>) returns (r: Result<seq<NetTestLoader>, KeyError>)
    ensures r == DeckLoaders(deck)
  {
    var testList: seq<NetTestLoader> := [];
    var i := 0;
    while i < |deck|
      invariant 0 <= i <= |deck|
      invariant forall j :: 0 <= j < i ==> WellFormed(deck[j])
      invariant testList == AllLoaders(deck[..i])
    {
      var entry := deck[i];
      if entry.options.None? {
        DeckLoadersMalformed(deck, i);
        return Err(KeyError("options"));
      }
      var testOptions := entry.options.value;
      if testOptions.test.None? {
        DeckLoadersMalformed(deck, i);
        return Err(KeyError("test"));
      }
      if testOptions.subargs.None? {
        DeckLoadersMalformed(deck, i);
        return Err(KeyError("subargs"));
      }
      testList := testList + [NetTestLoader(testOptions.test.value, testOptions.subargs.value)];
      i := i + 1;
      assert testList == AllLoaders(deck[..i]);
    }
    assert deck[..i] == deck;
    DeckLoadersWellFormed(deck);
    r := Ok(testList);
  }
}
