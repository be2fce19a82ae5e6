/**
 * `parseNetTestOptions` (ooni/oonicli.py): before a net test's own options
 * are parsed, the test's input-file parameter and the base parameters and
 * flags are appended, in place, to the option tables of its options class.
 */
module NetTestOptions {
  import opened Wrappers

  /** One row of an option table: `[long name, short name, default, description]`. */
  datatype Parameter = Parameter(longName: string, shortName: Option<string>, default: Option<string>, doc: string)

  /** One row of a flag table: `[long name, short name]`. */
  datatype Flag = Flag(longName: string, shortName: Option<string>)

  /**
   * The options class of a net test. Its two tables are class attributes that
   * may be missing altogether (`None` here); the source appends to them in place.
   */
  class UsageOptions {
    var optParameters: Option<seq<Parameter>>
    var optFlags: Option<seq<Flag>>

    constructor (optParameters: Option<seq<Parameter>>, optFlags: Option<seq<Flag>>)
      ensures this.optParameters == optParameters && this.optFlags == optFlags
    {
      this.optParameters := optParameters;
      this.optFlags := optFlags;
    }
  }

  /**
   * The net test object handed to `parseNetTestOptions`. An empty or `None`
   * list of base parameters or base flags is the empty sequence; an absent
   * input-file parameter is `None`.
   */
  class NetTestCase {
    const usageOptions: UsageOptions
    const inputFile: Option<Parameter>
    const baseParameters: seq<Parameter>
    const baseFlags: seq<Flag>

    constructor (usageOptions: UsageOptions, inputFile: Option<Parameter>,
                 baseParameters: seq<Parameter>, baseFlags: seq<Flag>)
      ensures this.usageOptions == usageOptions && this.inputFile == inputFile
      ensures this.baseParameters == baseParameters && this.baseFlags == baseFlags
    {
      this.usageOptions := usageOptions;
      this.inputFile := inputFile;
      this.baseParameters := baseParameters;
      this.baseFlags := baseFlags;
    }
  }

  /** The rows one call appends to the parameter table: the input file, then the base parameters. */
  function AddedParameters(inputFile: Option<Parameter>, baseParameters: seq<Parameter>): seq<Parameter>
  {
    (if inputFile.Some? then [inputFile.value] else []) + baseParameters
  }

  /** The parameter table after one call, given the table before it. */
  function ExtendedParameters(existing: Option<seq<Parameter>>, inputFile: Option<Parameter>,
                              baseParameters: seq<Parameter>): seq<Parameter>
  {
    OrEmpty(existing) + AddedParameters(inputFile, baseParameters)
  }

  /** The flag table after one call: created and extended only when there are base flags. */
  function ExtendedFlags(existing: Option<seq<Flag>>, baseFlags: seq<Flag>): (r: Option<seq<Flag>>)
    ensures r.Some? <==> existing.Some? || baseFlags != []
    ensures baseFlags == [] ==> r == existing
  {
    if baseFlags == [] then existing else Some(OrEmpty(existing) + baseFlags)
  }

  /**
   * `parseNetTestOptions` without the final `parseOptions(argv)` of the
   * extended options class: extends the two tables of `obj.usageOptions` in place.
   */
  method ParseNetTestOptions(obj: NetTestCase)
    modifies obj.usageOptions
    ensures obj.usageOptions.optParameters ==
              Some(ExtendedParameters(old(obj.usageOptions.optParameters), obj.inputFile, obj.baseParameters))
    ensures obj.usageOptions.optFlags == ExtendedFlags(old(obj.usageOptions.optFlags), obj.baseFlags)
  {
    var table := obj.usageOptions;
    ghost var parameters0, flags0 := table.optParameters, table.optFlags;
    ghost var input := if obj.inputFile.Some? then [obj.inputFile.value] else [];
    if table.optParameters.None? {
      table.optParameters := Some([]);
    }
    if obj.inputFile.Some? {
      table.optParameters := Some(table.optParameters.value + [obj.inputFile.value]);
    }
    assert table.optParameters.value == OrEmpty(parameters0) + input + obj.baseParameters[..0];
    var i := 0;
    while i < |obj.baseParameters|
      invariant 0 <= i <= |obj.baseParameters|
      invariant table.optParameters.Some?
      invariant table.optParameters.value == OrEmpty(parameters0) + input + obj.baseParameters[..i]
      invariant table.optFlags == flags0
    {
      assert obj.baseParameters[..i + 1] == obj.baseParameters[..i] + [obj.baseParameters[i]];
      table.optParameters := Some(table.optParameters.value + [obj.baseParameters[i]]);
      i := i + 1;
    }
    assert obj.baseParameters[..i] == obj.baseParameters;
    assert table.optParameters.value == ExtendedParameters(parameters0, obj.inputFile, obj.baseParameters);
    if obj.baseFlags != [] {
      if table.optFlags.None? {
        table.optFlags := Some([]);
      }
      assert table.optFlags.value == OrEmpty(flags0) + obj.baseFlags[..0];
      var j := 0;
      while j < |obj.baseFlags|
        invariant 0 <= j <= |obj.baseFlags|
        invariant table.optFlags.Some?
        invariant table.optFlags.value == OrEmpty(flags0) + obj.baseFlags[..j]
        invariant table.optParameters == Some(ExtendedParameters(parameters0, obj.inputFile, obj.baseParameters))
      {
        assert obj.baseFlags[..j + 1] == obj.baseFlags[..j] + [obj.baseFlags[j]];
        table.optFlags := Some(table.optFlags.value + [obj.baseFlags[j]]);
        j := j + 1;
      }
      assert obj.baseFlags[..j] == obj.baseFlags;
    }
  }

  /**
   * One call keeps the existing parameter rows, in order, as a prefix and
   * appends the input file (if any) and then the base parameters, in order.
   */
  lemma ExtendedParametersLayout(existing: Option<seq<Parameter>>, inputFile: Option<Parameter>,
                                 baseParameters: seq<Parameter>)
    ensures var r := ExtendedParameters(existing, inputFile, baseParameters);
            var k := |OrEmpty(existing)| + (if inputFile.Some? then 1 else 0);
            && |r| == k + |baseParameters|
            && r[..|OrEmpty(existing)|] == OrEmpty(existing)
            && (inputFile.Some? ==> r[|OrEmpty(existing)|] == inputFile.value)
            && r[k..] == baseParameters
  {
  }

  /**
   * Not idempotent: a second call on the already extended table appends the
   * same rows again, so the table changes unless nothing is added at all.
   */
  lemma ParametersTwice(existing: Option<seq<Parameter>>, inputFile: Option<Parameter>,
                        baseParameters: seq<Parameter>)
    ensures var once := ExtendedParameters(existing, inputFile, baseParameters);
            var twice := ExtendedParameters(Some(once), inputFile, baseParameters);
            && twice == once + AddedParameters(inputFile, baseParameters)
            && (twice == once <==> inputFile.None? && baseParameters == [])
  {
    var once := ExtendedParameters(existing, inputFile, baseParameters);
    var twice := ExtendedParameters(Some(once), inputFile, baseParameters);
    if twice == once {
      assert |AddedParameters(inputFile, baseParameters)| == 0;
    }
  }

  /** The same for the flag table: a second call appends the base flags again. */
  lemma FlagsTwice(existing: Option<seq<Flag>>, baseFlags: seq<Flag>)
    ensures var once := ExtendedFlags(existing, baseFlags);
            var twice := ExtendedFlags(once, baseFlags);
            && (baseFlags != [] ==> twice == Some(OrEmpty(once) + baseFlags) && twice != once)
            && (baseFlags == [] ==> twice == once == existing)
  {
    var once := ExtendedFlags(existing, baseFlags);
    var twice := ExtendedFlags(once, baseFlags);
    if baseFlags != [] {
      assert |twice.value| == |once.value| + |baseFlags|;
    }
  }
}
