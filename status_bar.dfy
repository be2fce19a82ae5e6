/**
 * The progress line `updateStatusBar` (ooni/oonicli.py) logs for each
 * running test: `[<test file>] <progress>%`, where the progress is the text
 * of the value the test's state reports.
 */
module StatusBar {
  import opened Wrappers

  /** The status line of one test. */
  function StatusLine(testFilename: string, progress: string): (line: string)
    ensures |line| == |testFilename| + |progress| + 4
    ensures line[0] == '[' && line[|line| - 1] == '%'
    ensures line[1..|testFilename| + 1] == testFilename
    ensures line[|testFilename| + 1..|testFilename| + 3] == "] "
    ensures line[|testFilename| + 3..|line| - 1] == progress
  {
    "[" + testFilename + "] " + progress + "%"
  }

  /** The position of the last space in `s`, if there is one. */
  function LastSpace(s: string): (k: Option<nat>)
    ensures k.None? <==> ' ' !in s
    ensures k.Some? ==> k.value < |s| && s[k.value] == ' ' && ' ' !in s[k.value + 1..]
  {
    if s == [] then None
    else if s[|s| - 1] == ' ' then Some(|s| - 1)
    else
      var k := LastSpace(s[..|s| - 1]);
      if k.Some? then
        assert s[k.value + 1..] == s[..|s| - 1][k.value + 1..] + [s[|s| - 1]];
        k
      else
        assert s == s[..|s| - 1] + [s[|s| - 1]];
        k
  }

  /**
   * Reads a status line back into the test file and the progress text; the
   * progress is what follows the last space. Used to state that the format
   * loses nothing when the progress text has no space in it.
   */
  function ParseStatusLine(line: string): Option<(string, string)>
  {
    if |line| < 2 || line[0] != '[' || line[|line| - 1] != '%' then None
    else
      var body := line[1..|line| - 1];
      match LastSpace(body)
      case None => None
      case Some(k) => if k == 0 || body[k - 1] != ']' then None else Some((body[..k - 1], body[k + 1..]))
  }

  /** A space followed by text without a space is the last space. */
  lemma {:induction false} LastSpaceBefore(prefix: string, rest: string)
    requires ' ' !in rest
    ensures LastSpace(prefix + [' '] + rest) == Some(|prefix|)
  {
    var s := prefix + [' '] + rest;
    if rest != [] {
      assert s[..|s| - 1] == prefix + [' '] + rest[..|rest| - 1];
      assert rest[|rest| - 1] in rest;
      LastSpaceBefore(prefix, rest[..|rest| - 1]);
    }
  }

  /** Every status line whose progress text has no space reads back as its test file and progress. */
  lemma StatusLineRoundTrip(testFilename: string, progress: string)
    requires ' ' !in progress
    ensures ParseStatusLine(StatusLine(testFilename, progress)) == Some((testFilename, progress))
  {
    var line := StatusLine(testFilename, progress);
    var body := line[1..|line| - 1];
    assert body == (testFilename + "]") + [' '] + progress;
    LastSpaceBefore(testFilename + "]", progress);
    var k := |testFilename| + 1;
    assert body[..k - 1] == testFilename && body[k - 1] == ']' && body[k + 1..] == progress;
  }

  /** Every line that reads back was written by the format, with a progress text without spaces. */
  lemma ParsedLineIsStatusLine(line: string)
    requires ParseStatusLine(line).Some?
    ensures var (testFilename, progress) := ParseStatusLine(line).value;
            ' ' !in progress && StatusLine(testFilename, progress) == line
  {
    var body := line[1..|line| - 1];
    var k := LastSpace(body).value;
    assert body == body[..k - 1] + "] " + body[k + 1..];
    assert line == "[" + body + "%";
  }

  /** Two different tests, or two different progress texts without spaces, give different lines. */
  lemma StatusLineInjective(name1: string, progress1: string, name2: string, progress2: string)
    requires ' ' !in progress1 && ' ' !in progress2
    requires StatusLine(name1, progress1) == StatusLine(name2, progress2)
    ensures name1 == name2 && progress1 == progress2
  {
    StatusLineRoundTrip(name1, progress1);
    StatusLineRoundTrip(name2, progress2);
  }
}
