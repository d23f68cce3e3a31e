/**
 * The positional-argument check of the configurator's entry point (index.ts).
 *
 * The process's positional arguments are, in order, the runtime's name, the
 * script's name, the path of the configuration file and then any extras.
 * `ReadPositionalFile` classifies that list by its length into one of four
 * outcomes and reports each as a record `{ success, message?, positional? }`.
 */
module Positional {

  import opened Wrappers

  /** Reported when only the runtime and the script names are present. */
  const NoConfigFileProvidedMsg: string := "No configuration file provided"

  /** Warning attached to a successful result when extra arguments follow the path. */
  const AdditionalArgsMsg: string := "Additional arguments will be ignored."

  /** Reported by the JSON-reading step for a file that cannot be read or decoded as JSON. */
  const NotValidJsonMsg: string := "Not a valid JSON file"

  /** The inline literal of the branch for fewer than two positionals. */
  const ShouldNotHappenMsg: string := "This should not happen"

  /** The record `{ success: boolean; message?: string; positional?: string }`. */
  datatype ReadResult = ReadResult(success: bool, message: Option<string>, positional: Option<string>)

  /**
   * The results the operation is meant to produce: the configuration path is
   * present exactly on success, a failure always explains itself with one of
   * the two failure messages, and a success carries at most the warning about
   * extra arguments.
   */
  predicate WellFormed(r: ReadResult) {
    && (r.positional.Some? <==> r.success)
    && (!r.success ==> r.message == Some(ShouldNotHappenMsg) || r.message == Some(NoConfigFileProvidedMsg))
    && (r.success ==> r.message == None || r.message == Some(AdditionalArgsMsg))
  }

  /**
   * `readPositionalFile`: succeeds exactly when there is a third entry, which
   * is then the configuration path; a fourth or later entry only adds a warning.
   */
  function ReadPositionalFile(positionals: seq<string>): (r: ReadResult)
    ensures WellFormed(r)
    ensures r.success <==> |positionals| >= 3
    ensures r.positional.Some? ==> |positionals| >= 3 && r.positional.value == positionals[2]
    ensures r.success ==> (r.message.Some? <==> |positionals| > 3)
    ensures !r.success ==> (r.message == Some(NoConfigFileProvidedMsg) <==> |positionals| == 2)
  {
    if |positionals| < 2 then
      ReadResult(false, Some(ShouldNotHappenMsg), None)
    else if |positionals| == 2 then
      ReadResult(false, Some(NoConfigFileProvidedMsg), None)
    else if |positionals| > 3 then
      ReadResult(true, Some(AdditionalArgsMsg), Some(positionals[2]))
    else
      ReadResult(true, None, Some(positionals[2]))
  }

  /** Fewer than two entries: the "impossible" failure, with no path. */
  lemma FewerThanTwo(positionals: seq<string>)
    requires |positionals| < 2
    ensures ReadPositionalFile(positionals) == ReadResult(false, Some(ShouldNotHappenMsg), None)
  {
  }

  /** Runtime and script only: no configuration file was given. */
  lemma ExactlyTwo(positionals: seq<string>)
    requires |positionals| == 2
    ensures ReadPositionalFile(positionals) == ReadResult(false, Some(NoConfigFileProvidedMsg), None)
  {
  }

  /** Exactly one argument after the script: success with that path, no message. */
  lemma ExactlyThree(positionals: seq<string>)
    requires |positionals| == 3
    ensures ReadPositionalFile(positionals) == ReadResult(true, None, Some(positionals[2]))
  {
  }

  /**
   * More than one argument after the script: success with the first of them
   * and the warning; what follows index 2 has no influence on the result.
   */
  lemma MoreThanThree(positionals: seq<string>, extras: seq<string>)
    requires |positionals| > 3
    ensures ReadPositionalFile(positionals) == ReadResult(true, Some(AdditionalArgsMsg), Some(positionals[2]))
    ensures ReadPositionalFile(positionals[..3] + extras) ==
            if extras == [] then ReadResult(true, None, Some(positionals[2]))
            else ReadPositionalFile(positionals)
  {
  }

  /**
   * The result depends only on the length class of the list and on its third
   * entry: the runtime and script entries, and everything after the path,
   * are never read.
   */
  lemma OnlyLengthAndThirdMatter(p: seq<string>, q: seq<string>)
    requires |p| == |q| || (|p| > 3 && |q| > 3)
    requires |p| >= 3 && |q| >= 3 ==> p[2] == q[2]
    ensures ReadPositionalFile(p) == ReadPositionalFile(q)
  {
  }

  /** The four messages are pairwise distinct. */
  lemma MessagesDistinct()
    ensures NoConfigFileProvidedMsg != AdditionalArgsMsg
    ensures NoConfigFileProvidedMsg != NotValidJsonMsg
    ensures AdditionalArgsMsg != NotValidJsonMsg
    ensures ShouldNotHappenMsg !in {NoConfigFileProvidedMsg, AdditionalArgsMsg, NotValidJsonMsg}
  {
  }

  /** The message alone tells the four outcomes apart. */
  lemma MessageDeterminesOutcome(p: seq<string>, q: seq<string>)
    requires ReadPositionalFile(p).message == ReadPositionalFile(q).message
    ensures ReadPositionalFile(p).success == ReadPositionalFile(q).success
    ensures |p| < 2 <==> |q| < 2
    ensures |p| == 2 <==> |q| == 2
    ensures |p| > 3 <==> |q| > 3
  {
  }

  /**
   * The argument lists of the unit tests, extended to every well-formed result:
   * a right inverse of `ReadPositionalFile`.
   */
  function Argv(r: ReadResult): (positionals: seq<string>)
    requires WellFormed(r)
    ensures ReadPositionalFile(positionals) == r
  {
    if !r.success then
      if r.message == Some(NoConfigFileProvidedMsg) then ["bun", "index.ts"] else ["bun"]
    else if r.message == None then
      ["bun", "index.ts", r.positional.value]
    else
      ["bun", "index.ts", r.positional.value, "extra"]
  }

  /** The results `ReadPositionalFile` can return are exactly the well-formed ones. */
  lemma ImageIsWellFormed(r: ReadResult)
    ensures (exists p :: ReadPositionalFile(p) == r) <==> WellFormed(r)
  {
    if WellFormed(r) {
      var p := Argv(r);
      assert ReadPositionalFile(p) == r;
    }
  }

  /** "This should not happen" is reported exactly for a list without a script name. */
  lemma ShouldNotHappenIff(p: seq<string>)
    ensures ReadPositionalFile(p).message == Some(ShouldNotHappenMsg) <==> |p| < 2
  {
    assert ShouldNotHappenMsg != NoConfigFileProvidedMsg;
    assert ShouldNotHappenMsg != AdditionalArgsMsg;
  }

  /** "No configuration file" is reported exactly for a runtime and a script name alone. */
  lemma NoConfigFileIff(p: seq<string>)
    ensures ReadPositionalFile(p).message == Some(NoConfigFileProvidedMsg) <==>
            exists runtime, script :: p == [runtime, script]
  {
    if |p| == 2 {
      assert p == [p[0], p[1]];
    }
  }

  /** The configuration path is `path` exactly when `path` is the entry after the runtime and script. */
  lemma ConfigPathIsThirdEntry(p: seq<string>, path: string)
    ensures ReadPositionalFile(p).positional == Some(path) <==>
            exists runtime, script, extras :: p == [runtime, script, path] + extras
  {
    if |p| >= 3 && p[2] == path {
      assert p == [p[0], p[1], path] + p[3..];
    }
  }

  /** The warning is attached exactly when at least one extra argument follows the path. */
  lemma ExtrasWarningIff(p: seq<string>)
    ensures ReadPositionalFile(p).message == Some(AdditionalArgsMsg) <==>
            exists runtime, script, path, extras :: extras != [] && p == [runtime, script, path] + extras
  {
    if |p| > 3 {
      assert p == [p[0], p[1], p[2]] + p[3..];
    }
  }
}
