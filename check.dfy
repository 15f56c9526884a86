/**
 * The start-up helpers as the program runs them: they update an options record
 * and package-level variables in place. Each is proved to compute the value
 * function of the same name in module Rules.
 */
module Check {
  import opened Wrappers
  import opened Globals
  import opened Rules

  /** The mutable options record that `main` fills and passes by pointer. */
  class GlobalOptions {
    var reqs: RequiredOptions
    var sampleRate: GoUint
    var goalSampleRate: GoInt
    var dynSample: seq<string>
    var tailSample: bool
    var requestShape: seq<string>
    var requestParseQuery: string
    var prefixRegex: string
    var tail: TailOptions
    var backfill: bool
    var backOff: bool
    var modes: OtherModes

    /** The record as the command-line parser leaves it. */
    constructor (s: Settings)
      ensures Snapshot() == s
    {
      reqs, sampleRate, goalSampleRate := s.reqs, s.sampleRate, s.goalSampleRate;
      dynSample, tailSample, requestShape := s.dynSample, s.tailSample, s.requestShape;
      requestParseQuery, prefixRegex, tail := s.requestParseQuery, s.prefixRegex, s.tail;
      backfill, backOff, modes := s.backfill, s.backOff, s.modes;
    }

    /** The current field values as one option value. */
    function Snapshot(): Settings
      reads this
    {
      Settings(reqs, sampleRate, goalSampleRate, dynSample, tailSample, requestShape,
               requestParseQuery, prefixRegex, tail, backfill, backOff, modes)
    }

    /** The `--backfill` alias applied in `main`. */
    method ApplyBackfillAlias()
      modifies this
      ensures Snapshot() == BackfillAlias(old(Snapshot()))
    {
      if backfill {
        backOff := true;
        tail := tail.(readFrom := "beginning");
        tail := tail.(stop := true);
      }
    }

    method AddParserDefaultOptions()
      modifies this
      ensures Snapshot() == AddParserDefaults(old(Snapshot()))
    {
      if reqs.parserName == "nginx" {
        requestShape := requestShape + ["request"];
      }
      if reqs.parserName != "mysql" {
        tailSample := true;
      } else {
        tailSample := false;
      }
      if |dynSample| != 0 {
        tailSample := false;
        goalSampleRate := IntOfUint(sampleRate);
        sampleRate := 1;
      }
    }

    /**
     * The validation: returns the exit it would take, and anchors the prefix
     * regex once the rules pass (before the regex and file checks, as the
     * program does).
     */
    method SanityCheckOptions(compiles: string -> bool, globMatches: string -> bool) returns (v: Verdict)
      modifies this`prefixRegex
      ensures v == SanityCheck(old(Snapshot()), compiles, globMatches)
      ensures Snapshot() == AfterCheck(old(Snapshot()))
    {
      if reqs.parserName == "" {
        return Exit(Broken(ParserMissing));
      } else if |reqs.logFiles| == 0 {
        return Exit(Broken(LogFilesMissing));
      } else if reqs.dataset == "" {
        return Exit(Broken(DatasetMissing));
      } else if sampleRate == 0 {
        return Exit(Broken(SampleRateZero));
      } else if tail.readFrom == "end" && tail.stop {
        return Exit(Broken(EndAndStop));
      } else if requestParseQuery != "whitelist" && requestParseQuery != "all" {
        return Exit(Broken(BadQueryPolicy));
      } else if |dynSample| != 0 && sampleRate <= 1 && goalSampleRate <= 1 {
        return Exit(Broken(DynamicRateTooLow));
      }

      if prefixRegex != "" {
        if prefixRegex[0] != '^' {
          prefixRegex := "^" + prefixRegex;
        }
        if !compiles(prefixRegex) {
          return Exit(PrefixRegexInvalid(prefixRegex));
        }
      }

      var shouldExit, reported := CheckLogFiles(reqs.logFiles, globMatches);
      if shouldExit {
        return Exit(LogFilesNotFound(reported));
      }
      return Pass;
    }
  }

  /**
   * The input-file loop: every entry except `-` is globbed, each one without a
   * match is reported, and the loop never stops early.
   */
  method CheckLogFiles(logFiles: seq<string>, globMatches: string -> bool) returns (shouldExit: bool, reported: seq<string>)
    ensures reported == MissingLogFiles(logFiles, globMatches)
    ensures shouldExit <==> reported != []
    ensures shouldExit <==> exists i :: 0 <= i < |logFiles| && logFiles[i] != "-" && !globMatches(logFiles[i])
  {
    shouldExit := false;
    reported := [];
    for i := 0 to |logFiles|
      invariant reported == MissingLogFiles(logFiles[..i], globMatches)
      invariant shouldExit <==> reported != []
    {
      var f := logFiles[i];
      assert logFiles[..i + 1][..i] == logFiles[..i];
      if f == "-" {
        continue;
      }
      if !globMatches(f) {
        reported := reported + [f];
        shouldExit := true;
      }
    }
    assert logFiles[..|logFiles|] == logFiles;
    MissingLogFilesMembers(logFiles, globMatches);
  }

  /** The package-level `BuildID`, `version` and the client's user-agent addition. */
  class VersionGlobals {
    const buildId: string
    var version: string
    var userAgentAddition: string

    constructor (buildId: string)
      ensures this.buildId == buildId && version == ""
    {
      this.buildId := buildId;
      version := "";
    }

    method SetVersionUserAgent(backfill: bool, parserName: string)
      modifies this`version, this`userAgentAddition
      ensures version == VersionOf(buildId)
      ensures userAgentAddition == UserAgent(buildId, backfill, parserName)
    {
      if buildId == "" {
        version := "dev";
      } else {
        version := buildId;
      }
      var name := parserName;
      if backfill {
        name := name + " backfill";
      }
      userAgentAddition := "clicktail/" + version + " (" + name + ")";
    }
  }
}
