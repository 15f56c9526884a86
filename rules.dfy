/**
 * What the start-up stage of clicktail does to its options, as functions on
 * option values: the backfill alias, the per-parser defaults, the ordered
 * rejection rules, prefix anchoring, the input-file check, the user agent and
 * the choice of a print-and-exit mode. The imperative versions in module Check
 * are proved to compute exactly these.
 */
module Rules {
  import opened Wrappers
  import opened Globals

  // ---------------------------------------------------------------------------
  // The --backfill alias

  /** `--backfill` stands for `--backoff --tail.read_from=beginning --tail.stop`. */
  function BackfillAlias(s: Settings): (r: Settings)
    ensures s.backfill ==> r.backOff && r.tail.readFrom == "beginning" && r.tail.stop
    ensures !s.backfill ==> r == s
    ensures r.(backOff := s.backOff, tail := s.tail) == s
  {
    if s.backfill then s.(backOff := true, tail := s.tail.(readFrom := "beginning", stop := true)) else s
  }

  // ---------------------------------------------------------------------------
  // Per-parser defaults

  /**
   * nginx gets a `request` shape field; tail-time sampling is on except for
   * mysql; dynamic sampling turns tail-time sampling off, moves the sample rate
   * into the goal rate and sets the static rate to 1.
   */
  function AddParserDefaults(s: Settings): (r: Settings)
    ensures r.requestShape == if s.reqs.parserName == "nginx" then s.requestShape + ["request"] else s.requestShape
    ensures r.tailSample <==> s.dynSample == [] && s.reqs.parserName != "mysql"
    ensures s.dynSample != [] ==> r.goalSampleRate == IntOfUint(s.sampleRate) && r.sampleRate == 1
    ensures s.dynSample == [] ==> r.goalSampleRate == s.goalSampleRate && r.sampleRate == s.sampleRate
    ensures r.(requestShape := s.requestShape, tailSample := s.tailSample,
               goalSampleRate := s.goalSampleRate, sampleRate := s.sampleRate) == s
  {
    var shaped := if s.reqs.parserName == "nginx" then s.(requestShape := s.requestShape + ["request"]) else s;
    var tailed := shaped.(tailSample := s.reqs.parserName != "mysql");
    if s.dynSample != [] then
      tailed.(tailSample := false, goalSampleRate := IntOfUint(s.sampleRate), sampleRate := 1)
    else
      tailed
  }

  /** The nginx default is appended again on every application. */
  lemma NginxDefaultNotIdempotent(s: Settings)
    requires s.reqs.parserName == "nginx"
    ensures AddParserDefaults(AddParserDefaults(s)).requestShape == s.requestShape + ["request", "request"]
    ensures AddParserDefaults(AddParserDefaults(s)) != AddParserDefaults(s)
  {
  }

  // ---------------------------------------------------------------------------
  // The ordered rejection rules

  /** One `case` of the validation switch. */
  datatype Rule =
    | ParserMissing
    | LogFilesMissing
    | DatasetMissing
    | SampleRateZero
    | EndAndStop
    | BadQueryPolicy
    | DynamicRateTooLow

  /** The position of each case in the switch: the order in which they are tried. */
  function RuleIndex(rule: Rule): nat {
    match rule
    case ParserMissing => 0
    case LogFilesMissing => 1
    case DatasetMissing => 2
    case SampleRateZero => 3
    case EndAndStop => 4
    case BadQueryPolicy => 5
    case DynamicRateTooLow => 6
  }

  /** The condition of each case, independent of the others. */
  predicate Fires(s: Settings, rule: Rule) {
    match rule
    case ParserMissing => s.reqs.parserName == ""
    case LogFilesMissing => s.reqs.logFiles == []
    case DatasetMissing => s.reqs.dataset == ""
    case SampleRateZero => s.sampleRate == 0
    case EndAndStop => s.tail.readFrom == "end" && s.tail.stop
    case BadQueryPolicy => s.requestParseQuery != "whitelist" && s.requestParseQuery != "all"
    case DynamicRateTooLow => s.dynSample != [] && s.sampleRate <= 1 && s.goalSampleRate <= 1
  }

  /** The switch itself: the first case whose condition holds, if any. */
  function FirstViolation(s: Settings): (r: Option<Rule>)
    ensures r.Some? ==> Fires(s, r.value)
    ensures r == None ==> forall rule :: !Fires(s, rule)
  {
    if s.reqs.parserName == "" then Some(ParserMissing)
    else if |s.reqs.logFiles| == 0 then Some(LogFilesMissing)
    else if s.reqs.dataset == "" then Some(DatasetMissing)
    else if s.sampleRate == 0 then Some(SampleRateZero)
    else if s.tail.readFrom == "end" && s.tail.stop then Some(EndAndStop)
    else if s.requestParseQuery != "whitelist" && s.requestParseQuery != "all" then Some(BadQueryPolicy)
    else if |s.dynSample| != 0 && s.sampleRate <= 1 && s.goalSampleRate <= 1 then Some(DynamicRateTooLow)
    else None
  }

  /** When several rules fail, the one reported is the one tried first. */
  lemma FirstViolationIsEarliest(s: Settings, rule: Rule)
    ensures FirstViolation(s) == Some(rule) <==>
            Fires(s, rule) && forall other :: RuleIndex(other) < RuleIndex(rule) ==> !Fires(s, other)
  {
  }

  // ---------------------------------------------------------------------------
  // Prefix-regex anchoring

  /** A non-empty pattern not already starting with `^` gets one in front. */
  function AnchorPrefix(p: string): (r: string)
    ensures r == "" <==> p == ""
    ensures r != "" ==> r[0] == '^'
    ensures r == p <==> p == "" || p[0] == '^'
    ensures r != p ==> r == "^" + p
  {
    if p == "" then p else if p[0] != '^' then "^" + p else p
  }

  /** Anchoring twice is anchoring once. */
  lemma AnchorPrefixIdempotent(p: string)
    ensures AnchorPrefix(AnchorPrefix(p)) == AnchorPrefix(p)
  {
  }

  // ---------------------------------------------------------------------------
  // The input-file check

  /**
   * The entries reported as not found, in list order: every entry other than
   * the stdin marker `-` for which the glob yields nothing or an error.
   */
  function MissingLogFiles(files: seq<string>, globMatches: string -> bool): seq<string>
  {
    if files == [] then []
    else
      var f := files[|files| - 1];
      MissingLogFiles(files[..|files| - 1], globMatches) + (if f != "-" && !globMatches(f) then [f] else [])
  }

  lemma {:induction false} MissingLogFilesMembers(files: seq<string>, globMatches: string -> bool)
    ensures forall f :: f in MissingLogFiles(files, globMatches) <==> f in files && f != "-" && !globMatches(f)
    ensures MissingLogFiles(files, globMatches) == [] <==>
            forall i :: 0 <= i < |files| ==> files[i] == "-" || globMatches(files[i])
  {
    if files != [] {
      var init := files[..|files| - 1];
      MissingLogFilesMembers(init, globMatches);
      assert files == init + [files[|files| - 1]];
    }
  }

  // ---------------------------------------------------------------------------
  // SanityCheckOptions as a whole

  /** Why start-up exits with status 1. */
  datatype CheckError =
    | Broken(rule: Rule)
    | PrefixRegexInvalid(pattern: string)
    | LogFilesNotFound(missing: seq<string>)

  datatype Verdict = Pass | Exit(error: CheckError)

  /**
   * The verdict of the validation: the first failing rule; else the anchored
   * prefix regex must compile; else every listed input must exist, all missing
   * ones being reported together.
   */
  function SanityCheck(s: Settings, compiles: string -> bool, globMatches: string -> bool): Verdict
  {
    match FirstViolation(s)
    case Some(rule) => Exit(Broken(rule))
    case None =>
      var pattern := AnchorPrefix(s.prefixRegex);
      if pattern != "" && !compiles(pattern) then Exit(PrefixRegexInvalid(pattern))
      else
        var missing := MissingLogFiles(s.reqs.logFiles, globMatches);
        if missing != [] then Exit(LogFilesNotFound(missing)) else Pass
  }

  /** The options after validation: the prefix regex is anchored once the rules pass. */
  function AfterCheck(s: Settings): (r: Settings)
    ensures r.(prefixRegex := s.prefixRegex) == s
    ensures FirstViolation(s).Some? ==> r == s
    ensures FirstViolation(s) == None ==> r.prefixRegex == AnchorPrefix(s.prefixRegex)
  {
    if FirstViolation(s).Some? then s else s.(prefixRegex := AnchorPrefix(s.prefixRegex))
  }

  /** Validation passes exactly when no rule fires, the regex compiles and every input exists. */
  lemma SanityCheckPassesIff(s: Settings, compiles: string -> bool, globMatches: string -> bool)
    ensures SanityCheck(s, compiles, globMatches) == Pass <==>
            && (forall rule :: !Fires(s, rule))
            && (s.prefixRegex == "" || compiles(AnchorPrefix(s.prefixRegex)))
            && (forall i :: 0 <= i < |s.reqs.logFiles| ==> s.reqs.logFiles[i] == "-" || globMatches(s.reqs.logFiles[i]))
  {
    MissingLogFilesMembers(s.reqs.logFiles, globMatches);
  }

  /** Only emptiness of the parser name is checked: which non-empty name is given never matters. */
  lemma ParserNameOnlyNeedsNonEmpty(s: Settings, name: string, compiles: string -> bool, globMatches: string -> bool)
    requires s.reqs.parserName != "" && name != ""
    ensures SanityCheck(s.(reqs := s.reqs.(parserName := name)), compiles, globMatches) == SanityCheck(s, compiles, globMatches)
  {
  }

  // ---------------------------------------------------------------------------
  // Version and user agent

  function VersionOf(buildId: string): (v: string)
    ensures v != ""
    ensures buildId != "" ==> v == buildId
  {
    if buildId == "" then "dev" else buildId
  }

  const BackfillSuffix := " backfill"

  /** `clicktail/<version> (<parser>[ backfill])`. */
  function UserAgent(buildId: string, backfill: bool, parserName: string): string
  {
    "clicktail/" + VersionOf(buildId) + " (" + parserName + (if backfill then BackfillSuffix else "") + ")"
  }

  predicate EndsWithBackfill(t: string) {
    |t| >= |BackfillSuffix| && t[|t| - |BackfillSuffix|..] == BackfillSuffix
  }

  /** Reads the parser name and the backfill flag back out of a user agent for a known version. */
  function DecodeUserAgent(version: string, ua: string): Option<(string, bool)>
  {
    var head := "clicktail/" + version + " (";
    if |ua| <= |head| || ua[..|head|] != head || ua[|ua| - 1] != ')' then None
    else
      var t := ua[|head|..|ua| - 1];
      if EndsWithBackfill(t) then Some((t[..|t| - |BackfillSuffix|], true)) else Some((t, false))
  }

  /** The user agent names the version, the parser and whether this is a backfill. */
  lemma UserAgentRoundTrip(buildId: string, backfill: bool, parserName: string)
    requires !EndsWithBackfill(parserName)
    ensures DecodeUserAgent(VersionOf(buildId), UserAgent(buildId, backfill, parserName)) == Some((parserName, backfill))
  {
    var head := "clicktail/" + VersionOf(buildId) + " (";
    var t := parserName + (if backfill then BackfillSuffix else "");
    var ua := UserAgent(buildId, backfill, parserName);
    assert ua == head + t + ")";
    assert ua[..|head|] == head;
    assert ua[|head|..|ua| - 1] == t;
    assert ua[|ua| - 1] == ')';
    if backfill {
      assert t[|t| - |BackfillSuffix|..] == BackfillSuffix;
      assert EndsWithBackfill(t);
      assert t[..|t| - |BackfillSuffix|] == parserName;
    } else {
      assert t == parserName;
    }
  }

  /** No advertised parser name ends in " backfill", so the round trip holds for all of them. */
  lemma ValidParsersDecode()
    ensures forall p :: p in ValidParsers ==> !EndsWithBackfill(p)
  {
  }

  /** Without that restriction the user agent is ambiguous. */
  lemma UserAgentAmbiguous(buildId: string)
    ensures UserAgent(buildId, true, "nginx") == UserAgent(buildId, false, "nginx backfill")
  {
  }

  // ---------------------------------------------------------------------------
  // Print-and-exit modes

  datatype Mode = ShowVersion | ShowHelp | WriteManPage | WriteDefaultConfig | WriteCurrentConfig | ListParsers

  /** The order in which the mode flags are tested. */
  function Precedence(mode: Mode): nat {
    match mode
    case ShowVersion => 0
    case ShowHelp => 1
    case WriteManPage => 2
    case WriteDefaultConfig => 3
    case WriteCurrentConfig => 4
    case ListParsers => 5
  }

  predicate Requested(modes: OtherModes, mode: Mode) {
    match mode
    case ShowVersion => modes.version
    case ShowHelp => modes.help
    case WriteManPage => modes.writeManPage
    case WriteDefaultConfig => modes.writeDefaultConfig
    case WriteCurrentConfig => modes.writeCurrentConfig
    case ListParsers => modes.listParsers
  }

  /** The mode taken (the program then exits with status 0), or None to go on. */
  function HandleOtherModes(modes: OtherModes): (r: Option<Mode>)
    ensures r.Some? ==> Requested(modes, r.value)
    ensures r == None ==> forall mode :: !Requested(modes, mode)
  {
    if modes.version then Some(ShowVersion)
    else if modes.help then Some(ShowHelp)
    else if modes.writeManPage then Some(WriteManPage)
    else if modes.writeDefaultConfig then Some(WriteDefaultConfig)
    else if modes.writeCurrentConfig then Some(WriteCurrentConfig)
    else if modes.listParsers then Some(ListParsers)
    else None
  }

  /** The requested mode that comes first in `Precedence` wins. */
  lemma HandleOtherModesPrecedence(modes: OtherModes, mode: Mode)
    ensures HandleOtherModes(modes) == Some(mode) <==>
            Requested(modes, mode) && forall other :: Precedence(other) < Precedence(mode) ==> !Requested(modes, other)
  {
  }
}
