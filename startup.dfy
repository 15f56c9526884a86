/**
 * The start-up sequence of `main`: the backfill alias, the user agent, the
 * print-and-exit modes, the per-parser defaults and then validation, in that
 * order. What comes out is either an exit or the options handed to the
 * pipeline.
 */
module Startup {
  import opened Wrappers
  import opened Globals
  import opened Rules
  import opened Check

  /** How start-up ends: exit 0 after a mode, exit 1 on bad options, or run the pipeline. */
  datatype Outcome = ModeExit(mode: Mode) | ConfigExit(error: CheckError) | Run(options: Settings)

  /** Normalisation: the alias first, then the per-parser defaults. */
  function Normalise(s: Settings): Settings {
    AddParserDefaults(BackfillAlias(s))
  }

  /** The outcome of start-up for the options the command line produced. */
  function MainOutcome(s: Settings, compiles: string -> bool, globMatches: string -> bool): Outcome {
    var aliased := BackfillAlias(s);
    match HandleOtherModes(aliased.modes)
    case Some(mode) => ModeExit(mode)
    case None =>
      var normalised := AddParserDefaults(aliased);
      match SanityCheck(normalised, compiles, globMatches)
      case Exit(error) => ConfigExit(error)
      case Pass => Run(AfterCheck(normalised))
  }

  method RunMain(options: GlobalOptions, globals: VersionGlobals, compiles: string -> bool, globMatches: string -> bool)
    returns (outcome: Outcome)
    modifies options, globals
    ensures outcome == MainOutcome(old(options.Snapshot()), compiles, globMatches)
    ensures outcome.Run? ==> options.Snapshot() == outcome.options
    ensures globals.version == VersionOf(globals.buildId)
    ensures globals.userAgentAddition == UserAgent(globals.buildId, old(options.backfill), old(options.reqs.parserName))
  {
    options.ApplyBackfillAlias();
    globals.SetVersionUserAgent(options.backfill, options.reqs.parserName);
    var mode := HandleOtherModes(options.modes);
    if mode.Some? {
      return ModeExit(mode.value);
    }
    options.AddParserDefaultOptions();
    var verdict := options.SanityCheckOptions(compiles, globMatches);
    if verdict.Exit? {
      return ConfigExit(verdict.error);
    }
    return Run(options.Snapshot());
  }

  /** A mode flag is honoured even when the options would fail validation. */
  lemma ModeWinsOverValidation(s: Settings, compiles: string -> bool, globMatches: string -> bool)
    ensures MainOutcome(s, compiles, globMatches).ModeExit? <==> exists mode :: Requested(s.modes, mode)
  {
  }

  /** Because the alias runs before validation, a backfill never trips the read-from-end-and-stop rule. */
  lemma BackfillNeverEndAndStop(s: Settings, compiles: string -> bool, globMatches: string -> bool)
    requires s.backfill
    ensures MainOutcome(s, compiles, globMatches) != ConfigExit(Broken(EndAndStop))
  {
  }

  /** The rules other than the two sample-rate rules pass. */
  predicate OtherRulesPass(s: Settings) {
    s.reqs.parserName != "" && s.reqs.logFiles != [] && s.reqs.dataset != ""
    && !(s.tail.readFrom == "end" && s.tail.stop)
    && (s.requestParseQuery == "whitelist" || s.requestParseQuery == "all")
  }

  /** With dynamic sampling the zero-rate rule never fires: the rate is already 1 when it is tested. */
  lemma DynamicSamplingNeverZeroRate(s: Settings, compiles: string -> bool, globMatches: string -> bool)
    requires s.dynSample != []
    ensures MainOutcome(s, compiles, globMatches) != ConfigExit(Broken(SampleRateZero))
  {
  }

  /**
   * With dynamic sampling, once the earlier rules pass, the dynamic-sampling
   * rule rejects exactly the original rates <= 1 (for rates that survive the
   * conversion to `int`).
   */
  lemma DynamicSamplingRateRule(s: Settings, compiles: string -> bool, globMatches: string -> bool)
    requires s.dynSample != [] && HandleOtherModes(s.modes) == None
    requires OtherRulesPass(BackfillAlias(s))
    requires s.sampleRate < IntLimit
    ensures MainOutcome(s, compiles, globMatches) == ConfigExit(Broken(DynamicRateTooLow)) <==> s.sampleRate <= 1
  {
  }

  /**
   * A rate of 2^63 or more becomes negative in `int(options.SampleRate)`, so with
   * dynamic sampling such a rate is rejected as if it were below 2.
   */
  lemma DynamicSamplingHugeRateRejected(s: Settings, compiles: string -> bool, globMatches: string -> bool)
    requires s.dynSample != [] && HandleOtherModes(s.modes) == None
    requires OtherRulesPass(BackfillAlias(s))
    requires s.sampleRate >= IntLimit
    ensures MainOutcome(s, compiles, globMatches) == ConfigExit(Broken(DynamicRateTooLow))
  {
  }

  /** What the pipeline may rely on about the options it is started with. */
  predicate ReadyForPipeline(o: Settings, compiles: string -> bool, globMatches: string -> bool) {
    && o.reqs.parserName != ""
    && o.reqs.logFiles != []
    && o.reqs.dataset != ""
    && o.sampleRate >= 1
    && !(o.tail.readFrom == "end" && o.tail.stop)
    && (o.requestParseQuery == "whitelist" || o.requestParseQuery == "all")
    && (o.dynSample != [] ==> o.sampleRate == 1 && o.goalSampleRate >= 2 && !o.tailSample)
    && (o.prefixRegex != "" ==> o.prefixRegex[0] == '^' && compiles(o.prefixRegex))
    && (forall i :: 0 <= i < |o.reqs.logFiles| ==> o.reqs.logFiles[i] == "-" || globMatches(o.reqs.logFiles[i]))
    && (o.backfill ==> o.backOff && o.tail.readFrom == "beginning" && o.tail.stop)
  }

  /** Every run of the pipeline starts from validated, normalised options. */
  lemma RunOptionsAreReady(s: Settings, compiles: string -> bool, globMatches: string -> bool)
    requires MainOutcome(s, compiles, globMatches).Run?
    ensures ReadyForPipeline(MainOutcome(s, compiles, globMatches).options, compiles, globMatches)
  {
    var n := Normalise(s);
    SanityCheckPassesIff(n, compiles, globMatches);
    assert !Fires(n, SampleRateZero) && !Fires(n, DynamicRateTooLow);
  }
}
