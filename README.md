# clicktail start-up options: normalisation and validation

clicktail tails log files, parses them, samples the events and ships them in
batches. Before any of that starts, `main` takes the options record filled
from the command line and config file and:

1. applies the `--backfill` alias (back off on rate limits, read from the
   beginning, stop at end of file);
2. sets the client's user-agent addition to `clicktail/<version> (<parser>[ backfill])`;
3. honours the print-and-exit modes (version, help, man page, default config,
   current config, list parsers), first set flag wins;
4. adds per-parser defaults (`request` shape field for nginx, tail-time
   sampling for every parser but mysql; dynamic sampling turns tail-time
   sampling off, moves the sample rate into the goal rate and sets the static
   rate to 1);
5. validates the result: seven rules tried in order, the first failing one
   exits with status 1; then the prefix regex is anchored with `^` and must
   compile; then every input other than stdin (`-`) must match a file, all
   missing ones being reported before the exit.

This project models that stage. The same logic appears twice in the source,
exported in `options/globals/check.go` and as lower-case copies in `main.go`;
it is modelled once. Module `Rules` states each step as a function on an
option value (`Globals.Settings`) and proves its properties; module `Check`
holds the imperative versions (class `GlobalOptions` updated in place, class
`VersionGlobals` for the package-level version and user agent, the
`CheckLogFiles` loop), each proved to compute the `Rules` function; module
`Startup` puts them together in `main`'s order.

Modelling choices:

- Go's `uint` and `int` are taken as 64-bit (`Globals.GoUint`, `Globals.GoInt`).
  `int(options.SampleRate)` is modelled as the two's-complement reading of the
  same bits (`Globals.IntOfUint`), so a rate of 2^63 or more turns negative.
- `os.Exit(1)` is `Rules.Verdict.Exit` carrying a `Rules.CheckError` that says
  which check failed; `os.Exit(0)` after a mode is `Startup.Outcome.ModeExit`.
- `regexp.Compile` succeeding and `filepath.Glob` returning a non-empty list
  without error are the parameters `compiles` and `globMatches` (any total
  predicates on strings).
- The messages printed for each missing input are modelled as the list of
  reported entries (`Rules.MissingLogFiles`), in list order.
- Strings are sequences of characters; the only character the code inspects is
  the ASCII `^`, where bytes and characters agree.

## Model

| member | source | states |
|---|---|---|
| Globals.IntOfUint | options/globals/check.go:99 | `int(uint)` keeps the 64 bits: equal to the input below 2^63, negative from 2^63 on, congruent modulo 2^64 |
| Rules.BackfillAlias | main.go:73-78 | with backfill set, backoff is on, reading starts at the beginning and stops at end of file, overriding the user; nothing else changes; without backfill nothing changes |
| Rules.AddParserDefaults | options/globals/check.go:81-102 | nginx gets exactly one `request` appended to the shape list, other parsers none; tail sampling ends up equal to "no dynamic sampling and parser is not mysql" whatever it was; with dynamic sampling the goal rate is the old sample rate read as a Go `int` and the sample rate is 1, otherwise both are kept; no other field changes |
| Rules.NginxDefaultNotIdempotent | options/globals/check.go:82-86 | applying the defaults twice for nginx appends `request` twice, so the step is not idempotent |
| Rules.FirstViolation | options/globals/check.go:105-138 | a reported rule's condition holds; no rule is reported only when none of the seven conditions holds |
| Rules.FirstViolationIsEarliest | options/globals/check.go:105-138 | the rule reported is exactly the one whose condition holds while every rule tried before it passes |
| Rules.ParserNameOnlyNeedsNonEmpty | options/globals/check.go:105-109 | the verdict does not depend on which non-empty parser name is given, so a name outside the advertised list is not rejected here |
| Rules.AnchorPrefix | options/globals/check.go:141-145 | a non-empty pattern comes out starting with `^`; it is unchanged iff it was empty or already anchored, else it is `^` followed by the old pattern |
| Rules.AnchorPrefixIdempotent | options/globals/check.go:141-145 | anchoring twice equals anchoring once |
| Rules.AfterCheck | options/globals/check.go:104-153 | validation changes only the prefix regex, and only once all seven rules pass, to its anchored form |
| Rules.MissingLogFilesMembers | options/globals/check.go:155-169 | an entry is reported iff it is listed, is not `-` and has no glob match; nothing is reported iff every entry is `-` or matches |
| Rules.SanityCheckPassesIff | options/globals/check.go:104-170 | validation passes iff no rule fires, the anchored regex (if any) compiles and every non-`-` input has a glob match |
| Rules.VersionOf | options/globals/check.go:37-41 | the version is never empty and is the build id whenever one is set |
| Rules.UserAgentRoundTrip | options/globals/check.go:36-46 | the user agent `clicktail/<version> (<parser>[ backfill])` gives back the parser name and the backfill flag, for any parser name not itself ending in ` backfill` |
| Rules.ValidParsersDecode | options/globals/check.go:23-33 | no advertised parser name ends in ` backfill`, so the round trip holds for all of them |
| Rules.UserAgentAmbiguous | options/globals/check.go:42-45 | parser `nginx` with backfill and parser `nginx backfill` without give the same user agent |
| Rules.HandleOtherModes | options/globals/check.go:50-79 | a chosen mode was requested; no mode is chosen only when no mode flag is set, and processing then goes on |
| Rules.HandleOtherModesPrecedence | options/globals/check.go:50-79 | the chosen mode is the requested one that comes first in the order version, help, man page, default config, current config, list parsers |
| Check.GlobalOptions.constructor | options/globals/globals.go:17-78 | the record holds the values the command-line parser produced |
| Check.GlobalOptions.ApplyBackfillAlias | main.go:73-78 | updates the record in place to the aliased value |
| Check.GlobalOptions.AddParserDefaultOptions | main.go:157-178 | updates the record in place to the value with per-parser defaults |
| Check.GlobalOptions.SanityCheckOptions | main.go:180-246 | returns the validation verdict and leaves the record with only the prefix regex anchored, and only once the rules pass |
| Check.CheckLogFiles | main.go:231-245 | visits every entry, skipping `-`, and reports all unmatched ones in order; exits iff at least one non-`-` entry has no match |
| Check.VersionGlobals.constructor | main.go:22-26 | the build id is fixed at start and the version starts empty (Go's zero value) |
| Check.VersionGlobals.SetVersionUserAgent | main.go:111-122 | sets the version to the build id or `dev`, and the user agent to the value decoded by the round-trip lemma |
| Startup.RunMain | main.go:73-99 | runs alias, user agent, modes, defaults and validation in that order; its outcome is the one the value model predicts, a run gets the final record, and the version and user agent are set from the build id, the backfill flag and the parser name |
| Startup.ModeWinsOverValidation | main.go:96-99 | start-up exits for a mode iff some mode flag is set, whatever the other options are |
| Startup.BackfillNeverEndAndStop | main.go:73-99 | a backfill configuration never trips the read-from-end-and-stop rule |
| Startup.DynamicSamplingNeverZeroRate | main.go:171-201 | with dynamic sampling the zero-rate rule never fires, whatever else is set, because the rate is already 1 when it is tested |
| Startup.DynamicSamplingRateRule | main.go:171-213 | with dynamic sampling, no mode flag, the rules before it passing and a rate below 2^63, the dynamic-sampling rule rejects exactly when the user's rate is at most 1, 0 included |
| Startup.DynamicSamplingHugeRateRejected | main.go:175 | with dynamic sampling a rate of 2^63 or more wraps negative in the goal rate and is rejected by the dynamic-sampling rule |
| Startup.RunOptionsAreReady | main.go:96-108 | options reaching the pipeline have parser, inputs and dataset, a rate of at least 1, a usable read policy and query policy, a goal rate of at least 2 under dynamic sampling, an anchored compiling regex, existing inputs, and the backfill settings in force |

## Left out

- The event pipeline itself (tailing, parsers, transforms, sampling, batching, delivery, `Run`): it is in packages that are not part of this model.
- Command-line and config-file parsing with go-flags (main.go:41-65): a foreign library; the model starts from the filled record.
- Everything printed: the usage text, help, man page, INI output, version and parser list, and the error messages. They are stdout writes; the model keeps which exit is taken and, for missing inputs, which entries are reported.
- Time-zone loading, `rand.Seed` and the logrus level (main.go:67-94): foreign calls with process-wide effects; a bad time zone's exit is not modelled.
- `libclick.VerifyApiHost` (main.go:101-106): a network check.
- The internals of `regexp.Compile` and `filepath.Glob`: kept as the parameters `compiles` and `globMatches`.
- Option fields no modelled step reads or writes, and the struct-tag metadata of globals.go.
- gogogo/gogogo.go repeats `main`'s sequence, gogogo/ParseLogFile.go fills a fixed options literal, and awslog/AwsInstanceLogs.go downloads files: entry-point plumbing and I/O, not part of this model.
- 32-bit platforms, where Go's `uint` and `int` are 32 bits wide, are not modelled.
