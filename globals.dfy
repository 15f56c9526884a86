/**
 * The option records of options/globals/globals.go, restricted to the settings
 * that the start-up normalisation and validation read or write.
 */
module Globals {

  /** Go's `uint` and `int` on a 64-bit platform. */
  const UintLimit := 0x1_0000_0000_0000_0000
  const IntLimit := 0x8000_0000_0000_0000
  type GoUint = x: int | 0 <= x < UintLimit
  type GoInt = x: int | -IntLimit <= x < IntLimit

  /** The conversion `int(u)`: the same 64 bits read as a two's-complement number. */
  function IntOfUint(u: GoUint): (r: GoInt)
    ensures (r - u) % UintLimit == 0
    ensures r == u <==> u < IntLimit
    ensures r < 0 <==> u >= IntLimit
  {
    if u < IntLimit then u else u - UintLimit
  }

  /** `RequiredOptions`: the parser, the inputs and the target dataset. */
  datatype RequiredOptions = RequiredOptions(parserName: string, logFiles: seq<string>, dataset: string)

  /** The two fields of `tail.TailOptions` that start-up reads or sets. */
  datatype TailOptions = TailOptions(readFrom: string, stop: bool)

  /** `OtherModes`: flags that print something and exit instead of tailing. */
  datatype OtherModes = OtherModes(
    help: bool,
    listParsers: bool,
    version: bool,
    writeDefaultConfig: bool,
    writeCurrentConfig: bool,
    writeManPage: bool)

  /** A value copy of `GlobalOptions` restricted to the modelled fields. */
  datatype Settings = Settings(
    reqs: RequiredOptions,
    sampleRate: GoUint,
    goalSampleRate: GoInt,
    dynSample: seq<string>,
    tailSample: bool,
    requestShape: seq<string>,
    requestParseQuery: string,
    prefixRegex: string,
    tail: TailOptions,
    backfill: bool,
    backOff: bool,
    modes: OtherModes)

  /** The parser names the program advertises with `--list`. */
  const ValidParsers: seq<string> :=
    ["arangodb", "json", "keyval", "mongo", "mysql", "mysqlaudit", "nginx", "postgresql", "regex"]
}
