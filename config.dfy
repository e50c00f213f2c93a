/**
 * The configuration record `InitLogger` accepts, the package's
 * `defaultConfig`, the defaulting of missing fields, and the settings a
 * configuration commits: minimum level, time format, rendering sink and
 * caller flag.
 */
module Config {
  import opened Wrappers
  import opened Levels

  /** An `io.Writer`; streams other than standard error are told apart by an identifier. */
  datatype Writer = Stderr | Stream(id: nat)

  /** Go's `time.RFC3339` layout string. */
  const RFC3339: string := "2006-01-02T15:04:05Z07:00"

  /** `Config`; a nil `Output` is `None`. */
  datatype Config = Config(
    level: string,
    pretty: bool,
    withCaller: bool,
    timeFormat: string,
    output: Option<Writer>)

  /** The package's `defaultConfig` as it is at process start. */
  const DefaultConfig: Config := Config("info", false, false, RFC3339, Some(Stderr))

  /**
   * A configuration with its missing output and time format taken from
   * `defaultConfig`; `level`, `pretty` and `withCaller` are left as given.
   */
  function WithDefaults(cfg: Config): (r: Config)
    ensures r.output.Some? && r.timeFormat != ""
    ensures r.output == if cfg.output.None? then Some(Stderr) else cfg.output
    ensures cfg.timeFormat != "" ==> r.timeFormat == cfg.timeFormat
    ensures cfg.timeFormat == "" ==> r.timeFormat == RFC3339
    ensures r.level == cfg.level && r.pretty == cfg.pretty && r.withCaller == cfg.withCaller
  {
    var withOutput := if cfg.output.None? then cfg.(output := DefaultConfig.output) else cfg;
    if withOutput.timeFormat == "" then withOutput.(timeFormat := DefaultConfig.timeFormat) else withOutput
  }

  /** Defaulting twice is defaulting once, and `defaultConfig` needs none. */
  lemma WithDefaultsIdempotent(cfg: Config)
    ensures WithDefaults(WithDefaults(cfg)) == WithDefaults(cfg)
    ensures WithDefaults(DefaultConfig) == DefaultConfig
  {
  }

  /** Where and how the backend renders: compact JSON, or the console writer with its own time format. */
  datatype Sink = Json(out: Writer) | Console(out: Writer, timeFormat: string)
  {
    predicate Pretty() { Console? }
  }

  /** What one call of `InitLogger` commits to the process-wide state. */
  datatype Settings = Settings(level: Level, timeFormat: string, sink: Sink, withCaller: bool)

  /** The settings `InitLogger` derives from a configuration. */
  function Configured(cfg: Config): (s: Settings)
    ensures s.level == Lookup(cfg.level)
    ensures s.timeFormat == WithDefaults(cfg).timeFormat && s.timeFormat != ""
    ensures s.sink.out == WithDefaults(cfg).output.value
    ensures s.sink.Pretty() == cfg.pretty
    ensures s.sink.Console? ==> s.sink.timeFormat == s.timeFormat
    ensures s.withCaller == cfg.withCaller
  {
    var d := WithDefaults(cfg);
    var sink := if d.pretty then Console(d.output.value, d.timeFormat) else Json(d.output.value);
    Settings(Lookup(d.level), d.timeFormat, sink, d.withCaller)
  }

  /**
   * Two configurations commit the same settings exactly when they agree on
   * level (after lookup), rendering mode, caller flag and, once defaulted,
   * on output and time format.
   */
  lemma ConfiguredDeterminedByDefaults(a: Config, b: Config)
    ensures Configured(a) == Configured(b) <==>
      Lookup(a.level) == Lookup(b.level) &&
      a.pretty == b.pretty && a.withCaller == b.withCaller &&
      WithDefaults(a).output == WithDefaults(b).output &&
      WithDefaults(a).timeFormat == WithDefaults(b).timeFormat
  {
  }
}
