/**
 * The package-level state of logger.go and the operations that read or
 * change it: the `init()` bootstrap, `InitLogger` behind its one-shot gate,
 * `GetLogger`, `WithField` and the level functions.
 */
module Logger {
  import opened Wrappers
  import opened Levels
  import opened Config
  import opened Callers
  import opened Events

  /**
   * The process-wide state. `T` is the type of the values callers pass as
   * `interface{}` arguments.
   */
  class Logger<T> {
    /** Whether `initOnce` has run its function. */
    var initialized: bool
    /** The package variable `defaultConfig`; `InitLogger` only ever changes its `WithCaller`. */
    var defaultConfig: Config
    /** `DefaultLogger`. */
    var defaultLogger: Handle<T>
    /** zerolog's global `log.Logger`. */
    var globalLogger: Handle<T>
    /** The level passed to `zerolog.SetGlobalLevel`; `None` while the backend's own default applies. */
    var globalLevel: Option<Level>
    /** The value assigned to `zerolog.TimeFieldFormat`; `None` while the backend's own default applies. */
    var timeFieldFormat: Option<string>

    /**
     * Both logger variables always hold the same handle, timestamped and
     * without context fields; only `WithCaller` of `defaultConfig` ever
     * changes; before initialisation the bootstrap settings are in force;
     * after it, a console sink shows the same time format the timestamp
     * field uses.
     */
    ghost predicate Valid()
      reads this
    {
      defaultLogger == globalLogger &&
      defaultLogger.timestamp && defaultLogger.context == [] &&
      defaultConfig == DefaultConfig.(withCaller := defaultConfig.withCaller) &&
      (initialized <==> globalLevel.Some?) &&
      (initialized <==> timeFieldFormat.Some?) &&
      (!initialized ==> defaultLogger.sink == Json(Stderr) && !defaultConfig.withCaller) &&
      (initialized && defaultLogger.sink.Console? ==> defaultLogger.sink.timeFormat == timeFieldFormat.value)
    }

    /** The settings in force once `InitLogger` has run. */
    ghost function Active(): Settings
      reads this
      requires Valid() && initialized
    {
      Settings(globalLevel.value, timeFieldFormat.value, defaultLogger.sink, defaultConfig.withCaller)
    }

    /** `init()`: a timestamped JSON logger on standard error, caller annotation off, the gate not yet used. */
    constructor ()
      ensures Valid() && !initialized
      ensures defaultConfig == DefaultConfig
      ensures defaultLogger == Handle(Json(Stderr), true, [])
    {
      initialized := false;
      defaultConfig := DefaultConfig;
      defaultLogger := Handle(Json(Stderr), true, []);
      globalLogger := defaultLogger;
      globalLevel := None;
      timeFieldFormat := None;
    }

    /**
     * `InitLogger`: the first call commits the defaulted configuration;
     * every later call changes nothing.
     */
    method InitLogger(cfg: Config)
      requires Valid()
      modifies this
      ensures Valid() && initialized
      ensures old(initialized) ==> unchanged(this)
      ensures !old(initialized) ==> Active() == Configured(cfg)
      ensures !old(initialized) ==> defaultLogger == Handle(Configured(cfg).sink, true, [])
    {
      if !initialized {
        initialized := true;
        var c := cfg;
        if c.output.None? {
          c := c.(output := defaultConfig.output);
        }
        if c.timeFormat == "" {
          c := c.(timeFormat := defaultConfig.timeFormat);
        }
        timeFieldFormat := Some(c.timeFormat);
        var level := Info;
        var key := ToLower(c.level);
        if key in Table {
          level := Table[key];
        }
        globalLevel := Some(level);
        var sink := if c.pretty then Console(c.output.value, c.timeFormat) else Json(c.output.value);
        var logger := Handle(sink, false, []);
        logger := logger.(timestamp := true);
        defaultConfig := defaultConfig.(withCaller := c.withCaller);
        defaultLogger := logger;
        globalLogger := logger;
      }
    }

    /**
     * A caller that invokes `InitLogger` once per configuration in turn:
     * whatever the later configurations say, the first one's settings are
     * the ones in force.
     */
    method InitLoggerRepeatedly(cfgs: seq<Config>)
      requires Valid()
      modifies this
      ensures Valid()
      ensures old(initialized) || cfgs == [] ==> unchanged(this)
      ensures !old(initialized) && cfgs != [] ==> initialized && Active() == Configured(cfgs[0])
    {
      var i := 0;
      while i < |cfgs|
        invariant 0 <= i <= |cfgs|
        invariant Valid()
        invariant old(initialized) || i == 0 ==> unchanged(this)
        invariant !old(initialized) && i > 0 ==> initialized && Active() == Configured(cfgs[0])
      {
        InitLogger(cfgs[i]);
        i := i + 1;
      }
    }

    /**
     * `GetLogger`: a logger derived from `DefaultLogger` carrying an
     * optional `caller` field and then the `component` field; the state is
     * not changed.
     */
    function GetLogger(component: string, site: Option<CallSite>): (h: Handle<T>)
      reads this
      ensures h.sink == defaultLogger.sink && h.timestamp == defaultLogger.timestamp
      ensures h.context == defaultLogger.context + CallerFields(defaultConfig.withCaller, site) +
        [Field("component", Text(component))]
    {
      var ctx := AddCallerToContext(defaultLogger, defaultConfig.withCaller, site);
      ctx.(context := ctx.context + [Field("component", Text(component))])
    }

    /** `WithField`: like `GetLogger`, with an arbitrary key and value in place of `component`. */
    function WithField(key: string, value: T, site: Option<CallSite>): (h: Handle<T>)
      reads this
      ensures h.sink == defaultLogger.sink && h.timestamp == defaultLogger.timestamp
      ensures h.context == defaultLogger.context + CallerFields(defaultConfig.withCaller, site) +
        [Field(key, Any(value))]
    {
      var ctx := AddCallerToContext(defaultLogger, defaultConfig.withCaller, site);
      ctx.(context := ctx.context + [Field(key, Any(value))])
    }

    /**
     * The level functions: `Debug`, `Info` and `Warn` (with `err` = `None`),
     * `Error` and `Fatal`. The event is opened on `DefaultLogger`, gets its
     * `error` field, then its `caller` field, then goes through the
     * argument interpreter, which emits it once.
     */
    method Log(level: Level, err: Option<Error>, msg: string, args: seq<T>, sprint: T -> string, site: Option<CallSite>)
      returns (e: Event<T>)
      requires Valid()
      ensures e.Finalized() && e.level == level && e.handle == defaultLogger
      ensures e.fields == ErrFields(err) + CallerFields(defaultConfig.withCaller, site) +
        (if UsesFormat(msg, args) then [] else Pairs(args, sprint))
      ensures e.message == Some(if UsesFormat(msg, args) then Formatted(msg, args) else Verbatim(msg))
    {
      var withErr := Open(defaultLogger, level).Err(err);
      assert withErr.fields == ErrFields(err);
      var evt := AddCallerInfo(withErr, defaultConfig.withCaller, site);
      ghost var annotated := ErrFields(err) + CallerFields(defaultConfig.withCaller, site);
      assert evt.fields == annotated;
      e := ProcessArgs(evt, msg, args, sprint);
      if UsesFormat(msg, args) {
        assert e.fields == annotated + [];
      }
    }
  }
}
