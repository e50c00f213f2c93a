# logger — a verified model of the logging facade

`logger.go` gives a whole program one shared, pre-configured zerolog logger.
`InitLogger` configures it once, and later calls do nothing. The level functions
(`Debug`, `Info`, `Warn`, `Error`, `Fatal`) read their variadic arguments in one
of two ways. If there are arguments and the message contains a `%`, they are
printf substitutions. Otherwise they are alternating key/value fields. Caller
annotation can add a `caller` field holding `file:line`.

This project models that logic in Dafny:

- `levels.dfy` (module `Levels`): the `Levels` table, and the case-insensitive
  lookup that falls back to `info`.
- `config.dfy` (module `Config`): `Config`, the package's `defaultConfig`, the
  defaulting of a nil `Output` and an empty `TimeFormat`, and the settings one
  configuration commits.
- `callers.dfy` (module `Callers`): the text of the `caller` field
  (`%s:%d`), and the split that recovers file and line from it.
- `events.dfy` (module `Events`): events and logger handles as values. It also
  holds the argument interpreter `processArgs` (a method with a loop, proved
  against the recursive function `Pairs`), `addCallerInfo`,
  `addCallerToContext` and `FormatError`.
- `logger.dfy` (module `Logger`): the package-level state as the class
  `Logger.Logger`. Its fields are the one-shot gate, `defaultConfig`,
  `DefaultLogger`, zerolog's `log.Logger`, the global level and
  `TimeFieldFormat`. The class also holds the `init()` bootstrap,
  `InitLogger`, `GetLogger`, `WithField` and the level functions.

`wrappers.dfy` defines `Option`. It stands for Go's nil and for the `ok` results
of lookups.

External inputs are parameters:

- The call site that `runtime.Caller(2)` would report is `Option<CallSite>`.
- `fmt.Sprint` on an `interface{}` argument is the function parameter `sprint`.
- Argument values are of a type parameter `T`.

A printf-formatted message stays symbolic: `Formatted(template, args)`.

Three behaviours of `logger.go` that the model keeps as written:

- `FormatError` of a non-nil error returns that error's `%v` text, which may
  be empty (logger.go:193).
- Duplicate keys from the key/value arguments are each attached as their own
  field (logger.go:140-144).
- `init()` sets neither zerolog's global level nor `TimeFieldFormat`
  (logger.go:196-202). Before `InitLogger` runs, the model holds both as
  `None`, meaning the backend's own defaults apply.

## Model

| member | source | states |
|---|---|---|
| `Levels.TableIsNames` | logger.go:41-49 | the `Levels` table holds exactly the seven names, each mapped to its own level |
| `Levels.ToLower` | logger.go:71 | lower-casing keeps the length and lowers each character in place |
| `Levels.NameIsLowerCase` | logger.go:41-49 | every key of the table is already lower case |
| `Levels.LookupIgnoresCase` | logger.go:70-73 | a level name written in any letter case selects that level |
| `Levels.LookupFound` | logger.go:70-73 | a level other than `info` is selected only by its own name, up to case |
| `Levels.LookupSelects` | logger.go:70-73 | a name selects `l` if and only if it is `l`'s name up to case, or `l` is `info` and the name matches no level name in any case |
| `Levels.LookupEmpty` | logger.go:70-73 | the empty level name selects `info` |
| `Config.WithDefaults` | logger.go:59-64 | a nil output becomes stderr and an empty time format becomes RFC 3339; a given output, a non-empty time format, level, pretty and caller flag pass through unchanged |
| `Config.WithDefaultsIdempotent` | logger.go:22-28 | defaulting is idempotent, and `defaultConfig` is its own defaulted form |
| `Config.Configured` | logger.go:66-92 | the committed settings: looked-up level, non-empty defaulted time format, console sink exactly when pretty (with the same time format), defaulted output, caller flag as given |
| `Config.ConfiguredDeterminedByDefaults` | logger.go:58-92 | two configurations commit the same settings if and only if they agree on looked-up level, pretty, caller flag and defaulted output and time format |
| `Callers.Digits` | logger.go:117 | `%d` of a natural number is a non-empty string of decimal digits |
| `Callers.Decimal` | logger.go:117 | `%d` of a line number is non-empty and contains no colon |
| `Callers.DigitsRoundTrip` | logger.go:117 | reading the printed digits back gives the number |
| `Callers.DecimalRoundTrip` | logger.go:117 | reading the printed line number back, sign included, gives the line |
| `Callers.LastColon` | logger.go:117 | finds the last colon of a string, or reports that there is none |
| `Callers.LastColonOfSuffix` | logger.go:117 | a colon followed by colon-free text is the last colon |
| `Callers.CallerTextRoundTrip` | logger.go:117 | the `file:line` text determines file and line, even when the file name contains colons |
| `Events.PairsAt` | logger.go:140-144 | the key/value fields number `|args|/2`, in argument order, and field `k` is `(Sprint(args[2k]), args[2k+1])`, duplicates kept |
| `Events.PairsSnocPair` | logger.go:140-144 | one more complete pair appends exactly its field at the end |
| `Events.PairsDropsOddTail` | logger.go:141 | an unpaired trailing argument contributes no field |
| `Events.ProcessArgs` | logger.go:136-149 | finalises the event exactly once. With arguments and a `%` in the message it uses the printf path and attaches no field. Otherwise it attaches exactly `Pairs(args)` after the existing fields and emits the message verbatim; with no arguments that means no fields, even when the message contains `%` |
| `Events.CallerFields` | logger.go:113-119 | annotation adds at most one field, and adds one exactly when caller annotation is on and the call site resolved; that field is `caller`, and its text splits back into the call site |
| `Events.AddCallerInfo` | logger.go:112-121 | the event gains exactly the caller fields after its own; it is unchanged when annotation is off or the call site is unknown |
| `Events.AddCallerToContext` | logger.go:124-133 | the logger context gains exactly the caller fields; sink and timestamp are kept; it is unchanged when annotation is off or the call site is unknown |
| `Events.FormatError` | logger.go:189-194 | nil gives the empty string; a non-nil error gives its `%v` text |
| `Events.ErrFields` | logger.go:171 | `Err` attaches one field for a non-nil error and none for nil |
| `Events.ErrFieldMatchesFormatError` | logger.go:171 | the attached `error` field carries the same error value whose `%v` text `FormatError` returns (see Left out) |
| `Logger.Logger.constructor` | logger.go:196-202 | the bootstrap state: a timestamped JSON logger on stderr in both logger variables, `defaultConfig` as declared, caller annotation off, gate unused |
| `Logger.Logger.InitLogger` | logger.go:56-98 | the first call commits `Configured(cfg)` (level, time format, sink, caller flag) and a timestamped logger on that sink to both logger variables; any later call leaves every field unchanged; the invariant `Valid` is kept |
| `Logger.Logger.InitLoggerRepeatedly` | logger.go:51-57 | after any sequence of `InitLogger` calls starting from the bootstrap, the first configuration's settings are in force |
| `Logger.Logger.GetLogger` | logger.go:103-108 | the derived logger keeps the sink and timestamp and gains the caller fields and then `component`; the shared state is read, not changed |
| `Logger.Logger.WithField` | logger.go:182-186 | as `GetLogger`, with the given key and value instead of `component` |
| `Logger.Logger.Log` | logger.go:151-179 | an event opened at the given level on `DefaultLogger` carries the `error` field (if any), then the caller field (if any), then the key/value fields unless the printf path was taken, and it is finalised once |

## Left out

- Rendering by zerolog (JSON and `ConsoleWriter` output), the value of the
  timestamp field, and zerolog's global level gate are library behaviour. The
  model records only the settings chosen: the sink, the timestamp flag, the
  global level and the time format.
- The printf substitution of `Msgf` is not modelled. A formatted message is
  kept as its template and arguments.
- `fmt.Sprint` of `interface{}` keys is a parameter of the model, not an
  implementation.
- `runtime.Caller` stack walking is not modelled. The call site is an input.
  The model therefore does not show that two frames up is the caller of the
  level function.
- `sync.Once` makes concurrent first calls safe. The model is sequential: it
  has only the first-call-wins effect, through the `initialized` flag.
- `Fatal` exits the process after emitting. The exit is not modelled, and
  neither are writes to the `io.Writer`.
- zerolog's `Err` attaches nothing for a nil error. The model takes this from
  zerolog's documented behaviour, not from code in this repository.
- `Logger.Logger.Log` stands for all five level functions. `Debug`, `Info` and
  `Warn` are the calls with `err` = `None`.
- `Events.ErrFieldMatchesFormatError`: one `Error.text` stands for both the
  `%v` text `FormatError` prints and the text zerolog's `Err` renders through
  `ErrorMarshalFunc`. The two differ for an error with its own `Format`
  method, an `Error` method that panics (recovered by `fmt`), a typed-nil
  error (printed by `FormatError`, possibly omitted by `Err`) and a
  `LogObjectMarshaler` error (rendered as an object). Those cases are not
  modelled.
- `Levels.LookupSelects`: holds for the `Levels` table as declared.
  `Levels`, `DefaultLogger` and zerolog's `log.Logger` are exported
  variables, and writes to them by other packages are not modelled. The model
  treats the table as constant and keeps both logger variables equal.
- `Levels.ToLower`: lowers ASCII letters only. Go's `strings.ToLower` also
  applies Unicode case mappings (for example, the Kelvin sign becomes `k`).
  Those mappings are not modelled.
- The defaults of zerolog's global level and of `TimeFieldFormat` before
  `InitLogger` belong to zerolog and are not part of this model. The model
  holds them as `None`.
