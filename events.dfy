/**
 * Log events and logger handles as the package sees them, and the three
 * pieces of logic that build events: the argument interpreter
 * (`processArgs`), caller annotation (`addCallerInfo`,
 * `addCallerToContext`) and `FormatError`.
 *
 * Argument values are of the type parameter `T` (Go's `interface{}`);
 * `fmt.Sprint` on them is the function parameter `sprint`.
 */
module Events {
  import opened Wrappers
  import opened Levels
  import opened Config
  import opened Callers

  /** A Go `error` value that is not nil, with its `%v` text. */
  datatype Error = Error(text: string)

  /** A field value: a string (`Str`), an arbitrary value (`Interface`) or an error (`Err`). */
  datatype Value<T> = Text(s: string) | Any(v: T) | ErrValue(e: Error)

  datatype Field<T> = Field(key: string, value: Value<T>)

  /** How an event was finalised: `Msg(msg)`, or `Msgf(msg, args...)` with the substitution left symbolic. */
  datatype Message<T> = Verbatim(text: string) | Formatted(template: string, args: seq<T>)

  /** A `zerolog.Logger`: its sink, whether it stamps events with the time, and its context fields. */
  datatype Handle<T> = Handle(sink: Sink, timestamp: bool, context: seq<Field<T>>)

  /**
   * A `*zerolog.Event` opened at `level` on `handle`: the fields attached
   * so far and, once finalised, its message. A finalised event goes back to
   * zerolog's pool and must not be finalised again.
   */
  datatype Event<T> = Event(level: Level, handle: Handle<T>, fields: seq<Field<T>>, message: Option<Message<T>>)
  {
    predicate Finalized() { message.Some? }

    /** `Err(err)`: attaches an `error` field unless `err` is nil. */
    function Err(err: Option<Error>): Event<T> { this.(fields := fields + ErrFields(err)) }

    function Interface(key: string, v: T): Event<T> { this.(fields := fields + [Field(key, Any(v))]) }

    function Msg(text: string): Event<T>
      requires !Finalized()
    {
      this.(message := Some(Verbatim(text)))
    }

    function Msgf(template: string, args: seq<T>): Event<T>
      requires !Finalized()
    {
      this.(message := Some(Formatted(template, args)))
    }
  }

  /** `logger.Debug()`, `logger.Info()`, ...: a fresh event with no fields of its own. */
  function Open<T>(h: Handle<T>, level: Level): Event<T>
  {
    Event(level, h, [], None)
  }

  // ---------------------------------------------------------------------
  // Argument interpreter

  /** The key/value fields alternating arguments denote: `(Sprint(args[2k]), args[2k+1])`. */
  function Pairs<T>(args: seq<T>, sprint: T -> string): seq<Field<T>>
  {
    if |args| < 2 then [] else [Field(sprint(args[0]), Any(args[1]))] + Pairs(args[2..], sprint)
  }

  /**
   * One field per complete pair, in argument order, duplicate keys kept:
   * field `k` is built from arguments `2k` and `2k+1`.
   */
  lemma {:induction false} PairsAt<T>(args: seq<T>, sprint: T -> string)
    ensures |Pairs(args, sprint)| == |args| / 2
    ensures forall k :: 0 <= k < |args| / 2 ==>
      Pairs(args, sprint)[k] == Field(sprint(args[2 * k]), Any(args[2 * k + 1]))
  {
    if |args| >= 2 {
      PairsAt(args[2..], sprint);
      forall k | 1 <= k < |args| / 2
        ensures Pairs(args, sprint)[k] == Field(sprint(args[2 * k]), Any(args[2 * k + 1]))
      {
        assert Pairs(args, sprint)[k] == Pairs(args[2..], sprint)[k - 1];
        assert args[2..][2 * (k - 1)] == args[2 * k];
      }
    }
  }

  /** Appending one complete pair after an even number of arguments appends its field. */
  lemma {:induction false} PairsSnocPair<T>(args: seq<T>, key: T, v: T, sprint: T -> string)
    requires |args| % 2 == 0
    ensures Pairs(args + [key, v], sprint) == Pairs(args, sprint) + [Field(sprint(key), Any(v))]
    decreases |args|
  {
    if |args| == 0 {
      assert args + [key, v] == [key, v];
    } else {
      assert (args + [key, v])[2..] == args[2..] + [key, v];
      PairsSnocPair(args[2..], key, v, sprint);
    }
  }

  /** An unpaired trailing argument contributes no field. */
  lemma {:induction false} PairsDropsOddTail<T>(args: seq<T>, last: T, sprint: T -> string)
    requires |args| % 2 == 0
    ensures Pairs(args + [last], sprint) == Pairs(args, sprint)
    decreases |args|
  {
    if |args| > 0 {
      assert (args + [last])[2..] == args[2..] + [last];
      PairsDropsOddTail(args[2..], last, sprint);
    }
  }

  /** Whether `processArgs` takes the printf path: arguments given and a `%` anywhere in the message. */
  predicate UsesFormat<T>(msg: string, args: seq<T>)
  {
    |args| > 0 && '%' in msg
  }

  /**
   * `processArgs`: finalises the event exactly once. With arguments and a
   * `%` in the message it formats and attaches nothing; otherwise it
   * attaches the key/value pairs (none when there are no arguments) and
   * emits the message verbatim.
   */
  method ProcessArgs<T>(evt: Event<T>, msg: string, args: seq<T>, sprint: T -> string) returns (done: Event<T>)
    requires !evt.Finalized()
    ensures done.Finalized() && done.level == evt.level && done.handle == evt.handle
    ensures UsesFormat(msg, args) ==>
      done.fields == evt.fields && done.message == Some(Formatted(msg, args))
    ensures !UsesFormat(msg, args) ==>
      done.fields == evt.fields + Pairs(args, sprint) && done.message == Some(Verbatim(msg))
  {
    if |args| > 0 && '%' in msg {
      done := evt.Msgf(msg, args);
    } else if |args| > 0 {
      var e := evt;
      var i := 0;
      while i < |args|
        invariant 0 <= i <= |args| + 1 && i % 2 == 0
        invariant i <= |args| ==> e == evt.(fields := evt.fields + Pairs(args[..i], sprint))
        invariant i > |args| ==> e == evt.(fields := evt.fields + Pairs(args, sprint))
      {
        if i + 1 < |args| {
          assert args[..i + 2] == args[..i] + [args[i], args[i + 1]];
          PairsSnocPair(args[..i], args[i], args[i + 1], sprint);
          e := e.Interface(sprint(args[i]), args[i + 1]);
        } else {
          assert args == args[..i] + [args[i]];
          PairsDropsOddTail(args[..i], args[i], sprint);
        }
        i := i + 2;
      }
      if i == |args| {
        assert args[..i] == args;
      }
      done := e.Msg(msg);
    } else {
      done := evt.Msg(msg);
    }
  }

  // ---------------------------------------------------------------------
  // Caller annotation

  /** The `caller` field for a resolved call site. */
  function CallerField<T>(site: CallSite): Field<T>
  {
    Field("caller", Text(CallerText(site)))
  }

  /** The fields caller annotation adds: one when enabled and the call site resolved, none otherwise. */
  function CallerFields<T>(withCaller: bool, site: Option<CallSite>): (r: seq<Field<T>>)
    ensures |r| <= 1
    ensures |r| == 1 <==> withCaller && site.Some?
    ensures |r| == 1 ==>
      r[0].key == "caller" && r[0].value.Text? && SplitCaller(r[0].value.s) == site
  {
    if withCaller && site.Some? then
      CallerTextRoundTrip(site.value);
      [CallerField(site.value)]
    else []
  }

  /** `addCallerInfo`: the event, with a `caller` field added when enabled and resolved. */
  function AddCallerInfo<T>(evt: Event<T>, withCaller: bool, site: Option<CallSite>): (r: Event<T>)
    ensures r.level == evt.level && r.handle == evt.handle && r.message == evt.message
    ensures r.fields == evt.fields + CallerFields(withCaller, site)
    ensures !withCaller || site.None? ==> r == evt
  {
    if withCaller && site.Some? then evt.(fields := evt.fields + [CallerField(site.value)]) else evt
  }

  /** `addCallerToContext`: the logger context, with a `caller` field added when enabled and resolved. */
  function AddCallerToContext<T>(h: Handle<T>, withCaller: bool, site: Option<CallSite>): (r: Handle<T>)
    ensures r.sink == h.sink && r.timestamp == h.timestamp
    ensures r.context == h.context + CallerFields(withCaller, site)
    ensures !withCaller || site.None? ==> r == h
  {
    if withCaller && site.Some? then h.(context := h.context + [CallerField(site.value)]) else h
  }

  // ---------------------------------------------------------------------
  // Errors

  /** `FormatError`: the empty string for nil, the error's own text otherwise. */
  function FormatError(err: Option<Error>): (r: string)
    ensures err.None? ==> r == ""
    ensures err.Some? ==> r == err.value.text
  {
    match err
    case None => ""
    case Some(e) => e.text
  }

  /** The fields `Event.Err(err)` attaches: none for nil, an `error` field otherwise. */
  function ErrFields<T>(err: Option<Error>): (r: seq<Field<T>>)
    ensures |r| == if err.Some? then 1 else 0
  {
    match err
    case None => []
    case Some(e) => [Field("error", ErrValue(e))]
  }

  /** The `error` field of an event carries the same error value whose text `FormatError` gives. */
  lemma ErrFieldMatchesFormatError<T>(err: Option<Error>)
    requires err.Some?
    ensures ErrFields<T>(err)[0].key == "error"
    ensures ErrFields<T>(err)[0].value.ErrValue? && ErrFields<T>(err)[0].value.e.text == FormatError(err)
  {
  }
}
