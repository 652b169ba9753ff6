/** The logger object returned by the factory, and the chained builder
    returned by `build`. The printer is modelled as the trace of the
    arguments it has been called with; the clock and the stack are the
    inputs of each call. */
module Logging {
  import opened Values
  import opened Levels
  import opened Records
  import Caller

  /** Where the `caller` field comes from: the built-in stack walker, or a
      `callerFuncIdentifier` supplied in the options. */
  datatype CallerSource = StackWalker | Custom

  /** The options object; `None` is a property the caller left out. The
      printer and the clock are not options here (see CallSite). */
  datatype Options = Options(
    callerOffset: Option<nat>,
    stringifyOutput: Option<bool>,
    callerSource: Option<CallerSource>)

  const DefaultCallerOffset: nat := 4

  /** What the environment supplies to one logging call: the value the
      time generator returns, the lines of the stack trace, and the value a
      custom caller identifier returns when this call invokes it with the
      configured offset. Each call has its own, so two records of one
      logger may carry different callers. */
  datatype CallSite = CallSite(now: Value, stack: seq<string>, identified: Value)

  /** An error-like value passed to `withError`: its `toString()` text and
      its `stack` property. */
  datatype ErrorLike = ErrorLike(text: string, stack: Value)

  function CallerValue(c: Option<string>): Value
  {
    match c
    case Some(s) => Str(s)
    case None => Undef
  }

  /** The `caller` field of a record made at this call site: the stack
      walker gives the captured text, or `undefined` when its line is
      missing or does not match; a custom identifier gives whatever it
      returned at this call. */
  function ResolveCaller(source: CallerSource, offset: nat, site: CallSite): (r: Value)
    ensures source == StackWalker ==> r.Str? || r.Undef?
    ensures source == StackWalker ==> (r.Undef? <==> Caller.GetCaller(site.stack, offset).None?)
    ensures source == StackWalker && r.Str? ==> Caller.GetCaller(site.stack, offset) == Some(r.s)
    ensures source == StackWalker && offset >= |site.stack| ==> r == Undef
    ensures source == Custom ==> r == site.identified
  {
    match source
    case StackWalker => CallerValue(Caller.GetCaller(site.stack, offset))
    case Custom => site.identified
  }

  /** A plain object the program may hold a reference to, changed in place
      by property assignment. */
  class PlainObject {
    var entries: Fields

    ghost predicate Valid()
      reads this
    {
      DistinctKeys(entries) && NoIndexKeys(entries)
    }

    constructor(entries: Fields)
      requires DistinctKeys(entries) && NoIndexKeys(entries)
      ensures Valid() && this.entries == entries
    {
      this.entries := entries;
    }
  }

  class Logger {
    const serviceName: Value
    /** The configured level, normalised and validated. */
    const logLevel: string
    const callerOffset: nat
    const stringifyOutput: bool
    const callerSource: CallerSource
    /** Every argument the printer has been called with, oldest first. */
    var trace: seq<Output>

    ghost predicate Valid()
    {
      logLevel in LogLevels
    }

    constructor(serviceName: Value, logLevel: string, callerOffset: nat, stringifyOutput: bool, callerSource: CallerSource)
      requires logLevel in LogLevels
      ensures Valid() && trace == []
      ensures this.serviceName == serviceName && this.logLevel == logLevel
      ensures this.callerOffset == callerOffset && this.stringifyOutput == stringifyOutput
      ensures this.callerSource == callerSource
    {
      this.serviceName := serviceName;
      this.logLevel := logLevel;
      this.callerOffset := callerOffset;
      this.stringifyOutput := stringifyOutput;
      this.callerSource := callerSource;
      trace := [];
    }

    /** Whether a call at severity `s` reaches the printer: its severity is
        at least the configured one. */
    predicate Emits(s: Severity)
      requires Valid()
    {
      Rank(s) >= Rank(SeverityOf(logLevel))
    }

    /** The printer's argument for a call at severity `s`. */
    function Line(s: Severity, msg: Value, site: CallSite): Output
      requires PlainPayload(msg)
    {
      var record := MakeRecord(Name(s), serviceName, site.now,
                               ResolveCaller(callerSource, callerOffset, site), msg);
      if stringifyOutput then Stringified(record) else Raw(record)
    }

    /** `log`: build the record and call the printer once. */
    method Log(msg: Value, s: Severity, site: CallSite)
      requires PlainPayload(msg)
      modifies this`trace
      ensures trace == old(trace) + [Line(s, msg, site)]
    {
      trace := trace + [Line(s, msg, site)];
    }

    method Debug(msg: Value, site: CallSite)
      requires Valid() && PlainPayload(msg)
      modifies this`trace
      ensures trace == old(trace) + if Emits(Severity.Debug) then [Line(Severity.Debug, msg, site)] else []
    {
      if Admits(Severity.Debug, logLevel) {
        Log(msg, Severity.Debug, site);
      }
    }

    method Info(msg: Value, site: CallSite)
      requires Valid() && PlainPayload(msg)
      modifies this`trace
      ensures trace == old(trace) + if Emits(Severity.Info) then [Line(Severity.Info, msg, site)] else []
    {
      if Admits(Severity.Info, logLevel) {
        Log(msg, Severity.Info, site);
      }
    }

    method Warning(msg: Value, site: CallSite)
      requires Valid() && PlainPayload(msg)
      modifies this`trace
      ensures trace == old(trace) + if Emits(Severity.Warning) then [Line(Severity.Warning, msg, site)] else []
    {
      if Admits(Severity.Warning, logLevel) {
        Log(msg, Severity.Warning, site);
      }
    }

    /** `warn` is the same function as `warning`. */
    method Warn(msg: Value, site: CallSite)
      requires Valid() && PlainPayload(msg)
      modifies this`trace
      ensures trace == old(trace) + if Emits(Severity.Warning) then [Line(Severity.Warning, msg, site)] else []
    {
      Warning(msg, site);
    }

    method Error(msg: Value, site: CallSite)
      requires Valid() && PlainPayload(msg)
      modifies this`trace
      ensures trace == old(trace) + if Emits(Severity.Error) then [Line(Severity.Error, msg, site)] else []
    {
      if Admits(Severity.Error, logLevel) {
        Log(msg, Severity.Error, site);
      }
    }

    /** `build(state)`: a chained logger over the given object itself, or
        over a new empty object when none is given. */
    method Build(state: PlainObject?) returns (b: ChainedLogger)
      requires state != null ==> state.Valid()
      ensures fresh(b) && b.logger == this
      ensures state != null ==> b.state == state
      ensures state == null ==> fresh(b.state) && b.state.entries == []
      ensures Valid() ==> b.Valid()
    {
      var s := state;
      if s == null {
        s := new PlainObject([]);
      }
      b := new ChainedLogger(this, s);
    }
  }

  class ChainedLogger {
    const logger: Logger
    /** The accumulated fields, shared with whoever passed the object in. */
    const state: PlainObject

    ghost predicate Valid()
      reads state
    {
      logger.Valid() && state.Valid()
    }

    constructor(logger: Logger, state: PlainObject)
      ensures this.logger == logger && this.state == state
    {
      this.logger := logger;
      this.state := state;
    }

    /** `withField(k, v)`: `state[k] = v`, then the same chained logger. */
    method WithField(k: string, v: Value) returns (self: ChainedLogger)
      requires state.Valid() && !IsArrayIndex(k) && k != "__proto__"
      modifies state
      ensures self == this && state.Valid()
      ensures state.entries == Assign(old(state.entries), k, v)
    {
      AssignNoIndexKeys(state.entries, k, v);
      AssignSpec(state.entries, k, v);
      state.entries := Assign(state.entries, k, v);
      self := this;
    }

    /** `withError(err)`: the error's text under `error`, then its stack
        under `stack`. */
    method WithError(err: ErrorLike) returns (self: ChainedLogger)
      requires state.Valid()
      modifies state
      ensures self == this && state.Valid()
      ensures state.entries == Assign(Assign(old(state.entries), "error", Str(err.text)), "stack", err.stack)
    {
      assert !IsArrayIndex("error") && !IsArrayIndex("stack");
      var _ := WithField("error", Str(err.text));
      var _ := WithField("stack", err.stack);
      self := this;
    }

    /** The terminal calls: `{...state, msg}` through the plain method of
        the same name. The state is left as it was. */
    method Debug(msg: Value, site: CallSite)
      requires Valid()
      modifies logger`trace
      ensures unchanged(state)
      ensures logger.trace == old(logger.trace) +
        if logger.Emits(Severity.Debug) then [logger.Line(Severity.Debug, ChainedPayload(state.entries, msg), site)] else []
    {
      ChainedPayloadKeys(state.entries, msg);
      logger.Debug(ChainedPayload(state.entries, msg), site);
    }

    method Info(msg: Value, site: CallSite)
      requires Valid()
      modifies logger`trace
      ensures unchanged(state)
      ensures logger.trace == old(logger.trace) +
        if logger.Emits(Severity.Info) then [logger.Line(Severity.Info, ChainedPayload(state.entries, msg), site)] else []
    {
      ChainedPayloadKeys(state.entries, msg);
      logger.Info(ChainedPayload(state.entries, msg), site);
    }

    method Warning(msg: Value, site: CallSite)
      requires Valid()
      modifies logger`trace
      ensures unchanged(state)
      ensures logger.trace == old(logger.trace) +
        if logger.Emits(Severity.Warning) then [logger.Line(Severity.Warning, ChainedPayload(state.entries, msg), site)] else []
    {
      ChainedPayloadKeys(state.entries, msg);
      logger.Warning(ChainedPayload(state.entries, msg), site);
    }

    method Error(msg: Value, site: CallSite)
      requires Valid()
      modifies logger`trace
      ensures unchanged(state)
      ensures logger.trace == old(logger.trace) +
        if logger.Emits(Severity.Error) then [logger.Line(Severity.Error, ChainedPayload(state.entries, msg), site)] else []
    {
      ChainedPayloadKeys(state.entries, msg);
      logger.Error(ChainedPayload(state.entries, msg), site);
    }
  }

  /** Every emitted record carries the caller resolved at its own call,
      unless an object payload sets `caller` itself. */
  lemma RecordCaller(l: Logger, s: Severity, msg: Value, site: CallSite)
    requires PlainPayload(msg) && !(msg.Obj? && "caller" in Keys(msg.fields))
    ensures Lookup(l.Line(s, msg, site).record, "caller") == Some(ResolveCaller(l.callerSource, l.callerOffset, site))
  {
    var caller := ResolveCaller(l.callerSource, l.callerOffset, site);
    var base := Base(Name(s), l.serviceName, site.now, caller);
    assert Find(base, "caller") == Some(3);
    match msg
    case Str(_) =>
      assert Find(base + [("msg", msg)], "caller") == Some(3);
    case Obj(fs) =>
      FieldsRecordLookup(Name(s), l.serviceName, site.now, caller, fs, "caller");
    case _ =>
  }

  /** The exported factory: validate the level, merge the options over the
      defaults, and return the logger; or the message of the error thrown. */
  method CreateLogger(serviceName: Value, logLevel: Value, opts: Options) returns (r: Result<Logger, string>)
    ensures r.Err? <==> NormalizeLevel(logLevel) !in LogLevels
    ensures r.Err? ==> r.error == "Invalid log level '" + NormalizeLevel(logLevel) + "'"
    ensures r.Ok? ==> fresh(r.value) && r.value.Valid() && r.value.trace == []
    ensures r.Ok? ==> r.value.logLevel == NormalizeLevel(logLevel) && r.value.serviceName == serviceName
    ensures r.Ok? ==> r.value.callerOffset == (match opts.callerOffset case Some(n) => n case None => DefaultCallerOffset)
    ensures r.Ok? ==> r.value.stringifyOutput == (match opts.stringifyOutput case Some(b) => b case None => true)
    ensures r.Ok? ==> r.value.callerSource == (match opts.callerSource case Some(c) => c case None => StackWalker)
  {
    match CheckLevel(logLevel)
    case Err(message) =>
      r := Err(message);
    case Ok(level) =>
      var offset := match opts.callerOffset case Some(n) => n case None => DefaultCallerOffset;
      var stringify := match opts.stringifyOutput case Some(b) => b case None => true;
      var source := match opts.callerSource case Some(c) => c case None => StackWalker;
      var logger := new Logger(serviceName, level, offset, stringify, source);
      r := Ok(logger);
  }
}
