/**
 * The static `Console` facade (Console.cs) that plugins call instead of
 * `System.Console`. It keeps no state: every call hands one or more finished
 * strings to `ConsoleLogger.WriteLine`, so each call is modelled by the sequence
 * of strings it hands over. The calls that reach the logger's state
 * (`IsConnected`, `Reconnect`, `Shutdown`) are methods on a `ConsoleLogger`.
 */
module Facade {
  import opened Wrappers
  import opened Text
  import opened LoggerState
  import Logger

  /** An `object` argument: a null reference, or an instance whose `ToString()` may itself return null. */
  datatype Obj = NullRef | Instance(toString: Option<string>)

  /**
   * The argument of a `WriteLine`/`Write` overload. The text that `ToString()`
   * produces for an `int`, a `decimal` or a `DateTime` depends on the culture and
   * is taken as given.
   */
  datatype Value =
    | Str(s: string)
    | Object(o: Obj)
    | Int32(shownInt: string)
    | Bool(b: bool)
    | Decimal(shownDecimal: string)
    | DateTime(shownDateTime: string)

  /** An exception as the facade sees it: type name, message, optional stack trace and inner exception. */
  datatype ExceptionInfo = ExceptionInfo(typeName: string, message: string, stackTrace: Option<string>,
                                         inner: Option<ExceptionInfo>)

  /** The string an overload hands to the logger for its argument. */
  function Shown(v: Value): (t: string)
    ensures v.Str? ==> t == v.s
    ensures v.Object? ==> (t == "null" <==> v.o.NullRef? || v.o.toString == None || v.o.toString == Some("null"))
    ensures v.Object? && v.o.Instance? && v.o.toString.Some? ==> t == v.o.toString.value
    ensures v.Bool? ==> (t == "True" <==> v.b) && (t == "False" <==> !v.b)
  {
    match v
    case Str(s) => s
    case Object(o) => if o.Instance? && o.toString.Some? then o.toString.value else "null"
    case Int32(t) => t
    case Bool(b) => if b then "True" else "False"
    case Decimal(t) => t
    case DateTime(t) => t
  }

  /** `WriteLine(value)` for every non-format overload: exactly one logger call. */
  function WriteLine(v: Value): (lines: seq<string>)
    ensures |lines| == 1 && lines[0] == Shown(v)
  {
    [Shown(v)]
  }

  /** `WriteLine()`: the empty line. */
  function WriteLineEmpty(): (lines: seq<string>)
    ensures lines == WriteLine(Str(""))
    ensures |lines| == 1 && |lines[0]| == 0
  {
    [""]
  }

  /** `Write(value)`: the logger only writes whole lines, so `Write` sends what `WriteLine` sends. */
  function Write(v: Value): (lines: seq<string>)
    ensures lines == WriteLine(v)
  {
    [Shown(v)]
  }

  /**
   * `WriteLine(format, args)`; `formatted` is the outcome of `string.Format`.
   * A template error propagates and nothing is sent.
   */
  function WriteLineFormat(formatted: Result<string, string>): (r: Result<seq<string>, string>)
    ensures r.Failure? <==> formatted.Failure?
    ensures formatted.Failure? ==> r.error == formatted.error
    ensures formatted.Success? ==> r.value == WriteLine(Str(formatted.value))
  {
    match formatted
    case Failure(e) => Failure(e)
    case Success(t) => Success([t])
  }

  /** `Write(format, args)`: the same as `WriteLine(format, args)`. */
  function WriteFormat(formatted: Result<string, string>): (r: Result<seq<string>, string>)
    ensures r == WriteLineFormat(formatted)
  {
    match formatted
    case Failure(e) => Failure(e)
    case Success(t) => Success([t])
  }

  /** `WriteLog(level, message)`: one line, the upper-cased level in brackets, a space, the message verbatim. */
  function WriteLog(level: string, message: string): (lines: seq<string>)
    ensures |lines| == 1
    ensures |lines[0]| == |level| + 3 + |message|
    ensures lines[0][0] == '[' && lines[0][1..|level| + 1] == ToUpper(level)
    ensures lines[0][|level| + 1..|level| + 3] == "] "
    ensures lines[0][|level| + 3..] == message
  {
    ["[" + ToUpper(level) + "] " + message]
  }

  /** `WriteLog(level, format, args)`. */
  function WriteLogFormat(level: string, formatted: Result<string, string>): (r: Result<seq<string>, string>)
    ensures r.Failure? <==> formatted.Failure?
    ensures formatted.Failure? ==> r.error == formatted.error
    ensures formatted.Success? ==> r.value == WriteLog(level, formatted.value)
  {
    match formatted
    case Failure(e) => Failure(e)
    case Success(t) => Success(WriteLog(level, t))
  }

  /** `WriteInfo(message)`. */
  function WriteInfo(message: string): (lines: seq<string>)
    ensures lines == ["[INFO] " + message]
  {
    FixedLevel("INFO", message, "[INFO] ");
    WriteLog("INFO", message)
  }

  /** `WriteInfo(format, args)`. */
  function WriteInfoFormat(formatted: Result<string, string>): (r: Result<seq<string>, string>)
    ensures r.Failure? <==> formatted.Failure?
    ensures formatted.Success? ==> r.value == ["[INFO] " + formatted.value]
  {
    if formatted.Success? then FixedLevel("INFO", formatted.value, "[INFO] "); WriteLogFormat("INFO", formatted)
    else WriteLogFormat("INFO", formatted)
  }

  /** `WriteWarn(message)`. */
  function WriteWarn(message: string): (lines: seq<string>)
    ensures lines == ["[WARN] " + message]
  {
    FixedLevel("WARN", message, "[WARN] ");
    WriteLog("WARN", message)
  }

  /** `WriteWarn(format, args)`. */
  function WriteWarnFormat(formatted: Result<string, string>): (r: Result<seq<string>, string>)
    ensures r.Failure? <==> formatted.Failure?
    ensures formatted.Success? ==> r.value == ["[WARN] " + formatted.value]
  {
    if formatted.Success? then FixedLevel("WARN", formatted.value, "[WARN] "); WriteLogFormat("WARN", formatted)
    else WriteLogFormat("WARN", formatted)
  }

  /** `WriteError(message)`. */
  function WriteError(message: string): (lines: seq<string>)
    ensures lines == ["[ERROR] " + message]
  {
    FixedLevel("ERROR", message, "[ERROR] ");
    WriteLog("ERROR", message)
  }

  /** `WriteError(format, args)`. */
  function WriteErrorFormat(formatted: Result<string, string>): (r: Result<seq<string>, string>)
    ensures r.Failure? <==> formatted.Failure?
    ensures formatted.Success? ==> r.value == ["[ERROR] " + formatted.value]
  {
    if formatted.Success? then FixedLevel("ERROR", formatted.value, "[ERROR] "); WriteLogFormat("ERROR", formatted)
    else WriteLogFormat("ERROR", formatted)
  }

  /** `string.IsNullOrEmpty`, with null as `None`. */
  predicate IsNullOrEmpty(t: Option<string>) {
    t.None? || |t.value| == 0
  }

  /** `WriteException(ex)`: the headline, then the stack trace if there is one, then the immediate inner exception. */
  function WriteException(ex: ExceptionInfo): (lines: seq<string>)
    ensures 1 <= |lines| <= 3
    ensures |lines| == 1 + (if IsNullOrEmpty(ex.stackTrace) then 0 else 1) + (if ex.inner.Some? then 1 else 0)
    ensures lines[0] == "[ERROR] Exception: " + ex.typeName + ": " + ex.message
    ensures !IsNullOrEmpty(ex.stackTrace) ==> lines[1] == "Stack trace: " + ex.stackTrace.value
    ensures ex.inner.Some? ==>
              lines[|lines| - 1] == "Inner exception: " + ex.inner.value.typeName + ": " + ex.inner.value.message
  {
    var head := WriteError("Exception: " + ex.typeName + ": " + ex.message);
    assert head[0] == "[ERROR] Exception: " + ex.typeName + ": " + ex.message by {
      assert "[ERROR] " + "Exception: " == "[ERROR] Exception: ";
    }
    head + StackTraceLines(ex.stackTrace) + InnerExceptionLines(ex.inner)
  }

  /** The stack-trace part of `WriteException`: a line only when the trace is neither null nor empty. */
  function StackTraceLines(stackTrace: Option<string>): (lines: seq<string>)
    ensures |lines| == if IsNullOrEmpty(stackTrace) then 0 else 1
    ensures |lines| == 1 ==> lines[0] == "Stack trace: " + stackTrace.value
  {
    if !IsNullOrEmpty(stackTrace) then WriteLine(Str("Stack trace: " + stackTrace.value)) else []
  }

  /** The inner-exception part of `WriteException`: one line for the immediate inner exception only. */
  function InnerExceptionLines(inner: Option<ExceptionInfo>): (lines: seq<string>)
    ensures |lines| == if inner.Some? then 1 else 0
    ensures |lines| == 1 ==> lines[0] == "Inner exception: " + inner.value.typeName + ": " + inner.value.message
  {
    match inner
    case Some(e) => WriteLine(Str("Inner exception: " + e.typeName + ": " + e.message))
    case None => []
  }

  /** A level with no lower-case ASCII letter is sent as written. */
  lemma UpperFixed(level: string)
    requires forall i :: 0 <= i < |level| ==> !('a' <= level[i] <= 'z')
    ensures ToUpper(level) == level
  {
  }

  /** A level already in upper case is sent between brackets as written. */
  lemma FixedLevel(level: string, message: string, bracketed: string)
    requires forall i :: 0 <= i < |level| ==> !('a' <= level[i] <= 'z')
    requires bracketed == "[" + level + "] "
    ensures WriteLog(level, message) == [bracketed + message]
  {
    UpperFixed(level);
  }

  /** The level is case-insensitive: `WriteLog("info", m)` sends what `WriteInfo(m)` sends. */
  lemma WriteLogLevelCase(level: string, message: string)
    ensures WriteLog(level, message) == WriteLog(ToUpper(level), message)
  {
    ToUpperIdempotent(level);
  }

  /** The convenience levels are `WriteLog` with the upper-case level, in any spelling of it. */
  lemma ConvenienceLevels(message: string)
    ensures WriteLog("info", message) == WriteInfo(message)
    ensures WriteLog("Warn", message) == WriteWarn(message)
    ensures WriteLog("error", message) == WriteError(message)
  {
    UpperSpelling("info", "INFO");
    UpperSpelling("Warn", "WARN");
    UpperSpelling("error", "ERROR");
    WriteLogLevelCase("info", message);
    WriteLogLevelCase("Warn", message);
    WriteLogLevelCase("error", message);
  }

  /** `ToUpper(level)` is `upper` when the two agree letter by letter. */
  lemma UpperSpelling(level: string, upper: string)
    requires |level| == |upper|
    requires forall i :: 0 <= i < |level| ==> UpperChar(level[i]) == upper[i]
    ensures ToUpper(level) == upper
  {
  }

  /** A null object, and an object whose `ToString()` returns null, both print as `"null"`. */
  lemma NullObjectsPrintNull(o: Obj)
    requires o.NullRef? || o.toString.None?
    ensures WriteLine(Object(o)) == ["null"] && Write(Object(o)) == ["null"]
  {
  }

  /** `IsConnected` passes straight through to the logger. */
  method IsConnected(logger: Logger.ConsoleLogger) returns (connected: bool)
    ensures connected == logger.connected
  {
    connected := logger.IsConnected();
  }

  /** `Reconnect` passes straight through to the logger. */
  method Reconnect(logger: Logger.ConsoleLogger, c: ConnectOutcome)
    requires logger.Valid()
    modifies logger
    ensures logger.Snapshot() == LoggerState.Reconnect(old(logger.Snapshot()), c)
    ensures logger.Valid()
  {
    logger.Reconnect(c);
  }

  /** `Shutdown` passes straight through to the logger. */
  method Shutdown(logger: Logger.ConsoleLogger)
    requires logger.Valid()
    modifies logger
    ensures logger.Snapshot() == LoggerState.Shutdown(old(logger.Snapshot()))
    ensures logger.Valid()
  {
    logger.Shutdown();
  }
}
