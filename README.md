# Resto.Front.Api.Console in Dafny

A plugin for the iiko Resto Front host cannot own a console window. Resto.Front.Api.Console gives it one:

- **The producer.** A library inside the plugin (`ConsoleLogger`) connects at start-up to a named pipe and sends each log line over it. It also intercepts the plugin's own `Console.WriteLine` calls.
- **The viewer.** A separate program listens on the pipe and prints every line it receives, with a timestamp and a colour that depends on the markers in the line.
- **The facade.** A static `Console` class is what plugins call instead of `System.Console`.

This project models all three and proves properties of them.

| file | module | models |
|---|---|---|
| `logger_state.dfy` | `LoggerState` | The producer's state as a value, with one function per operation of `ConsoleLogger`. |
| `logger.dfy` | `Logger` | `ConsoleLogger` as a class whose fields the methods update in place. Each method is proved to produce exactly the state that the matching `LoggerState` function computes. The public methods keep the invariant `Valid()`. `WriteLine` uses the corrected failure order of the Findings: the flag is cleared before the warning is printed. The order as written is `WriteFault.WriteLineAsWritten`. |
| `logger_laws.dfy` | `LoggerLaws` | The properties of the producer, stated over `LoggerState`. |
| `write_fault.dfy` | `WriteFault` | `ConsoleLogger.WriteLine` with its failure handling in the order the source writes it (see Findings). |
| `viewer.dfy` | `Viewer` | The viewer (`Program.cs`): the line classifier, the session read loop and the accept loop. The loops are methods proved against specification functions. |
| `wire.dfy` | `Wire` | The text framing on the pipe. `StreamWriter.WriteLine` ends lines with CR LF; `StreamReader.ReadLine` splits at CR, LF or CR LF. |
| `facade.dfy` | `Facade` | The static `Console` facade (`Console.cs`). Each call is modelled by the strings it hands to `ConsoleLogger.WriteLine`. |
| `text.dfy` | `Text` | The ordinal `string.Contains` and an ASCII `ToUpper`. |
| `bridge.dfy` | `EndToEnd` | Properties that cross files, from a facade call in the plugin to the colour of its line on the viewer. |

## How the environment is represented

- **Outcomes are inputs.** The pipe, the file system and process start are not modelled. Their outcomes are parameters:
  - a connect attempt (`Connected`, `TimedOut`, `ConnectFailed(message)`);
  - each write (`Written`, `IoFailure`, `WriteFailed(message)`);
  - a start attempt (`Started`, `StartFailed(message)`);
  - the set of paths that exist.
- **`Console.Out` is a chain.** The producer's `Console.Out` is a `Sink`: the terminal, or a `ConsoleRedirectWriter` wrapping another sink.
  - A console line written to a chain sends the line to the logger once per redirect layer.
  - Each such logger write takes the next write outcome from a list; missing outcomes mean `Written`.
- **Times are inputs to the viewer.** The viewer's inputs are its read events and accept-loop iterations. Each event carries the timestamp the source reads from the clock.
- **The console colour is threaded through.** The viewer's foreground colour is passed explicitly from call to call.

## What `Shutdown` does not undo

- **Kept state.** `Shutdown` clears both flags. It keeps the saved original writer, the redirect writer and the disposed handles.
- **The interceptor.** `Shutdown` only reinstalls the saved writer. After a reconnect that followed a failed write, the saved writer is itself a redirect, so one redirect stays installed (`LoggerLaws.QuirkScenario`).

## Model

| member | source | states |
|---|---|---|
| `LoggerState.WriteLine` | Resto.Front.Api.Console/ConsoleLogger.cs:159-180 | One write of a message to the pipe. It touches only the flags, the pipe and the terminal, and leaves `initialized` alone. Failure order: the corrected one (see Findings). |
| `LoggerState.SinkWriteLine` | Resto.Front.Api.Console/ConsoleLogger.cs:265-273 | `ConsoleRedirectWriter.WriteLine`: the line goes to the logger and then to the wrapped writer. Only outputs and flags change. |
| `LoggerState.SinkWrite` | Resto.Front.Api.Console/ConsoleLogger.cs:275-286 | `Write(string)` and `Write(char)` pass only to the wrapped writer. |
| `LoggerState.ConnectToPipe` | Resto.Front.Api.Console/ConsoleLogger.cs:91-125 | One connect attempt, with the three outcomes handled as in the source. |
| `LoggerState.RedirectConsoleOutput` | Resto.Front.Api.Console/ConsoleLogger.cs:127-139 | Saves `Console.Out` and installs a redirect wrapping it. |
| `LoggerState.RestoreConsoleOutput` | Resto.Front.Api.Console/ConsoleLogger.cs:141-154 | Reinstalls the saved writer, if there is one. |
| `LoggerState.Shutdown` | Resto.Front.Api.Console/ConsoleLogger.cs:221-246 | Restores the writer, disposes the handles and clears both flags. Does nothing when uninitialised. |
| `LoggerState.Reconnect` | Resto.Front.Api.Console/ConsoleLogger.cs:204-216 | Shuts down only when connected, clears `initialized`, connects again. |
| `LoggerState.FirstExisting` | Resto.Front.Api.Console/ConsoleLogger.cs:40-61 | The chosen path exists and is a candidate. It is missing exactly when no candidate exists. |
| `LoggerState.StartConsoleApplication` | Resto.Front.Api.Console/ConsoleLogger.cs:67-89 | Records the launch and writes the info or warning console line. |
| `LoggerState.Initialize` | Resto.Front.Api.Console/ConsoleLogger.cs:32-65 | Launches the first existing candidate, if any, then always attempts to connect. |
| `Logger.ConsoleLogger.constructor` | Resto.Front.Api.Console/ConsoleLogger.cs:27-30 | The static constructor. It yields `LoggerState.Initialize` of the empty state, and the invariant holds. |
| `Logger.ConsoleLogger.Initialize` | Resto.Front.Api.Console/ConsoleLogger.cs:32-65 | The `foreach` with `break` over the alternatives. The new state is `LoggerState.Initialize` of the old one, and the invariant is kept. |
| `Logger.ConsoleLogger.StartConsoleApplication` | Resto.Front.Api.Console/ConsoleLogger.cs:67-89 | The new state is `LoggerState.StartConsoleApplication` of the old state. |
| `Logger.ConsoleLogger.ConnectToPipe` | Resto.Front.Api.Console/ConsoleLogger.cs:91-125 | The new state is `LoggerState.ConnectToPipe` of the old state. |
| `Logger.ConsoleLogger.RedirectConsoleOutput` | Resto.Front.Api.Console/ConsoleLogger.cs:127-139 | The new state is `LoggerState.RedirectConsoleOutput` of the old state. |
| `Logger.ConsoleLogger.RestoreConsoleOutput` | Resto.Front.Api.Console/ConsoleLogger.cs:141-154 | The new state is `LoggerState.RestoreConsoleOutput` of the old state. |
| `Logger.ConsoleLogger.WriteLine` | Resto.Front.Api.Console/ConsoleLogger.cs:159-180 | The new state is `LoggerState.WriteLine` of the old state and the outcome. This is the corrected write of the Findings: on a non-I/O failure the flag is cleared before the warning is printed. The source's order is `WriteFault.WriteLineAsWritten`. |
| `Logger.ConsoleLogger.WriteLineFormat` | Resto.Front.Api.Console/ConsoleLogger.cs:187-190 | A template error propagates to the caller and changes nothing. Otherwise the formatted text is written. |
| `Logger.ConsoleLogger.Reconnect` | Resto.Front.Api.Console/ConsoleLogger.cs:204-216 | The new state is `LoggerState.Reconnect` of the old state, and the invariant is kept. |
| `Logger.ConsoleLogger.Shutdown` | Resto.Front.Api.Console/ConsoleLogger.cs:221-246 | The new state is `LoggerState.Shutdown` of the old state, and the invariant is kept. |
| `Logger.ConsoleLogger.ConsoleWriteLine` | Resto.Front.Api.Console/ConsoleLogger.cs:265-273 | A console line written through the current `Console.Out` chain. |
| `Logger.ConsoleLogger.ConsoleWrite` | Resto.Front.Api.Console/ConsoleLogger.cs:275-280 | `Console.Write(string)` through the chain. |
| `Logger.ConsoleLogger.ConsoleWriteChar` | Resto.Front.Api.Console/ConsoleLogger.cs:282-286 | `Console.Write(char)` through the chain. |
| `Logger.ConsoleLogger.WriteLineTo` | Resto.Front.Api.Console/ConsoleLogger.cs:265-273 | The recursive walk down the writer chain. It matches `LoggerState.SinkWriteLine`. |
| `Logger.ConsoleLogger.WriteTo` | Resto.Front.Api.Console/ConsoleLogger.cs:275-286 | The same walk for `Write`. It matches `LoggerState.SinkWrite`. |
| `LoggerLaws.SinkWriteLineDisconnected` | Resto.Front.Api.Console/ConsoleLogger.cs:161-162 | While disconnected, a console line reaches only the terminal, whatever the chain. |
| `LoggerLaws.SinkWriteLineAllWritten` | Resto.Front.Api.Console/ConsoleLogger.cs:265-273 | Connected with writes succeeding: the pipe receives the line once per redirect layer, then the terminal receives it. |
| `LoggerLaws.Repeat` | Resto.Front.Api.Console/ConsoleLogger.cs:268 | n copies of a value: a line, one for each layer's logger call, or one write outcome, one for each attempt. |
| `LoggerLaws.SinkWriteOnlyTerminal` | Resto.Front.Api.Console/ConsoleLogger.cs:275-286 | `Write` never reaches the pipe. It appends exactly its text to the terminal. |
| `LoggerLaws.InterceptedLine` | Resto.Front.Api.Console/ConsoleLogger.cs:265-273 | With one redirect, a line goes to the logger first and then verbatim as the terminal's last line. The pipe gets it exactly when connected and the write succeeds. |
| `LoggerLaws.WriteLineWhenDisconnected` | Resto.Front.Api.Console/ConsoleLogger.cs:159-163 | Disconnected: nothing is sent and the state is unchanged. |
| `LoggerLaws.WriteLineSuccess` | Resto.Front.Api.Console/ConsoleLogger.cs:165-169 | A successful write appends exactly the message as one line and changes nothing else. |
| `LoggerLaws.WriteLineFailure` | Resto.Front.Api.Console/ConsoleLogger.cs:170-178 | The corrected write of the Findings. Any failure disconnects and keeps `initialized`, and never propagates. Because the flag is cleared first, the failed write sends nothing to the pipe, and a non-I/O failure adds exactly one warning line to the terminal. The code as written sends that warning to the pipe as well (`WriteFault.AsWrittenFailureReachesPipe`). |
| `LoggerLaws.ConnectWhenInitialized` | Resto.Front.Api.Console/ConsoleLogger.cs:95-96 | Already initialised: the attempt does nothing. |
| `LoggerLaws.ConnectAttempt` | Resto.Front.Api.Console/ConsoleLogger.cs:98-123 | Afterwards `initialized` holds, and `connected` holds exactly on success. The writer and redirect are installed only on success. Other failures print one warning. |
| `LoggerLaws.ShutdownLaws` | Resto.Front.Api.Console/ConsoleLogger.cs:221-246 | Does nothing when uninitialised. Otherwise it restores the saved output, disposes the handles and clears both flags. A second call changes nothing. |
| `LoggerLaws.ReconnectLaws` | Resto.Front.Api.Console/ConsoleLogger.cs:204-216 | Always ends initialised, connected exactly on success. From a connected state the writer chain does not grow. |
| `LoggerLaws.ReconnectAfterFailedWriteStacks` | Resto.Front.Api.Console/ConsoleLogger.cs:208-214 | After a failed write, a successful reconnect wraps the installed redirect in a second one. |
| `LoggerLaws.QuirkScenario` | Resto.Front.Api.Console/ConsoleLogger.cs:204-216 | Connect, fail a write, reconnect: each console line now reaches the pipe twice, and `Shutdown` leaves a redirect installed. |
| `LoggerLaws.FirstExistingIsFirst` | Resto.Front.Api.Console/ConsoleLogger.cs:53-61 | The chosen path is the first existing one in candidate order. |
| `LoggerLaws.InitializeLaunches` | Resto.Front.Api.Console/ConsoleLogger.cs:32-65 | At most one launch: the first existing candidate (assembly directory, `tools`, working directory), even when the start fails. A connect attempt always follows. |
| `LoggerLaws.FreshValid` | Resto.Front.Api.Console/ConsoleLogger.cs:19-25 | The initial state satisfies the invariant. |
| `LoggerLaws.WritesPreserveValid` | Resto.Front.Api.Console/ConsoleLogger.cs:107-108 | Writes keep the invariant that `connected` implies a writer exists and the redirect is installed. |
| `LoggerLaws.ConnectsPreserveValid` | Resto.Front.Api.Console/ConsoleLogger.cs:91-125 | Connect, reconnect and start-up keep the invariant. |
| `LoggerLaws.ShutdownPreservesValid` | Resto.Front.Api.Console/ConsoleLogger.cs:221-246 | Shutdown keeps the invariant. |
| `WriteFault.WriteLineAsWritten` | Resto.Front.Api.Console/ConsoleLogger.cs:159-180 | `WriteLine` with the warning printed before `_isConnected` is cleared, tracking how deeply writes nest. |
| `WriteFault.SinkWriteLineAsWritten` | Resto.Front.Api.Console/ConsoleLogger.cs:265-273 | The interceptor over the as-written `WriteLine`. |
| `WriteFault.PersistentFaultNests` | Resto.Front.Api.Console/ConsoleLogger.cs:174-178 | With n consecutive non-I/O failures, the writes nest n + 1 deep. |
| `WriteFault.UnboundedNesting` | Resto.Front.Api.Console/ConsoleLogger.cs:174-178 | For every bound, some outcome sequence nests deeper than the bound. |
| `WriteFault.AsWrittenFailureReachesPipe` | Resto.Front.Api.Console/ConsoleLogger.cs:174-178 | One non-I/O failure with the redirect over the terminal. As written, the warning is sent to the pipe before the flag is cleared, and then printed on the terminal. The corrected `LoggerState.WriteLine` leaves the pipe as it was and only prints the warning. |
| `WriteFault.AsWrittenAgreesWithoutFault` | Resto.Front.Api.Console/ConsoleLogger.cs:159-180 | Without a non-I/O failure, the as-written and the corrected write agree. |
| `Viewer.Classify` | Resto.Front.Api.Console/Program.cs:94-109 | The if/else-if chain over the markers. |
| `Viewer.ClassifyIsFirstMatch` | Resto.Front.Api.Console/Program.cs:94-109 | The chain equals a first-match scan of the marker table `[ERROR]`, `[WARN]`, `[INFO]`, `success`, `===`, `***`. |
| `Viewer.ClassifyPriority` | Resto.Front.Api.Console/Program.cs:94-109 | Each branch is taken if and only if its marker is present and no earlier marker is. The last branch is taken exactly when no marker is present. |
| `Viewer.WriteColoredLine` | Resto.Front.Api.Console/Program.cs:91-113 | The line's colour is its branch's colour, or the current colour for the last branch. The colour is reset afterwards. |
| `Viewer.RenderedTextVerbatim` | Resto.Front.Api.Console/Program.cs:111 | The output is `[stamp] ` followed by the line, verbatim. |
| `Viewer.Session` | Resto.Front.Api.Console/Program.cs:64-89 | One session's console output and how the session ends. |
| `Viewer.LeadingLines` | Resto.Front.Api.Console/Program.cs:70-78 | The number of leading received lines. |
| `Viewer.SessionRendersInOrder` | Resto.Front.Api.Console/Program.cs:70-87 | Received lines are rendered in order, one output each, verbatim. The session stops at the first other event and adds at most one report. An I/O failure ends it as `Disconnected` without propagating. |
| `Viewer.ReadFromPipe` | Resto.Front.Api.Console/Program.cs:64-89 | The read loop produces exactly `Session`. |
| `Viewer.Server` | Resto.Front.Api.Console/Program.cs:29-62 | The accept loop's console output and how it ends. |
| `Viewer.FirstCancel` | Resto.Front.Api.Console/Program.cs:31-59 | The index of the first loop-ending iteration. |
| `Viewer.ServerEndsAtFirstCancellation` | Resto.Front.Api.Console/Program.cs:31-61 | The loop ends only at a cancellation, and at the first one. Sessions and other exceptions go back to listening. |
| `Viewer.SessionColorAfter` | Resto.Front.Api.Console/Program.cs:111-112 | A session that rendered a line leaves the default colour. |
| `Viewer.ServerKeepsDefaultColor` | Resto.Front.Api.Console/Program.cs:29-62 | Started in the default colour, the console returns to it. |
| `Viewer.PrependPrepend` | Resto.Front.Api.Console/Program.cs:42-58 | Output of successive iterations concatenates. |
| `Viewer.RunServer` | Resto.Front.Api.Console/Program.cs:29-62 | The accept loop produces exactly `Server`. |
| `Wire.LineEnd` | Resto.Front.Api.Console/Program.cs:72 | The first line break, or the end of the text. |
| `Wire.ReadLine` | Resto.Front.Api.Console/Program.cs:72-74 | Null exactly at the end of the data. Otherwise a break-free prefix, and the rest is shorter. |
| `Wire.ReadTerminatedLine` | Resto.Front.Api.Console/Program.cs:72 | A CR LF-terminated single-line message reads back as itself. |
| `Wire.ReadLinesEncode` | Resto.Front.Api.Console/ConsoleLogger.cs:107 | Round trip: break-free messages arrive as exactly the lines sent, in order. |
| `Wire.ReadLineAtLineFeed` | Resto.Front.Api.Console/Program.cs:72 | A lone LF ends a line. |
| `Wire.EmbeddedBreakSplits` | Resto.Front.Api.Console/Program.cs:72-77 | A message with an embedded LF reaches the viewer as two lines. |
| `Text.Contains` | Resto.Front.Api.Console/Program.cs:94 | Ordinal substring test. |
| `Text.OccursAtContains` | Resto.Front.Api.Console/Program.cs:94 | An occurrence at any index makes `Contains` true. |
| `Text.ContainsOccurs` | Resto.Front.Api.Console/Program.cs:94 | If `Contains` is true, there is an index of occurrence. |
| `Text.ContainsIffOccurs` | Resto.Front.Api.Console/Program.cs:94 | `Contains` holds if and only if the pattern occurs somewhere. |
| `Text.ContainsInSuffix` | Resto.Front.Api.Console/Program.cs:94 | A prefix does not hide an occurrence. |
| `Text.ContainsAfterPrefix` | Resto.Front.Api.Console/Program.cs:94-102 | A level prefix that cannot overlap a marker does not change whether the marker is present. |
| `Text.AbsentChar` | Resto.Front.Api.Console/Program.cs:94 | A pattern with a character missing from the line is not contained in it. |
| `Text.ToUpper` | Resto.Front.Api.Console/Console.cs:189 | Same length, each character upper-cased. |
| `Text.ToUpperIdempotent` | Resto.Front.Api.Console/Console.cs:189 | Upper-casing twice is upper-casing once. |
| `Facade.Shown` | Resto.Front.Api.Console/Console.cs:85-133 | The string each overload hands over. A null object, or one whose `ToString()` gives null, prints `null`. Booleans print `True` or `False`. |
| `Facade.WriteLine` | Resto.Front.Api.Console/Console.cs:16-19 | Exactly one logger call, with the shown text. |
| `Facade.WriteLineEmpty` | Resto.Front.Api.Console/Console.cs:34-37 | One call with the empty line. |
| `Facade.Write` | Resto.Front.Api.Console/Console.cs:43-46 | Sends the same single full line as `WriteLine`. |
| `Facade.WriteLineFormat` | Resto.Front.Api.Console/Console.cs:26-29 | A template error propagates and nothing is sent. Otherwise one line. |
| `Facade.WriteFormat` | Resto.Front.Api.Console/Console.cs:53-56 | The same as `WriteLine(format, args)`. |
| `Facade.WriteLog` | Resto.Front.Api.Console/Console.cs:187-190 | One line: `[`, the upper-cased level, `] `, then the message verbatim. |
| `Facade.WriteLogFormat` | Resto.Front.Api.Console/Console.cs:198-201 | `WriteLog` of the formatted text, or the template error. |
| `Facade.WriteInfo` | Resto.Front.Api.Console/Console.cs:207-210 | Exactly `[INFO] ` followed by the message. |
| `Facade.WriteInfoFormat` | Resto.Front.Api.Console/Console.cs:217-220 | Exactly `[INFO] ` followed by the formatted text. |
| `Facade.WriteWarn` | Resto.Front.Api.Console/Console.cs:226-229 | Exactly `[WARN] ` followed by the message. |
| `Facade.WriteWarnFormat` | Resto.Front.Api.Console/Console.cs:236-239 | Exactly `[WARN] ` followed by the formatted text. |
| `Facade.WriteError` | Resto.Front.Api.Console/Console.cs:245-248 | Exactly `[ERROR] ` followed by the message. |
| `Facade.WriteErrorFormat` | Resto.Front.Api.Console/Console.cs:255-258 | Exactly `[ERROR] ` followed by the formatted text. |
| `Facade.WriteException` | Resto.Front.Api.Console/Console.cs:264-276 | One to three lines, in order: the `[ERROR] Exception: T: msg` headline; the stack trace only if it is neither null nor empty; the immediate inner exception only. |
| `Facade.StackTraceLines` | Resto.Front.Api.Console/Console.cs:267-270 | A line only for a trace that is neither null nor empty. |
| `Facade.InnerExceptionLines` | Resto.Front.Api.Console/Console.cs:272-275 | One line for the immediate inner exception, one level only. |
| `Facade.UpperFixed` | Resto.Front.Api.Console/Console.cs:189 | A level without lower-case letters is sent as written. |
| `Facade.FixedLevel` | Resto.Front.Api.Console/Console.cs:207-258 | An upper-case level is sent between brackets as written. |
| `Facade.WriteLogLevelCase` | Resto.Front.Api.Console/Console.cs:187-190 | The level is case-insensitive. |
| `Facade.ConvenienceLevels` | Resto.Front.Api.Console/Console.cs:207-248 | `WriteLog("info", m)` equals `WriteInfo(m)`, and likewise for warn and error. |
| `Facade.UpperSpelling` | Resto.Front.Api.Console/Console.cs:189 | Upper-casing agrees with a letter-by-letter spelling. |
| `Facade.NullObjectsPrintNull` | Resto.Front.Api.Console/Console.cs:85-88 | `WriteLine(object)` and `Write(object)` send `null` for a null object. |
| `Facade.IsConnected` | Resto.Front.Api.Console/Console.cs:61 | Passes the logger's flag straight through. |
| `Facade.Reconnect` | Resto.Front.Api.Console/Console.cs:66-69 | Passes straight through: the new state is `LoggerState.Reconnect` of the old state. |
| `Facade.Shutdown` | Resto.Front.Api.Console/Console.cs:74-77 | Passes straight through: the new state is `LoggerState.Shutdown` of the old state. |
| `EndToEnd.ColorOf` | Resto.Front.Api.Console/Program.cs:91-113 | The colour the viewer gives a facade call's line. |
| `EndToEnd.WriteErrorRendersRed` | Resto.Front.Api.Console/Console.cs:245-248 | `WriteError(m)` renders red for every message. |
| `EndToEnd.WriteWarnColor` | Resto.Front.Api.Console/Console.cs:226-229 | `WriteWarn(m)` renders yellow, or red if `m` itself carries `[ERROR]`. |
| `EndToEnd.WriteInfoColor` | Resto.Front.Api.Console/Console.cs:207-210 | `WriteInfo(m)` renders green unless `m` carries `[ERROR]` (red) or `[WARN]` (yellow). |
| `EndToEnd.ExceptionHeadlineRendersRed` | Resto.Front.Api.Console/Console.cs:264-266 | The exception headline renders red. |
| `EndToEnd.UnbracketedBanner` | Resto.Front.Api.Console/Program.cs:106-109 | A line without `[` or `c` that holds `===` is a banner. |
| `EndToEnd.UnbracketedSuccess` | Resto.Front.Api.Console/Program.cs:102-105 | A line without `[` that holds `success` is green, whatever else it holds. |
| `EndToEnd.UnmarkedIsPlain` | Resto.Front.Api.Console/Program.cs:94-109 | A line without `[`, `u`, `=` or `*` takes the last branch. |
| `EndToEnd.BannerClass` | TestPlugin/Program.cs:14 | The demo banner takes the banner branch. |
| `EndToEnd.ClosingClass` | TestPlugin/Program.cs:52 | The demo closing line takes the info branch, because `success` outranks `***`. |
| `EndToEnd.DemoBannerIsCyan` | TestPlugin/Program.cs:14 | `=== Test Plugin Started ===` renders cyan. |
| `EndToEnd.DemoClosingIsGreen` | TestPlugin/Program.cs:52 | `*** Test completed successfully ***` renders green, not cyan. |
| `EndToEnd.DemoProgressKeepsColor` | TestPlugin/Program.cs:46 | The progress line, written through the format overload with the order number filled in, is written and keeps the current colour. |
| `EndToEnd.DemoMessagesUnmarked` | TestPlugin/Program.cs:20-21 | The demo's leveled messages carry no competing marker. |
| `EndToEnd.DemoLeveledColors` | TestPlugin/Program.cs:20-22 | The demo's info, warn and error lines render green, yellow and red. |
| `EndToEnd.Deliver` | Resto.Front.Api.Console/ConsoleLogger.cs:159-180 | Successive logger writes. |
| `EndToEnd.DeliverAllWritten` | Resto.Front.Api.Console/ConsoleLogger.cs:165-169 | While writes succeed, the pipe receives exactly the lines, in order, and the logger stays connected. |
| `EndToEnd.DeliverDisconnected` | Resto.Front.Api.Console/ConsoleLogger.cs:161-162 | Once disconnected, later writes change nothing. |
| `EndToEnd.Arrivals` | Resto.Front.Api.Console/Program.cs:72-74 | The viewer's read events for the lines received, then end of stream. |
| `EndToEnd.EndToEndDelivery` | Resto.Front.Api.Console/Program.cs:64-113 | Break-free messages written while the pipe holds up are printed by the viewer once each, in order, verbatim after the timestamp, in their marker's colour. The session ends when the producer closes the pipe. |

## Left out

- **Pipe transport, file system, process start and `Thread.Sleep`.** `NamedPipeClientStream`, `NamedPipeServerStream`, `File.Exists`, `Process.Start`, the 3-second connect timeout and the sleeps are library I/O or timing. Their outcomes are inputs, and their durations are not modelled.
- **UTF-8 encoding.** Encoding on the pipe is not modelled. Messages are character sequences.
- **Locks.** `lock (_lock)` and the unlocked read of `_isConnected` at ConsoleLogger.cs:162 exist for concurrency. All operations are modelled one at a time. The lock is re-entrant on one thread, which the Findings rely on.
- **Clock and time formatting.** `DateTime.Now` and its `HH:mm:ss` / `HH:mm:ss.fff` formatting: each viewer event carries an abstract timestamp string.
- **Culture-dependent text.** `string.Format` templates and the `ToString()` of `int`, `decimal` and `DateTime` depend on the culture. They are inputs: the formatted text, or the template error.
- **`ToUpper`.** Modelled as ASCII upper-casing. The culture rules of `string.ToUpper` are not modelled.
- **The `double` overloads** of `WriteLine` and `Write` (Console.cs:121-124, 177-180). Floating-point text is culture- and runtime-dependent; they behave like the other value overloads.
- **Console colour APIs.** `ForegroundColor` and `ResetColor` are a colour value threaded through the viewer. `SetOut` is the `consoleOut` field.
- **The catch blocks that cannot fire.** The warnings in the redirect and restore error handlers (ConsoleLogger.cs:135-138, 150-153) would need `SetOut` to throw, and `SetOut` only throws for a null writer, which these paths never pass.
- **Dispose failures.** The swallowed exceptions from disposing in `Shutdown` (ConsoleLogger.cs:239) are not modelled. Disposal always succeeds, and disposing the redirect writer has no visible effect.
- **Null strings.** A null `string` argument and a null exception message are not modelled. Strings are always present; a null `ToString()` result and a null stack trace are modelled.
- **`Main` of the viewer.** Its Ctrl+C handler (Program.cs:16-27) is reduced to cancellation events in the iteration sequence.
- **`ConsoleLogger.IsConnected`.** A getter without a contract of its own. `Facade.IsConnected` states the pass-through.
- **The `using` disposal of the server pipe.** The per-iteration disposal (Program.cs:35-49) has no visible effect on the console.
- **Cancellation during the back-off.** A cancellation during the back-off `Task.Delay` (Program.cs:59) escapes `RunServerAsync` as an exception. The model records this as the end `CancelEscaped`, not as a shut-down.

## Findings

| source | as written | input that shows it | evidently intended | confidence | as-written member | corrected member |
|---|---|---|---|---|---|---|
| Resto.Front.Api.Console/ConsoleLogger.cs:174-178 | On a write failure other than `IOException`, the catch block prints its warning through `SystemConsole.WriteLine` while `_isConnected` is still true. While connected, `Console.Out` is the redirect writer, so the warning re-enters `ConsoleLogger.WriteLine` on the same thread (the lock is re-entrant), and that writes to the failing pipe again. | A connected logger whose pipe writer keeps throwing the same non-I/O exception, such as `ObjectDisposedException`. Every nested attempt fails the same way, so the writes nest without bound and the stack overflows. | Clear `_isConnected` before printing the warning, as the connect error path does at ConsoleLogger.cs:120-122. The warning then reaches only the original output, and the write returns normally. | medium, not executed | `WriteFault.PersistentFaultNests` | `LoggerLaws.WriteLineFailure` |
