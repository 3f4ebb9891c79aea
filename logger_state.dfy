/**
 * The producer's state machine (ConsoleLogger.cs) as values: the process-wide
 * logger fields, the process's `Console.Out` writer chain, and logs of what reached
 * the pipe and the terminal. Each outcome of the environment (connect, write,
 * process start) is a parameter.
 */
module LoggerState {
  import opened Wrappers

  /**
   * A writer in the chain behind `Console.Out`: the terminal, or a
   * `ConsoleRedirectWriter` wrapping the writer that was `Console.Out` when it was made.
   */
  datatype Sink = Terminal | Redirect(original: Sink)

  function Depth(k: Sink): nat {
    match k
    case Terminal => 0
    case Redirect(o) => 1 + Depth(o)
  }

  /** A disposable handle field: never assigned, assigned and open, or disposed. */
  datatype Handle = Absent | Open | Disposed

  /** What reaches the terminal: a full line (`WriteLine`) or a fragment (`Write`). */
  datatype Chunk = Line(text: string) | Text(text: string)

  /** Outcome of `NamedPipeClientStream.Connect(3000)`. */
  datatype ConnectOutcome = Connected | TimedOut | ConnectFailed(message: string)

  /** Outcome of one `StreamWriter.WriteLine` on the pipe. */
  datatype WriteOutcome = Written | IoFailure | WriteFailed(message: string)

  /** Outcome of `Process.Start` for the viewer. */
  datatype StartOutcome = Started | StartFailed(message: string)

  datatype State = State(
    connected: bool,            // _isConnected
    initialized: bool,          // _isInitialized
    pipeClient: Handle,         // _pipeClient
    writer: Handle,             // _writer
    originalOut: Option<Sink>,  // _originalConsoleOut
    redirect: Option<Sink>,     // _redirectWriter
    consoleOut: Sink,           // Console.Out
    pipe: seq<string>,          // lines written to the pipe
    terminal: seq<Chunk>,       // output that reached the terminal
    launches: seq<string>)      // paths handed to Process.Start

  /** The state before the static constructor runs. */
  function Fresh(): State {
    State(false, false, Absent, Absent, None, None, Terminal, [], [], [])
  }

  /** The state invariant: the writer is assigned before the flag is set, and the redirect wraps the saved output. */
  ghost predicate Valid(s: State) {
    && (s.connected ==> s.initialized && s.writer == Open && s.redirect == Some(s.consoleOut))
    && (s.redirect.Some? ==> s.originalOut.Some? && s.redirect.value == Redirect(s.originalOut.value))
  }

  /** Only the connection flag (cleared, never set), the pipe log and the terminal log differ. */
  ghost predicate OnlyOutputs(s: State, r: State) {
    && (r.connected ==> s.connected)
    && r.initialized == s.initialized && r.pipeClient == s.pipeClient && r.writer == s.writer
    && r.originalOut == s.originalOut && r.redirect == s.redirect && r.consoleOut == s.consoleOut
    && r.launches == s.launches
  }

  const WriteErrorPrefix := "[WARN] ConsoleLogger write error: "
  const ConnectErrorPrefix := "[WARN] ConsoleLogger failed to connect: "
  const StartedPrefix := "[INFO] Started Resto.Front.Console.exe from: "
  const StartErrorPrefix := "[WARN] Failed to start Resto.Front.Console.exe: "
  const ExeName := "Resto.Front.Console.exe"

  function Rank(s: State): nat {
    if s.connected then 1 else 0
  }

  /** The outcome of the next write attempt; attempts the environment does not list succeed. */
  function First(outs: seq<WriteOutcome>): WriteOutcome {
    if outs == [] then Written else outs[0]
  }

  function Rest(outs: seq<WriteOutcome>): seq<WriteOutcome> {
    if outs == [] then [] else outs[1..]
  }

  /**
   * `ConsoleLogger.WriteLine(message)` with the connection flag cleared before the
   * failure warning is printed (see module WriteFault for the order as written).
   */
  function WriteLine(s: State, message: string, o: WriteOutcome): (r: State)
    ensures OnlyOutputs(s, r)
    decreases Rank(s), 0
  {
    if !s.connected then s
    else match o
      case Written => s.(pipe := s.pipe + [message])
      case IoFailure => s.(connected := false)
      case WriteFailed(e) =>
        var s1 := s.(connected := false);
        SinkWriteLine(s1, s1.consoleOut, WriteErrorPrefix + e, [])
  }

  /**
   * `WriteLine(v)` on writer `k`: a `ConsoleRedirectWriter` first hands `v` to the
   * logger (its write attempt takes the next outcome of `outs`), then to the writer
   * it wraps; the terminal records the line.
   */
  function SinkWriteLine(s: State, k: Sink, v: string, outs: seq<WriteOutcome>): (r: State)
    ensures OnlyOutputs(s, r)
    decreases Rank(s), Depth(k)
  {
    match k
    case Terminal => s.(terminal := s.terminal + [Line(v)])
    case Redirect(original) =>
      var s1 := WriteLine(s, v, First(outs));
      SinkWriteLine(s1, original, v, Rest(outs))
  }

  /** `Write(string)` / `Write(char)` on writer `k`: a redirect passes it only to the writer it wraps. */
  function SinkWrite(s: State, k: Sink, t: string): State {
    match k
    case Terminal => s.(terminal := s.terminal + [Text(t)])
    case Redirect(original) => SinkWrite(s, original, t)
  }

  /** `Console.WriteLine(v)` in the producer process. */
  function ConsoleWriteLine(s: State, v: string, outs: seq<WriteOutcome>): State {
    SinkWriteLine(s, s.consoleOut, v, outs)
  }

  /** `Console.Write(t)` in the producer process. */
  function ConsoleWrite(s: State, t: string): State {
    SinkWrite(s, s.consoleOut, t)
  }

  /** `RedirectConsoleOutput`: save `Console.Out` and install a redirect wrapping it. */
  function RedirectConsoleOutput(s: State): State {
    s.(originalOut := Some(s.consoleOut), redirect := Some(Redirect(s.consoleOut)), consoleOut := Redirect(s.consoleOut))
  }

  /** `RestoreConsoleOutput`: reinstall the saved writer, if any. */
  function RestoreConsoleOutput(s: State): State {
    if s.originalOut.Some? then s.(consoleOut := s.originalOut.value) else s
  }

  /** `ConnectToPipe`: one connect attempt, unless already initialized. */
  function ConnectToPipe(s: State, c: ConnectOutcome): State {
    if s.initialized then s
    else
      var s1 := s.(pipeClient := Open);
      match c
      case Connected => RedirectConsoleOutput(s1.(writer := Open, connected := true)).(initialized := true)
      case TimedOut => s1.(connected := false, initialized := true)
      case ConnectFailed(e) =>
        var s2 := s1.(connected := false, initialized := true);
        ConsoleWriteLine(s2, ConnectErrorPrefix + e, [])
  }

  function Dispose(h: Handle): Handle {
    if h == Absent then Absent else Disposed
  }

  /** `Shutdown`: restore the console, dispose the handles, clear both flags; nothing when uninitialized. */
  function Shutdown(s: State): State {
    if !s.initialized then s
    else
      var s1 := RestoreConsoleOutput(s);
      s1.(writer := Dispose(s1.writer), pipeClient := Dispose(s1.pipeClient), connected := false, initialized := false)
  }

  /** `Reconnect`: shut down only when connected, clear the initialized flag, connect again. */
  function Reconnect(s: State, c: ConnectOutcome): State {
    var s1 := if s.connected then Shutdown(s) else s;
    ConnectToPipe(s1.(initialized := false), c)
  }

  /** `Path.Combine(dir, name)` for a relative `name`: a separator is added unless `dir` is empty or ends in one. */
  function Combine(dir: string, name: string): string {
    if dir == [] then name
    else if dir[|dir| - 1] in {'\\', '/', ':'} then dir + name
    else dir + "\\" + name
  }

  /** The primary executable path and the alternatives, in the order `Initialize` tries them. */
  function Candidates(assemblyDir: string, cwd: string): seq<string> {
    [Combine(assemblyDir, ExeName), Combine(Combine(assemblyDir, "tools"), ExeName), Combine(cwd, ExeName)]
  }

  /** The first path of `paths` that exists. */
  function FirstExisting(paths: seq<string>, existing: set<string>): (r: Option<string>)
    ensures r.Some? ==> r.value in paths && r.value in existing
    ensures r.None? <==> forall i :: 0 <= i < |paths| ==> paths[i] !in existing
  {
    if paths == [] then None
    else if paths[0] in existing then Some(paths[0])
    else FirstExisting(paths[1..], existing)
  }

  /** `StartConsoleApplication`: start the viewer and report the outcome on the console. */
  function StartConsoleApplication(s: State, path: string, start: StartOutcome): State {
    var s1 := s.(launches := s.launches + [path]);
    match start
    case Started => ConsoleWriteLine(s1, StartedPrefix + path, [])
    case StartFailed(e) => ConsoleWriteLine(s1, StartErrorPrefix + e, [])
  }

  /** `Initialize`: launch the first existing candidate, if any, then connect. */
  function Initialize(s: State, assemblyDir: string, cwd: string, existing: set<string>,
                      start: StartOutcome, c: ConnectOutcome): State
  {
    var s1 := match FirstExisting(Candidates(assemblyDir, cwd), existing)
      case Some(path) => StartConsoleApplication(s, path, start)
      case None => s;
    ConnectToPipe(s1, c)
  }
}
