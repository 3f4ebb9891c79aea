/**
 * The process-wide `ConsoleLogger` (ConsoleLogger.cs) as an object whose fields the
 * operations update in place. Each method is proved to produce the state that the
 * matching function of module LoggerState computes from the state before it, and
 * the public operations keep the invariant `Valid()`. `WriteLine` uses the corrected
 * failure order of `LoggerState.WriteLine`, which clears the connection flag before
 * printing the warning; module WriteFault keeps the order the source has.
 */
module Logger {
  import opened Wrappers
  import opened LoggerState
  import LoggerLaws

  class ConsoleLogger {
    var connected: bool
    var initialized: bool
    var pipeClient: Handle
    var writer: Handle
    var originalOut: Option<Sink>
    var redirect: Option<Sink>
    /** `Console.Out` of the producer process, kept here because the logger swaps it. */
    var consoleOut: Sink
    var pipe: seq<string>
    var terminal: seq<Chunk>
    var launches: seq<string>

    function Snapshot(): State
      reads this
    {
      State(connected, initialized, pipeClient, writer, originalOut, redirect, consoleOut, pipe, terminal, launches)
    }

    ghost predicate Valid()
      reads this
    {
      LoggerState.Valid(Snapshot())
    }

    /** The static constructor, which runs `Initialize`. */
    constructor (assemblyDir: string, cwd: string, existing: set<string>, start: StartOutcome, c: ConnectOutcome)
      ensures Snapshot() == LoggerState.Initialize(Fresh(), assemblyDir, cwd, existing, start, c)
      ensures Valid()
    {
      connected, initialized := false, false;
      pipeClient, writer := Absent, Absent;
      originalOut, redirect := None, None;
      consoleOut := Terminal;
      pipe, terminal, launches := [], [], [];
      new;
      Initialize(assemblyDir, cwd, existing, start, c);
    }

    /** `Initialize`: look for the viewer at the primary path, then at the alternatives; connect. */
    method Initialize(assemblyDir: string, cwd: string, existing: set<string>, start: StartOutcome, c: ConnectOutcome)
      requires Valid()
      modifies this
      ensures Snapshot() == LoggerState.Initialize(old(Snapshot()), assemblyDir, cwd, existing, start, c)
      ensures Valid()
    {
      ghost var s0 := Snapshot();
      var consoleExePath := Combine(assemblyDir, ExeName);
      var alternativePaths := [Combine(Combine(assemblyDir, "tools"), ExeName), Combine(cwd, ExeName)];
      ghost var candidates := Candidates(assemblyDir, cwd);
      assert candidates == [consoleExePath] + alternativePaths;
      if consoleExePath in existing {
        StartConsoleApplication(consoleExePath, start);
      } else {
        assert FirstExisting(candidates, existing) == FirstExisting(alternativePaths, existing);
        var i := 0;
        while i < |alternativePaths|
          invariant 0 <= i <= |alternativePaths|
          invariant Snapshot() == s0
          invariant FirstExisting(alternativePaths, existing) == FirstExisting(alternativePaths[i..], existing)
        {
          var path := alternativePaths[i];
          if path in existing {
            StartConsoleApplication(path, start);
            consoleExePath := path;
            break;
          }
          assert alternativePaths[i..][1..] == alternativePaths[i + 1..];
          i := i + 1;
        }
      }
      ConnectToPipe(c);
      LoggerLaws.ConnectsPreserveValid(s0, c, assemblyDir, cwd, existing, start);
    }

    /** `StartConsoleApplication`: start the viewer and report the outcome on the console. */
    method StartConsoleApplication(path: string, start: StartOutcome)
      modifies this
      ensures Snapshot() == LoggerState.StartConsoleApplication(old(Snapshot()), path, start)
    {
      launches := launches + [path];
      match start {
        case Started => ConsoleWriteLine(StartedPrefix + path, []);
        case StartFailed(e) => ConsoleWriteLine(StartErrorPrefix + e, []);
      }
    }

    /** `ConnectToPipe`: one connect attempt, unless already initialized. */
    method ConnectToPipe(c: ConnectOutcome)
      modifies this
      ensures Snapshot() == LoggerState.ConnectToPipe(old(Snapshot()), c)
    {
      if initialized {
        return;
      }
      pipeClient := Open;
      match c {
        case Connected =>
          writer := Open;
          connected := true;
          RedirectConsoleOutput();
          initialized := true;
        case TimedOut =>
          connected := false;
          initialized := true;
        case ConnectFailed(e) =>
          connected := false;
          initialized := true;
          ConsoleWriteLine(ConnectErrorPrefix + e, []);
      }
    }

    /** `RedirectConsoleOutput`: save `Console.Out` and install a redirect wrapping it. */
    method RedirectConsoleOutput()
      modifies this
      ensures Snapshot() == LoggerState.RedirectConsoleOutput(old(Snapshot()))
    {
      originalOut := Some(consoleOut);
      redirect := Some(Redirect(consoleOut));
      consoleOut := redirect.value;
    }

    /** `RestoreConsoleOutput`: reinstall the saved writer, if any. */
    method RestoreConsoleOutput()
      modifies this
      ensures Snapshot() == LoggerState.RestoreConsoleOutput(old(Snapshot()))
    {
      if originalOut.Some? {
        consoleOut := originalOut.value;
      }
    }

    /**
     * `WriteLine(message)`: one write attempt while connected; a failure disconnects and
     * is not propagated. On a non-I/O failure the flag is cleared before the warning is
     * printed, the corrected order (`WriteFault.WriteLineAsWritten` has the source's).
     */
    method WriteLine(message: string, o: WriteOutcome)
      modifies this
      ensures Snapshot() == LoggerState.WriteLine(old(Snapshot()), message, o)
      decreases Rank(Snapshot()), 0
    {
      if !connected {
        return;
      }
      match o {
        case Written =>
          pipe := pipe + [message];
        case IoFailure =>
          connected := false;
        case WriteFailed(e) =>
          connected := false;
          ConsoleWriteLine(WriteErrorPrefix + e, []);
      }
    }

    /** `WriteLine(format, args)`: a template error propagates to the caller and nothing is written. */
    method WriteLineFormat(formatted: Result<string, string>, o: WriteOutcome) returns (r: Result<(), string>)
      modifies this
      ensures r.Failure? <==> formatted.Failure?
      ensures r.Failure? ==> r.error == formatted.error && Snapshot() == old(Snapshot())
      ensures formatted.Success? ==> Snapshot() == LoggerState.WriteLine(old(Snapshot()), formatted.value, o)
    {
      match formatted {
        case Failure(e) =>
          return Failure(e);
        case Success(text) =>
          WriteLine(text, o);
          return Success(());
      }
    }

    /** `IsConnected`. */
    function IsConnected(): bool
      reads this
    {
      connected
    }

    /** `Reconnect`: shut down only when connected, clear the initialized flag, connect again. */
    method Reconnect(c: ConnectOutcome)
      requires Valid()
      modifies this
      ensures Snapshot() == LoggerState.Reconnect(old(Snapshot()), c)
      ensures Valid()
    {
      ghost var s0 := Snapshot();
      if connected {
        Shutdown();
      }
      initialized := false;
      ConnectToPipe(c);
      LoggerLaws.ConnectsPreserveValid(s0, c, "", "", {}, Started);
    }

    /** `Shutdown`: restore the console, dispose the handles, clear both flags; nothing when uninitialized. */
    method Shutdown()
      requires Valid()
      modifies this
      ensures Snapshot() == LoggerState.Shutdown(old(Snapshot()))
      ensures Valid()
    {
      if !initialized {
        return;
      }
      RestoreConsoleOutput();
      // Disposing the redirect writer has no observable effect on it.
      if writer != Absent {
        writer := Disposed;
      }
      if pipeClient != Absent {
        pipeClient := Disposed;
      }
      connected := false;
      initialized := false;
    }

    /** `Console.WriteLine(v)` in the producer process; each redirect's write attempt takes the next outcome. */
    method ConsoleWriteLine(v: string, outs: seq<WriteOutcome>)
      modifies this
      ensures Snapshot() == LoggerState.ConsoleWriteLine(old(Snapshot()), v, outs)
      decreases Rank(Snapshot()), Depth(consoleOut) + 1
    {
      WriteLineTo(consoleOut, v, outs);
    }

    /** `Console.Write(t)` in the producer process. */
    method ConsoleWrite(t: string)
      modifies this
      ensures Snapshot() == LoggerState.ConsoleWrite(old(Snapshot()), t)
    {
      WriteTo(consoleOut, t);
    }

    /** `Console.Write(ch)` in the producer process. */
    method ConsoleWriteChar(ch: char)
      modifies this
      ensures Snapshot() == LoggerState.ConsoleWrite(old(Snapshot()), [ch])
    {
      WriteTo(consoleOut, [ch]);
    }

    /** `WriteLine(v)` on writer `k`: `ConsoleRedirectWriter.WriteLine` or the terminal. */
    method WriteLineTo(k: Sink, v: string, outs: seq<WriteOutcome>)
      modifies this
      ensures Snapshot() == LoggerState.SinkWriteLine(old(Snapshot()), k, v, outs)
      decreases Rank(Snapshot()), Depth(k)
    {
      match k {
        case Terminal =>
          terminal := terminal + [Line(v)];
        case Redirect(original) =>
          WriteLine(v, First(outs));
          WriteLineTo(original, v, Rest(outs));
      }
    }

    /** `Write(t)` on writer `k`: `ConsoleRedirectWriter.Write` or the terminal. */
    method WriteTo(k: Sink, t: string)
      modifies this
      ensures Snapshot() == LoggerState.SinkWrite(old(Snapshot()), k, t)
      decreases Depth(k)
    {
      match k {
        case Terminal =>
          terminal := terminal + [Text(t)];
        case Redirect(original) =>
          WriteTo(original, t);
      }
    }
  }
}
