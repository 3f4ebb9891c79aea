/** Properties of the producer's state machine (module LoggerState). */
module LoggerLaws {
  import opened Wrappers
  import opened LoggerState

  // ---------------------------------------------------------------------------
  // The console writer chain

  /** While disconnected, a line written to any writer chain reaches only the terminal. */
  lemma {:induction false} SinkWriteLineDisconnected(s: State, k: Sink, v: string, outs: seq<WriteOutcome>)
    requires !s.connected
    ensures SinkWriteLine(s, k, v, outs) == s.(terminal := s.terminal + [Line(v)])
    decreases Depth(k)
  {
    match k
    case Terminal =>
    case Redirect(original) =>
      assert WriteLine(s, v, First(outs)) == s;
      SinkWriteLineDisconnected(s, original, v, Rest(outs));
  }

  /** `n` copies of `x`. */
  function Repeat<T>(x: T, n: nat): (r: seq<T>)
    ensures |r| == n && forall i :: 0 <= i < n ==> r[i] == x
  {
    if n == 0 then [] else [x] + Repeat(x, n - 1)
  }

  /** While connected and every write succeeds, each redirect in the chain sends the line to the pipe once. */
  lemma {:induction false} SinkWriteLineAllWritten(s: State, k: Sink, v: string)
    requires s.connected
    ensures SinkWriteLine(s, k, v, []) == s.(pipe := s.pipe + Repeat(v, Depth(k)), terminal := s.terminal + [Line(v)])
    decreases Depth(k)
  {
    match k
    case Terminal =>
      assert s.pipe + Repeat(v, 0) == s.pipe;
    case Redirect(original) =>
      var s1 := s.(pipe := s.pipe + [v]);
      SinkWriteLineAllWritten(s1, original, v);
      assert s1.pipe + Repeat(v, Depth(original)) == s.pipe + Repeat(v, Depth(k));
  }

  /** `Write(string)` and `Write(char)` reach only the terminal, whatever the chain and the connection. */
  lemma {:induction false} SinkWriteOnlyTerminal(s: State, k: Sink, t: string)
    ensures SinkWrite(s, k, t) == s.(terminal := s.terminal + [Text(t)])
    decreases Depth(k)
  {
    match k
    case Terminal =>
    case Redirect(original) => SinkWriteOnlyTerminal(s, original, t);
  }

  /**
   * With the redirect installed over the terminal, a console line goes first to the
   * logger (under outcome `o`) and then, verbatim, to the terminal as its last line.
   */
  lemma InterceptedLine(s: State, v: string, o: WriteOutcome)
    requires s.consoleOut == Redirect(Terminal)
    ensures var r := ConsoleWriteLine(s, v, [o]);
      && r == WriteLine(s, v, o).(terminal := WriteLine(s, v, o).terminal + [Line(v)])
      && r.pipe == (if s.connected && o == Written then s.pipe + [v] else s.pipe)
      && r.terminal[|r.terminal| - 1] == Line(v)
  {
    var w := WriteLine(s, v, o);
    assert First([o]) == o && Rest([o]) == [];
    assert ConsoleWriteLine(s, v, [o]) == SinkWriteLine(s, Redirect(Terminal), v, [o]);
    assert SinkWriteLine(s, Redirect(Terminal), v, [o]) == SinkWriteLine(w, Terminal, v, []);
    if s.connected {
      if o == Written { WriteLineSuccess(s, v); } else { WriteLineFailure(s, v, o); }
    }
  }

  // ---------------------------------------------------------------------------
  // WriteLine

  /** `WriteLine` does nothing while disconnected. */
  lemma WriteLineWhenDisconnected(s: State, message: string, o: WriteOutcome)
    requires !s.connected
    ensures WriteLine(s, message, o) == s
  {
  }

  /** A successful write appends exactly the message, as one line, and changes nothing else. */
  lemma WriteLineSuccess(s: State, message: string)
    requires s.connected
    ensures WriteLine(s, message, Written) == s.(pipe := s.pipe + [message])
  {
  }

  /**
   * A failed write clears the connection flag, leaves everything else, including
   * `initialized`, unchanged, sends nothing, and returns normally; a failure other
   * than an I/O error also puts one warning line on the terminal.
   */
  lemma WriteLineFailure(s: State, message: string, o: WriteOutcome)
    requires s.connected && o != Written
    ensures var r := WriteLine(s, message, o);
      && r.(terminal := s.terminal) == s.(connected := false)
      && !r.connected && r.initialized == s.initialized && r.pipe == s.pipe
      && r.terminal == s.terminal + (if o.WriteFailed? then [Line(WriteErrorPrefix + o.message)] else [])
  {
    if o.WriteFailed? {
      var s1 := s.(connected := false);
      SinkWriteLineDisconnected(s1, s1.consoleOut, WriteErrorPrefix + o.message, []);
    }
  }

  // ---------------------------------------------------------------------------
  // ConnectToPipe, Shutdown, Reconnect

  /** `ConnectToPipe` does nothing once initialized. */
  lemma ConnectWhenInitialized(s: State, c: ConnectOutcome)
    requires s.initialized
    ensures ConnectToPipe(s, c) == s
  {
  }

  /**
   * After a connect attempt from the uninitialized state, `initialized` holds and
   * `connected` holds exactly when the attempt succeeded; the redirect wrapping the
   * previous `Console.Out` is installed only then; a failure other than a timeout
   * puts one warning line on the terminal; nothing is sent on the pipe.
   */
  lemma ConnectAttempt(s: State, c: ConnectOutcome)
    requires Valid(s) && !s.initialized
    ensures var r := ConnectToPipe(s, c);
      && r.initialized
      && (r.connected <==> c == Connected)
      && (c == Connected ==>
            r.writer == Open && r.originalOut == Some(s.consoleOut) && r.consoleOut == Redirect(s.consoleOut)
            && r.redirect == Some(r.consoleOut))
      && (c != Connected ==> r.consoleOut == s.consoleOut && r.redirect == s.redirect && r.writer == s.writer)
      && r.pipe == s.pipe && r.pipeClient == Open
      && r.terminal == s.terminal + (if c.ConnectFailed? then [Line(ConnectErrorPrefix + c.message)] else [])
  {
    if c.ConnectFailed? {
      var s2 := s.(pipeClient := Open, connected := false, initialized := true);
      SinkWriteLineDisconnected(s2, s2.consoleOut, ConnectErrorPrefix + c.message, []);
    }
  }

  /**
   * `Shutdown` does nothing when uninitialized; otherwise it reinstalls the saved
   * output, disposes the assigned handles and clears both flags. A second call
   * changes nothing.
   */
  lemma ShutdownLaws(s: State)
    ensures !s.initialized ==> Shutdown(s) == s
    ensures var r := Shutdown(s);
      && !r.initialized && (s.initialized || Valid(s) ==> !r.connected)
      && r.consoleOut == (if s.initialized && s.originalOut.Some? then s.originalOut.value else s.consoleOut)
      && (s.initialized ==> r.writer == Dispose(s.writer) && r.pipeClient == Dispose(s.pipeClient))
      && r.pipe == s.pipe && r.terminal == s.terminal
    ensures Shutdown(Shutdown(s)) == Shutdown(s)
  {
  }

  /**
   * `Reconnect` always ends initialized, connected exactly when the new attempt
   * succeeds. From a connected state it shuts down first, so a successful attempt
   * wraps the saved output again and the chain does not grow.
   */
  lemma ReconnectLaws(s: State, c: ConnectOutcome)
    requires Valid(s)
    ensures var r := Reconnect(s, c);
      && r.initialized
      && (r.connected <==> c == Connected)
      && (s.connected && c == Connected ==> r.consoleOut == s.consoleOut && Depth(r.consoleOut) == Depth(s.consoleOut))
  {
    var s1 := if s.connected then Shutdown(s) else s;
    assert Valid(s1.(initialized := false));
    ConnectAttempt(s1.(initialized := false), c);
  }

  /**
   * The reproduced quirk: after a failed write (disconnected but initialized),
   * `Reconnect` does not shut down, so a successful attempt saves the installed
   * redirect as the "original" output and wraps it in a second redirect.
   */
  lemma ReconnectAfterFailedWriteStacks(s: State)
    requires Valid(s) && s.initialized && !s.connected
    ensures var r := Reconnect(s, Connected);
      && r.originalOut == Some(s.consoleOut)
      && r.consoleOut == Redirect(s.consoleOut)
      && Depth(r.consoleOut) == Depth(s.consoleOut) + 1
  {
  }

  /**
   * The quirk end to end: connect, lose the pipe on a write, reconnect. Every console
   * line now reaches the pipe twice, and `Shutdown` reinstalls a redirect, not the terminal.
   */
  lemma QuirkScenario(m: string, v: string)
    ensures var s1 := ConnectToPipe(Fresh(), Connected);
      var s2 := WriteLine(s1, m, IoFailure);
      var s3 := Reconnect(s2, Connected);
      && s1.consoleOut == Redirect(Terminal)
      && !s2.connected && s2.initialized
      && s3.connected && s3.consoleOut == Redirect(Redirect(Terminal))
      && ConsoleWriteLine(s3, v, []).pipe == s3.pipe + [v, v]
      && Shutdown(s3).consoleOut == Redirect(Terminal)
  {
    var s1 := ConnectToPipe(Fresh(), Connected);
    var s2 := WriteLine(s1, m, IoFailure);
    var s3 := Reconnect(s2, Connected);
    SinkWriteLineAllWritten(s3, s3.consoleOut, v);
    assert Repeat(v, 2) == [v, v];
  }

  // ---------------------------------------------------------------------------
  // Start-up

  /** The launched path is the first existing candidate. */
  lemma {:induction false} FirstExistingIsFirst(paths: seq<string>, existing: set<string>)
    ensures match FirstExisting(paths, existing)
      case None => forall i :: 0 <= i < |paths| ==> paths[i] !in existing
      case Some(p) => exists i :: 0 <= i < |paths| && paths[i] == p && forall j :: 0 <= j < i ==> paths[j] !in existing
  {
    if paths != [] && paths[0] !in existing {
      FirstExistingIsFirst(paths[1..], existing);
      match FirstExisting(paths, existing)
      case None =>
      case Some(p) =>
        var i :| 0 <= i < |paths[1..]| && paths[1..][i] == p && forall j :: 0 <= j < i ==> paths[1..][j] !in existing;
        assert paths[i + 1] == p;
        assert forall j :: 0 <= j < i + 1 ==> paths[j] !in existing by {
          forall j | 0 <= j < i + 1 ensures paths[j] !in existing {
            if j > 0 { assert paths[j] == paths[1..][j - 1]; }
          }
        }
    }
  }

  /**
   * Start-up launches at most one viewer, the first existing candidate in the order
   * assembly directory, its `tools` subdirectory, working directory, whether or not
   * the start succeeds; a connect attempt always follows.
   */
  lemma InitializeLaunches(s: State, assemblyDir: string, cwd: string, existing: set<string>,
                           start: StartOutcome, c: ConnectOutcome)
    requires Valid(s) && !s.initialized
    ensures var r := Initialize(s, assemblyDir, cwd, existing, start, c);
      var found := FirstExisting(Candidates(assemblyDir, cwd), existing);
      && r.launches == s.launches + (if found.Some? then [found.value] else [])
      && |r.launches| <= |s.launches| + 1
      && r.initialized && (r.connected <==> c == Connected)
  {
    var found := FirstExisting(Candidates(assemblyDir, cwd), existing);
    var s1 := match found case Some(path) => StartConsoleApplication(s, path, start) case None => s;
    assert Valid(s1) && !s1.initialized;
    ConnectAttempt(s1, c);
  }

  // ---------------------------------------------------------------------------
  // The invariant

  lemma FreshValid()
    ensures Valid(Fresh())
  {
  }

  /** Writes keep the invariant: while connected, a writer exists and the redirect is `Console.Out`. */
  lemma WritesPreserveValid(s: State, v: string, t: string, o: WriteOutcome, outs: seq<WriteOutcome>)
    requires Valid(s)
    ensures Valid(WriteLine(s, v, o)) && Valid(ConsoleWriteLine(s, v, outs)) && Valid(ConsoleWrite(s, t))
  {
    SinkWriteOnlyTerminal(s, s.consoleOut, t);
  }

  /** Connecting, reconnecting and start-up keep the invariant. */
  lemma ConnectsPreserveValid(s: State, c: ConnectOutcome, assemblyDir: string, cwd: string, existing: set<string>,
                              start: StartOutcome)
    requires Valid(s)
    ensures Valid(ConnectToPipe(s, c)) && Valid(Reconnect(s, c)) && Valid(Initialize(s, assemblyDir, cwd, existing, start, c))
  {
    var s1 := if s.connected then Shutdown(s) else s;
    assert Valid(s1.(initialized := false));
  }

  /** Shutting down keeps the invariant. */
  lemma ShutdownPreservesValid(s: State)
    requires Valid(s)
    ensures Valid(Shutdown(s))
  {
  }
}
