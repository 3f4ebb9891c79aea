/**
 * `ConsoleLogger.WriteLine` with its catch block in the order the source has it: on
 * a failure other than an I/O error the warning is printed through `Console.Out`
 * while `_isConnected` still holds, and the flag is cleared only afterwards. Once
 * connected, `Console.Out` is the redirect writer, so printing the warning re-enters
 * `ConsoleLogger.WriteLine`. Here every write attempt takes the next outcome of the
 * environment's list, and attempts beyond the list succeed.
 */
module WriteFault {
  import opened LoggerState
  import LoggerLaws

  /** Resulting state, the outcomes not used, and how deeply write attempts nested. */
  datatype Trace = Trace(state: State, unused: seq<WriteOutcome>, depth: nat)

  function WriteLineAsWritten(s: State, message: string, outs: seq<WriteOutcome>): (t: Trace)
    ensures |t.unused| <= |outs|
    decreases |outs|, 0
  {
    if !s.connected then Trace(s, outs, 0)
    else match First(outs)
      case Written => Trace(s.(pipe := s.pipe + [message]), Rest(outs), 1)
      case IoFailure => Trace(s.(connected := false), Rest(outs), 1)
      case WriteFailed(e) =>
        var nested := SinkWriteLineAsWritten(s, s.consoleOut, WriteErrorPrefix + e, Rest(outs));
        Trace(nested.state.(connected := false), nested.unused, 1 + nested.depth)
  }

  function SinkWriteLineAsWritten(s: State, k: Sink, v: string, outs: seq<WriteOutcome>): (t: Trace)
    ensures |t.unused| <= |outs|
    decreases |outs|, Depth(k)
  {
    match k
    case Terminal => Trace(s.(terminal := s.terminal + [Line(v)]), outs, 0)
    case Redirect(original) =>
      var a := WriteLineAsWritten(s, v, outs);
      var b := SinkWriteLineAsWritten(a.state, original, v, a.unused);
      Trace(b.state, b.unused, if a.depth < b.depth then b.depth else a.depth)
  }

  /**
   * With the redirect installed over the terminal, `n` consecutive non-I/O write
   * failures nest `n + 1` write attempts inside one call: each attempt runs inside
   * the catch block of the previous one.
   */
  lemma {:induction false} PersistentFaultNests(s: State, message: string, e: string, n: nat)
    requires s.connected && s.consoleOut == Redirect(Terminal)
    ensures WriteLineAsWritten(s, message, LoggerLaws.Repeat(WriteFailed(e), n)).depth == n + 1
    decreases n
  {
    var outs := LoggerLaws.Repeat(WriteFailed(e), n);
    if n > 0 {
      assert First(outs) == WriteFailed(e) && Rest(outs) == LoggerLaws.Repeat(WriteFailed(e), n - 1);
      var warning := WriteErrorPrefix + e;
      PersistentFaultNests(s, warning, e, n - 1);
      var a := WriteLineAsWritten(s, warning, Rest(outs));
      assert SinkWriteLineAsWritten(a.state, Terminal, warning, a.unused).depth == 0;
      assert SinkWriteLineAsWritten(s, s.consoleOut, warning, Rest(outs)).depth == n;
    }
  }

  /**
   * One non-I/O failure with the redirect installed over the terminal: as written,
   * the warning re-enters the logger while the flag still holds, so it is sent to
   * the pipe as a log line before the flag is cleared. The corrected
   * `LoggerState.WriteLine` clears the flag first and sends nothing to the pipe.
   * Both print the warning on the terminal.
   */
  lemma AsWrittenFailureReachesPipe(s: State, message: string, e: string)
    requires s.connected && s.consoleOut == Redirect(Terminal)
    ensures WriteLineAsWritten(s, message, [WriteFailed(e)]).state
         == s.(pipe := s.pipe + [WriteErrorPrefix + e], connected := false,
               terminal := s.terminal + [Line(WriteErrorPrefix + e)])
    ensures WriteLine(s, message, WriteFailed(e))
         == s.(connected := false, terminal := s.terminal + [Line(WriteErrorPrefix + e)])
    ensures WriteLine(s, message, WriteFailed(e)).pipe == s.pipe
  {
    var w := WriteErrorPrefix + e;
    assert First([WriteFailed(e)]) == WriteFailed(e) && Rest([WriteFailed(e)]) == [];
    var a := WriteLineAsWritten(s, w, []);
    assert a.state == s.(pipe := s.pipe + [w]);
    var s1 := s.(connected := false);
    assert WriteLine(s1, w, First([])) == s1;
    assert WriteLine(s, message, WriteFailed(e)) == SinkWriteLine(s1, Redirect(Terminal), w, []);
  }

  /** No bound limits the nesting: a fault that persists recurses until the stack overflows. */
  lemma UnboundedNesting(s: State, message: string, e: string, bound: nat)
    requires s.connected && s.consoleOut == Redirect(Terminal)
    ensures exists outs :: WriteLineAsWritten(s, message, outs).depth > bound
  {
    PersistentFaultNests(s, message, e, bound);
  }

  /**
   * Without a non-I/O failure the order does not matter: the code as written and
   * the corrected `LoggerState.WriteLine` agree.
   */
  lemma AsWrittenAgreesWithoutFault(s: State, message: string, o: WriteOutcome)
    requires !o.WriteFailed?
    ensures WriteLineAsWritten(s, message, [o]).state == WriteLine(s, message, o)
    ensures WriteLineAsWritten(s, message, [o]).depth <= 1
  {
  }
}
