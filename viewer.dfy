/**
 * The viewer process (Program.cs): an accept loop that serves one pipe session at a
 * time, a per-session read loop, and the classifier that colours each received line.
 * Timestamps are carried by the events (the source reads the clock), and the
 * console's foreground colour is threaded through explicitly.
 */
module Viewer {
  import opened Wrappers
  import opened Text

  /** Foreground colours; `Default` is what `ResetColor` restores. */
  datatype Color = Default | Red | Yellow | Green | Cyan

  /** The branch of `WriteColoredLine`'s if/else-if chain that a line takes. */
  datatype Severity = Error | Warn | Info | Banner | Plain

  /** First matching marker wins: `[ERROR]`, then `[WARN]`, then `[INFO]`/`success`, then `===`/`***`. */
  function Classify(line: string): Severity {
    if Contains(line, "[ERROR]") then Error
    else if Contains(line, "[WARN]") then Warn
    else if Contains(line, "[INFO]") || Contains(line, "success") then Info
    else if Contains(line, "===") || Contains(line, "***") then Banner
    else Plain
  }

  /** The colour each branch assigns; the last branch assigns none. */
  function SeverityColor(sev: Severity): Option<Color> {
    match sev
    case Error => Some(Red)
    case Warn => Some(Yellow)
    case Info => Some(Green)
    case Banner => Some(Cyan)
    case Plain => None
  }

  /** Reference definition: a marker table scanned in priority order. */
  const Markers: seq<(string, Severity)> :=
    [("[ERROR]", Error), ("[WARN]", Warn), ("[INFO]", Info), ("success", Info), ("===", Banner), ("***", Banner)]

  function FirstMatch(table: seq<(string, Severity)>, line: string): Severity {
    if table == [] then Plain
    else if Contains(line, table[0].0) then table[0].1
    else FirstMatch(table[1..], line)
  }

  /** The if/else-if chain is the first-match scan of the marker table. */
  lemma ClassifyIsFirstMatch(line: string)
    ensures Classify(line) == FirstMatch(Markers, line)
  {
    var t := Markers;
    assert FirstMatch(t, line) == if Contains(line, "[ERROR]") then Error else FirstMatch(t[1..], line);
    assert FirstMatch(t[1..], line) == if Contains(line, "[WARN]") then Warn else FirstMatch(t[2..], line);
    assert FirstMatch(t[2..], line) == if Contains(line, "[INFO]") then Info else FirstMatch(t[3..], line);
    assert FirstMatch(t[3..], line) == if Contains(line, "success") then Info else FirstMatch(t[4..], line);
    assert FirstMatch(t[4..], line) == if Contains(line, "===") then Banner else FirstMatch(t[5..], line);
    assert FirstMatch(t[5..], line) == if Contains(line, "***") then Banner else FirstMatch(t[6..], line);
    assert t[6..] == [];
  }

  /** Each colour is chosen exactly when its marker is present and no earlier marker is. */
  lemma ClassifyPriority(line: string)
    ensures Classify(line) == Error <==> Contains(line, "[ERROR]")
    ensures Classify(line) == Warn <==> !Contains(line, "[ERROR]") && Contains(line, "[WARN]")
    ensures Classify(line) == Info <==>
      !Contains(line, "[ERROR]") && !Contains(line, "[WARN]") && (Contains(line, "[INFO]") || Contains(line, "success"))
    ensures Classify(line) == Banner <==>
      !Contains(line, "[ERROR]") && !Contains(line, "[WARN]") && !Contains(line, "[INFO]") && !Contains(line, "success")
      && (Contains(line, "===") || Contains(line, "***"))
    ensures Classify(line) == Plain <==>
      forall k :: 0 <= k < |Markers| ==> !Contains(line, Markers[k].0)
  {
    if Classify(line) != Plain {
      var k := if Contains(line, "[ERROR]") then 0 else if Contains(line, "[WARN]") then 1
        else if Contains(line, "[INFO]") then 2 else if Contains(line, "success") then 3
        else if Contains(line, "===") then 4 else 5;
      assert Contains(line, Markers[k].0);
    }
  }

  /** A line as it appears on the viewer's console. */
  datatype Rendered = Rendered(color: Color, text: string)

  /** What `WriteColoredLine` prints and the colour the console is left with. */
  datatype Painted = Painted(shown: Rendered, after: Color)

  /**
   * `WriteColoredLine`: set the colour of the line's branch (or keep the current
   * colour for the last branch), print `[stamp] line`, reset the colour.
   */
  function WriteColoredLine(stamp: string, line: string, current: Color): (p: Painted)
    ensures p.after == Default
    ensures p.shown.color == SeverityColor(Classify(line)).GetOr(current)
  {
    var color := match SeverityColor(Classify(line)) case Some(c) => c case None => current;
    Painted(Rendered(color, "[" + stamp + "] " + line), Default)
  }

  /** The received line appears verbatim after the timestamp decoration. */
  lemma RenderedTextVerbatim(stamp: string, line: string, current: Color)
    ensures var t := WriteColoredLine(stamp, line, current).shown.text;
      |t| == |stamp| + 3 + |line| && t[|stamp| + 3..] == line && t[..|stamp| + 3] == "[" + stamp + "] "
  {
  }

  // ---------------------------------------------------------------------------
  // The session loop (ReadFromPipeAsync)

  /**
   * One step of the session loop: the loop guard failed (`Stop`: cancellation was
   * requested or the pipe reports it is no longer connected), or `ReadLineAsync`
   * returned a line, returned null, threw an `IOException`, or threw another exception.
   */
  datatype ReadEvent =
    | Stop
    | Received(line: string, stamp: string)
    | EndOfStream
    | Broken(stamp: string)
    | ReadFailed(message: string)

  datatype SessionEnd = PeerClosed | Disconnected | Failed(message: string) | Stopped

  datatype SessionResult = SessionResult(screen: seq<Rendered>, end: SessionEnd, color: Color)

  /** The session's console output, how it ended, and the colour it leaves. An exhausted input is the end of the stream. */
  function Session(events: seq<ReadEvent>, fg: Color): SessionResult
    decreases |events|
  {
    if events == [] then SessionResult([], PeerClosed, fg)
    else match events[0]
      case Stop => SessionResult([], Stopped, fg)
      case Received(line, stamp) =>
        var p := WriteColoredLine(stamp, line, fg);
        var rest := Session(events[1..], p.after);
        SessionResult([p.shown] + rest.screen, rest.end, rest.color)
      case EndOfStream => SessionResult([], PeerClosed, fg)
      case Broken(stamp) => SessionResult([Rendered(fg, "\n[" + stamp + "] Plugin disconnected.")], Disconnected, fg)
      case ReadFailed(m) => SessionResult([Rendered(fg, "[ERROR] " + m)], Failed(m), fg)
  }

  /** Number of leading `Received` events: the lines the session renders. */
  function LeadingLines(events: seq<ReadEvent>): (n: nat)
    ensures n <= |events|
    ensures forall k :: 0 <= k < n ==> events[k].Received?
    ensures n < |events| ==> !events[n].Received?
  {
    if events == [] || !events[0].Received? then 0 else 1 + LeadingLines(events[1..])
  }

  /**
   * The session renders the received lines in order, one output each, with the
   * line verbatim after the timestamp; it stops at the first other event and adds at
   * most one report line; a broken stream ends it as `Disconnected`.
   */
  lemma {:induction false} SessionRendersInOrder(events: seq<ReadEvent>, fg: Color)
    ensures var r := Session(events, fg); var n := LeadingLines(events);
      && |r.screen| == n + (if n < |events| && (events[n].Broken? || events[n].ReadFailed?) then 1 else 0)
      && (forall k :: 0 <= k < n ==>
            r.screen[k] == WriteColoredLine(events[k].stamp, events[k].line, if k == 0 then fg else Default).shown)
      && (n < |events| && events[n].Broken? ==> r.end == Disconnected)
      && (n == |events| || events[n].EndOfStream? ==> r.end == PeerClosed)
    decreases |events|
  {
    if events != [] && events[0].Received? {
      var p := WriteColoredLine(events[0].stamp, events[0].line, fg);
      SessionRendersInOrder(events[1..], p.after);
      var r := Session(events, fg);
      var r' := Session(events[1..], Default);
      assert LeadingLines(events) == 1 + LeadingLines(events[1..]);
      forall k | 1 <= k < LeadingLines(events)
        ensures r.screen[k] == WriteColoredLine(events[k].stamp, events[k].line, Default).shown
      {
        assert r.screen[k] == r'.screen[k - 1];
        assert events[1..][k - 1] == events[k];
      }
    }
  }

  /** `ReadFromPipeAsync`: the read loop of one session. */
  method ReadFromPipe(events: seq<ReadEvent>, fg: Color) returns (screen: seq<Rendered>, end: SessionEnd, fgOut: Color)
    ensures SessionResult(screen, end, fgOut) == Session(events, fg)
  {
    screen, end, fgOut := [], PeerClosed, fg;
    var i := 0;
    while i < |events|
      invariant 0 <= i <= |events|
      invariant end == PeerClosed
      invariant var rest := Session(events[i..], fgOut);
        SessionResult(screen + rest.screen, rest.end, rest.color) == Session(events, fg)
    {
      match events[i] {
      case Stop =>
        end := Stopped;
        break;
      case Received(line, stamp) =>
        assert events[i..][1..] == events[i + 1..];
        var p := WriteColoredLine(stamp, line, fgOut);
        screen := screen + [p.shown];
        fgOut := p.after;
      case EndOfStream =>
        break;
      case Broken(stamp) =>
        screen := screen + [Rendered(fgOut, "\n[" + stamp + "] Plugin disconnected.")];
        end := Disconnected;
        break;
      case ReadFailed(m) =>
        screen := screen + [Rendered(fgOut, "[ERROR] " + m)];
        end := Failed(m);
        break;
      }
      i := i + 1;
    }
  }

  // ---------------------------------------------------------------------------
  // The accept loop (RunServerAsync)

  datatype DelayOutcome = Elapsed | DelayCancelled

  /**
   * One iteration of the accept loop: the loop guard sees cancellation; a plugin
   * connects and its session is served; the wait for a connection is cancelled; or
   * another exception is thrown (before the waiting message when `waited` is
   * `None`), after which the one-second back-off either elapses or is cancelled.
   */
  datatype Iteration =
    | Cancelled
    | Served(waitStamp: string, connectStamp: string, session: seq<ReadEvent>)
    | WaitCancelled(waitStamp: string)
    | ServerFault(waited: Option<string>, message: string, delay: DelayOutcome)

  /**
   * How the loop ends: the `OperationCanceledException` handler prints the shut-down
   * message (`ShutDown`); the loop guard sees cancellation (`GuardExit`); the
   * back-off `Task.Delay` is cancelled and its exception leaves `RunServerAsync`
   * (`CancelEscaped`); or the input ends while the viewer is still listening.
   */
  datatype ServerEnd = ShutDown | GuardExit | CancelEscaped | StillListening

  datatype ServerResult = ServerResult(screen: seq<Rendered>, end: ServerEnd, color: Color)

  function Waiting(stamp: string, fg: Color): Rendered {
    Rendered(fg, "[" + stamp + "] Waiting for plugin connection...")
  }

  /** The iterations that end the loop. */
  predicate Cancels(it: Iteration) {
    it.Cancelled? || it.WaitCancelled? || (it.ServerFault? && it.delay == DelayCancelled)
  }

  /** The end that a loop-ending iteration produces. */
  function EndOf(it: Iteration): ServerEnd {
    match it
    case Cancelled => GuardExit
    case WaitCancelled(_) => ShutDown
    case ServerFault(_, _, _) => CancelEscaped
    case Served(_, _, _) => StillListening
  }

  /** The viewer's console output over a run of the accept loop. */
  function Server(its: seq<Iteration>, fg: Color): ServerResult
    decreases |its|
  {
    if its == [] then ServerResult([], StillListening, fg)
    else match its[0]
      case Cancelled => ServerResult([], GuardExit, fg)
      case Served(w, c, events) =>
        var session := Session(events, fg);
        var rest := Server(its[1..], session.color);
        ServerResult([Waiting(w, fg), Rendered(fg, "[" + c + "] Plugin connected!\n")] + session.screen + rest.screen,
          rest.end, rest.color)
      case WaitCancelled(w) =>
        ServerResult([Waiting(w, fg), Rendered(fg, "\nShutting down...")], ShutDown, fg)
      case ServerFault(w, m, delay) =>
        var report := (if w.Some? then [Waiting(w.value, fg)] else []) + [Rendered(fg, "[ERROR] " + m)];
        if delay == DelayCancelled then ServerResult(report, CancelEscaped, fg)
        else
          var rest := Server(its[1..], fg);
          ServerResult(report + rest.screen, rest.end, rest.color)
  }

  /** Index of the first loop-ending iteration, or `|its|`. */
  function FirstCancel(its: seq<Iteration>): (k: nat)
    ensures k <= |its|
    ensures forall j :: 0 <= j < k ==> !Cancels(its[j])
    ensures k < |its| ==> Cancels(its[k])
  {
    if its == [] || Cancels(its[0]) then 0 else 1 + FirstCancel(its[1..])
  }

  /**
   * The loop ends only at a cancellation, and at the first one: every served
   * session and every other exception goes back to listening.
   */
  lemma {:induction false} ServerEndsAtFirstCancellation(its: seq<Iteration>, fg: Color)
    ensures var r := Server(its, fg); var k := FirstCancel(its);
      && (r.end == StillListening <==> k == |its|)
      && (k < |its| ==> r.end == EndOf(its[k]))
    decreases |its|
  {
    if its != [] && !Cancels(its[0]) {
      var fg' := if its[0].Served? then Session(its[0].session, fg).color else fg;
      ServerEndsAtFirstCancellation(its[1..], fg');
      assert FirstCancel(its) == 1 + FirstCancel(its[1..]);
    }
  }

  /** A session leaves the console in the default colour once it has rendered a line. */
  lemma {:induction false} SessionColorAfter(events: seq<ReadEvent>, fg: Color)
    ensures Session(events, fg).color == if LeadingLines(events) > 0 then Default else fg
    decreases |events|
  {
    if events != [] && events[0].Received? {
      SessionColorAfter(events[1..], Default);
    }
  }

  /** Started in the default colour, the viewer's console is in the default colour whenever it is idle. */
  lemma {:induction false} ServerKeepsDefaultColor(its: seq<Iteration>)
    ensures Server(its, Default).color == Default
    decreases |its|
  {
    if its != [] {
      match its[0]
      case Served(w, c, events) =>
        SessionColorAfter(events, Default);
        ServerKeepsDefaultColor(its[1..]);
      case ServerFault(w, m, delay) =>
        if delay == Elapsed {
          ServerKeepsDefaultColor(its[1..]);
        }
      case Cancelled =>
      case WaitCancelled(_) =>
    }
  }

  /** The output of an iteration appended before the output of the rest of the run. */
  function Prepend(pre: seq<Rendered>, r: ServerResult): ServerResult {
    ServerResult(pre + r.screen, r.end, r.color)
  }

  lemma PrependPrepend(a: seq<Rendered>, b: seq<Rendered>, r: ServerResult)
    ensures Prepend(a, Prepend(b, r)) == Prepend(a + b, r)
  {
    assert a + (b + r.screen) == (a + b) + r.screen;
  }

  /** `RunServerAsync`: accept, serve, and go back to listening until cancelled. */
  method RunServer(its: seq<Iteration>, fg: Color) returns (screen: seq<Rendered>, end: ServerEnd, fgOut: Color)
    ensures ServerResult(screen, end, fgOut) == Server(its, fg)
  {
    screen, end, fgOut := [], StillListening, fg;
    var i := 0;
    while i < |its|
      invariant 0 <= i <= |its|
      invariant end == StillListening
      invariant Prepend(screen, Server(its[i..], fgOut)) == Server(its, fg)
    {
      assert its[i..][1..] == its[i + 1..];
      match its[i] {
      case Cancelled =>
        end := GuardExit;
        break;
      case Served(w, c, events) =>
        var greeting := [Waiting(w, fgOut), Rendered(fgOut, "[" + c + "] Plugin connected!\n")];
        var shown, _, after := ReadFromPipe(events, fgOut);
        assert Server(its[i..], fgOut) == Prepend(greeting + shown, Server(its[i + 1..], after));
        PrependPrepend(screen, greeting + shown, Server(its[i + 1..], after));
        screen := screen + (greeting + shown);
        fgOut := after;
      case WaitCancelled(w) =>
        screen := screen + [Waiting(w, fgOut), Rendered(fgOut, "\nShutting down...")];
        end := ShutDown;
        break;
      case ServerFault(w, m, delay) =>
        var report := (if w.Some? then [Waiting(w.value, fgOut)] else []) + [Rendered(fgOut, "[ERROR] " + m)];
        if delay == DelayCancelled {
          screen := screen + report;
          end := CancelEscaped;
          break;
        }
        assert Server(its[i..], fgOut) == Prepend(report, Server(its[i + 1..], fgOut));
        PrependPrepend(screen, report, Server(its[i + 1..], fgOut));
        screen := screen + report;
      }
      i := i + 1;
    }
  }
}
