/**
 * Properties that cross the process boundary: what a facade call in the plugin
 * looks like on the viewer's console, and the whole path from `ConsoleLogger`'s
 * pipe writes through the wire framing to the viewer's session loop.
 */
module EndToEnd {
  import opened Wrappers
  import opened Text
  import opened Viewer
  import Facade
  import LoggerState
  import LoggerLaws
  import Wire

  /** The colour the viewer gives the single line a facade call sends. */
  function ColorOf(lines: seq<string>, stamp: string, current: Color): Color
    requires |lines| >= 1
  {
    WriteColoredLine(stamp, lines[0], current).shown.color
  }

  /** `WriteError(m)` always renders red, whatever the message holds. */
  lemma WriteErrorRendersRed(m: string, stamp: string, current: Color)
    ensures ColorOf(Facade.WriteError(m), stamp, current) == Red
  {
    assert IsPrefix("[ERROR]", "[ERROR] " + m);
  }

  /** `WriteWarn(m)` renders yellow unless the message itself carries the error marker. */
  lemma WriteWarnColor(m: string, stamp: string, current: Color)
    ensures ColorOf(Facade.WriteWarn(m), stamp, current) == if Contains(m, "[ERROR]") then Red else Yellow
  {
    ContainsAfterPrefix("[WARN] ", m, "[ERROR]");
    assert "[WARN] " + m == Facade.WriteWarn(m)[0];
    assert IsPrefix("[WARN]", "[WARN] " + m);
  }

  /** `WriteInfo(m)` renders green unless the message carries the error or the warning marker. */
  lemma WriteInfoColor(m: string, stamp: string, current: Color)
    ensures ColorOf(Facade.WriteInfo(m), stamp, current) ==
      if Contains(m, "[ERROR]") then Red else if Contains(m, "[WARN]") then Yellow else Green
  {
    ContainsAfterPrefix("[INFO] ", m, "[ERROR]");
    ContainsAfterPrefix("[INFO] ", m, "[WARN]");
    assert "[INFO] " + m == Facade.WriteInfo(m)[0];
    assert IsPrefix("[INFO]", "[INFO] " + m);
  }

  /** The headline of `WriteException` renders red. */
  lemma ExceptionHeadlineRendersRed(ex: Facade.ExceptionInfo, stamp: string, current: Color)
    ensures ColorOf(Facade.WriteException(ex), stamp, current) == Red
  {
    WriteErrorRendersRed("Exception: " + ex.typeName + ": " + ex.message, stamp, current);
  }

  /** A line with no `[` and no `c` that holds `===` takes the banner branch. */
  lemma UnbracketedBanner(line: string)
    requires forall i :: 0 <= i < |line| ==> line[i] != '[' && line[i] != 'c'
    requires Contains(line, "===")
    ensures Classify(line) == Banner
  {
    AbsentChar(line, "[ERROR]", 0);
    AbsentChar(line, "[WARN]", 0);
    AbsentChar(line, "[INFO]", 0);
    AbsentChar(line, "success", 2);
  }

  /** A line with no `[` that holds `success` takes the info branch, whatever else it holds. */
  lemma UnbracketedSuccess(line: string)
    requires forall i :: 0 <= i < |line| ==> line[i] != '['
    requires Contains(line, "success")
    ensures Classify(line) == Info
  {
    AbsentChar(line, "[ERROR]", 0);
    AbsentChar(line, "[WARN]", 0);
  }

  /** The classifier takes the banner branch for the demo plugin's opening banner. */
  lemma BannerClass(banner: string)
    requires banner == "=== Test Plugin Started ==="
    ensures Classify(banner) == Banner
  {
    assert IsPrefix("===", banner);
    UnbracketedBanner(banner);
  }

  /** The classifier takes the info branch for the demo plugin's closing line: `success` outranks `***`. */
  lemma ClosingClass(closing: string)
    requires closing == "*** Test completed successfully ***"
    ensures Classify(closing) == Info
  {
    assert closing[19..26] == "success";
    OccursAtContains(closing, "success", 19);
    UnbracketedSuccess(closing);
  }

  /** A line with no `[`, `u`, `=` or `*` carries no marker: the last branch keeps the colour. */
  lemma UnmarkedIsPlain(line: string)
    requires forall i :: 0 <= i < |line| ==> line[i] != '[' && line[i] != 'u' && line[i] != '=' && line[i] != '*'
    ensures Classify(line) == Plain
  {
    AbsentChar(line, "[ERROR]", 0);
    AbsentChar(line, "[WARN]", 0);
    AbsentChar(line, "[INFO]", 0);
    AbsentChar(line, "success", 1);
    AbsentChar(line, "===", 0);
    AbsentChar(line, "***", 0);
  }

  /** The demo plugin's opening banner renders cyan. */
  lemma DemoBannerIsCyan(banner: string, stamp: string)
    requires banner == "=== Test Plugin Started ==="
    ensures ColorOf(Facade.WriteLine(Facade.Str(banner)), stamp, Default) == Cyan
  {
    BannerClass(banner);
  }

  /** The demo plugin's closing line renders green, not cyan. */
  lemma DemoClosingIsGreen(closing: string, stamp: string)
    requires closing == "*** Test completed successfully ***"
    ensures ColorOf(Facade.WriteLine(Facade.Str(closing)), stamp, Default) == Green
  {
    ClosingClass(closing);
  }

  /**
   * A demo progress line, written through the format overload with the order number
   * already substituted into `progress`, keeps the current colour.
   */
  lemma DemoProgressKeepsColor(progress: string, stamp: string, current: Color)
    requires progress == "Processing order: ORDER-0001"
    ensures Facade.WriteLineFormat(Success(progress)).Success?
    ensures ColorOf(Facade.WriteLineFormat(Success(progress)).value, stamp, current) == current
  {
    UnmarkedIsPlain(progress);
  }

  /** The demo plugin's leveled messages carry no competing marker. */
  lemma DemoMessagesUnmarked(info: string, warn: string)
    requires info == "Plugin initialized successfully"
    requires warn == "This is a warning message"
    ensures !Contains(info, "[ERROR]") && !Contains(info, "[WARN]") && !Contains(warn, "[ERROR]")
  {
    AbsentChar(info, "[ERROR]", 0);
    AbsentChar(info, "[WARN]", 0);
    AbsentChar(warn, "[ERROR]", 0);
  }

  /** The demo plugin's leveled messages render green, yellow and red. */
  lemma DemoLeveledColors(info: string, warn: string, error: string, stamp: string)
    requires info == "Plugin initialized successfully"
    requires warn == "This is a warning message"
    ensures ColorOf(Facade.WriteInfo(info), stamp, Default) == Green
    ensures ColorOf(Facade.WriteWarn(warn), stamp, Default) == Yellow
    ensures ColorOf(Facade.WriteError(error), stamp, Default) == Red
  {
    DemoMessagesUnmarked(info, warn);
    WriteInfoColor(info, stamp, Default);
    WriteWarnColor(warn, stamp, Default);
    WriteErrorRendersRed(error, stamp, Default);
  }

  // ---------------------------------------------------------------------------
  // From the plugin's writes to the viewer's screen

  /** A plugin's successive `ConsoleLogger.WriteLine` calls, each with the next write outcome. */
  function Deliver(s: LoggerState.State, lines: seq<string>, outs: seq<LoggerState.WriteOutcome>): LoggerState.State
    decreases |lines|
  {
    if lines == [] then s
    else Deliver(LoggerState.WriteLine(s, lines[0], LoggerState.First(outs)), lines[1..], LoggerState.Rest(outs))
  }

  /** While every write succeeds, the pipe receives exactly the lines, in order, and the logger stays connected. */
  lemma {:induction false} DeliverAllWritten(s: LoggerState.State, lines: seq<string>, outs: seq<LoggerState.WriteOutcome>)
    requires s.connected
    requires forall i :: 0 <= i < |outs| ==> outs[i] == LoggerState.Written
    ensures Deliver(s, lines, outs) == s.(pipe := s.pipe + lines)
    decreases |lines|
  {
    if lines != [] {
      var s1 := LoggerState.WriteLine(s, lines[0], LoggerState.First(outs));
      LoggerLaws.WriteLineSuccess(s, lines[0]);
      assert s1 == s.(pipe := s.pipe + [lines[0]]);
      var rest := LoggerState.Rest(outs);
      assert forall i :: 0 <= i < |rest| ==> rest[i] == outs[i + 1];
      DeliverAllWritten(s1, lines[1..], rest);
      assert s.pipe + [lines[0]] + lines[1..] == s.pipe + lines;
    }
  }

  /** Once the logger is disconnected, further writes send nothing and change nothing. */
  lemma {:induction false} DeliverDisconnected(s: LoggerState.State, lines: seq<string>, outs: seq<LoggerState.WriteOutcome>)
    requires !s.connected
    ensures Deliver(s, lines, outs) == s
    decreases |lines|
  {
    if lines != [] {
      LoggerLaws.WriteLineWhenDisconnected(s, lines[0], LoggerState.First(outs));
      DeliverDisconnected(s, lines[1..], LoggerState.Rest(outs));
    }
  }

  /** The viewer's read events for lines arriving with the given timestamps, then the end of the stream. */
  function Arrivals(lines: seq<string>, stamps: seq<string>): (events: seq<ReadEvent>)
    requires |stamps| == |lines|
    ensures |events| == |lines| + 1 && events[|lines|] == EndOfStream
    ensures forall k :: 0 <= k < |lines| ==> events[k] == Received(lines[k], stamps[k])
  {
    if lines == [] then [EndOfStream] else [Received(lines[0], stamps[0])] + Arrivals(lines[1..], stamps[1..])
  }

  /**
   * End to end: single-line messages written while the pipe holds up reach the
   * viewer unchanged and in order; the viewer prints each one once, verbatim after
   * its timestamp, in the colour of its marker, and the session ends when the
   * producer closes the pipe.
   */
  lemma EndToEndDelivery(s: LoggerState.State, lines: seq<string>, stamps: seq<string>)
    requires s.connected
    requires forall k :: 0 <= k < |lines| ==> Wire.SingleLine(lines[k])
    requires |stamps| == |lines|
    ensures Deliver(s, lines, []).pipe == s.pipe + lines
    ensures Wire.ReadLines(Wire.Encode(Deliver(s, lines, []).pipe[|s.pipe|..])) == lines
    ensures var r := Session(Arrivals(lines, stamps), Default);
      && |r.screen| == |lines| && r.end == PeerClosed
      && forall k :: 0 <= k < |lines| ==>
           r.screen[k].text == "[" + stamps[k] + "] " + lines[k]
           && r.screen[k].color == SeverityColor(Classify(lines[k])).GetOr(Default)
  {
    DeliverAllWritten(s, lines, []);
    var sent := Deliver(s, lines, []).pipe[|s.pipe|..];
    assert sent == lines;
    Wire.ReadLinesEncode(lines);
    var events := Arrivals(lines, stamps);
    SessionRendersInOrder(events, Default);
    assert LeadingLines(events) == |lines|;
  }
}
