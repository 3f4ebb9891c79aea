/**
 * The text framing of the pipe: the producer's `StreamWriter.WriteLine` ends each
 * message with the Windows line terminator CR LF, and the viewer's
 * `StreamReader.ReadLine` splits the received text at CR, LF or CR LF.
 */
module Wire {
  import opened Wrappers

  const NewLine: string := "\r\n"

  predicate IsLineBreak(c: char) {
    c == '\r' || c == '\n'
  }

  /** A message without any line-break character. */
  predicate SingleLine(t: string) {
    forall i :: 0 <= i < |t| ==> !IsLineBreak(t[i])
  }

  /** The text the producer puts on the wire for a sequence of messages. */
  function Encode(lines: seq<string>): string {
    if lines == [] then "" else lines[0] + NewLine + Encode(lines[1..])
  }

  /** Index of the first line break of `s`, or `|s|` when there is none. */
  function LineEnd(s: string): (k: nat)
    ensures k <= |s|
    ensures forall i :: 0 <= i < k ==> !IsLineBreak(s[i])
    ensures k < |s| ==> IsLineBreak(s[k])
  {
    if s == [] || IsLineBreak(s[0]) then 0 else 1 + LineEnd(s[1..])
  }

  /**
   * `StreamReader.ReadLine`: `None` (null) at the end of the data; otherwise the text
   * up to the first terminator and what follows it, where CR LF is one terminator.
   */
  function ReadLine(s: string): (r: Option<(string, string)>)
    ensures r.None? <==> s == []
    ensures r.Some? ==> |r.value.1| < |s| && SingleLine(r.value.0) && IsPrefix(r.value.0, s)
  {
    if s == [] then None
    else
      var k := LineEnd(s);
      var rest := if k == |s| then []
                  else if s[k] == '\r' && k + 1 < |s| && s[k + 1] == '\n' then s[k + 2..]
                  else s[k + 1..];
      Some((s[..k], rest))
  }

  predicate IsPrefix(p: string, s: string) {
    |p| <= |s| && s[..|p|] == p
  }

  /** The lines the viewer reads until `ReadLine` returns null. */
  function ReadLines(s: string): seq<string>
    decreases |s|
  {
    match ReadLine(s)
    case None => []
    case Some((line, rest)) => [line] + ReadLines(rest)
  }

  /** One terminated single-line message is read back as itself. */
  lemma ReadTerminatedLine(l: string, rest: string)
    requires SingleLine(l)
    ensures ReadLine(l + NewLine + rest) == Some((l, rest))
  {
    var s := l + NewLine + rest;
    assert s[|l|] == '\r' && s[|l| + 1] == '\n';
    var k := LineEnd(s);
    assert k == |l|;
    assert s[..k] == l;
    assert s[k + 2..] == rest;
  }

  /** Round trip: messages without line breaks arrive as exactly the lines sent, in order. */
  lemma {:induction false} ReadLinesEncode(lines: seq<string>)
    requires forall i :: 0 <= i < |lines| ==> SingleLine(lines[i])
    ensures ReadLines(Encode(lines)) == lines
  {
    if lines != [] {
      ReadTerminatedLine(lines[0], Encode(lines[1..]));
      ReadLinesEncode(lines[1..]);
    }
  }

  /** A line feed ends a line on its own. */
  lemma ReadLineAtLineFeed(l: string, rest: string)
    requires SingleLine(l)
    ensures ReadLine(l + "\n" + rest) == Some((l, rest))
  {
    var s := l + "\n" + rest;
    assert s[|l|] == '\n';
    var k := LineEnd(s);
    assert k == |l|;
    assert s[..k] == l;
    assert s[k + 1..] == rest;
  }

  /** A message with an embedded line feed reaches the viewer as two lines. */
  lemma EmbeddedBreakSplits(a: string, b: string)
    requires SingleLine(a) && SingleLine(b)
    ensures ReadLines(Encode([a + "\n" + b])) == [a, b]
  {
    var s := Encode([a + "\n" + b]);
    assert s == a + "\n" + (b + NewLine + "");
    ReadLineAtLineFeed(a, b + NewLine + "");
    ReadTerminatedLine(b, "");
    assert ReadLines(b + NewLine + "") == [b] + ReadLines("");
  }
}
