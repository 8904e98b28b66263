/** The dashboard's line tee (`krakey/plugins/dashboard/log_capture.py`). */
module LogTee {
  import opened Basics

  // ---- batch splitting ---------------------------------------------------

  predicate OneLine(s: string) {
    '\n' !in s
  }

  /** A text cut at its newlines: the completed lines and what follows the last newline. */
  datatype Cut = Cut(lines: seq<string>, rest: string)

  function Append(c: Cut, s: string): Cut
    decreases |s|
  {
    if s == "" then c
    else if s[0] == '\n' then Append(Cut(c.lines + [c.rest], ""), s[1..])
    else Append(Cut(c.lines, c.rest + [s[0]]), s[1..])
  }

  /** The whole text split at once. */
  function CutOf(s: string): Cut {
    Append(Cut([], ""), s)
  }

  function Unlines(lines: seq<string>): string {
    if lines == [] then "" else Unlines(lines[..|lines| - 1]) + lines[|lines| - 1] + "\n"
  }

  function Text(c: Cut): string {
    Unlines(c.lines) + c.rest
  }

  predicate Proper(c: Cut) {
    (forall i :: 0 <= i < |c.lines| ==> OneLine(c.lines[i])) && OneLine(c.rest)
  }

  lemma TextSnoc(c: Cut, line: string)
    ensures Text(Cut(c.lines + [line], "")) == Unlines(c.lines) + line + "\n"
  {
    assert (c.lines + [line])[..|c.lines|] == c.lines;
  }

  /** Cutting loses nothing, and no line or rest contains a newline. */
  lemma {:induction false} AppendText(c: Cut, s: string)
    requires Proper(c)
    ensures Text(Append(c, s)) == Text(c) + s
    ensures Proper(Append(c, s))
    decreases |s|
  {
    if s == "" {
      assert Text(c) + s == Text(c);
    } else {
      assert s == [s[0]] + s[1..];
      if s[0] == '\n' {
        AppendText(Cut(c.lines + [c.rest], ""), s[1..]);
        TextSnoc(c, c.rest);
      } else {
        AppendText(Cut(c.lines, c.rest + [s[0]]), s[1..]);
        assert Unlines(c.lines) + (c.rest + [s[0]]) == Text(c) + [s[0]];
      }
      assert Text(c) + [s[0]] + s[1..] == Text(c) + s;
    }
  }

  /** Cutting is incremental. */
  lemma {:induction false} AppendTwice(c: Cut, s: string, t: string)
    ensures Append(Append(c, s), t) == Append(c, s + t)
    decreases |s|
  {
    if s == "" {
      assert s + t == t;
    } else {
      assert (s + t)[1..] == s[1..] + t;
      if s[0] == '\n' {
        AppendTwice(Cut(c.lines + [c.rest], ""), s[1..], t);
      } else {
        AppendTwice(Cut(c.lines, c.rest + [s[0]]), s[1..], t);
      }
    }
  }

  lemma {:induction false} AppendLine(c: Cut, line: string, rest: string)
    requires OneLine(line)
    ensures Append(c, line + "\n" + rest) == Append(Cut(c.lines + [c.rest + line], ""), rest)
    decreases |line|
  {
    var s := line + "\n" + rest;
    if line == "" {
      assert s[1..] == rest && c.rest + line == c.rest;
    } else {
      assert s[1..] == line[1..] + "\n" + rest;
      AppendLine(Cut(c.lines, c.rest + [line[0]]), line[1..], rest);
      assert c.rest + [line[0]] + line[1..] == c.rest + line;
    }
  }

  lemma {:induction false} AppendOneLine(c: Cut, s: string)
    requires OneLine(s)
    ensures Append(c, s) == Cut(c.lines, c.rest + s)
    decreases |s|
  {
    if s == "" {
      assert c.rest + s == c.rest;
    } else {
      AppendOneLine(Cut(c.lines, c.rest + [s[0]]), s[1..]);
      assert c.rest + [s[0]] + s[1..] == c.rest + s;
    }
  }

  /** The same two facts from the start of a line. */
  lemma StartLine(lines: seq<string>, line: string, rest: string)
    requires OneLine(line)
    ensures Append(Cut(lines, ""), line + "\n" + rest) == Append(Cut(lines + [line], ""), rest)
    ensures Append(Cut(lines, ""), line) == Cut(lines, line)
  {
    AppendLine(Cut(lines, ""), line, rest);
    AppendOneLine(Cut(lines, ""), line);
    assert "" + line == line;
  }

  /** There is only one way to read a text as newline-free lines and a newline-free rest. */
  lemma {:induction false} CutIsUnique(c: Cut)
    requires Proper(c)
    ensures CutOf(Text(c)) == c
    decreases |c.lines|
  {
    if c.lines == [] {
      assert Text(c) == c.rest;
      StartLine([], c.rest, "");
    } else {
      var n := |c.lines| - 1;
      CutIsUnique(Cut(c.lines[..n], ""));
      assert Text(Cut(c.lines[..n], "")) == Unlines(c.lines[..n]);
      var tail := c.lines[n] + "\n" + c.rest;
      assert Text(c) == Unlines(c.lines[..n]) + tail;
      AppendTwice(Cut([], ""), Unlines(c.lines[..n]), tail);
      StartLine(c.lines[..n], c.lines[n], c.rest);
      StartLine(c.lines, c.rest, "");
      assert c.lines == c.lines[..n] + [c.lines[n]];
    }
  }

  // ---- two streams into one ring buffer ----------------------------------

  datatype Stream = Stdout | Stderr

  /** What a caller passes to `write`. */
  datatype Argument = Chars(s: string) | NotText

  datatype Write = Write(stream: Stream, arg: Argument)

  datatype Tagged = Tagged(stream: Stream, line: string)

  function Written(ws: seq<Write>, stream: Stream): string {
    if ws == [] then ""
    else
      var w := ws[|ws| - 1];
      Written(ws[..|ws| - 1], stream) + if w.stream == stream && w.arg.Chars? then w.arg.s else ""
  }

  function LinesOf(emitted: seq<Tagged>, stream: Stream): seq<string> {
    if emitted == [] then []
    else
      var t := emitted[|emitted| - 1];
      LinesOf(emitted[..|emitted| - 1], stream) + if t.stream == stream then [t.line] else []
  }

  function Untagged(emitted: seq<Tagged>): (lines: seq<string>)
    ensures |lines| == |emitted|
  {
    seq(|emitted|, i requires 0 <= i < |emitted| => emitted[i].line)
  }

  /** A bounded deque keeps the last `n` of everything ever appended. */
  lemma LastNSnoc(lines: seq<string>, line: string, n: nat)
    ensures LastN(LastN(lines, n) + [line], n) == LastN(lines + [line], n)
  {
  }

  lemma LinesOfSnoc(emitted: seq<Tagged>, t: Tagged, stream: Stream)
    ensures LinesOf(emitted + [t], stream)
         == LinesOf(emitted, stream) + if t.stream == stream then [t.line] else []
  {
    assert (emitted + [t])[..|emitted|] == emitted;
  }

  lemma WrittenSnoc(ws: seq<Write>, w: Write, stream: Stream)
    ensures Written(ws + [w], stream)
         == Written(ws, stream) + if w.stream == stream && w.arg.Chars? then w.arg.s else ""
  {
    assert (ws + [w])[..|ws|] == ws;
  }

  lemma CutOfSnoc(ws: seq<Write>, w: Write, stream: Stream)
    ensures CutOf(Written(ws + [w], stream))
         == Append(CutOf(Written(ws, stream)), if w.stream == stream && w.arg.Chars? then w.arg.s else "")
  {
    WrittenSnoc(ws, w, stream);
    AppendTwice(Cut([], ""), Written(ws, stream), if w.stream == stream && w.arg.Chars? then w.arg.s else "");
  }

  // ---- the source's objects ----------------------------------------------

  class LogCapture {
    const historySize: nat
    var recent: seq<string>
    ghost var emitted: seq<Tagged>

    ghost predicate Valid()
      reads this
    {
      recent == LastN(Untagged(emitted), historySize)
    }

    constructor (historySize: nat)
      ensures Valid() && emitted == [] && this.historySize == historySize
    {
      this.historySize := historySize;
      recent, emitted := [], [];
    }

    method OnLine(line: string, ghost stream: Stream)
      requires Valid()
      modifies this
      ensures Valid() && emitted == old(emitted) + [Tagged(stream, line)]
    {
      LastNSnoc(Untagged(emitted), line, historySize);
      emitted := emitted + [Tagged(stream, line)];
      assert Untagged(emitted) == Untagged(old(emitted)) + [line];
      recent := recent + [line];
      if |recent| > historySize {
        recent := recent[|recent| - historySize..];
      }
    }

    method Recent() returns (lines: seq<string>)
      requires Valid()
      ensures lines == LastN(Untagged(emitted), historySize)
    {
      lines := recent;
    }
  }

  method Partition(s: string) returns (line: string, found: bool, rest: string)
    ensures found <==> '\n' in s
    ensures OneLine(line)
    ensures found ==> s == line + "\n" + rest
    ensures !found ==> line == s && rest == ""
  {
    for i := 0 to |s|
      invariant '\n' !in s[..i]
    {
      if s[i] == '\n' {
        assert s == s[..i] + "\n" + s[i + 1..];
        return s[..i], true, s[i + 1..];
      }
    }
    assert s[..|s|] == s;
    return s, false, "";
  }

  class Tee {
    const stream: Stream
    const capture: LogCapture
    var buf: string

    constructor (stream: Stream, capture: LogCapture)
      ensures this.stream == stream && this.capture == capture && buf == ""
    {
      this.stream, this.capture, this.buf := stream, capture, "";
    }

    /** Whatever was buffered plus the new text, cut at its newlines: the completed lines go out in order,
        the rest stays buffered, and the other stream's lines are untouched. */
    method DoWrite(arg: Argument) returns (n: nat)
      requires capture.Valid() && OneLine(buf)
      modifies this, capture
      ensures capture.Valid() && OneLine(buf)
      ensures n == if arg.Chars? then |arg.s| else 0
      ensures Cut(LinesOf(capture.emitted, stream), buf)
           == Append(Cut(LinesOf(old(capture.emitted), stream), old(buf)), if arg.Chars? then arg.s else "")
      ensures forall other :: other != stream ==>
                LinesOf(capture.emitted, other) == LinesOf(old(capture.emitted), other)
      ensures old(capture.emitted) <= capture.emitted
    {
      if arg.NotText? {
        return 0;
      }
      buf := buf + arg.s;
      StartLine(LinesOf(capture.emitted, stream), old(buf), "");
      AppendTwice(Cut(LinesOf(capture.emitted, stream), ""), old(buf), arg.s);
      ghost var goal := Append(Cut(LinesOf(capture.emitted, stream), ""), buf);
      var line, found, rest := Partition(buf);
      while found
        invariant capture.Valid() && old(capture.emitted) <= capture.emitted
        invariant found <==> '\n' in buf
        invariant OneLine(line) && (found ==> buf == line + "\n" + rest)
        invariant Append(Cut(LinesOf(capture.emitted, stream), ""), buf) == goal
        invariant forall other :: other != stream ==>
                    LinesOf(capture.emitted, other) == LinesOf(old(capture.emitted), other)
        decreases |buf|
      {
        StartLine(LinesOf(capture.emitted, stream), line, rest);
        LinesOfSnoc(capture.emitted, Tagged(stream, line), Stdout);
        LinesOfSnoc(capture.emitted, Tagged(stream, line), Stderr);
        buf := rest;
        capture.OnLine(line, stream);
        line, found, rest := Partition(buf);
      }
      StartLine(LinesOf(capture.emitted, stream), buf, "");
      n := |arg.s|;
    }
  }

  lemma NoLinesYet(stream: Stream)
    ensures LinesOf([], stream) == []
  {
  }

  lemma AppendNothing(c: Cut)
    ensures Append(c, "") == c
  {
  }

  lemma CutOfNothing(stream: Stream)
    ensures CutOf(Written([], stream)) == Cut([], "")
  {
  }

  /** Streaming equals batch, over any run: both tees, any writes in any order. Each stream's emitted lines
      and residual are the batch cut of everything written to it, and `recent` is the tail of one
      interleaving of the two. */
  method Replay(ws: seq<Write>, historySize: nat) returns (capture: LogCapture, outRest: string, errRest: string)
    ensures Cut(LinesOf(capture.emitted, Stdout), outRest) == CutOf(Written(ws, Stdout))
    ensures Cut(LinesOf(capture.emitted, Stderr), errRest) == CutOf(Written(ws, Stderr))
    ensures capture.recent == LastN(Untagged(capture.emitted), historySize)
  {
    hide CutOf, Written, Append, LinesOf;
    NoLinesYet(Stdout);
    NoLinesYet(Stderr);
    capture := new LogCapture(historySize);
    CutOfNothing(Stdout);
    CutOfNothing(Stderr);
    var stdout := new Tee(Stdout, capture);
    var stderr := new Tee(Stderr, capture);
    for i := 0 to |ws|
      invariant capture.Valid() && OneLine(stdout.buf) && OneLine(stderr.buf)
      invariant Cut(LinesOf(capture.emitted, Stdout), stdout.buf) == CutOf(Written(ws[..i], Stdout))
      invariant Cut(LinesOf(capture.emitted, Stderr), stderr.buf) == CutOf(Written(ws[..i], Stderr))
    {
      var w := ws[i];
      assert ws[..i + 1] == ws[..i] + [w];
      AppendNothing(Cut(LinesOf(capture.emitted, Stdout), stdout.buf));
      AppendNothing(Cut(LinesOf(capture.emitted, Stderr), stderr.buf));
      CutOfSnoc(ws[..i], w, Stdout);
      CutOfSnoc(ws[..i], w, Stderr);
      var n;
      if w.stream == Stdout {
        n := stdout.DoWrite(w.arg);
      } else {
        n := stderr.DoWrite(w.arg);
      }
    }
    assert ws[..|ws|] == ws;
    outRest, errRest := stdout.buf, stderr.buf;
  }
}
