/** Line framing over a byte stream (src/atsq/transport.py): the peer cuts the bytes as it likes. */
module Transport {
  import opened Sequences
  import opened Utf8

  const LF: byte := 0x0A
  const CR: byte := 0x0D
  const LINE_TERMINATOR: Bytes := [LF, CR]

  /**
   One return of the stream's `read`: the bytes, none at the end of the stream, and whether the
   transport was closed by someone else while the read was waiting.
   */
  datatype Read = Read(chunk: Bytes, closedMeanwhile: bool)

  /** The reading half: what is buffered, the closed flag, and what the stream will still return. */
  datatype Reader = Reader(buffer: Bytes, closed: bool, stream: seq<Read>)

  datatype ReadResult = Line(line: Bytes) | ConnectionClosed

  function Find(b: Bytes, x: byte): (i: int)
    ensures -1 <= i < |b|
    ensures i == -1 <==> x !in b
    ensures i >= 0 ==> b[i] == x && forall j :: 0 <= j < i ==> b[j] != x
  {
    if |b| == 0 then -1
    else if b[0] == x then 0
    else
      var i := Find(b[1..], x);
      if i == -1 then -1 else i + 1
  }

  function StripLeft(b: Bytes): Bytes {
    if |b| > 0 && b[0] == CR then StripLeft(b[1..]) else b
  }

  function StripRight(b: Bytes): Bytes {
    if |b| > 0 && b[|b| - 1] == CR then StripRight(b[..|b| - 1]) else b
  }

  /** `strip(b"\r")`. */
  function Strip(b: Bytes): Bytes {
    StripRight(StripLeft(b))
  }

  /** Stripping takes carriage returns from both ends, all of them, and nothing else. */
  lemma {:induction false} StripTrims(b: Bytes)
    ensures Strip([0x0D] + b) == Strip(b) && Strip(b + [0x0D]) == Strip(b)
    ensures (|b| > 0 ==> b[0] != 0x0D && b[|b| - 1] != 0x0D) ==> Strip(b) == b
  {
    assert ([0x0D] + b)[1..] == b;
    StripRightOfEnd(b);
  }

  lemma {:induction false} StripRightOfEnd(b: Bytes)
    ensures Strip(b + [0x0D]) == Strip(b)
  {
    var longer := b + [0x0D];
    if |b| == 0 {
      assert longer == [0x0D] && longer[1..] == [];
    } else if b[0] == CR {
      assert longer[1..] == b[1..] + [0x0D];
      StripRightOfEnd(b[1..]);
    } else {
      assert StripLeft(longer) == longer && StripLeft(b) == b;
      assert longer[..|longer| - 1] == b;
    }
  }

  /** One call of `read_line`, as a function of the reading half. */
  function ReadLine(r: Reader): (ReadResult, Reader)
    decreases |r.stream|
  {
    var newline := Find(r.buffer, LF);
    if newline != -1 then (Line(Strip(r.buffer[..newline])), r.(buffer := r.buffer[newline + 1..]))
    else if r.closed then (ConnectionClosed, r)
    else if |r.stream| == 0 then (ConnectionClosed, r.(closed := true))
    else if |r.stream[0].chunk| == 0 then (ConnectionClosed, r.(closed := true, stream := r.stream[1..]))
    else ReadLine(Reader(r.buffer + r.stream[0].chunk, r.stream[0].closedMeanwhile, r.stream[1..]))
  }

  // ----- What a byte stream says, whatever the cuts -----

  /** The bytes a stream delivers: up to its end, or through the read during which the transport closed. */
  function Delivered(stream: seq<Read>): Bytes {
    if |stream| == 0 || |stream[0].chunk| == 0 then []
    else stream[0].chunk + (if stream[0].closedMeanwhile then [] else Delivered(stream[1..]))
  }

  /** Everything this reader can still see. */
  function Visible(r: Reader): Bytes {
    r.buffer + (if r.closed then [] else Delivered(r.stream))
  }

  function StripEach(pieces: seq<Bytes>): (r: seq<Bytes>)
    ensures |r| == |pieces|
    ensures forall i :: 0 <= i < |pieces| ==> r[i] == Strip(pieces[i])
  {
    seq(|pieces|, i requires 0 <= i < |pieces| => Strip(pieces[i]))
  }

  /** The newline-terminated segments of a byte string, stripped; the unterminated rest is not one of them. */
  function Lines(b: Bytes): seq<Bytes> {
    var pieces := Split(b, LF);
    StripEach(pieces[..|pieces| - 1])
  }

  lemma {:induction false} LinesCutAtNewline(a: Bytes, b: Bytes)
    requires LF !in a
    ensures Lines(a + [LF] + b) == [Strip(a)] + Lines(b)
  {
    SplitConcat(a, LF, b);
    SplitWithoutSeparator(a, LF);
    var rest := Split(b, LF);
    assert ([a] + rest)[..|rest|] == [a] + rest[..|rest| - 1];
  }

  lemma {:induction false} NoNewlineNoLine(b: Bytes)
    requires LF !in b
    ensures Lines(b) == []
  {
    SplitWithoutSeparator(b, LF);
  }

  lemma {:induction false} ReadsFromBuffer(r: Reader, newline: int)
    requires newline == Find(r.buffer, LF) && newline != -1
    ensures ReadLine(r) == (Line(Strip(r.buffer[..newline])), r.(buffer := r.buffer[newline + 1..]))
  {
  }

  predicate AtEnd(r: Reader) {
    r.closed || |r.stream| == 0 || |r.stream[0].chunk| == 0
  }

  lemma {:induction false} ReadsTheEnd(r: Reader)
    requires LF !in r.buffer && AtEnd(r)
    ensures ReadLine(r) ==
            (ConnectionClosed,
             if r.closed then r else r.(closed := true, stream := if |r.stream| == 0 then r.stream else r.stream[1..]))
  {
  }

  lemma {:induction false} ReadsMore(r: Reader)
    requires LF !in r.buffer && !AtEnd(r)
    ensures ReadLine(r) == ReadLine(AfterRead(r))
  {
  }

  function AfterRead(r: Reader): Reader
    requires |r.stream| > 0
  {
    Reader(r.buffer + r.stream[0].chunk, r.stream[0].closedMeanwhile, r.stream[1..])
  }

  lemma {:induction false} ReadLineFromBuffer(r: Reader, newline: nat)
    requires newline < |r.buffer| && r.buffer[newline] == LF && LF !in r.buffer[..newline]
    ensures TakesFirstLine(r, Strip(r.buffer[..newline]), r.(buffer := r.buffer[newline + 1..]))
  {
    var more := if r.closed then [] else Delivered(r.stream);
    var segment, tail := r.buffer[..newline], r.buffer[newline + 1..];
    assert r.buffer + more == segment + [LF] + (tail + more);
    LinesCutAtNewline(segment, tail + more);
  }

  /** Exactly one newline-terminated segment has gone, and it is the line up to carriage returns. */
  ghost predicate TakesFirstLine(r: Reader, line: Bytes, next: Reader) {
    && Lines(Visible(r)) == [line] + Lines(Visible(next))
    && exists segment: Bytes ::
         LF !in segment && line == Strip(segment) && Visible(r) == segment + [LF] + Visible(next)
  }

  /**
   One `read_line` returns the first line of what is visible and leaves the others; it reports the
   closed connection exactly when no complete line is left, and then consumes nothing.
   */
  lemma {:induction false} ReadLineTakesFirstLine(r: Reader)
    ensures ReadLine(r).0.ConnectionClosed? <==> Lines(Visible(r)) == []
    ensures ReadLine(r).0.ConnectionClosed? ==> ReadLine(r).1.closed && Visible(ReadLine(r).1) == Visible(r)
    ensures ReadLine(r).0.Line? ==> TakesFirstLine(r, ReadLine(r).0.line, ReadLine(r).1)
    decreases |r.stream|
  {
    if LF in r.buffer {
      ReadsFromBuffer(r, Find(r.buffer, LF));
      ReadLineFromBuffer(r, Find(r.buffer, LF));
    } else if AtEnd(r) {
      ReadsTheEnd(r);
      assert Visible(r) == r.buffer;
      NoNewlineNoLine(r.buffer);
    } else {
      ReadsMore(r);
      assert Visible(AfterRead(r)) == Visible(r);
      ReadLineTakesFirstLine(AfterRead(r));
    }
  }

  /** Calling `read_line` until it reports the closed connection. */
  function ReadAll(r: Reader): seq<Bytes>
    decreases |Lines(Visible(r))|
  {
    ReadLineTakesFirstLine(r);
    match ReadLine(r)
    case (Line(line), next) => [line] + ReadAll(next)
    case (ConnectionClosed, _) => []
  }

  lemma {:induction false} ReadAllGivesLines(r: Reader)
    ensures ReadAll(r) == Lines(Visible(r))
    decreases |Lines(Visible(r))|
  {
    ReadLineTakesFirstLine(r);
    if ReadLine(r).0.Line? {
      ReadAllGivesLines(ReadLine(r).1);
    }
  }

  /** Two streams that deliver the same bytes give the same lines, however they are cut. */
  lemma {:induction false} ChunkingDoesNotMatter(stream: seq<Read>, others: seq<Read>)
    requires Delivered(stream) == Delivered(others)
    ensures ReadAll(Reader([], false, stream)) == ReadAll(Reader([], false, others))
  {
    ReadAllGivesLines(Reader([], false, stream));
    ReadAllGivesLines(Reader([], false, others));
  }

  /** Once reported, the closed connection is reported for good. */
  lemma {:induction false} ClosedStaysClosed(r: Reader)
    requires ReadLine(r).0.ConnectionClosed?
    ensures ReadLine(ReadLine(r).1) == (ConnectionClosed, ReadLine(r).1)
  {
    var next := ReadLine(r).1;
    ReadLineTakesFirstLine(r);
    ReadLineTakesFirstLine(next);
    NewlineGivesLine(next);
    ReadsTheEnd(next);
  }

  lemma {:induction false} NewlineGivesLine(r: Reader)
    ensures LF in r.buffer ==> ReadLine(r).0.Line?
  {
  }

  // ----- Framing -----

  function Frame(line: Bytes): Bytes {
    line + LINE_TERMINATOR
  }

  /** The terminator is the newline first and the carriage return behind it. */
  lemma {:induction false} FrameIs(line: Bytes)
    ensures Frame(line) == line + [0x0A, 0x0D]
  {
  }

  function Framed(lines: seq<Bytes>): Bytes {
    if |lines| == 0 then [] else Frame(lines[0]) + Framed(lines[1..])
  }

  predicate IsOneLine(line: Bytes) {
    LF !in line && CR !in line
  }

  lemma {:induction false} StripKeeps(line: Bytes)
    requires CR !in line
    ensures Strip(line) == line && Strip([CR] + line) == line
  {
  }

  /** The carriage return that ends one frame comes before the next line and is stripped there. */
  lemma {:induction false} FramedLines(lines: seq<Bytes>, afterFrame: bool)
    requires forall i :: 0 <= i < |lines| ==> IsOneLine(lines[i])
    ensures Lines((if afterFrame then [CR] else []) + Framed(lines)) == lines
  {
    var before: Bytes := if afterFrame then [CR] else [];
    if |lines| == 0 {
      assert before + Framed(lines) == before;
      NoNewlineNoLine(before);
    } else {
      var rest := [CR] + Framed(lines[1..]);
      assert before + Framed(lines) == (before + lines[0]) + [LF] + rest;
      LinesCutAtNewline(before + lines[0], rest);
      StripKeeps(lines[0]);
      assert before + lines[0] == if afterFrame then [CR] + lines[0] else lines[0];
      FramedLines(lines[1..], true);
    }
  }

  lemma {:induction false} FramedConcat(a: seq<Bytes>, line: Bytes)
    ensures Framed(a + [line]) == Framed(a) + Frame(line)
  {
    if |a| == 0 {
      assert a + [line] == [line];
    } else {
      FramedConcat(a[1..], line);
      assert (a + [line])[1..] == a[1..] + [line];
    }
  }

  // ----- The transport object -----

  /** How the environment lets a send go: it may fail before the bytes are written, or while draining. */
  datatype SendFate = Sent | WriteFails | DrainFails

  class SshTransport {
    var buffer: Bytes
    var closed: bool
    var stream: seq<Read>   // what the stream will return
    var output: Bytes      // what has been written to the stream

    constructor (incoming: seq<Read>)
      ensures View() == Reader([], false, incoming) && output == []
    {
      buffer, closed, stream, output := [], false, incoming, [];
    }

    function View(): Reader
      reads this
    {
      Reader(buffer, closed, stream)
    }

    method NextLine() returns (r: ReadResult)
      modifies this`buffer, this`closed, this`stream
      ensures (r, View()) == ReadLine(old(View()))
    {
      ghost var goal := ReadLine(View());
      while true
        invariant ReadLine(View()) == goal
        decreases |stream|
      {
        ghost var before := View();
        var newline := Find(buffer, LF);
        if newline != -1 {
          ReadsFromBuffer(before, newline);
          r := Line(Strip(buffer[..newline]));
          buffer := buffer[newline + 1..];
          return;
        }
        if closed {
          ReadsTheEnd(before);
          return ConnectionClosed;
        }
        if |stream| == 0 {
          ReadsTheEnd(before);
          closed := true;
          return ConnectionClosed;
        }
        var read := stream[0];
        stream := stream[1..];
        if |read.chunk| == 0 {
          ReadsTheEnd(before);
          closed := true;
          return ConnectionClosed;
        }
        ReadsMore(before);
        closed := read.closedMeanwhile;
        buffer := buffer + read.chunk;
        assert View() == AfterRead(before);
      }
    }

    /** A send on a closed transport writes nothing; a failed one closes the transport for good. */
    method SendLine(data: Bytes, fate: SendFate) returns (ok: bool)
      modifies this`closed, this`output
      ensures ok <==> !old(closed) && fate.Sent?
      ensures output == if old(closed) || fate.WriteFails? then old(output) else old(output) + Frame(data)
      ensures closed <==> !ok
    {
      if closed {
        return false;
      }
      if !fate.WriteFails? {
        output := output + (data + LINE_TERMINATOR);
      }
      if !fate.Sent? {
        closed := true;
        return false;
      }
      return true;
    }

    /** Closing is final and costs nothing: what is buffered stays readable, what was written stays written. */
    method Close()
      modifies this`closed
      ensures View() == old(View()).(closed := true) && output == old(output)
    {
      if closed {
        return;
      }
      closed := true;
    }
  }
}
