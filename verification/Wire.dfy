/** Newline-delimited framing over a byte stream that arrives in arbitrary pieces. */
module Wire {
  import opened Rows

  type byte = x: int | 0 <= x < 256

  const NEWLINE: byte := 10
  const MAX_FRAME: nat := 16 * 1024 * 1024

  /** Space, tab, line feed, form feed, carriage return: `u8::is_ascii_whitespace`. */
  predicate Whitespace(b: byte) {
    b == 32 || b == 9 || b == 10 || b == 12 || b == 13
  }

  predicate Blank(line: seq<byte>) {
    forall i :: 0 <= i < |line| ==> Whitespace(line[i])
  }

  datatype Read = Frame(line: seq<byte>) | CleanEof | TooLarge | Truncated

  // ---- what the stream means, whatever its pieces ----

  /** The complete lines of a stream and the bytes after the last newline. */
  datatype Lines = Lines(full: seq<seq<byte>>, tail: seq<byte>)

  function SplitLines(data: seq<byte>): Lines {
    if data == [] then Lines([], [])
    else
      var rest := SplitLines(data[1..]);
      if data[0] == NEWLINE then Lines([[]] + rest.full, rest.tail)
      else if rest.full == [] then Lines([], [data[0]] + rest.tail)
      else Lines([[data[0]] + rest.full[0]] + rest.full[1..], rest.tail)
  }

  /** How a stream ends that has no newline left. */
  function AtEnd(tail: seq<byte>): Read {
    if |tail| > MAX_FRAME then TooLarge else if tail == [] then CleanEof else Truncated
  }

  /** The frames a reader gets before its first non-frame answer, and that answer. */
  datatype Session = Session(frames: seq<seq<byte>>, last: Read)

  /** Keep the lines that are not blank, stop at the first one over the limit. */
  function Accept(lines: seq<seq<byte>>, tail: seq<byte>): Session {
    if lines == [] then Session([], AtEnd(tail))
    else if |lines[0]| > MAX_FRAME then Session([], TooLarge)
    else
      var rest := Accept(lines[1..], tail);
      if Blank(lines[0]) then rest else Session([lines[0]] + rest.frames, rest.last)
  }

  function Meaning(data: seq<byte>): Session {
    Accept(SplitLines(data).full, SplitLines(data).tail)
  }

  lemma {:induction false} SplitFirst(line: seq<byte>, rest: seq<byte>)
    requires NEWLINE !in line
    ensures SplitLines(line + [NEWLINE] + rest) == Lines([line] + SplitLines(rest).full, SplitLines(rest).tail)
  {
    var data := line + [NEWLINE] + rest;
    if line == [] {
      assert data[1..] == rest;
    } else {
      assert data[1..] == line[1..] + [NEWLINE] + rest;
      SplitFirst(line[1..], rest);
      assert [line[0]] + line[1..] == line;
      assert ([line[1..]] + SplitLines(rest).full)[1..] == SplitLines(rest).full;
    }
  }

  lemma {:induction false} SplitNone(data: seq<byte>)
    requires NEWLINE !in data
    ensures SplitLines(data) == Lines([], data)
  {
    if data != [] {
      SplitNone(data[1..]);
    }
  }

  /** The stream one line at a time. */
  lemma MeaningOfLine(line: seq<byte>, rest: seq<byte>)
    requires NEWLINE !in line
    ensures |line| > MAX_FRAME ==> Meaning(line + [NEWLINE] + rest) == Session([], TooLarge)
    ensures |line| <= MAX_FRAME && Blank(line) ==> Meaning(line + [NEWLINE] + rest) == Meaning(rest)
    ensures |line| <= MAX_FRAME && !Blank(line) ==>
              Meaning(line + [NEWLINE] + rest) == Session([line] + Meaning(rest).frames, Meaning(rest).last)
  {
    SplitFirst(line, rest);
    assert ([line] + SplitLines(rest).full)[1..] == SplitLines(rest).full;
  }

  /** A line is blank when it has no other bytes than those of these characters. */
  lemma BlankLine(line: seq<byte>)
    ensures Blank(line) <==> forall b :: b in line ==> b as char in [' ', '\t', '\n', 12 as char, '\r']
  {
    if Blank(line) {
      forall b | b in line
        ensures Whitespace(b)
      {
        var i :| 0 <= i < |line| && line[i] == b;
      }
    } else {
      var i :| 0 <= i < |line| && !Whitespace(line[i]);
      assert line[i] in line;
    }
  }

  /** What is left behind the last newline: nothing is a clean end, and 16 MiB is the most a cut-off frame may hold. */
  lemma MeaningOfTail(tail: seq<byte>)
    requires NEWLINE !in tail
    ensures tail == [] ==> Meaning(tail) == Session([], CleanEof)
    ensures 0 < |tail| <= 16_777_216 ==> Meaning(tail) == Session([], Truncated)
    ensures |tail| > 16_777_216 ==> Meaning(tail) == Session([], TooLarge)
  {
    SplitNone(tail);
  }

  /** A line already too long before its newline, or the end of the stream, is too long. */
  lemma {:induction false} MeaningOfLong(start: seq<byte>, rest: seq<byte>)
    requires NEWLINE !in start && |start| > MAX_FRAME
    ensures Meaning(start + rest) == Session([], TooLarge)
    decreases |rest|
  {
    if NEWLINE !in rest {
      SplitNone(start + rest);
    } else if rest[0] == NEWLINE {
      assert start + rest == start + [NEWLINE] + rest[1..];
      MeaningOfLine(start, rest[1..]);
    } else {
      assert start + rest == (start + [rest[0]]) + rest[1..];
      MeaningOfLong(start + [rest[0]], rest[1..]);
    }
  }

  // ---- reading ----

  function Concat(chunks: seq<seq<byte>>): seq<byte> {
    if chunks == [] then [] else chunks[0] + Concat(chunks[1..])
  }

  method Position(bytes: seq<byte>) returns (pos: Option<nat>)
    ensures pos.None? ==> NEWLINE !in bytes
    ensures pos.Some? ==> pos.value < |bytes| && bytes[pos.value] == NEWLINE && NEWLINE !in bytes[..pos.value]
  {
    var i := 0;
    while i < |bytes|
      invariant i <= |bytes| && NEWLINE !in bytes[..i]
    {
      if bytes[i] == NEWLINE {
        return Some(i);
      }
      i := i + 1;
    }
    pos := None;
  }

  /** `buf` has been taken off the front of `data`, and `rest` is left. */
  predicate InStep(data: seq<byte>, buf: seq<byte>, rest: seq<byte>) {
    data == buf + rest
  }

  lemma LineEnds(data: seq<byte>, buf: seq<byte>, rest: seq<byte>, available: seq<byte>, k: nat)
    requires InStep(data, buf, rest) && available <= rest && k < |available| && available[k] == NEWLINE
    ensures data == (buf + available[..k]) + [NEWLINE] + rest[k + 1..]
  {
    assert rest == available[..k] + [NEWLINE] + rest[k + 1..];
  }

  lemma PieceTaken(data: seq<byte>, buf: seq<byte>, rest: seq<byte>, available: seq<byte>)
    requires InStep(data, buf, rest) && available <= rest
    ensures InStep(data, buf + available, rest[|available|..])
  {
    assert rest == available + rest[|available|..];
  }

  /** A buffered reader: the pieces that are still to come, none of them empty. */
  class Reader {
    var chunks: seq<seq<byte>>

    ghost predicate Valid()
      reads this
    {
      forall i :: 0 <= i < |chunks| ==> chunks[i] != []
    }

    ghost function Rest(): seq<byte>
      reads this
    {
      Concat(chunks)
    }

    constructor (pieces: seq<seq<byte>>)
      requires forall i :: 0 <= i < |pieces| ==> pieces[i] != []
      ensures Valid() && chunks == pieces
    {
      chunks := pieces;
    }

    /** What is buffered; empty only at the end of the stream. */
    method FillBuf() returns (available: seq<byte>)
      requires Valid()
      ensures available == if chunks == [] then [] else chunks[0]
      ensures available == [] <==> Rest() == []
      ensures available <= Rest()
    {
      available := if chunks == [] then [] else chunks[0];
    }

    method Consume(n: nat)
      requires Valid() && chunks != [] && 0 < n <= |chunks[0]|
      modifies this
      ensures Valid() && Rest() == old(Rest())[n..]
    {
      var first := chunks[0];
      if n == |first| {
        chunks := chunks[1..];
      } else {
        chunks := [first[n..]] + chunks[1..];
        assert chunks[1..] == old(chunks)[1..];
      }
    }

    /** One line into `buf`: up to a newline, the end of the stream, or the limit. */
    method ReadLine() returns (buf: seq<byte>, complete: bool)
      requires Valid()
      modifies this
      ensures Valid() && NEWLINE !in buf
      ensures complete ==> old(Rest()) == buf + [NEWLINE] + Rest()
      ensures !complete ==> old(Rest()) == buf + Rest() && (Rest() == [] || |buf| > MAX_FRAME)
    {
      buf, complete := [], false;
      ghost var data := Rest();
      while true
        invariant Valid() && NEWLINE !in buf && InStep(data, buf, Rest())
        decreases |Rest()|
      {
        var available := FillBuf();
        if available == [] {
          return;
        }
        var pos := Position(available);
        if pos.Some? {
          LineEnds(data, buf, Rest(), available, pos.value);
          buf := buf + available[..pos.value];
          Consume(pos.value + 1);
          return buf, true;
        }
        PieceTaken(data, buf, Rest(), available);
        buf := buf + available;
        Consume(|available|);
        if |buf| > MAX_FRAME {
          return;
        }
      }
    }

    /** The next frame of the stream, however the stream is cut into pieces. */
    method ReadFrame() returns (r: Read)
      requires Valid()
      modifies this
      ensures Valid()
      ensures r.Frame? ==> Meaning(old(Rest())) == Session([r.line] + Meaning(Rest()).frames, Meaning(Rest()).last)
                           && |Rest()| < |old(Rest())|
      ensures !r.Frame? ==> Meaning(old(Rest())) == Session([], r)
    {
      while true
        invariant Valid() && Meaning(Rest()) == Meaning(old(Rest())) && |Rest()| <= |old(Rest())|
        decreases |Rest()|
      {
        ghost var before := Rest();
        var buf, complete := ReadLine();
        if |buf| > MAX_FRAME {
          assert before == buf + if complete then [NEWLINE] + Rest() else Rest();
          MeaningOfLong(buf, if complete then [NEWLINE] + Rest() else Rest());
          return TooLarge;
        }
        if !complete {
          assert before == buf;
          SplitNone(buf);
          return if buf == [] then CleanEof else Truncated;
        }
        MeaningOfLine(buf, Rest());
        if !(forall i :: 0 <= i < |buf| ==> Whitespace(buf[i])) {
          return Frame(buf);
        }
      }
    }

    /** A reader that keeps asking gets exactly the meaning of the stream. */
    method ReadAll() returns (frames: seq<seq<byte>>, last: Read)
      requires Valid()
      modifies this
      ensures Session(frames, last) == Meaning(old(Rest()))
    {
      frames := [];
      last := ReadFrame();
      while last.Frame?
        invariant Valid()
        invariant last.Frame? ==> Meaning(old(Rest())) == Session(frames + [last.line] + Meaning(Rest()).frames,
                                                                  Meaning(Rest()).last)
        invariant !last.Frame? ==> Meaning(old(Rest())) == Session(frames, last)
        decreases last.Frame?, |Rest()|
      {
        frames := frames + [last.line];
        last := ReadFrame();
      }
    }
  }

  // ---- writing ----

  class Writer {
    var out: seq<byte>

    constructor ()
      ensures out == []
    {
      out := [];
    }

    method WriteFrame(encoded: seq<byte>)
      modifies this
      ensures out == old(out) + encoded + [NEWLINE]
    {
      var line := encoded + [NEWLINE];
      out := out + line;
    }
  }

  /** What a sequence of `WriteFrame` calls leaves behind. */
  function Written(frames: seq<seq<byte>>): seq<byte> {
    if frames == [] then [] else Written(frames[..|frames| - 1]) + frames[|frames| - 1] + [NEWLINE]
  }

  /** What JSON encodings are: one line, not blank; and here within the limit. */
  predicate Framable(frame: seq<byte>) {
    NEWLINE !in frame && !Blank(frame) && |frame| <= MAX_FRAME
  }

  lemma {:induction false} WrittenFrom(frames: seq<seq<byte>>, rest: seq<byte>)
    requires forall i :: 0 <= i < |frames| ==> Framable(frames[i])
    ensures Meaning(Written(frames) + rest) == Session(frames + Meaning(rest).frames, Meaning(rest).last)
    decreases |frames|
  {
    if frames == [] {
      assert Written(frames) + rest == rest;
    } else {
      var front, line := frames[..|frames| - 1], frames[|frames| - 1];
      assert Written(frames) + rest == Written(front) + (line + [NEWLINE] + rest);
      WrittenFrom(front, line + [NEWLINE] + rest);
      MeaningOfLine(line, rest);
      assert front + ([line] + Meaning(rest).frames) == frames + Meaning(rest).frames;
    }
  }

  /** Reading inverts writing, for every way the written bytes are cut into pieces. */
  lemma ReadingInvertsWriting(frames: seq<seq<byte>>, chunks: seq<seq<byte>>)
    requires Concat(chunks) == Written(frames)
    ensures Meaning(Concat(chunks)) == Session(frames, CleanEof)
            <==> forall i :: 0 <= i < |frames| ==> Framable(frames[i])
  {
    assert Written(frames) + [] == Written(frames);
    if forall i :: 0 <= i < |frames| ==> Framable(frames[i]) {
      WrittenFrom(frames, []);
    } else if Meaning(Written(frames)) == Session(frames, CleanEof) {
      MeaningFramable(Written(frames));
    }
  }

  lemma {:induction false} SplitHasNoNewline(data: seq<byte>)
    ensures forall i :: 0 <= i < |SplitLines(data).full| ==> NEWLINE !in SplitLines(data).full[i]
  {
    if data != [] {
      SplitHasNoNewline(data[1..]);
    }
  }

  lemma {:induction false} AcceptFramable(lines: seq<seq<byte>>, tail: seq<byte>)
    requires forall i :: 0 <= i < |lines| ==> NEWLINE !in lines[i]
    ensures forall i :: 0 <= i < |Accept(lines, tail).frames| ==> Framable(Accept(lines, tail).frames[i])
  {
    if lines != [] {
      AcceptFramable(lines[1..], tail);
    }
  }

  /** Only framable lines are ever delivered. */
  lemma MeaningFramable(data: seq<byte>)
    ensures forall i :: 0 <= i < |Meaning(data).frames| ==> Framable(Meaning(data).frames[i])
  {
    SplitHasNoNewline(data);
    AcceptFramable(SplitLines(data).full, SplitLines(data).tail);
  }
}
