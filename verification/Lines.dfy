/** `Lines::next_line`, and why reading lines back undoes printing them. */
module Lines {
  import opened Base
  import opened Streams
  import opened BufReader

  const LF: Byte := 10
  const CR: Byte := 13

  function Last(s: seq<Byte>): Byte
    requires s != []
  {
    s[|s| - 1]
  }

  function Chop(s: seq<Byte>): seq<Byte>
    requires s != []
  {
    s[..|s| - 1]
  }

  /** A record without its line feed, and then without a carriage return in front of it. */
  function Strip(record: seq<Byte>): seq<Byte> {
    if record != [] && Last(record) == LF then
      var line := Chop(record);
      if line != [] && Last(line) == CR then Chop(line) else line
    else record
  }

  /** The lines of a whole stream; a last line needs no line feed. */
  function Split(s: seq<Byte>): seq<seq<Byte>>
    decreases |s|
  {
    if s == [] then []
    else
      var n := Until(LF, s);
      [Strip(s[..n])] + Split(s[n..])
  }

  function Print(lines: seq<seq<Byte>>): seq<Byte> {
    if lines == [] then [] else lines[0] + [LF] + Print(lines[1..])
  }

  predicate Clean(line: seq<Byte>) {
    LF !in line && (line == [] || Last(line) != CR)
  }

  lemma FirstRecord(line: seq<Byte>, rest: seq<Byte>)
    requires LF !in line
    ensures var s, n := line + [LF] + rest, |line| + 1;
            Until(LF, s) == n && s[..n] == line + [LF] && s[n..] == rest
  {
    assert line + [LF] + rest == line + ([LF] + rest);
    UntilSplits(LF, line, [LF] + rest);
  }

  lemma DirtyRecord(line: seq<Byte>, rest: seq<Byte>)
    requires LF in line
    ensures var s := line + [LF] + rest; Until(LF, s) <= |line|
  {
    assert line + [LF] + rest == line + ([LF] + rest);
    UntilSplits(LF, line, [LF] + rest);
  }

  lemma StripShortens(record: seq<Byte>)
    ensures |Strip(record)| <= |record|
    ensures record != [] && Last(record) == LF ==> |Strip(record)| < |record|
  {
  }

  /**
   Printing lines with line feeds and reading them back yields the same lines if and only if none of
   them contains a line feed or ends in a carriage return.
   */
  lemma {:induction false} RoundTripIff(lines: seq<seq<Byte>>)
    ensures Split(Print(lines)) == lines <==> forall i :: 0 <= i < |lines| ==> Clean(lines[i])
    decreases |lines|
  {
    if lines != [] {
      var line, rest := lines[0], Print(lines[1..]);
      var s := line + [LF] + rest;
      RoundTripIff(lines[1..]);
      assert lines == [line] + lines[1..];
      if LF !in line {
        FirstRecord(line, rest);
        assert Split(s) == [Strip(line + [LF])] + Split(rest);
        assert Chop(line + [LF]) == line;
        assert Split(s)[1..] == Split(rest);
      } else {
        DirtyRecord(line, rest);
        FirstLineDiffers(line, s);
      }
    }
  }

  lemma FirstLineDiffers(line: seq<Byte>, s: seq<Byte>)
    requires s != [] && LF in line && line <= s && Until(LF, s) <= |line|
    ensures Split(s)[0] != line
  {
    var n := Until(LF, s);
    StripShortens(s[..n]);
  }

  // Any text: lines with either ending, and a last one that may have none.

  datatype Ending = Lf | CrLf

  datatype Terminated = Terminated(text: seq<Byte>, ending: Ending)

  function Mark(e: Ending): seq<Byte> {
    if e == Lf then [LF] else [CR, LF]
  }

  function PrintAs(lines: seq<Terminated>): seq<Byte> {
    if lines == [] then [] else lines[0].text + Mark(lines[0].ending) + PrintAs(lines[1..])
  }

  function Texts(lines: seq<Terminated>): seq<seq<Byte>> {
    if lines == [] then [] else [lines[0].text] + Texts(lines[1..])
  }

  function Unterminated(tail: seq<Byte>): seq<seq<Byte>> {
    if tail == [] then [] else [tail]
  }

  /** No line feed, and no carriage return where a bare line feed follows. */
  predicate Readable(line: Terminated) {
    LF !in line.text && (line.ending == Lf ==> line.text == [] || Last(line.text) != CR)
  }

  ghost predicate AllReadable(lines: seq<Terminated>) {
    forall i :: 0 <= i < |lines| ==> Readable(lines[i])
  }

  lemma Unrolled(lines: seq<Terminated>, tail: seq<Byte>)
    requires lines != []
    ensures PrintAs(lines) + tail == lines[0].text + Mark(lines[0].ending) + (PrintAs(lines[1..]) + tail)
    ensures Texts(lines) + Unterminated(tail) == [lines[0].text] + (Texts(lines[1..]) + Unterminated(tail))
    ensures AllReadable(lines) <==> Readable(lines[0]) && AllReadable(lines[1..])
  {
    assert lines == [lines[0]] + lines[1..];
  }

  lemma LastLine(tail: seq<Byte>)
    requires LF !in tail
    ensures Split(tail) == Unterminated(tail)
  {
    if tail != [] {
      RecordIsAll(LF, tail);
      assert tail[..|tail|] == tail && tail[|tail|..] == [];
      assert Last(tail) in tail;
    }
  }

  /** What is read of a line without line feeds is the line itself exactly if it is readable. */
  lemma FirstOfText(line: Terminated, rest: seq<Byte>)
    requires LF !in line.text
    ensures var s := line.text + Mark(line.ending) + rest;
            && s != [] && |Split(s)| > 0 && Split(s)[1..] == Split(rest)
            && (Split(s)[0] == line.text <==> Readable(line))
  {
    var body := if line.ending == Lf then line.text else line.text + [CR];
    assert line.text + Mark(line.ending) == body + [LF];
    FirstRecord(body, rest);
    assert Chop(body + [LF]) == body;
    assert line.ending == CrLf ==> Chop(body) == line.text && Last(body) == CR;
  }

  lemma FirstOfDirtyText(line: Terminated, rest: seq<Byte>)
    requires LF in line.text
    ensures var s := line.text + Mark(line.ending) + rest; s != [] && |Split(s)| > 0 && Split(s)[0] != line.text
  {
    var more := Mark(line.ending) + rest;
    assert line.text + Mark(line.ending) + rest == line.text + more;
    UntilSplits(LF, line.text, more);
    FirstLineDiffers(line.text, line.text + more);
  }

  lemma TextStep(line: Terminated, rest: seq<Byte>, back: seq<seq<Byte>>)
    ensures Split(line.text + Mark(line.ending) + rest) == [line.text] + back <==> Readable(line) && Split(rest) == back
  {
    var s := line.text + Mark(line.ending) + rest;
    if LF !in line.text {
      FirstOfText(line, rest);
      assert Split(s) == [Split(s)[0]] + Split(s)[1..];
      assert ([line.text] + back)[1..] == back;
    } else {
      FirstOfDirtyText(line, rest);
    }
  }

  /**
   Reading any text back: lines with either ending and a last one without any come back unchanged if
   and only if none contains a line feed and none that a bare line feed ends ends in a carriage return.
   Just one carriage return belongs to an ending, and the last line keeps all of its own.
   */
  lemma {:induction false} TextTripIff(lines: seq<Terminated>, tail: seq<Byte>)
    requires LF !in tail
    ensures Split(PrintAs(lines) + tail) == Texts(lines) + Unterminated(tail)
       <==> AllReadable(lines)
    decreases |lines|
  {
    if lines == [] {
      assert PrintAs(lines) + tail == tail;
      LastLine(tail);
    } else {
      TextTripIff(lines[1..], tail);
      Unrolled(lines, tail);
      TextStep(lines[0], PrintAs(lines[1..]) + tail, Texts(lines[1..]) + Unterminated(tail));
    }
  }

  // ---------------------------------------------------------------------------------------------
  // The reader object
  // ---------------------------------------------------------------------------------------------

  datatype LineResult = Line(text: seq<Byte>) | End | ReadError

  /** A failed read has dropped bytes from the front of the stream, but never a delimiter. */
  ghost predicate DroppedPart(delim: Byte, before: seq<Byte>, after: seq<Byte>) {
    exists d :: 0 <= d <= |before| && delim !in before[..d] && after == before[d..]
  }

  /** Awaits one `read_until`: polls it again after every Pending. */
  method AwaitRecord(reader: Reader, delim: Byte) returns (ok: bool, bytes: seq<Byte>)
    requires reader.Valid()
    modifies reader`pos, reader`cap, reader.buf, reader.inner
    ensures reader.Valid()
    ensures ok ==> var n := if reader.buf.Length == 0 then 0 else Until(delim, old(reader.Unread()));
                   bytes == old(reader.Unread())[..n] && reader.Unread() == old(reader.Unread())[n..]
    ensures !ok ==> DroppedPart(delim, old(reader.Unread()), reader.Unread())
    ensures reader.inner.faults <= old(reader.inner.faults) && (ok <==> reader.inner.faults == old(reader.inner.faults))
  {
    var future := new ReadUntil(reader, delim, []);
    while true
      invariant future.Valid() && future.reader == reader && future.delim == delim
      invariant future.before == [] && future.origin == old(reader.Unread())
      invariant fresh(future) && reader.inner.faults == old(reader.inner.faults)
      decreases reader.inner.stalls
    {
      var r := future.Poll();
      if r.Ready? { return true, future.buf; }
      if r.Broken? {
        ghost var d := |future.got|;
        assert future.origin[..d] == future.got && future.origin[d..] == reader.Unread();
        return false, [];
      }
    }
  }

  method StripEnding(record: seq<Byte>) returns (line: seq<Byte>)
    ensures line == Strip(record)
  {
    line := record;
    if line != [] && line[|line| - 1] == LF {
      line := line[..|line| - 1];
      if line != [] && line[|line| - 1] == CR {
        line := line[..|line| - 1];
      }
    }
  }

  class LineReader {
    const reader: Reader

    constructor (reader: Reader)
      ensures this.reader == reader
    {
      this.reader := reader;
    }

    /** The next line without its ending, whatever the chunks it arrives in. */
    method NextLine() returns (r: LineResult)
      requires reader.Valid()
      modifies reader`pos, reader`cap, reader.buf, reader.inner
      ensures reader.Valid()
      ensures r.End? ==> reader.Unread() == old(reader.Unread()) && (reader.Unread() == [] || reader.buf.Length == 0)
      ensures r.Line? ==>
                && old(reader.Unread()) != [] && reader.buf.Length > 0
                && Split(old(reader.Unread())) == [r.text] + Split(reader.Unread())
                && |reader.Unread()| < |old(reader.Unread())|
      ensures r.ReadError? ==> DroppedPart(LF, old(reader.Unread()), reader.Unread())
      ensures if r.ReadError? then reader.inner.faults < old(reader.inner.faults)
              else reader.inner.faults == old(reader.inner.faults)
    {
      var ok, buf := AwaitRecord(reader, LF);
      if !ok { return ReadError; }
      if |buf| == 0 { return End; }
      var line := StripEnding(buf);
      r := Line(line);
    }

    /** Reading to the end yields exactly the lines of the stream, or nothing at all without a buffer. */
    method ReadAll() returns (ok: bool, lines: seq<seq<Byte>>)
      requires reader.Valid()
      modifies reader`pos, reader`cap, reader.buf, reader.inner
      ensures reader.Valid()
      ensures ok && reader.buf.Length > 0 ==> lines == Split(old(reader.Unread())) && reader.Unread() == []
      ensures ok && reader.buf.Length == 0 ==> lines == []
      ensures lines <= Split(old(reader.Unread()))
      ensures reader.inner.faults <= old(reader.inner.faults)
      ensures ok <==> reader.inner.faults == old(reader.inner.faults)
    {
      lines := [];
      ghost var all := Split(reader.Unread());
      while true
        invariant reader.Valid()
        invariant lines + Split(reader.Unread()) == all && lines <= all
        invariant reader.buf.Length == 0 ==> lines == []
        invariant reader.inner.faults == old(reader.inner.faults)
        decreases |reader.Unread()|
      {
        var r := NextLine();
        match r
        case End => return true, lines;
        case ReadError => return false, lines;
        case Line(text) =>
          OneMoreLine(lines, text, Split(reader.Unread()));
          lines := lines + [text];
      }
    }
  }

  lemma OneMoreLine(lines: seq<seq<Byte>>, text: seq<Byte>, rest: seq<seq<Byte>>)
    ensures lines + ([text] + rest) == (lines + [text]) + rest && lines + [text] <= lines + ([text] + rest)
  {
  }

  /**
   The whole trip: lines printed and then delivered in any chunks with any stalls come back unchanged
   exactly if they are clean and the reader has a buffer (or there are none).  Without faults of the
   source it always gets there, and without a buffer it then yields nothing whatever was printed.
   */
  method PrintedLinesComeBack(lines: seq<seq<Byte>>, capacity: nat, stalls: nat, faults: nat)
    returns (ok: bool, back: seq<seq<Byte>>)
    ensures faults == 0 ==> ok
    ensures ok ==> back == if capacity == 0 then [] else Split(Print(lines))
    ensures ok ==>
              (back == lines <==> lines == [] || (capacity > 0 && forall i :: 0 <= i < |lines| ==> Clean(lines[i])))
    ensures back <= Split(Print(lines))
  {
    var source := new Source(Print(lines), stalls, faults);
    var reader := new Reader(capacity, source);
    var lr := new LineReader(reader);
    ok, back := lr.ReadAll();
    RoundTripIff(lines);
  }

  /** The same through the reader, for any text with any line endings. */
  method TextComesBack(lines: seq<Terminated>, tail: seq<Byte>, capacity: nat, stalls: nat, faults: nat)
    returns (ok: bool, back: seq<seq<Byte>>)
    requires LF !in tail
    ensures faults == 0 ==> ok
    ensures ok && capacity > 0 ==>
              (back == Texts(lines) + Unterminated(tail) <==> AllReadable(lines))
  {
    var source := new Source(PrintAs(lines) + tail, stalls, faults);
    var reader := new Reader(capacity, source);
    var lr := new LineReader(reader);
    ok, back := lr.ReadAll();
    TextTripIff(lines, tail);
  }
}
