/**
 `copy_bidirectional` and its parts: `CopyBuffer` moves one direction, `TransferState` stops it from
 being polled again once finished, and the relay drives two of them.  Also `copy_buf`.

 The writer's contract forbids touching it after a successful shutdown, so that verifying these
 methods at all shows that no direction ever does.
 */
module Relay {
  import opened Base
  import opened Streams
  import opened BufReader

  datatype CopyPoll = Copied(amt: nat) | CopyFailed | CopyPending

  /** The budgets of a source and a sink together paid for a Pending, for a failure, and for nothing else. */
  twostate predicate Paid(source: Source, sink: Sink, pending: bool, failed: bool)
    reads source, sink
  {
    && source.stalls <= old(source.stalls) && sink.stalls <= old(sink.stalls)
    && source.faults <= old(source.faults) && sink.faults <= old(sink.faults)
    && (pending <==> source.stalls + sink.stalls < old(source.stalls + sink.stalls))
    && (failed <==> source.faults + sink.faults < old(source.faults + sink.faults))
  }

  class CopyBuffer {
    const reader: Source
    const writer: Sink
    const buf: array<Byte>
    var readDone: bool
    var pos: nat
    var cap: nat
    var amt: nat
    ghost const origin: seq<Byte>  // all the source held at first
    ghost const before: seq<Byte>  // what the sink held at first
    ghost var read: seq<Byte>
    ghost var wrote: seq<Byte>

    /** Bytes written, then bytes buffered, then bytes not yet read, are always the whole source. */
    ghost predicate Valid()
      reads this, buf, reader, writer
    {
      && pos <= cap <= buf.Length
      && origin == read + reader.rest
      && read == wrote + buf[pos..cap]
      && writer.taken == before + wrote
      && amt == |wrote|
      && !writer.closed
      && (readDone ==> (reader.rest == [] || buf.Length == 0))
      && (buf.Length == 0 ==> read == [])
    }

    constructor (capacity: nat, reader: Source, writer: Sink)
      requires !writer.closed
      ensures Valid() && this.reader == reader && this.writer == writer && buf.Length == capacity && fresh(buf)
      ensures origin == reader.rest && before == writer.taken
    {
      this.reader, this.writer := reader, writer;
      buf := new Byte[capacity](_ => 0);
      readDone, pos, cap, amt := false, 0, 0, 0;
      origin, before, read, wrote := reader.rest, writer.taken, [], [];
    }

    /** What a finished direction has delivered: everything, unless it was given no buffer at all. */
    ghost function Delivered(): seq<Byte> {
      if buf.Length == 0 then [] else origin
    }

    /** Refills an empty buffer. */
    method Refill() returns (r: ReadPoll)
      requires Valid() && pos == cap && !readDone
      modifies this`readDone, this`pos, this`cap, this`read, buf, reader
      ensures Valid() && pos <= cap
      ensures r.ReadReady? && !readDone ==> |reader.rest| < |old(reader.rest)|
      ensures r.ReadReady? && readDone ==> reader.rest == old(reader.rest) && pos == cap
      ensures !r.ReadReady? ==> reader.rest == old(reader.rest)
      ensures reader.Paid(r.ReadPending?, r.ReadFailed?)
    {
      assert read == wrote;
      r := reader.PollRead(buf);
      if r.ReadReady? {
        if r.n == 0 {
          readDone := true;
        } else {
          pos, cap := 0, r.n;
          read := read + buf[..r.n];
          assert buf[0..r.n] == buf[..r.n];
        }
      }
    }

    /** Offers the buffered bytes to the sink once. */
    method WriteSome() returns (w: WritePoll)
      requires Valid() && pos < cap
      modifies this`pos, this`amt, this`wrote, writer`taken, writer`stalls, writer`faults
      ensures Valid()
      ensures w.WriteReady? ==> pos == old(pos) + w.n
      ensures !w.WriteReady? ==> pos == old(pos)
      ensures writer.Paid(w.WritePending?, w.WriteFailed? || w == WriteReady(0))
    {
      var data := buf[pos..cap];
      w := writer.PollWrite(data);
      if w.WriteReady? {
        ghost var head, tail := data[..w.n], data[w.n..];
        assert tail == buf[pos + w.n..cap];
        assert data == head + tail;
        assert wrote + (head + tail) == (wrote + head) + tail;
        assert before + (wrote + head) == (before + wrote) + head;
        wrote := wrote + head;
        pos := pos + w.n;
        amt := amt + w.n;
      }
    }

    /** Writes out what is buffered. */
    method Drain() returns (r: UnitPoll)
      requires Valid()
      modifies this`pos, this`amt, this`wrote, writer`taken, writer`stalls, writer`faults
      ensures Valid()
      ensures r.Finished? ==> pos == cap
      ensures writer.Paid(r.Pending?, r.Failed?)
    {
      while pos < cap
        invariant Valid() && writer.Paid(false, false)
        decreases cap - pos
      {
        var w := WriteSome();
        match w
        case WriteFailed => return Failed;
        case WritePending => return Pending;
        case WriteReady(n) =>
          if n == 0 { return Failed; }
      }
      r := Finished;
    }

    /**
     One poll.  It ends because every full turn of the loop shortens the source.  On success the sink
     holds the whole source, the count is its length, and the sink has just been shut down.
     */
    method PollCopy() returns (r: CopyPoll)
      requires Valid()
      modifies this`readDone, this`pos, this`cap, this`amt, this`read, this`wrote, buf, reader, writer
      ensures r.Copied? ==> writer.closed && writer.taken == before + Delivered() && r.amt == |Delivered()|
      ensures !r.Copied? ==> Valid()
      ensures Paid(reader, writer, r.CopyPending?, r.CopyFailed?)
    {
      while true
        invariant Valid() && reader.Paid(false, false) && writer.Paid(false, false)
        decreases |reader.rest|, cap - pos
      {
        if pos == cap && !readDone {
          var n := Refill();
          if n.ReadFailed? { return CopyFailed; }
          if n.ReadPending? { return CopyPending; }
        }
        var d := Drain();
        if d.Failed? { return CopyFailed; }
        if d.Pending? { return CopyPending; }
        if readDone {
          var s := writer.PollShutdown();
          match s
          case Finished =>
            assert origin == Delivered() + (if buf.Length == 0 then origin else []);
            return Copied(amt);
          case Failed => return CopyFailed;
          case Pending => return CopyPending;
        }
      }
    }
  }

  datatype State = Running | Done(amt: nat)

  /** A direction that stays finished: polling it again repeats the answer and touches nothing. */
  class Transfer {
    const copy: CopyBuffer
    var state: State

    ghost predicate Valid()
      reads this, copy, copy.buf, copy.reader, copy.writer
    {
      match state
      case Running => copy.Valid()
      case Done(amt) =>
        && copy.writer.closed && copy.writer.taken == copy.before + copy.Delivered()
        && amt == |copy.Delivered()|
    }

    constructor (copy: CopyBuffer)
      requires copy.Valid()
      ensures Valid() && this.copy == copy && state == Running
    {
      this.copy, state := copy, Running;
    }

    method Poll() returns (r: CopyPoll)
      requires Valid()
      modifies this`state, copy`readDone, copy`pos, copy`cap, copy`amt, copy`read, copy`wrote,
               copy.buf, copy.reader, copy.writer
      ensures Valid()
      ensures r.Copied? <==> state.Done?
      ensures r.Copied? ==> r.amt == |copy.Delivered()|
      ensures Paid(copy.reader, copy.writer, r.CopyPending?, r.CopyFailed?)
      ensures old(state).Done? ==> state == old(state) && unchanged(copy, copy.buf, copy.reader, copy.writer)
    {
      match state
      case Done(amt) => r := Copied(amt);
      case Running =>
        r := copy.PollCopy();
        if r.Copied? { state := Done(r.amt); }
    }
  }

  method Direction(capacity: nat, reader: Source, writer: Sink) returns (t: Transfer)
    requires !writer.closed
    ensures t.Valid() && t.state == Running && fresh(t) && fresh(t.copy) && fresh(t.copy.buf)
    ensures t.copy.reader == reader && t.copy.writer == writer && t.copy.buf.Length == capacity
    ensures t.copy.origin == reader.rest && t.copy.before == writer.taken
  {
    var copy := new CopyBuffer(capacity, reader, writer);
    t := new Transfer(copy);
  }

  datatype RelayPoll = BothDone(aToB: nat, bToA: nat) | RelayFailed | RelayPending

  /** Two directions over two endpoints, each endpoint being a source and a sink. */
  class Bidirectional {
    const aToB: Transfer
    const bToA: Transfer

    ghost function Footprint(t: Transfer): set<object> {
      {t, t.copy, t.copy.buf, t.copy.reader, t.copy.writer}
    }

    ghost predicate Valid()
      reads this, Footprint(aToB), Footprint(bToA)
    {
      aToB.Valid() && bToA.Valid() && Footprint(aToB) !! Footprint(bToA)
    }

    /** What the four streams may still stall, and fail. */
    ghost function Stalls(): nat
      reads this, Footprint(aToB), Footprint(bToA)
    {
      aToB.copy.reader.stalls + aToB.copy.writer.stalls + bToA.copy.reader.stalls + bToA.copy.writer.stalls
    }

    ghost function Faults(): nat
      reads this, Footprint(aToB), Footprint(bToA)
    {
      aToB.copy.reader.faults + aToB.copy.writer.faults + bToA.copy.reader.faults + bToA.copy.writer.faults
    }

    constructor (aIn: Source, aOut: Sink, bIn: Source, bOut: Sink, aToBSize: nat, bToASize: nat)
      requires aIn != bIn && aOut != bOut && !aOut.closed && !bOut.closed
      ensures Valid() && fresh(aToB) && fresh(bToA) && fresh(aToB.copy) && fresh(bToA.copy)
      ensures fresh(aToB.copy.buf) && fresh(bToA.copy.buf)
      ensures aToB.copy.reader == aIn && aToB.copy.writer == bOut && aToB.copy.buf.Length == aToBSize
      ensures bToA.copy.reader == bIn && bToA.copy.writer == aOut && bToA.copy.buf.Length == bToASize
      ensures aToB.copy.origin == aIn.rest && aToB.copy.before == bOut.taken
      ensures bToA.copy.origin == bIn.rest && bToA.copy.before == aOut.taken
    {
      var f := Direction(aToBSize, aIn, bOut);
      var g := Direction(bToASize, bIn, aOut);
      aToB, bToA := f, g;
    }

    /** Resolves when both directions have, or as soon as one fails; neither disturbs the other. */
    method Poll() returns (r: RelayPoll)
      requires Valid()
      modifies Footprint(aToB), Footprint(bToA)
      ensures Valid()
      ensures r.BothDone? ==>
                && aToB.state.Done? && bToA.state.Done?
                && r.aToB == |aToB.copy.Delivered()| && r.bToA == |bToA.copy.Delivered()|
                && aToB.copy.writer.taken == aToB.copy.before + aToB.copy.Delivered()
                && bToA.copy.writer.taken == bToA.copy.before + bToA.copy.Delivered()
                && aToB.copy.writer.closed && bToA.copy.writer.closed
      ensures aToB.state.Done? && bToA.state.Done? ==> r.BothDone?
      ensures if r.RelayPending? then Stalls() < old(Stalls()) else Stalls() <= old(Stalls())
      ensures if r.RelayFailed? then Faults() < old(Faults()) else Faults() == old(Faults())
    {
      var x := aToB.Poll();
      var y := bToA.Poll();
      if x.CopyFailed? || y.CopyFailed? { return RelayFailed; }
      if x.Copied? && y.Copied? { return BothDone(x.amt, y.amt); }
      r := RelayPending;
    }
  }

  /**
   Any schedule of polls over any two peers.  Each side holds a prefix of what the other one sent at
   every moment.  A relay that resolved has delivered exactly what each direction had a buffer for, so
   everything if and only if each had a buffer or nothing to carry.  It fails only if a stream did, and
   is done after one poll more than the streams can stall.
   */
  method AnySchedule(fromA: seq<Byte>, fromB: seq<Byte>, aToBSize: nat, bToASize: nat,
                     stalls: nat, faults: nat, polls: nat)
    returns (r: RelayPoll, atB: seq<Byte>, atA: seq<Byte>)
    ensures atB <= fromA && atA <= fromB
    ensures r.BothDone? ==> r.aToB == |atB| && r.bToA == |atA|
    ensures r.BothDone? ==> atB == (if aToBSize == 0 then [] else fromA) && atA == if bToASize == 0 then [] else fromB
    ensures r.BothDone? ==> (atB == fromA <==> fromA == [] || aToBSize > 0)
    ensures r.BothDone? ==> (atA == fromB <==> fromB == [] || bToASize > 0)
    ensures faults == 0 ==> !r.RelayFailed?
    ensures polls > 4 * stalls ==> !r.RelayPending?
    ensures faults == 0 && polls > 4 * stalls ==> r.BothDone?
  {
    var aIn := new Source(fromA, stalls, faults);
    var bIn := new Source(fromB, stalls, faults);
    var aOut := new Sink(stalls, faults);
    var bOut := new Sink(stalls, faults);
    var relay := new Bidirectional(aIn, aOut, bIn, bOut, aToBSize, bToASize);
    r := RelayPending;
    var i := 0;
    while i < polls && r.RelayPending?
      invariant relay.Valid() && i <= polls
      invariant fresh(relay.Footprint(relay.aToB)) && fresh(relay.Footprint(relay.bToA))
      invariant r.BothDone? ==>
                  && relay.aToB.state.Done? && relay.bToA.state.Done?
                  && r.aToB == |relay.aToB.copy.Delivered()| && r.bToA == |relay.bToA.copy.Delivered()|
      invariant r.RelayPending? ==> relay.Stalls() + i <= 4 * stalls
      invariant relay.Faults() <= 4 * faults && (r.RelayFailed? ==> relay.Faults() < 4 * faults)
      decreases polls - i
    {
      r := relay.Poll();
      i := i + 1;
    }
    Prefix(relay.aToB);
    Prefix(relay.bToA);
    atB, atA := bOut.taken, aOut.taken;
  }

  lemma Prefix(t: Transfer)
    requires t.Valid()
    ensures exists w :: t.copy.writer.taken == t.copy.before + w && w <= t.copy.origin
  {
    var w := if t.state.Running? then t.copy.wrote else t.copy.Delivered();
    assert t.copy.writer.taken == t.copy.before + w && w <= t.copy.origin;
  }

  lemma OneMoreChunk(consumed: seq<Byte>, rest: seq<Byte>, data: seq<Byte>, pos: nat, n: nat)
    requires data <= rest && pos + n <= |data|
    ensures (consumed + rest)[..|consumed| + pos] + data[pos..][..n] == (consumed + rest)[..|consumed| + pos + n]
  {
  }

  /** The future of one `copy_buf` call, writing straight out of the reader's own buffer. */
  class CopyBuf {
    const reader: Reader
    const writer: Sink
    var pos: nat        // how much of the reader's buffered bytes has been written already
    var readDone: bool
    var amt: nat
    ghost const origin: seq<Byte>
    ghost const before: seq<Byte>
    ghost var consumed: seq<Byte>

    ghost predicate Valid()
      reads this, reader, reader.buf, reader.inner, writer
    {
      Balanced() && (pos > 0 ==> pos < reader.cap - reader.pos)
    }

    ghost predicate Balanced()
      reads this, reader, reader.buf, reader.inner, writer
    {
      && reader.Valid() && !writer.closed
      && origin == consumed + reader.Unread()
      && pos <= reader.cap - reader.pos
      && amt == |consumed| + pos
      && writer.taken == before + origin[..amt]
      && (readDone ==> pos == 0 && (reader.Unread() == [] || reader.buf.Length == 0))
      && (reader.buf.Length == 0 ==> consumed == [])
    }

    constructor (reader: Reader, writer: Sink)
      requires reader.Valid() && !writer.closed
      ensures Valid() && this.reader == reader && this.writer == writer
      ensures origin == reader.Unread() && before == writer.taken
    {
      this.reader, this.writer, pos, readDone, amt := reader, writer, 0, false, 0;
      origin, before, consumed := reader.Unread(), writer.taken, [];
    }

    ghost function Delivered(): seq<Byte> {
      if reader.buf.Length == 0 then [] else origin
    }

    /** Offers the unwritten part of the buffered bytes once. */
    method Offer(data: seq<Byte>) returns (w: WritePoll)
      requires Valid() && !readDone && data == reader.buf[reader.pos..reader.cap] && data != []
      modifies this`pos, this`amt, writer`taken, writer`stalls, writer`faults
      ensures Balanced()
      ensures w.WriteReady? ==> amt == old(amt) + w.n && pos == old(pos) + w.n
      ensures !w.WriteReady? ==> amt == old(amt) && pos == old(pos)
      ensures writer.Paid(w.WritePending?, w.WriteFailed? || w == WriteReady(0))
    {
      w := writer.PollWrite(data[pos..]);
      if w.WriteReady? {
        OneMoreChunk(consumed, reader.Unread(), data, pos, w.n);
        pos := pos + w.n;
        amt := amt + w.n;
      }
    }

    method WriteSome(data: seq<Byte>) returns (w: WritePoll)
      requires Valid() && !readDone && data == reader.buf[reader.pos..reader.cap] && data != []
      modifies this`pos, this`amt, this`consumed, reader`pos, writer`taken, writer`stalls, writer`faults
      ensures Valid()
      ensures amt == old(amt) + (if w.WriteReady? then w.n else 0)
      ensures writer.Paid(w.WritePending?, w.WriteFailed? || w == WriteReady(0))
    {
      w := Offer(data);
      if pos == |data| { ConsumeAll(data); }
    }

    /** Bytes that have all been written are taken out of the reader. */
    method ConsumeAll(data: seq<Byte>)
      requires reader.Valid() && origin == consumed + reader.Unread()
      requires data == reader.buf[reader.pos..reader.cap] && pos == |data|
      modifies this`pos, this`consumed, reader`pos
      ensures reader.Valid() && origin == consumed + reader.Unread()
      ensures pos == 0 && consumed == old(consumed) + data && reader.pos == reader.cap
    {
      ghost var rest := reader.Unread();
      assert rest == data + reader.inner.rest && rest[pos..] == reader.inner.rest;
      consumed := consumed + data;
      reader.Consume(pos);
      pos := 0;
    }

    /** One poll.  On success the sink has taken exactly what the reader had left, and been flushed. */
    method Poll() returns (r: CopyPoll)
      requires Valid()
      modifies this`pos, this`readDone, this`amt, this`consumed, reader`pos, reader`cap,
               reader.buf, reader.inner, writer`taken, writer`flushed, writer`stalls, writer`faults
      ensures Valid()
      ensures r.Copied? ==> writer.taken == before + Delivered() && r.amt == |Delivered()|
      ensures r.Copied? ==> writer.flushed == |writer.taken|
      ensures Paid(reader.inner, writer, r.CopyPending?, r.CopyFailed?)
    {
      while !readDone
        invariant Valid() && reader.inner.Paid(false, false) && writer.Paid(false, false)
        decreases |origin| - amt, !readDone
      {
        var f := reader.PollFillBuf();
        if f.FillFailed? { return CopyFailed; }
        if f.FillPending? { return CopyPending; }
        if f.data == [] {
          readDone := true;
        } else {
          var w := WriteSome(f.data);
          if w.WriteFailed? || w == WriteReady(0) { return CopyFailed; }
          if w.WritePending? { return CopyPending; }
        }
      }
      var s := writer.PollFlush();
      match s
      case Finished => return Copied(amt);
      case Failed => return CopyFailed;
      case Pending => return CopyPending;
    }
  }

  /** Any schedule of polls of `copy_buf`, from any reader into any writer. */
  method AnyCopy(bytes: seq<Byte>, capacity: nat, stalls: nat, faults: nat, polls: nat)
    returns (r: CopyPoll, written: seq<Byte>, flushed: nat)
    ensures written <= bytes
    ensures r.Copied? ==> r.amt == flushed == |written| && written == if capacity == 0 then [] else bytes
    ensures faults == 0 ==> !r.CopyFailed?
    ensures polls > 2 * stalls ==> !r.CopyPending?
  {
    var source := new Source(bytes, stalls, faults);
    var reader := new Reader(capacity, source);
    var sink := new Sink(stalls, faults);
    var copy := new CopyBuf(reader, sink);
    r := CopyPending;
    var i := 0;
    while i < polls && r.CopyPending?
      invariant i <= polls && copy.Valid() && copy.origin == bytes && copy.before == []
      invariant copy.reader == reader && reader.inner == source && reader.buf.Length == capacity && copy.writer == sink
      invariant fresh(copy) && fresh(reader) && fresh(reader.buf) && fresh(source) && fresh(sink)
      invariant r.Copied? ==> sink.taken == copy.Delivered() && r.amt == sink.flushed == |sink.taken|
      invariant r.CopyPending? ==> source.stalls + sink.stalls + i <= 2 * stalls
      invariant source.faults + sink.faults <= 2 * faults
      invariant r.CopyFailed? ==> source.faults + sink.faults < 2 * faults
      decreases polls - i
    {
      r := copy.Poll();
      i := i + 1;
    }
    written, flushed := sink.taken, sink.flushed;
  }
}
