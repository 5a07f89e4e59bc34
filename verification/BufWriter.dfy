/** `io::BufWriter` over any byte sink. */
module BufWriter {
  import opened Base
  import opened Streams

  datatype Call = Write(data: seq<Byte>) | Flush | Shutdown

  /** What a call answered. */
  datatype Report = Took(n: nat) | Completed | NotYet | Failure

  /**
   An answer that fits the call.  After `accepted` bytes in all, a write that cannot overflow the buffer
   whatever was flushed before is taken whole.
   */
  predicate Answers(c: Call, r: Report, accepted: nat, capacity: nat) {
    match c
    case Write(data) =>
      && (if r.Took? then r.n <= |data| else !r.Completed?)
      && (accepted + |data| <= capacity && |data| < capacity ==> r == Took(|data|))
    case _ => !r.Took?
  }

  /** The bytes a call reported as accepted. */
  function Part(c: Call, r: Report): seq<Byte> {
    if c.Write? && r.Took? && r.n <= |c.data| then c.data[..r.n] else []
  }

  /** The bytes the calls reported so far accepted, in order. */
  function Accepted(calls: seq<Call>, reports: seq<Report>): seq<Byte>
    requires |reports| <= |calls|
  {
    if reports == [] then []
    else
      var n := |reports| - 1;
      Accepted(calls, reports[..n]) + Part(calls[n], reports[n])
  }

  /** A call that failed, or that took nothing of some data. */
  predicate Trouble(c: Call, r: Report) {
    r.Failure? || (c.Write? && c.data != [] && r == Took(0))
  }

  function One(b: bool): nat {
    if b then 1 else 0
  }

  function Delays(reports: seq<Report>): nat {
    if reports == [] then 0
    else Delays(reports[..|reports| - 1]) + One(reports[|reports| - 1].NotYet?)
  }

  function Troubles(calls: seq<Call>, reports: seq<Report>): nat
    requires |reports| <= |calls|
  {
    if reports == [] then 0
    else
      var n := |reports| - 1;
      Troubles(calls, reports[..n]) + One(Trouble(calls[n], reports[n]))
  }

  lemma {:induction false} NoTroubles(calls: seq<Call>, reports: seq<Report>, i: nat)
    requires i < |reports| <= |calls|
    ensures Delays(reports) == 0 ==> !reports[i].NotYet?
    ensures Troubles(calls, reports) == 0 ==> !Trouble(calls[i], reports[i])
  {
    var n := |reports| - 1;
    if i < n {
      NoTroubles(calls, reports[..n], i);
    }
  }

  /** A finished shutdown, after which no call is made. */
  predicate Ends(c: Call, r: Report) {
    c.Shutdown? && r.Completed?
  }

  /** The last call made was a finished shutdown. */
  predicate Over(calls: seq<Call>, reports: seq<Report>)
    requires |reports| <= |calls|
  {
    reports != [] && Ends(calls[|reports| - 1], reports[|reports| - 1])
  }

  /** Every report answers its call, and nothing follows a finished shutdown. */
  ghost predicate Session(calls: seq<Call>, reports: seq<Report>, capacity: nat) {
    && |reports| <= |calls|
    && (reports == []
        || var n := |reports| - 1;
           && Session(calls, reports[..n], capacity) && !Over(calls, reports[..n])
           && Answers(calls[n], reports[n], |Accepted(calls, reports[..n])|, capacity))
  }

  lemma SessionGrows(calls: seq<Call>, reports: seq<Report>, r: Report, capacity: nat)
    requires Session(calls, reports, capacity) && |reports| < |calls| && !Over(calls, reports)
    requires Answers(calls[|reports|], r, |Accepted(calls, reports)|, capacity)
    ensures Session(calls, reports + [r], capacity)
    ensures Accepted(calls, reports + [r]) == Accepted(calls, reports) + Part(calls[|reports|], r)
    ensures Delays(reports + [r]) == Delays(reports) + One(r.NotYet?)
    ensures Troubles(calls, reports + [r]) == Troubles(calls, reports) + One(Trouble(calls[|reports|], r))
  {
    assert (reports + [r])[..|reports|] == reports;
  }

  class Writer {
    const inner: Sink
    const capacity: nat
    var buf: seq<Byte>
    var written: nat                 // how much of `buf` the sink has already taken
    ghost var accepted: seq<Byte>    // everything this writer has reported as accepted
    ghost const before: seq<Byte>    // what the sink held at first

    /** What the sink took, followed by what is still buffered, is everything accepted, in order. */
    ghost predicate Valid()
      reads this, inner
    {
      && written <= |buf| <= capacity
      && inner.taken + buf[written..] == before + accepted
      && |before| + written <= |inner.taken|
    }

    constructor (capacity: nat, inner: Sink)
      ensures Valid() && this.inner == inner && this.capacity == capacity
      ensures buf == [] && accepted == [] && before == inner.taken
    {
      this.inner, this.capacity, this.buf, this.written := inner, capacity, [], 0;
      this.accepted, this.before := [], inner.taken;
    }

    /** Offers what is left of the buffer to the sink once. */
    method FlushSome() returns (w: WritePoll)
      requires Valid() && !inner.closed && written < |buf|
      modifies this`written, inner`taken, inner`stalls, inner`faults
      ensures Valid()
      ensures written == old(written) + (if w.WriteReady? then w.n else 0)
      ensures inner.Paid(w.WritePending?, w.WriteFailed? || w == WriteReady(0))
    {
      var data := buf[written..];
      w := inner.PollWrite(data);
      if w.WriteReady? {
        ghost var head, tail := data[..w.n], data[w.n..];
        assert tail == buf[written + w.n..] && data == head + tail;
        assert old(inner.taken) + (head + tail) == (old(inner.taken) + head) + tail;
        written := written + w.n;
      }
    }

    /** Drains the buffer; short writes are continued, and whatever was not taken stays buffered. */
    method PollFlushBuf() returns (r: UnitPoll)
      requires Valid() && !inner.closed
      modifies this`buf, this`written, inner`taken, inner`stalls, inner`faults
      ensures Valid()
      ensures r.Finished? ==> buf == [] && inner.taken == before + accepted
      ensures !r.Pending? ==> written == 0
      ensures inner.Paid(r.Pending?, r.Failed?)
    {
      r := Finished;
      while written < |buf|
        invariant Valid() && r.Finished? && inner.Paid(false, false)
        decreases |buf| - written
      {
        var w := FlushSome();
        if w.WritePending? { return Pending; }
        if w.WriteFailed? || w.n == 0 {
          r := Failed;
          break;
        }
      }
      if written >= |buf| {
        buf := [];
      } else if written > 0 {
        buf := buf[written..];
      }
      written := 0;
    }

    /**
     Accepts a prefix of `data`: all of it into the buffer, or, for data at least as large as the
     whole buffer, however much the sink takes of it directly.  The latter never overtakes anything.
     */
    method PollWrite(data: seq<Byte>) returns (r: WritePoll)
      requires Valid() && !inner.closed
      modifies this`buf, this`written, this`accepted, inner`taken, inner`stalls, inner`faults
      ensures Valid()
      ensures r.WriteReady? ==> r.n <= |data| && accepted == old(accepted) + data[..r.n]
      ensures !r.WriteReady? ==> accepted == old(accepted)
      ensures r.WriteReady? && |data| < capacity ==> r.n == |data|
      ensures old(|buf|) + |data| <= capacity && |data| < capacity ==> r.WriteReady?
      ensures inner.Paid(r.WritePending?, Refused(r, data))
    {
      if |buf| + |data| > capacity {
        var f := PollFlushBuf();
        if f.Pending? { return WritePending; }
        if f.Failed? { return WriteFailed; }
      }
      if |data| >= capacity {
        r := WriteThrough(data);
      } else {
        Append(data);
        assert data[..|data|] == data;
        r := WriteReady(|data|);
      }
    }

    /** The bypass: only ever with nothing buffered. */
    method WriteThrough(data: seq<Byte>) returns (r: WritePoll)
      requires Valid() && !inner.closed && buf == []
      modifies this`accepted, inner`taken, inner`stalls, inner`faults
      ensures Valid()
      ensures r.WriteReady? ==> r.n <= |data| && accepted == old(accepted) + data[..r.n]
      ensures !r.WriteReady? ==> accepted == old(accepted)
      ensures inner.Paid(r.WritePending?, Refused(r, data))
    {
      assert inner.taken == before + accepted;
      r := inner.PollWrite(data);
      if r.WriteReady? {
        assert before + (accepted + data[..r.n]) == (before + accepted) + data[..r.n];
        accepted := accepted + data[..r.n];
      }
    }

    method Append(data: seq<Byte>)
      requires Valid() && |buf| + |data| <= capacity
      modifies this`buf, this`accepted
      ensures Valid() && accepted == old(accepted) + data
    {
      assert (buf + data)[written..] == buf[written..] + data;
      assert inner.taken + (buf[written..] + data) == (inner.taken + buf[written..]) + data;
      assert before + (accepted + data) == (before + accepted) + data;
      buf := buf + data;
      accepted := accepted + data;
    }

    /** A finished flush means the sink holds everything ever accepted, and was flushed with all of it. */
    method PollFlush() returns (r: UnitPoll)
      requires Valid() && !inner.closed
      modifies this`buf, this`written, inner`taken, inner`flushed, inner`stalls, inner`faults
      ensures Valid()
      ensures r.Finished? ==> buf == [] && inner.taken == before + accepted && inner.flushed == |inner.taken|
      ensures inner.Paid(r.Pending?, r.Failed?)
    {
      r := PollFlushBuf();
      if r.Finished? { r := inner.PollFlush(); }
    }

    method PollShutdown() returns (r: UnitPoll)
      requires Valid() && !inner.closed
      modifies this`buf, this`written, inner
      ensures Valid() && inner.closed == r.Finished?
      ensures r.Finished? ==> buf == [] && inner.taken == before + accepted
      ensures inner.Paid(r.Pending?, r.Failed?)
    {
      r := PollFlushBuf();
      if r.Finished? { r := inner.PollShutdown(); }
    }

    /** One call of a session. */
    method Perform(c: Call) returns (r: Report)
      requires Valid() && !inner.closed
      modifies this`buf, this`written, this`accepted, inner
      ensures Valid() && Answers(c, r, |old(accepted)|, capacity) && accepted == old(accepted) + Part(c, r)
      ensures r.Completed? ==> buf == [] && inner.taken == before + accepted
      ensures c.Flush? && r.Completed? ==> inner.flushed == |inner.taken|
      ensures inner.closed <==> Ends(c, r)
      ensures inner.Paid(r.NotYet?, Trouble(c, r))
    {
      assert |buf| <= |accepted|;
      match c {
        case Write(data) =>
          var w := PollWrite(data);
          r := if w.WriteReady? then Took(w.n) else if w.WritePending? then NotYet else Failure;
        case Flush =>
          var f := PollFlush();
          r := if f.Finished? then Completed else if f.Pending? then NotYet else Failure;
        case Shutdown =>
          var f := PollShutdown();
          r := if f.Finished? then Completed else if f.Pending? then NotYet else Failure;
      }
    }

    /** Where a session stands. */
    ghost predicate InSession(calls: seq<Call>, reports: seq<Report>, stalls: nat, faults: nat)
      reads this, inner
    {
      && Valid() && before == []
      && Session(calls, reports, capacity) && accepted == Accepted(calls, reports)
      && (reports != [] && reports[|reports| - 1].Completed? ==>
            buf == [] && (calls[|reports| - 1].Flush? ==> inner.flushed == |inner.taken|))
      && (inner.closed <==> Over(calls, reports))
      && Delays(reports) + inner.stalls <= stalls && Troubles(calls, reports) + inner.faults <= faults
    }

    method NextCall(calls: seq<Call>, reports: seq<Report>, ghost stalls: nat, ghost faults: nat)
      returns (more: seq<Report>)
      requires InSession(calls, reports, stalls, faults) && |reports| < |calls| && !inner.closed
      modifies this`buf, this`written, this`accepted, inner
      ensures InSession(calls, more, stalls, faults) && |more| == |reports| + 1
    {
      var r := Perform(calls[|reports|]);
      SessionGrows(calls, reports, r, capacity);
      more := reports + [r];
    }
  }

  /**
   Any sequence of calls against any sink.  What the sink took, followed by what is still buffered, is
   the concatenation of what the calls reported as accepted: nothing is lost, duplicated or reordered.
   After a finished flush or shutdown the sink holds all of it.  The calls report no more delays and no
   more trouble than the sink made, so with a sink that makes none every flush and shutdown completes
   and every write takes something.
   */
  method AnySession(capacity: nat, calls: seq<Call>, stalls: nat, faults: nat)
    returns (reports: seq<Report>, delivered: seq<Byte>, flushed: nat, buffered: seq<Byte>)
    ensures Session(calls, reports, capacity) && (|reports| < |calls| ==> Over(calls, reports))
    ensures delivered + buffered == Accepted(calls, reports) && |buffered| <= capacity
    ensures reports != [] && reports[|reports| - 1].Completed? ==>
              delivered == Accepted(calls, reports) && (calls[|reports| - 1].Flush? ==> flushed == |delivered|)
    ensures Delays(reports) <= stalls && Troubles(calls, reports) <= faults
    ensures stalls == 0 && faults == 0 ==>
              forall i :: 0 <= i < |reports| ==> if calls[i].Write? then reports[i].Took? else reports[i].Completed?
  {
    var sink := new Sink(stalls, faults);
    var w := new Writer(capacity, sink);
    reports := [];
    while |reports| < |calls| && !sink.closed
      invariant w.InSession(calls, reports, stalls, faults)
      invariant w.inner == sink && w.capacity == capacity && fresh(w) && fresh(sink)
      decreases |calls| - |reports|
    {
      reports := w.NextCall(calls, reports, stalls, faults);
    }
    delivered, flushed, buffered := sink.taken, sink.flushed, w.buf[w.written..];
    ReportsOfAWillingSink(calls, reports, capacity);
  }

  lemma {:induction false} SessionAnswers(calls: seq<Call>, reports: seq<Report>, capacity: nat, i: nat)
    requires Session(calls, reports, capacity) && i < |reports|
    ensures exists accepted :: Answers(calls[i], reports[i], accepted, capacity)
  {
    var n := |reports| - 1;
    if i < n {
      SessionAnswers(calls, reports[..n], capacity, i);
    } else {
      assert Answers(calls[n], reports[n], |Accepted(calls, reports[..n])|, capacity);
    }
  }

  lemma ReportsOfAWillingSink(calls: seq<Call>, reports: seq<Report>, capacity: nat)
    requires Session(calls, reports, capacity)
    ensures Delays(reports) == 0 && Troubles(calls, reports) == 0 ==>
              forall i :: 0 <= i < |reports| ==> if calls[i].Write? then reports[i].Took? else reports[i].Completed?
  {
    forall i | 0 <= i < |reports| && Delays(reports) == 0 && Troubles(calls, reports) == 0
      ensures if calls[i].Write? then reports[i].Took? else reports[i].Completed?
    {
      NoTroubles(calls, reports, i);
      SessionAnswers(calls, reports, capacity, i);
    }
  }
}
