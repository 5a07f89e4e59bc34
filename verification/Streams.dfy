/**
 The byte streams underneath everything in `io`: a reader and a writer that may do anything their
 traits allow.  Each poll chooses freely between Pending, an error and any amount of progress, so
 whatever is proved against these contracts holds for every inner stream and every schedule.
 */
module Streams {
  import opened Base

  datatype ReadPoll = ReadReady(n: nat) | ReadFailed | ReadPending
  datatype WritePoll = WriteReady(n: nat) | WriteFailed | WritePending
  datatype UnitPoll = Finished | Failed | Pending

  /**
   A finite byte source.  A read into a non-empty buffer yields nothing only at the end.  How often it
   may still answer Pending and how often it may still fail are budgets of any size: whoever blames the
   source for a delay or a failure has to show it paid for by one of them.
   */
  class Source {
    var rest: seq<Byte>
    var stalls: nat
    var faults: nat

    constructor (bytes: seq<Byte>, stalls: nat, faults: nat)
      ensures rest == bytes && this.stalls == stalls && this.faults == faults
    {
      this.rest, this.stalls, this.faults := bytes, stalls, faults;
    }

    /** The budgets paid for a Pending, for a failure, and for nothing else. */
    twostate predicate Paid(pending: bool, failed: bool)
      reads this
    {
      && (if pending then stalls < old(stalls) else stalls == old(stalls))
      && (if failed then faults < old(faults) else faults == old(faults))
    }

    method PollRead(dst: array<Byte>) returns (r: ReadPoll)
      modifies this, dst
      ensures r.ReadReady? ==>
                && r.n <= |old(rest)| && r.n <= dst.Length
                && (r.n == 0 <==> old(rest) == [] || dst.Length == 0)
                && dst[..r.n] == old(rest)[..r.n] && rest == old(rest)[r.n..]
      ensures !r.ReadReady? ==> rest == old(rest)
      ensures Paid(r.ReadPending?, r.ReadFailed?)
    {
      var choice: int := *;
      if choice == 0 && stalls > 0 {
        stalls := stalls - 1;
        return ReadPending;
      }
      if choice == 1 && faults > 0 {
        faults := faults - 1;
        return ReadFailed;
      }
      var n := 0;
      if rest != [] && dst.Length > 0 {
        n :| 0 < n <= |rest| && n <= dst.Length;
      }
      forall i | 0 <= i < n {
        dst[i] := rest[i];
      }
      rest := rest[n..];
      r := ReadReady(n);
    }
  }

  /**
   A byte sink that keeps what it took.  Once shut down it must be left alone.  It has the same two
   budgets; taking nothing of some data is a failure.
   */
  class Sink {
    var taken: seq<Byte>
    var flushed: nat  // how much of it was there at the last finished flush
    var closed: bool
    var stalls: nat
    var faults: nat

    constructor (stalls: nat, faults: nat)
      ensures taken == [] && flushed == 0 && !closed && this.stalls == stalls && this.faults == faults
    {
      taken, flushed, closed := [], 0, false;
      this.stalls, this.faults := stalls, faults;
    }

    twostate predicate Paid(pending: bool, failed: bool)
      reads this
    {
      && (if pending then stalls < old(stalls) else stalls == old(stalls))
      && (if failed then faults < old(faults) else faults == old(faults))
    }

    /** May accept any part of `data`, including nothing. */
    method PollWrite(data: seq<Byte>) returns (r: WritePoll)
      requires !closed
      modifies this`taken, this`stalls, this`faults
      ensures r.WriteReady? ==> r.n <= |data| && taken == old(taken) + data[..r.n]
      ensures !r.WriteReady? ==> taken == old(taken)
      ensures Paid(r.WritePending?, Refused(r, data))
    {
      var choice: int := *;
      if choice == 0 && stalls > 0 {
        stalls := stalls - 1;
        return WritePending;
      }
      if choice == 1 && faults > 0 {
        faults := faults - 1;
        return WriteFailed;
      }
      var n: nat :| n <= |data|;
      if n == 0 && data != [] {
        if faults > 0 { faults := faults - 1; } else { n := |data|; }
      }
      taken := taken + data[..n];
      r := WriteReady(n);
    }

    method PollFlush() returns (r: UnitPoll)
      requires !closed
      modifies this`flushed, this`stalls, this`faults
      ensures flushed == if r.Finished? then |taken| else old(flushed)
      ensures Paid(r.Pending?, r.Failed?)
    {
      r := Decide();
      if r.Finished? { flushed := |taken|; }
    }

    method PollShutdown() returns (r: UnitPoll)
      requires !closed
      modifies this`closed, this`stalls, this`faults
      ensures closed == r.Finished? && Paid(r.Pending?, r.Failed?)
    {
      r := Decide();
      closed := r.Finished?;
    }

    method Decide() returns (r: UnitPoll)
      modifies this`stalls, this`faults
      ensures Paid(r.Pending?, r.Failed?)
    {
      var choice: int := *;
      if choice == 0 && stalls > 0 {
        stalls := stalls - 1;
        return Pending;
      }
      if choice == 1 && faults > 0 {
        faults := faults - 1;
        return Failed;
      }
      r := Finished;
    }
  }

  /** A write that failed, or that took nothing of some data. */
  predicate Refused(r: WritePoll, data: seq<Byte>) {
    r.WriteFailed? || (r == WriteReady(0) && data != [])
  }
}
