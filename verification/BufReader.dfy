/** `io::BufReader` over any byte source, and `read_until` on top of it. */
module BufReader {
  import opened Base
  import opened Streams

  datatype FillPoll = Filled(data: seq<Byte>) | FillFailed | FillPending

  class Reader {
    const inner: Source
    const buf: array<Byte>
    var pos: nat
    var cap: nat

    ghost predicate Valid()
      reads this
    {
      pos <= cap <= buf.Length
    }

    /** Everything the caller has not consumed yet: buffered bytes, then the source. */
    ghost function Unread(): seq<Byte>
      requires Valid()
      reads this, buf, inner
    {
      buf[pos..cap] + inner.rest
    }

    constructor (capacity: nat, inner: Source)
      ensures Valid() && Unread() == inner.rest && this.inner == inner && buf.Length == capacity && fresh(buf)
    {
      this.inner := inner;
      buf := new Byte[capacity](_ => 0);
      pos, cap := 0, 0;
    }

    /** The buffered bytes, read ahead first if there are none: empty only at the end of the stream. */
    method PollFillBuf() returns (r: FillPoll)
      requires Valid()
      modifies this`pos, this`cap, buf, inner
      ensures Valid() && Unread() == old(Unread())
      ensures r.Filled? ==> r.data == buf[pos..cap] && (r.data == [] <==> Unread() == [] || buf.Length == 0)
      ensures old(pos < cap) ==> r.Filled? && pos == old(pos) && cap == old(cap) && buf[..] == old(buf[..])
      ensures inner.Paid(r.FillPending?, r.FillFailed?)
    {
      if pos >= cap {
        var n := inner.PollRead(buf);
        match n
        case ReadReady(k) => cap := k; pos := 0;
        case ReadFailed => return FillFailed;
        case ReadPending => return FillPending;
      }
      r := Filled(buf[pos..cap]);
    }

    method Consume(amt: nat)
      requires Valid()
      modifies this`pos
      ensures Valid() && Unread() == old(Unread())[Min(amt, old(cap - pos))..]
    {
      pos := Min(pos + amt, cap);
    }

    /** A read, straight from the source when nothing is buffered and the caller's buffer is larger. */
    method PollRead(dst: array<Byte>) returns (r: ReadPoll)
      requires Valid() && dst != buf
      modifies this`pos, this`cap, buf, inner, dst
      ensures Valid()
      ensures r.ReadReady? ==>
                && r.n <= dst.Length && r.n <= |old(Unread())|
                && (r.n == 0 <==> old(Unread()) == [] || dst.Length == 0)
                && dst[..r.n] == old(Unread())[..r.n] && Unread() == old(Unread())[r.n..]
      ensures !r.ReadReady? ==> Unread() == old(Unread())
      ensures inner.Paid(r.ReadPending?, r.ReadFailed?)
    {
      if pos == cap && dst.Length >= buf.Length {
        r := inner.PollRead(dst);
        pos, cap := 0, 0;
        return;
      }
      var available := PollFillBuf();
      match available
      case FillFailed => return ReadFailed;
      case FillPending => return ReadPending;
      case Filled(data) =>
        var n := Min(|data|, dst.Length);
        forall i | 0 <= i < n {
          dst[i] := data[i];
        }
        assert dst[..n] == data[..n];
        assert data == buf[pos..cap];
        Consume(n);
        r := ReadReady(n);
    }
  }

  /** Length of the record at the front of `s`: up to and including the first `delim`, or all of it. */
  function Until(delim: Byte, s: seq<Byte>): (n: nat)
    ensures n <= |s| && (s != [] ==> n > 0)
    ensures forall i :: 0 <= i < n - 1 ==> s[i] != delim
    ensures n == |s| || s[n - 1] == delim
  {
    if s == [] then 0 else if s[0] == delim then 1 else 1 + Until(delim, s[1..])
  }

  /** The record does not depend on how the stream is cut, as long as the first part holds no `delim`. */
  lemma {:induction false} UntilSplits(delim: Byte, a: seq<Byte>, b: seq<Byte>)
    ensures delim !in a ==> Until(delim, a + b) == |a| + Until(delim, b)
    ensures delim in a ==> Until(delim, a + b) == Until(delim, a)
  {
    if a == [] {
      assert a + b == b;
    } else {
      UntilSplits(delim, a[1..], b);
      assert (a + b)[1..] == a[1..] + b;
    }
  }

  method Position(data: seq<Byte>, delim: Byte) returns (i: Option<nat>)
    ensures i.Some? ==> i.value < |data| && data[i.value] == delim && Until(delim, data) == i.value + 1
    ensures i.None? ==> delim !in data
  {
    for k := 0 to |data|
      invariant delim !in data[..k]
    {
      if data[k] == delim {
        assert data == data[..k] + data[k..];
        UntilSplits(delim, data[..k], data[k..]);
        return Some(k);
      }
    }
    assert data[..|data|] == data;
    i := None;
  }

  datatype UntilPoll = Ready(total: nat) | Broken | NotYet

  /** The future of one `read_until` call: it survives any number of polls that end in Pending. */
  class ReadUntil {
    const reader: Reader
    const delim: Byte
    var buf: seq<Byte>             // the caller's vector, which is appended to
    var total: nat
    ghost const before: seq<Byte>  // what the vector held at first
    ghost const origin: seq<Byte>  // what the reader had not consumed at first
    ghost var got: seq<Byte>       // what this call has taken so far

    ghost predicate Balanced()
      reads this, reader, reader.buf, reader.inner
    {
      reader.Valid() && origin == got + reader.Unread() && buf == before + got && total == |got|
    }

    ghost predicate Valid()
      reads this, reader, reader.buf, reader.inner
    {
      Balanced() && delim !in got && (reader.buf.Length == 0 ==> got == [])
    }

    constructor (reader: Reader, delim: Byte, buf: seq<Byte>)
      requires reader.Valid()
      ensures Valid() && this.reader == reader && this.delim == delim
      ensures before == buf && origin == reader.Unread() && total == 0
    {
      this.reader, this.delim, this.buf, this.total := reader, delim, buf, 0;
      this.before, this.origin, this.got := buf, reader.Unread(), [];
    }

    /**
     One poll.  Whatever sizes the source delivers and however often it stalls in between, a finished
     call has appended exactly the record at the front of the stream and consumed exactly that.  A
     reader without a buffer looks like the end of the stream.
     */
    method Poll() returns (r: UntilPoll)
      requires Valid()
      modifies this`buf, this`total, this`got, reader`pos, reader`cap, reader.buf, reader.inner
      ensures r.Ready? ==>
                && reader.Valid()
                && r.total == (if reader.buf.Length == 0 then 0 else Until(delim, origin))
                && buf == before + origin[..r.total] && reader.Unread() == origin[r.total..]
      ensures !r.Ready? ==> Valid()
      ensures reader.inner.Paid(r.NotYet?, r.Broken?)
    {
      while true
        invariant Valid()
        invariant reader.inner.Paid(false, false)
        decreases |reader.Unread()|
      {
        var f := reader.PollFillBuf();
        if f.FillFailed? { return Broken; }
        if f.FillPending? { return NotYet; }
        var i := Position(f.data, delim);
        var used := if i.Some? then i.value + 1 else |f.data|;
        ghost var head, tail := got, reader.Unread();
        Accept(f.data, used);
        if i.Some? {
          RecordEnds(delim, head, f.data, tail);
          return Ready(total);
        }
        if used == 0 {
          RecordIsAll(delim, got);
          return Ready(total);
        }
      }
    }

    /** Appends the first `used` buffered bytes to the caller's vector and consumes them. */
    method Accept(data: seq<Byte>, used: nat)
      requires Balanced() && data == reader.buf[reader.pos..reader.cap] && used <= |data|
      modifies this`buf, this`total, this`got, reader`pos
      ensures Balanced() && got == old(got) + data[..used] && reader.Unread() == old(reader.Unread())[used..]
    {
      ghost var rest := reader.Unread();
      assert rest == data[..used] + rest[used..];
      buf := buf + data[..used];
      got := got + data[..used];
      total := total + used;
      reader.Consume(used);
    }
  }

  /** A chunk with a delimiter in it ends the record there. */
  lemma RecordEnds(delim: Byte, head: seq<Byte>, chunk: seq<Byte>, rest: seq<Byte>)
    requires delim !in head && delim in chunk && chunk <= rest
    ensures Until(delim, head + rest) == |head| + Until(delim, chunk)
  {
    UntilSplits(delim, head, rest);
    UntilSplits(delim, chunk, rest[|chunk|..]);
    assert rest == chunk + rest[|chunk|..];
  }

  lemma RecordIsAll(delim: Byte, s: seq<Byte>)
    requires delim !in s
    ensures Until(delim, s) == |s|
  {
    UntilSplits(delim, s, []);
    assert s + [] == s;
  }
}
