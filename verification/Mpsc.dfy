/**
 The bounded `sync::mpsc` channel: the state behind its one lock, each critical section as a function
 on that state, and the channel object whose methods perform them.
 */
module Mpsc {
  import opened Base

  datatype Core<T> = Core(
    queue: seq<T>,
    capacity: nat,
    reserved: nat,
    sendWaiters: seq<nat>,
    recvWaker: Option<nat>,
    sendersAlive: nat,
    receiverAlive: bool
  )

  datatype SendOutcome = Sent | Closed | Full
  datatype RecvOutcome<T> = Value(value: T) | Ended | Empty

  function Free<T>(c: Core<T>): int {
    c.capacity - |c.queue| - c.reserved
  }

  /** Room for `n` more, or the reason why not. */
  function Room<T>(c: Core<T>, n: nat): SendOutcome {
    if !c.receiverAlive then Closed else if |c.queue| + c.reserved + n <= c.capacity then Sent else Full
  }

  function Push<T>(c: Core<T>, v: T): Core<T> {
    c.(queue := c.queue + [v], recvWaker := None)
  }

  function Enqueue<T>(c: Core<T>, w: nat): Core<T> {
    c.(sendWaiters := c.sendWaiters + [w])
  }

  /** Poll of `send`: `Full` means the waker was queued. */
  function PollSend<T>(c: Core<T>, w: nat, v: T): (Core<T>, SendOutcome) {
    match Room(c, 1)
    case Sent => (Push(c, v), Sent)
    case Closed => (c, Closed)
    case Full => (Enqueue(c, w), Full)
  }

  function TrySend<T>(c: Core<T>, v: T): (Core<T>, SendOutcome) {
    (if Room(c, 1) == Sent then Push(c, v) else c, Room(c, 1))
  }

  function PollReserve<T>(c: Core<T>, w: nat, n: nat): (Core<T>, SendOutcome) {
    match Room(c, n)
    case Sent => (c.(reserved := c.reserved + n), Sent)
    case Closed => (c, Closed)
    case Full => (Enqueue(c, w), Full)
  }

  function TryReserve<T>(c: Core<T>): (Core<T>, SendOutcome) {
    (if Room(c, 1) == Sent then c.(reserved := c.reserved + 1) else c, Room(c, 1))
  }

  function FillReserved<T>(c: Core<T>, v: T): Core<T>
    requires c.reserved > 0
  {
    Push(c.(reserved := c.reserved - 1), v)
  }

  /** How many queued senders a release of `n` slots wakes. */
  function Wakes<T>(c: Core<T>, n: nat): nat {
    Min(n, |c.sendWaiters|)
  }

  function WakeFront<T>(c: Core<T>, n: nat): Core<T>
    requires n <= |c.sendWaiters|
  {
    c.(sendWaiters := c.sendWaiters[n..])
  }

  function ReleaseReserved<T>(c: Core<T>, n: nat): Core<T>
    requires n <= c.reserved
  {
    WakeFront(c, Wakes(c, n)).(reserved := c.reserved - n)
  }

  function PollRecv<T>(c: Core<T>, w: nat): (Core<T>, RecvOutcome<T>) {
    if c.queue != [] then (WakeFront(c, Wakes(c, 1)).(queue := c.queue[1..]), Value(c.queue[0]))
    else if c.sendersAlive == 0 then (c, Ended)
    else (c.(recvWaker := Some(w)), Empty)
  }

  function DropSender<T>(c: Core<T>): Core<T>
    requires c.sendersAlive > 0
  {
    c.(sendersAlive := c.sendersAlive - 1, recvWaker := if c.sendersAlive == 1 then None else c.recvWaker)
  }

  /** `Clone` of a live sender and `WeakSender::upgrade`, which refuses once no sender is left. */
  function Upgrade<T>(c: Core<T>): (Core<T>, bool) {
    if c.sendersAlive == 0 then (c, false) else (c.(sendersAlive := c.sendersAlive + 1), true)
  }

  function DropReceiver<T>(c: Core<T>): Core<T> {
    c.(receiverAlive := false, sendWaiters := [])
  }

  function Open<T>(capacity: nat): Core<T> {
    Core([], capacity, 0, [], None, 1, true)
  }

  class Channel<T> {
    var queue: seq<T>
    const capacity: nat
    var reserved: nat
    var sendWaiters: seq<nat>
    var recvWaker: Option<nat>
    var sendersAlive: nat
    var receiverAlive: bool

    ghost function View(): Core<T>
      reads this
    {
      Core(queue, capacity, reserved, sendWaiters, recvWaker, sendersAlive, receiverAlive)
    }

    constructor (capacity: nat)
      requires capacity > 0
      ensures View() == Open(capacity)
    {
      this.capacity := capacity;
      queue, reserved, sendWaiters, recvWaker, sendersAlive, receiverAlive := [], 0, [], None, 1, true;
    }

    method Send(w: nat, v: T) returns (r: SendOutcome, wake: Option<nat>)
      modifies this
      ensures (View(), r) == PollSend(old(View()), w, v)
      ensures wake == if r == Sent then old(recvWaker) else None
    {
      wake := None;
      if !receiverAlive { return Closed, None; }
      if |queue| + reserved < capacity {
        queue := queue + [v];
        wake := recvWaker;
        recvWaker := None;
        return Sent, wake;
      }
      sendWaiters := sendWaiters + [w];
      r := Full;
    }

    method TrySendNow(v: T) returns (r: SendOutcome, wake: Option<nat>)
      modifies this
      ensures (View(), r) == TrySend(old(View()), v)
      ensures wake == if r == Sent then old(recvWaker) else None
    {
      if !receiverAlive { return Closed, None; }
      if |queue| + reserved < capacity {
        queue := queue + [v];
        wake := recvWaker;
        recvWaker := None;
        r := Sent;
      } else {
        return Full, None;
      }
    }

    method Reserve(w: nat, n: nat) returns (r: SendOutcome)
      modifies this
      ensures (View(), r) == PollReserve(old(View()), w, n)
    {
      if !receiverAlive { return Closed; }
      if |queue| + reserved + n <= capacity {
        reserved := reserved + n;
        return Sent;
      }
      sendWaiters := sendWaiters + [w];
      r := Full;
    }

    method TryReserveNow() returns (r: SendOutcome)
      modifies this
      ensures (View(), r) == TryReserve(old(View()))
    {
      if !receiverAlive { return Closed; }
      if |queue| + reserved < capacity {
        reserved := reserved + 1;
        r := Sent;
      } else {
        r := Full;
      }
    }

    /** A permit's `send`: total use of the buffer does not change, so only the receiver is woken. */
    method Fill(v: T) returns (wake: Option<nat>)
      requires reserved > 0
      modifies this
      ensures View() == FillReserved(old(View()), v) && wake == old(recvWaker)
    {
      reserved := reserved - 1;
      queue := queue + [v];
      wake := recvWaker;
      recvWaker := None;
    }

    /** Gives `n` reserved slots back and wakes up to `n` queued senders, oldest first. */
    method Release(n: nat) returns (woken: seq<nat>)
      requires n <= reserved
      modifies this
      ensures View() == ReleaseReserved(old(View()), n)
      ensures woken == old(sendWaiters)[..Wakes(old(View()), n)]
    {
      reserved := reserved - n;
      woken := [];
      var i := 0;
      while i < n && sendWaiters != []
        invariant i <= n && i <= |old(sendWaiters)|
        invariant woken == old(sendWaiters)[..i] && sendWaiters == old(sendWaiters)[i..]
        invariant View() == old(View()).(reserved := old(reserved) - n, sendWaiters := sendWaiters)
      {
        woken := woken + [sendWaiters[0]];
        sendWaiters := sendWaiters[1..];
        i := i + 1;
      }
    }

    method Recv(w: nat) returns (r: RecvOutcome<T>, wake: Option<nat>)
      modifies this
      ensures (View(), r) == PollRecv(old(View()), w)
      ensures wake == if r.Value? && old(sendWaiters) != [] then Some(old(sendWaiters)[0]) else None
    {
      wake := None;
      if queue != [] {
        r := Value(queue[0]);
        queue := queue[1..];
        if sendWaiters != [] {
          wake := Some(sendWaiters[0]);
          sendWaiters := sendWaiters[1..];
        }
        return;
      }
      if sendersAlive == 0 { return Ended, None; }
      recvWaker := Some(w);
      r := Empty;
    }

    method SenderDropped() returns (wake: Option<nat>)
      requires sendersAlive > 0
      modifies this
      ensures View() == DropSender(old(View()))
      ensures wake == if old(sendersAlive) == 1 then old(recvWaker) else None
    {
      wake := None;
      sendersAlive := sendersAlive - 1;
      if sendersAlive == 0 {
        wake := recvWaker;
        recvWaker := None;
      }
    }

    method UpgradeWeak() returns (ok: bool)
      modifies this
      ensures (View(), ok) == Upgrade(old(View()))
    {
      if sendersAlive == 0 { return false; }
      sendersAlive := sendersAlive + 1;
      ok := true;
    }

    method ReceiverDropped() returns (woken: seq<nat>)
      modifies this
      ensures View() == DropReceiver(old(View())) && woken == old(sendWaiters)
    {
      receiverAlive := false;
      woken := sendWaiters;
      sendWaiters := [];
    }
  }
}
