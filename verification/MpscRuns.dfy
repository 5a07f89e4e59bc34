/**
 Everything a bounded channel promises over whole runs.  `World` adds to the channel state what the
 rest of the program holds: live sender handles, unused permits and permit iterators, the values
 handed over so far, and which queued senders have been woken but not polled again.
 */
module MpscRuns {
  import opened Base
  import opened Mpsc

  /** A permit (one slot) or a permit iterator, borrowing or owning a sender handle. */
  datatype Hold = Hold(owner: nat, slots: nat, iter: bool)

  datatype World<T> = World(
    core: Core<T>,
    handles: set<nat>,
    holds: seq<Hold>,
    accepted: seq<T>,
    received: seq<T>,
    waits: map<nat, nat>,   // slots asked for by every send or reserve that has returned Pending
    woken: set<nat>,        // those taken off the queue and woken, but not polled since
    parked: seq<nat>,       // every waker ever queued, in order
    popped: seq<nat>,       // every waker ever taken off the queue, in order
    recvParked: bool,       // the last receive returned Pending ...
    recvWoken: bool         // ... and its waker has been invoked since
  )

  function Start<T>(capacity: nat): World<T> {
    World(Open(capacity), {0}, [], [], [], map[], {}, [], [], false, false)
  }

  datatype Action<T> =
    | Send(h: nat, w: nat, v: T)
    | SendNow(h: nat, v: T)
    | Reserve(h: nat, w: nat, n: nat, many: bool)
    | ReserveNow(h: nat)
    | NextPermit(i: nat)
    | FillPermit(i: nat, v: T)
    | DropHold(i: nat)
    | CloneSender(h: nat, id: nat)
    | UpgradeSender(id: nat)
    | DropHandle(h: nat)
    | Receive(w: nat)
    | CloseReceiver
    | Abandon(w: nat)  // drops a send or reserve that is waiting; its queue entries and wakes stay behind

  /** What handles and borrows allow; waits may be polled again, or abandoned, at any moment. */
  ghost predicate Enabled<T>(s: World<T>, a: Action<T>) {
    match a
    case Send(h, _, _) => h in s.handles
    case SendNow(h, _) => h in s.handles
    case Reserve(h, _, n, many) => h in s.handles && (!many ==> n == 1)
    case ReserveNow(h) => h in s.handles
    case NextPermit(i) => i < |s.holds| && s.holds[i].iter && s.holds[i].slots > 0
    case FillPermit(i, _) => i < |s.holds| && !s.holds[i].iter
    case DropHold(i) => i < |s.holds|
    case CloneSender(h, id) => h in s.handles && id !in s.handles
    case UpgradeSender(id) => id !in s.handles
    case DropHandle(h) => h in s.handles && forall i :: 0 <= i < |s.holds| ==> s.holds[i].owner != h
    case Receive(_) => s.core.receiverAlive
    case CloseReceiver => s.core.receiverAlive
    case Abandon(w) => w in s.waits
  }

  function RemoveAt<X>(q: seq<X>, i: nat): seq<X>
    requires i < |q|
  {
    q[..i] + q[i + 1..]
  }

  /** The receiver's waker left its slot without the receiver storing a new one. */
  ghost function Roused<T>(s: World<T>, core: Core<T>): World<T> {
    s.(core := core, recvWoken := s.recvWoken || (s.core.recvWaker.Some? && core.recvWaker.None?))
  }

  ghost function Settle<T>(s: World<T>, w: nat): World<T> {
    s.(waits := s.waits - {w}, woken := s.woken - {w})
  }

  ghost function Park<T>(s: World<T>, w: nat, n: nat): World<T> {
    s.(waits := s.waits[w := n], woken := s.woken - {w}, parked := s.parked + [w])
  }

  /** The first `n` queued senders leave the queue for the woken set. */
  ghost function Woke<T>(s: World<T>, n: nat): World<T>
    requires n <= |s.core.sendWaiters|
  {
    var front := s.core.sendWaiters[..n];
    s.(woken := s.woken + Elems(front), popped := s.popped + front)
  }

  ghost function SendStep<T>(s: World<T>, w: nat, v: T): World<T> {
    var (core, r) := PollSend(s.core, w, v);
    match r
    case Sent => Settle(Roused(s, core), w).(accepted := s.accepted + [v])
    case Closed => Settle(s, w)
    case Full => Park(s, w, 1).(core := core)
  }

  ghost function ReserveStep<T>(s: World<T>, h: nat, w: nat, n: nat, many: bool): World<T> {
    var (core, r) := PollReserve(s.core, w, n);
    match r
    case Sent => Settle(s, w).(core := core, holds := s.holds + [Hold(h, n, many)])
    case Closed => Settle(s, w)
    case Full => Park(s, w, n).(core := core)
  }

  ghost function ReceiveStep<T>(s: World<T>, w: nat): World<T> {
    var (core, r) := PollRecv(s.core, w);
    match r
    case Value(v) => Woke(s, Wakes(s.core, 1)).(core := core, received := s.received + [v], recvParked := false)
    case Ended => s.(recvParked := false)
    case Empty => s.(core := core, recvParked := true, recvWoken := false)
  }

  ghost function SendNowStep<T>(s: World<T>, v: T): World<T> {
    var (core, r) := TrySend(s.core, v);
    if r == Sent then Roused(s, core).(accepted := s.accepted + [v]) else s
  }

  ghost function ReserveNowStep<T>(s: World<T>, h: nat): World<T> {
    var (core, r) := TryReserve(s.core);
    if r == Sent then s.(core := core, holds := s.holds + [Hold(h, 1, false)]) else s
  }

  ghost function NextPermitStep<T>(s: World<T>, i: nat): World<T>
    requires i < |s.holds| && s.holds[i].slots > 0
  {
    var x := s.holds[i];
    s.(holds := s.holds[i := x.(slots := x.slots - 1)] + [Hold(x.owner, 1, false)])
  }

  // The guards on the counters below are never false in a run, as `Conserved` shows: nothing underflows.

  ghost function FillStep<T>(s: World<T>, i: nat, v: T): World<T>
    requires i < |s.holds|
  {
    if s.core.reserved == 0 then s
    else Roused(s, FillReserved(s.core, v)).(accepted := s.accepted + [v], holds := RemoveAt(s.holds, i))
  }

  ghost function DropHoldStep<T>(s: World<T>, i: nat): World<T>
    requires i < |s.holds|
  {
    var n := s.holds[i].slots;
    if s.core.reserved < n then s
    else Woke(s, Wakes(s.core, n)).(core := ReleaseReserved(s.core, n), holds := RemoveAt(s.holds, i))
  }

  /** A clone comes from a live handle; an upgrade may find none left and then yields nothing. */
  ghost function AddHandle<T>(s: World<T>, id: nat): World<T> {
    var (core, ok) := Upgrade(s.core);
    s.(core := core, handles := if ok then s.handles + {id} else s.handles)
  }

  ghost function DropHandleStep<T>(s: World<T>, h: nat): World<T> {
    if s.core.sendersAlive == 0 then s else Roused(s, DropSender(s.core)).(handles := s.handles - {h})
  }

  ghost function Apply<T>(s: World<T>, a: Action<T>): World<T>
    requires Enabled(s, a)
  {
    match a
    case Send(_, w, v) => SendStep(s, w, v)
    case SendNow(_, v) => SendNowStep(s, v)
    case Reserve(h, w, n, many) => ReserveStep(s, h, w, n, many)
    case ReserveNow(h) => ReserveNowStep(s, h)
    case NextPermit(i) => NextPermitStep(s, i)
    case FillPermit(i, v) => FillStep(s, i, v)
    case DropHold(i) => DropHoldStep(s, i)
    case CloneSender(_, id) => AddHandle(s, id)
    case UpgradeSender(id) => AddHandle(s, id)
    case DropHandle(h) => DropHandleStep(s, h)
    case Receive(w) => ReceiveStep(s, w)
    case CloseReceiver => Woke(s, |s.core.sendWaiters|).(core := DropReceiver(s.core), recvParked := false)
    case Abandon(w) => Settle(s, w)
  }

  // ---------------------------------------------------------------------------------------------
  // Slots held by permits and iterators
  // ---------------------------------------------------------------------------------------------

  ghost function Slots(holds: seq<Hold>): nat {
    if holds == [] then 0 else Slots(holds[..|holds| - 1]) + holds[|holds| - 1].slots
  }

  lemma SlotsAppend(holds: seq<Hold>, x: Hold)
    ensures Slots(holds + [x]) == Slots(holds) + x.slots
  {
    assert (holds + [x])[..|holds|] == holds;
  }

  lemma {:induction false} SlotsAt(holds: seq<Hold>, i: nat)
    requires i < |holds|
    ensures holds[i].slots <= Slots(holds)
    ensures Slots(RemoveAt(holds, i)) == Slots(holds) - holds[i].slots
  {
    var n := |holds| - 1;
    if i == n {
      assert RemoveAt(holds, i) == holds[..n];
    } else {
      SlotsAt(holds[..n], i);
      assert RemoveAt(holds, i) == RemoveAt(holds[..n], i) + [holds[n]];
      SlotsAppend(RemoveAt(holds[..n], i), holds[n]);
    }
  }

  lemma {:induction false} SlotsUpdate(holds: seq<Hold>, i: nat, x: Hold)
    requires i < |holds|
    ensures Slots(holds[i := x]) == Slots(holds) - holds[i].slots + x.slots
  {
    var n := |holds| - 1;
    if i == n {
      assert holds[i := x][..n] == holds[..n];
    } else {
      SlotsUpdate(holds[..n], i, x);
      assert holds[i := x][..n] == holds[..n][i := x];
    }
  }

  // ---------------------------------------------------------------------------------------------
  // Conservation, over every run
  // ---------------------------------------------------------------------------------------------

  ghost predicate HoldsOk(holds: seq<Hold>, handles: set<nat>, reserved: nat) {
    && reserved == Slots(holds)
    && forall i :: 0 <= i < |holds| ==> holds[i].owner in handles && (!holds[i].iter ==> holds[i].slots == 1)
  }

  ghost predicate Conserved<T>(s: World<T>) {
    && s.accepted == s.received + s.core.queue
    && s.parked == s.popped + s.core.sendWaiters
    && 0 <= Free(s.core)
    && HoldsOk(s.holds, s.handles, s.core.reserved)
    && s.core.sendersAlive == |s.handles|
    && (s.core.recvWaker.Some? ==> s.core.queue == [] && s.core.sendersAlive > 0)
    && (s.recvParked && !s.recvWoken ==> s.core.recvWaker.Some?)
    && (!s.core.receiverAlive ==> s.core.sendWaiters == [])
  }

  lemma HoldsAppend(holds: seq<Hold>, handles: set<nat>, reserved: nat, x: Hold)
    requires HoldsOk(holds, handles, reserved) && x.owner in handles && (!x.iter ==> x.slots == 1)
    ensures HoldsOk(holds + [x], handles, reserved + x.slots)
  {
    SlotsAppend(holds, x);
  }

  lemma HoldsRemove(holds: seq<Hold>, handles: set<nat>, reserved: nat, i: nat)
    requires HoldsOk(holds, handles, reserved) && i < |holds|
    ensures holds[i].slots <= reserved && HoldsOk(RemoveAt(holds, i), handles, reserved - holds[i].slots)
  {
    SlotsAt(holds, i);
  }

  lemma HoldsNeedHandles(holds: seq<Hold>, handles: set<nat>, reserved: nat)
    requires HoldsOk(holds, handles, reserved)
    ensures holds != [] ==> handles != {}
  {
    if holds != [] {
      assert holds[0].owner in handles;
    }
  }

  lemma SendConserves<T>(s: World<T>, h: nat, w: nat, v: T)
    requires Conserved(s) && h in s.handles
    ensures Conserved(SendStep(s, w, v))
  {
    if Room(s.core, 1) == Full {
      ParkConserves(s, w, 1);
    } else if Room(s.core, 1) == Sent {
      assert s.accepted + [v] == s.received + (s.core.queue + [v]);
    }
  }

  lemma SendNowConserves<T>(s: World<T>, h: nat, v: T)
    requires Conserved(s) && h in s.handles
    ensures Conserved(Apply(s, SendNow(h, v)))
  {
  }

  lemma FillConserves<T>(s: World<T>, i: nat, v: T)
    requires Conserved(s) && Enabled(s, FillPermit(i, v))
    ensures Conserved(Apply(s, FillPermit(i, v)))
  {
    HoldsRemove(s.holds, s.handles, s.core.reserved, i);
  }

  lemma ParkConserves<T>(s: World<T>, w: nat, n: nat)
    requires Conserved(s) && s.core.receiverAlive
    ensures Conserved(Park(s, w, n).(core := Enqueue(s.core, w)))
  {
    assert s.parked + [w] == s.popped + (s.core.sendWaiters + [w]);
  }

  lemma GrantConserves<T>(s: World<T>, h: nat, w: nat, n: nat, many: bool)
    requires Conserved(s) && h in s.handles && (!many ==> n == 1) && Room(s.core, n) == Sent
    ensures Conserved(ReserveStep(s, h, w, n, many))
  {
    HoldsAppend(s.holds, s.handles, s.core.reserved, Hold(h, n, many));
  }

  lemma ReserveConserves<T>(s: World<T>, h: nat, w: nat, n: nat, many: bool)
    requires Conserved(s) && h in s.handles && (!many ==> n == 1)
    ensures Conserved(ReserveStep(s, h, w, n, many))
  {
    match Room(s.core, n)
    case Sent => GrantConserves(s, h, w, n, many);
    case Full => ParkConserves(s, w, n);
    case Closed =>
  }

  lemma ReserveNowConserves<T>(s: World<T>, h: nat)
    requires Conserved(s) && h in s.handles
    ensures Conserved(Apply(s, ReserveNow(h)))
  {
    HoldsAppend(s.holds, s.handles, s.core.reserved, Hold(h, 1, false));
  }

  lemma NextPermitConserves<T>(s: World<T>, i: nat)
    requires Conserved(s) && Enabled(s, NextPermit(i))
    ensures Conserved(Apply(s, NextPermit(i)))
  {
    var x := s.holds[i];
    SlotsUpdate(s.holds, i, x.(slots := x.slots - 1));
    HoldsAppend(s.holds[i := x.(slots := x.slots - 1)], s.handles, s.core.reserved - 1, Hold(x.owner, 1, false));
  }

  lemma WokeInOrder<T>(s: World<T>, n: nat)
    requires s.parked == s.popped + s.core.sendWaiters && n <= |s.core.sendWaiters|
    ensures s.parked == Woke(s, n).popped + s.core.sendWaiters[n..]
  {
    var q := s.core.sendWaiters;
    assert q == q[..n] + q[n..];
    assert s.popped + (q[..n] + q[n..]) == (s.popped + q[..n]) + q[n..];
  }

  lemma DropHoldConserves<T>(s: World<T>, i: nat)
    requires Conserved(s) && i < |s.holds|
    ensures Conserved(Apply(s, DropHold(i)))
  {
    HoldsRemove(s.holds, s.handles, s.core.reserved, i);
    WokeInOrder(s, Wakes(s.core, s.holds[i].slots));
  }

  lemma ReceiveConserves<T>(s: World<T>, w: nat)
    requires Conserved(s) && s.core.receiverAlive
    ensures Conserved(ReceiveStep(s, w))
  {
    WokeInOrder(s, Wakes(s.core, 1));
    if s.core.queue != [] {
      assert s.core.queue == [s.core.queue[0]] + s.core.queue[1..];
    }
  }

  lemma HoldsSurvive(holds: seq<Hold>, handles: set<nat>, handles': set<nat>, reserved: nat)
    requires HoldsOk(holds, handles, reserved)
    requires forall i :: 0 <= i < |holds| ==> holds[i].owner in handles'
    ensures HoldsOk(holds, handles', reserved)
  {
  }

  lemma AddHandleConserves<T>(s: World<T>, id: nat)
    requires Conserved(s) && id !in s.handles
    ensures Conserved(AddHandle(s, id))
  {
    HoldsSurvive(s.holds, s.handles, s.handles + {id}, s.core.reserved);
  }

  lemma DropHandleConserves<T>(s: World<T>, h: nat)
    requires Conserved(s) && Enabled(s, DropHandle(h))
    ensures Conserved(DropHandleStep(s, h))
  {
    HoldsSurvive(s.holds, s.handles, s.handles - {h}, s.core.reserved);
  }

  lemma CloseConserves<T>(s: World<T>)
    requires Conserved(s) && s.core.receiverAlive
    ensures Conserved(Apply(s, CloseReceiver))
  {
    WokeInOrder(s, |s.core.sendWaiters|);
  }

  lemma StepConserves<T>(s: World<T>, a: Action<T>)
    requires Conserved(s) && Enabled(s, a)
    ensures Conserved(Apply(s, a))
  {
    match a
    case Send(h, w, v) => SendConserves(s, h, w, v);
    case SendNow(h, v) => SendNowConserves(s, h, v);
    case FillPermit(i, v) => FillConserves(s, i, v);
    case Reserve(h, w, n, many) => ReserveConserves(s, h, w, n, many);
    case ReserveNow(h) => ReserveNowConserves(s, h);
    case NextPermit(i) => NextPermitConserves(s, i);
    case DropHold(i) => DropHoldConserves(s, i);
    case Receive(w) => ReceiveConserves(s, w);
    case CloneSender(_, id) => AddHandleConserves(s, id);
    case UpgradeSender(id) => AddHandleConserves(s, id);
    case DropHandle(h) => DropHandleConserves(s, h);
    case CloseReceiver => CloseConserves(s);
    case Abandon(_) =>
  }

  lemma CapacityIsFixed<T>(s: World<T>, a: Action<T>)
    requires Enabled(s, a)
    ensures Apply(s, a).core.capacity == s.core.capacity
  {
  }

  ghost predicate IsRun<T>(run: seq<World<T>>, steps: seq<Action<T>>, capacity: nat) {
    && |run| == |steps| + 1
    && run[0] == Start(capacity)
    && forall i :: 0 <= i < |steps| ==> Enabled(run[i], steps[i]) && run[i + 1] == Apply(run[i], steps[i])
  }

  /**
   Values accepted in lock order are the values received followed by the queue; wakers leave the
   sender queue in the order they joined it; the buffer is never over-committed; reserved slots are
   exactly those of the unused permits and iterator remainders; a stored receiver waker means an
   empty queue and a live sender, and a receiver asleep without one has been woken.
   */
  lemma {:induction false} Conservation<T>(run: seq<World<T>>, steps: seq<Action<T>>, capacity: nat, k: nat)
    requires IsRun(run, steps, capacity) && k < |run|
    ensures Conserved(run[k]) && run[k].core.capacity == capacity
  {
    if k > 0 {
      Conservation(run, steps, capacity, k - 1);
      StepConserves(run[k - 1], steps[k - 1]);
      CapacityIsFixed(run[k - 1], steps[k - 1]);
    }
  }

  ghost predicate WasClosed<T>(steps: seq<Action<T>>, k: nat)
    requires k <= |steps|
  {
    exists j :: 0 <= j < k && steps[j].CloseReceiver?
  }

  lemma {:induction false} ClosedForGood<T>(run: seq<World<T>>, steps: seq<Action<T>>, capacity: nat, k: nat)
    requires IsRun(run, steps, capacity) && k < |run|
    ensures run[k].core.receiverAlive <==> !WasClosed(steps, k)
  {
    if k > 0 {
      ClosedForGood(run, steps, capacity, k - 1);
      ReceiverAfter(run[k - 1], steps[k - 1]);
    }
  }

  lemma ReceiverAfter<T>(s: World<T>, a: Action<T>)
    requires Enabled(s, a)
    ensures Apply(s, a).core.receiverAlive <==> s.core.receiverAlive && !a.CloseReceiver?
  {
  }

  /** The answer a request for `n` slots is due, by what was accepted, received and is held. */
  ghost function Due<T>(s: World<T>, closed: bool, capacity: nat, n: nat): SendOutcome {
    if closed then Closed
    else if |s.accepted| - |s.received| + Slots(s.holds) + n <= capacity then Sent
    else Full
  }

  ghost predicate IsRequest<T>(a: Action<T>) {
    a.Send? || a.SendNow? || a.Reserve? || a.ReserveNow?
  }

  ghost function Answer<T>(s: World<T>, a: Action<T>): SendOutcome
    requires IsRequest(a)
  {
    match a
    case Send(_, w, v) => PollSend(s.core, w, v).1
    case SendNow(_, v) => TrySend(s.core, v).1
    case Reserve(_, w, n, _) => PollReserve(s.core, w, n).1
    case ReserveNow(_) => TryReserve(s.core).1
  }

  lemma RoomIsDue<T>(run: seq<World<T>>, steps: seq<Action<T>>, capacity: nat, k: nat, n: nat)
    requires IsRun(run, steps, capacity) && k < |run|
    ensures Room(run[k].core, n) == Due(run[k], WasClosed(steps, k), capacity, n)
  {
    Conservation(run, steps, capacity, k);
    ClosedForGood(run, steps, capacity, k);
  }

  /**
   In every run: once the receiver is gone every request is answered `Closed`.  Before that it is
   granted if and only if what is queued, what is held and what it asks for fit the capacity together,
   and answered `Full` otherwise.
   */
  lemma RequestsGetTheirDue<T>(run: seq<World<T>>, steps: seq<Action<T>>, capacity: nat, k: nat)
    requires IsRun(run, steps, capacity) && k < |steps| && IsRequest(steps[k])
    ensures Answer(run[k], steps[k]) == Due(run[k], WasClosed(steps, k), capacity, Asks(steps[k]))
  {
    RoomIsDue(run, steps, capacity, k, Asks(steps[k]));
  }

  /** A granted request hands over its value or holds its slots; any other leaves both logs as they are. */
  lemma RequestsTakeEffect<T>(s: World<T>, a: Action<T>)
    requires Enabled(s, a) && IsRequest(a)
    ensures var s' := Apply(s, a);
            && s'.accepted == s.accepted + (if Answer(s, a) == Sent && (a.Send? || a.SendNow?) then [a.v] else [])
            && (Answer(s, a) != Sent || a.Send? || a.SendNow? ==> s'.holds == s.holds)
            && (Answer(s, a) == Sent && a.Reserve? ==> s'.holds == s.holds + [Hold(a.h, a.n, a.many)])
            && (Answer(s, a) == Sent && a.ReserveNow? ==> s'.holds == s.holds + [Hold(a.h, 1, false)])
            && s'.received == s.received
  {
  }

  /**
   In every run a receive yields the oldest accepted value not yet received; without one it yields the
   end if and only if no sender handle is left, and otherwise waits.
   */
  lemma ReceiveGetsItsDue<T>(run: seq<World<T>>, steps: seq<Action<T>>, capacity: nat, k: nat, w: nat)
    requires IsRun(run, steps, capacity) && k < |run|
    ensures var s := run[k]; var n := |s.received|;
            && n <= |s.accepted|
            && PollRecv(s.core, w).1 ==
               (if n < |s.accepted| then Value(s.accepted[n]) else if s.handles == {} then Ended else Empty)
  {
    Conservation(run, steps, capacity, k);
  }

  /**
   Dropping a handle beside others changes nothing but their number.  Dropping the last one takes the
   receiver's waker out, and a receiver that was asleep is then awake.
   */
  lemma LastHandleWakes<T>(run: seq<World<T>>, steps: seq<Action<T>>, capacity: nat, k: nat)
    requires IsRun(run, steps, capacity) && k < |steps| && steps[k].DropHandle?
    ensures run[k + 1].handles == run[k].handles - {steps[k].h}
    ensures |run[k].handles| > 1 ==>
              && run[k + 1].core == run[k].core.(sendersAlive := |run[k].handles| - 1)
              && run[k + 1].recvWoken == run[k].recvWoken
    ensures |run[k].handles| == 1 ==>
              && run[k + 1].core == run[k].core.(sendersAlive := 0, recvWaker := None)
              && (run[k].recvParked ==> run[k + 1].recvWoken)
  {
    Conservation(run, steps, capacity, k);
  }

  /** A weak handle can be upgraded, and a handle cloned, exactly while a sender handle exists. */
  lemma UpgradeIff<T>(run: seq<World<T>>, steps: seq<Action<T>>, capacity: nat, k: nat)
    requires IsRun(run, steps, capacity) && k < |steps| && (steps[k].UpgradeSender? || steps[k].CloneSender?)
    ensures run[k + 1].handles == if run[k].handles == {} then {} else run[k].handles + {steps[k].id}
    ensures Upgrade(run[k].core).1 <==> run[k].handles != {}
  {
    Conservation(run, steps, capacity, k);
  }

  ghost predicate Over<T>(s: World<T>) {
    s.core.sendersAlive == 0 && s.core.queue == []
  }

  lemma OverIsStable<T>(s: World<T>, a: Action<T>)
    requires Conserved(s) && Enabled(s, a) && Over(s)
    ensures Over(Apply(s, a)) && Apply(s, a).accepted == s.accepted && Apply(s, a).received == s.received
  {
    assert s.handles == {};
    HoldsNeedHandles(s.holds, s.handles, s.core.reserved);
  }

  /** `recv` says `None` only when everything accepted has been delivered, and from then on always. */
  lemma {:induction false} EndIsFinal<T>(run: seq<World<T>>, steps: seq<Action<T>>, capacity: nat, k: nat, j: nat)
    requires IsRun(run, steps, capacity) && k < |steps| && steps[k].Receive? && k <= j < |run|
    requires PollRecv(run[k].core, steps[k].w).1 == Ended
    ensures run[j].accepted == run[k].received && run[j].received == run[k].received
    ensures forall w :: PollRecv(run[j].core, w).1 == Ended
  {
    EndPersists(run, steps, capacity, k, j);
  }

  lemma OverStep<T>(run: seq<World<T>>, steps: seq<Action<T>>, capacity: nat, i: nat)
    requires IsRun(run, steps, capacity) && i < |steps| && Over(run[i])
    ensures Over(run[i + 1]) && run[i + 1].accepted == run[i].accepted && run[i + 1].received == run[i].received
  {
    Conservation(run, steps, capacity, i);
    OverIsStable(run[i], steps[i]);
  }

  lemma OverDelivered<T>(run: seq<World<T>>, steps: seq<Action<T>>, capacity: nat, k: nat)
    requires IsRun(run, steps, capacity) && k < |run| && Over(run[k])
    ensures run[k].accepted == run[k].received
  {
    Conservation(run, steps, capacity, k);
  }

  lemma {:induction false} EndPersists<T>(run: seq<World<T>>, steps: seq<Action<T>>, capacity: nat, k: nat, j: nat)
    requires IsRun(run, steps, capacity) && k <= j < |run| && Over(run[k])
    ensures Over(run[j]) && run[j].accepted == run[k].received && run[j].received == run[k].received
  {
    if k == j {
      OverDelivered(run, steps, capacity, k);
    } else {
      EndPersists(run, steps, capacity, k, j - 1);
      OverStep(run, steps, capacity, j - 1);
    }
  }

  // ---------------------------------------------------------------------------------------------
  // Progress of waiting senders: exactly when it is lost
  // ---------------------------------------------------------------------------------------------

  /** Waits that were woken and not polled since: waking a finished or dropped send helps nobody. */
  ghost function Awake<T>(s: World<T>): set<nat> {
    set w | w in s.woken && w in s.waits
  }

  /** Some wait has not been woken. */
  ghost predicate SomebodySleeps<T>(s: World<T>) {
    exists w :: w in s.waits && w !in s.woken
  }

  /** While a sender sleeps, every free slot has somebody awake on the way to it. */
  ghost predicate Served<T>(s: World<T>) {
    SomebodySleeps(s) ==> Free(s.core) <= |Awake(s)|
  }

  /** While a sender sleeps, an idle channel has woken somebody. */
  ghost predicate Alert<T>(s: World<T>) {
    SomebodySleeps(s) && Free(s.core) == s.core.capacity ==> Awake(s) != {}
  }

  /** No wait is forgotten: each is in the queue or has been woken. */
  ghost predicate Kept<T>(s: World<T>) {
    forall w :: w in s.waits ==> w in s.woken || w in s.core.sendWaiters
  }

  /** Slots a step gives free. */
  ghost function Freed<T>(s: World<T>, a: Action<T>): nat {
    match a
    case Receive(_) => if s.core.queue != [] then 1 else 0
    case DropHold(i) => if i < |s.holds| then s.holds[i].slots else 0
    case _ => 0
  }

  /** The senders a step that frees `m` slots wakes. */
  ghost function Front<T>(s: World<T>, m: nat): seq<nat> {
    s.core.sendWaiters[..Wakes(s.core, m)]
  }

  /** Who is awake after that. */
  ghost function AwakeAfter<T>(s: World<T>, m: nat): set<nat> {
    set w | w in s.waits && (w in s.woken || w in Front(s, m))
  }

  /** Somebody still sleeps after that. */
  ghost predicate SleepsOn<T>(s: World<T>, m: nat) {
    exists w :: w in s.waits && w !in s.woken && w !in Front(s, m)
  }

  /** The end of a wait that was woken and takes no slot: it is dropped, or now asks for nothing. */
  ghost predicate GivesUp<T>(s: World<T>, a: Action<T>) {
    match a
    case Abandon(w) => w in Awake(s)
    case Reserve(_, w, n, _) => n == 0 && w in Awake(s)
    case _ => false
  }

  /**
   The steps that leave a free slot without a sender awake while another sleeps: one that frees more
   slots than it wakes senders that still wait, or the end of a wait whose wake cannot be spared.
   */
  ghost predicate Starves<T>(s: World<T>, a: Action<T>) {
    var m := Freed(s, a);
    || (m > 0 && SleepsOn(s, m) && |AwakeAfter(s, m)| < Free(s.core) + m)
    || (GivesUp(s, a) && SomebodySleeps(s) && |Awake(s)| == Free(s.core))
  }

  /** The steps that bring the whole channel to a stop: the same two, with nothing queued or reserved after. */
  ghost predicate Stalls<T>(s: World<T>, a: Action<T>) {
    var m := Freed(s, a);
    || (m > 0 && SleepsOn(s, m) && Free(s.core) + m == s.core.capacity && AwakeAfter(s, m) == {})
    || (GivesUp(s, a) && SomebodySleeps(s) && Free(s.core) == s.core.capacity && |Awake(s)| == 1)
  }

  function Asks<T>(a: Action<T>): nat {
    match a
    case Reserve(_, _, n, _) => n
    case _ => 1
  }

  /** A wait that ends, or starts over, takes at most its own wake with it. */
  lemma OneLess(x: set<nat>, x': set<nat>, w: nat)
    requires forall v :: v in x' <==> v in x && v != w
    ensures |x'| == |x| - (if w in x then 1 else 0)
    ensures x' == {} <==> x == {} || (w in x && |x| == 1)
  {
    if w in x {
      assert x' == x - {w};
      if |x| == 1 { OnlyOne(x, w); }
    } else {
      assert x' == x;
    }
  }

  /** The end of a wait that was woken leaves the sleepers alone. */
  lemma SettledSleepers<T>(s: World<T>, s': World<T>, w: nat)
    requires s'.waits == s.waits - {w} && s'.woken == s.woken - {w}
    ensures SomebodySleeps(s') ==> SomebodySleeps(s)
    ensures w in s.woken && SomebodySleeps(s) ==> SomebodySleeps(s')
  {
    if w in s.woken && SomebodySleeps(s) {
      var v :| v in s.waits && v !in s.woken;
      assert v in s'.waits && v !in s'.woken;
    }
    if SomebodySleeps(s') {
      var v :| v in s'.waits && v !in s'.woken;
      assert v in s.waits && v !in s.woken;
    }
  }

  lemma SendEffect<T>(s: World<T>, w: nat, v: T)
    requires Conserved(s) && Kept(s) && s.core.capacity > 0
    ensures Served(s) ==> Served(SendStep(s, w, v))
    ensures Alert(s) ==> Alert(SendStep(s, w, v))
  {
    OneLess(Awake(s), Awake(SendStep(s, w, v)), w);
  }

  lemma ReserveEffect<T>(s: World<T>, h: nat, w: nat, n: nat, many: bool)
    requires Conserved(s) && Kept(s)
    ensures n <= 1 && Served(s) ==> (!Served(ReserveStep(s, h, w, n, many)) <==> Starves(s, Reserve(h, w, n, many)))
    ensures n <= s.core.capacity && Alert(s)
            ==> (!Alert(ReserveStep(s, h, w, n, many)) <==> Stalls(s, Reserve(h, w, n, many)))
  {
    OneLess(Awake(s), Awake(ReserveStep(s, h, w, n, many)), w);
    if Room(s.core, n) != Full { SettledSleepers(s, ReserveStep(s, h, w, n, many), w); }
  }

  lemma AbandonEffect<T>(s: World<T>, w: nat)
    requires Conserved(s) && w in s.waits
    ensures Served(s) ==> (!Served(Apply(s, Abandon(w))) <==> Starves(s, Abandon(w)))
    ensures Alert(s) ==> (!Alert(Apply(s, Abandon(w))) <==> Stalls(s, Abandon(w)))
  {
    OneLess(Awake(s), Awake(Settle(s, w)), w);
    SettledSleepers(s, Settle(s, w), w);
  }

  /** What a step that frees `m` slots and wakes up to `m` senders does, whichever it is. */
  lemma FreeingEffect<T>(s: World<T>, s': World<T>, m: nat)
    requires Popped(s, s', Wakes(s.core, m))
    ensures Awake(s') == AwakeAfter(s, m) && (SomebodySleeps(s') <==> SleepsOn(s, m))
  {
  }

  lemma NothingFreed<T>(s: World<T>, s': World<T>)
    requires s'.waits == s.waits && s'.woken == s.woken
    ensures Awake(s') == Awake(s) && (SomebodySleeps(s') <==> SomebodySleeps(s))
  {
  }

  lemma ReceiveEffect<T>(s: World<T>, w: nat)
    requires Conserved(s)
    ensures Served(s) ==> (!Served(ReceiveStep(s, w)) <==> Starves(s, Receive(w)))
    ensures Alert(s) ==> (!Alert(ReceiveStep(s, w)) <==> Stalls(s, Receive(w)))
  {
    if s.core.queue != [] {
      FreeingEffect(s, ReceiveStep(s, w), 1);
    } else {
      NothingFreed(s, ReceiveStep(s, w));
    }
  }

  lemma DropHoldPops<T>(s: World<T>, i: nat)
    requires Conserved(s) && i < |s.holds|
    ensures var s', m := DropHoldStep(s, i), s.holds[i].slots;
            Popped(s, s', Wakes(s.core, m)) && Free(s'.core) == Free(s.core) + m && s'.core.capacity == s.core.capacity
  {
    HoldsRemove(s.holds, s.handles, s.core.reserved, i);
  }

  lemma DropHoldEffect<T>(s: World<T>, i: nat)
    requires Conserved(s) && i < |s.holds|
    ensures Served(s) ==> (!Served(DropHoldStep(s, i)) <==> Starves(s, DropHold(i)))
    ensures Alert(s) ==> (!Alert(DropHoldStep(s, i)) <==> Stalls(s, DropHold(i)))
  {
    DropHoldPops(s, i);
    if s.holds[i].slots > 0 {
      FreeingEffect(s, DropHoldStep(s, i), s.holds[i].slots);
    } else {
      NothingFreed(s, DropHoldStep(s, i));
    }
  }

  /** Barging `try_send` and `try_reserve`, permits and handles neither free a slot nor touch a waiting sender. */
  lemma OtherEffect<T>(s: World<T>, a: Action<T>)
    requires Conserved(s) && Enabled(s, a)
    requires !(a.Send? || a.Reserve? || a.Receive? || a.DropHold? || a.CloseReceiver? || a.Abandon?)
    ensures Untouched(s, Apply(s, a)) && Free(Apply(s, a).core) <= Free(s.core)
  {
  }

  lemma CloseEffect<T>(s: World<T>)
    requires Kept(s) && s.core.receiverAlive
    ensures !SomebodySleeps(Apply(s, CloseReceiver)) && Kept(Apply(s, CloseReceiver))
  {
    assert s.core.sendWaiters[..|s.core.sendWaiters|] == s.core.sendWaiters;
  }

  lemma PopKeepsWaits<T>(s: World<T>, s': World<T>, n: nat)
    requires Kept(s) && Popped(s, s', n)
    ensures Kept(s')
  {
    assert s.core.sendWaiters == s.core.sendWaiters[..n] + s.core.sendWaiters[n..];
  }

  lemma WaiterKeepsWaits<T>(s: World<T>, s': World<T>, w: nat)
    requires Kept(s) && s'.woken == s.woken - {w} && s.core.sendWaiters <= s'.core.sendWaiters
    requires s'.waits.Keys <= s.waits.Keys + {w} && (w in s'.waits ==> w in s'.core.sendWaiters)
    ensures Kept(s')
  {
    forall v | v in s'.waits ensures v in s'.woken || v in s'.core.sendWaiters {
      if v != w { assert v in s'.waits.Keys; }
    }
  }

  lemma SendKeepsWaits<T>(s: World<T>, w: nat, v: T)
    requires Kept(s)
    ensures Kept(SendStep(s, w, v))
  {
    WaiterKeepsWaits(s, SendStep(s, w, v), w);
  }

  lemma ReserveKeepsWaits<T>(s: World<T>, h: nat, w: nat, n: nat, many: bool)
    requires Kept(s)
    ensures Kept(ReserveStep(s, h, w, n, many))
  {
    WaiterKeepsWaits(s, ReserveStep(s, h, w, n, many), w);
  }

  lemma StepKeepsWaits<T>(s: World<T>, a: Action<T>)
    requires Conserved(s) && Kept(s) && Enabled(s, a)
    ensures Kept(Apply(s, a))
  {
    match a
    case Send(_, w, v) => SendKeepsWaits(s, w, v);
    case Reserve(h, w, n, many) => ReserveKeepsWaits(s, h, w, n, many);
    case Receive(w) => if s.core.queue != [] { PopKeepsWaits(s, ReceiveStep(s, w), Wakes(s.core, 1)); }
    case DropHold(i) => DropHoldPops(s, i); PopKeepsWaits(s, DropHoldStep(s, i), Wakes(s.core, s.holds[i].slots));
    case Abandon(w) => WaiterKeepsWaits(s, Settle(s, w), w);
    case CloseReceiver => CloseEffect(s);
    case _ => OtherEffect(s, a);
  }

  /** In every run, whoever waits is in the queue or has been woken. */
  lemma {:induction false} NoWaitIsForgotten<T>(run: seq<World<T>>, steps: seq<Action<T>>, capacity: nat, k: nat)
    requires IsRun(run, steps, capacity) && k < |run|
    ensures Kept(run[k])
  {
    if k > 0 {
      NoWaitIsForgotten(run, steps, capacity, k - 1);
      Conservation(run, steps, capacity, k - 1);
      StepKeepsWaits(run[k - 1], steps[k - 1]);
    }
  }

  /**
   One step, single-slot requests: if every free slot has a sender awake for it, the step changes that
   if and only if it is one of the two above.
   */
  lemma StarvedExactlyAfter<T>(s: World<T>, a: Action<T>)
    requires Conserved(s) && Kept(s) && Enabled(s, a) && s.core.capacity > 0 && Asks(a) <= 1 && Served(s)
    ensures !Served(Apply(s, a)) <==> Starves(s, a)
  {
    match a
    case Send(_, w, v) => SendEffect(s, w, v);
    case Reserve(h, w, n, many) => ReserveEffect(s, h, w, n, many);
    case Receive(w) => ReceiveEffect(s, w);
    case DropHold(i) => DropHoldEffect(s, i);
    case Abandon(w) => AbandonEffect(s, w);
    case CloseReceiver => CloseEffect(s);
    case _ => OtherEffect(s, a); NothingFreed(s, Apply(s, a));
  }

  lemma StalledExactlyAfter<T>(s: World<T>, a: Action<T>)
    requires Conserved(s) && Kept(s) && Enabled(s, a) && s.core.capacity > 0 && Asks(a) <= s.core.capacity && Alert(s)
    ensures !Alert(Apply(s, a)) <==> Stalls(s, a)
  {
    CapacityIsFixed(s, a);
    match a
    case Send(_, w, v) => SendEffect(s, w, v);
    case Reserve(h, w, n, many) => ReserveEffect(s, h, w, n, many);
    case Receive(w) => ReceiveEffect(s, w);
    case DropHold(i) => DropHoldEffect(s, i);
    case Abandon(w) => AbandonEffect(s, w);
    case CloseReceiver => CloseEffect(s);
    case _ => OtherEffect(s, a); NothingFreed(s, Apply(s, a));
  }

  ghost predicate SizedRun<T>(run: seq<World<T>>, steps: seq<Action<T>>, capacity: nat, most: nat) {
    IsRun(run, steps, capacity) && forall i :: 0 <= i < |steps| ==> Asks(steps[i]) <= most
  }

  lemma {:induction false} ServedUntilStarved<T>(run: seq<World<T>>, steps: seq<Action<T>>, capacity: nat, k: nat)
    requires SizedRun(run, steps, capacity, 1) && capacity > 0 && k < |run|
    requires forall j :: 0 <= j < k ==> !Starves(run[j], steps[j])
    ensures Served(run[k])
  {
    if k > 0 {
      ServedUntilStarved(run, steps, capacity, k - 1);
      Conservation(run, steps, capacity, k - 1);
      NoWaitIsForgotten(run, steps, capacity, k - 1);
      StarvedExactlyAfter(run[k - 1], steps[k - 1]);
    }
  }

  lemma {:induction false} AlertUntilStalled<T>(run: seq<World<T>>, steps: seq<Action<T>>, capacity: nat, k: nat)
    requires SizedRun(run, steps, capacity, capacity) && capacity > 0 && k < |run|
    requires forall j :: 0 <= j < k ==> !Stalls(run[j], steps[j])
    ensures Alert(run[k])
  {
    if k > 0 {
      AlertUntilStalled(run, steps, capacity, k - 1);
      Conservation(run, steps, capacity, k - 1);
      NoWaitIsForgotten(run, steps, capacity, k - 1);
      StalledExactlyAfter(run[k - 1], steps[k - 1]);
    }
  }

  /**
   Single-slot requests: every free slot always has a sender awake for it, as long as another sleeps,
   if and only if the run never takes a starving step.
   */
  lemma AlwaysServedIff<T>(run: seq<World<T>>, steps: seq<Action<T>>, capacity: nat)
    requires SizedRun(run, steps, capacity, 1) && capacity > 0
    ensures (forall k :: 0 <= k < |run| ==> Served(run[k]))
            <==> (forall k :: 0 <= k < |steps| ==> !Starves(run[k], steps[k]))
  {
    if k :| 0 <= k < |steps| && Starves(run[k], steps[k]) {
      Conservation(run, steps, capacity, k);
      if Served(run[k]) {
        NoWaitIsForgotten(run, steps, capacity, k);
        StarvedExactlyAfter(run[k], steps[k]);
        assert !Served(run[k + 1]);
      }
    } else {
      forall k | 0 <= k < |run| ensures Served(run[k]) {
        ServedUntilStarved(run, steps, capacity, k);
      }
    }
  }

  /** Requests up to the capacity: the channel never stops altogether if and only if no step stalls it. */
  lemma AlwaysAlertIff<T>(run: seq<World<T>>, steps: seq<Action<T>>, capacity: nat)
    requires SizedRun(run, steps, capacity, capacity) && capacity > 0
    ensures (forall k :: 0 <= k < |run| ==> Alert(run[k]))
            <==> (forall k :: 0 <= k < |steps| ==> !Stalls(run[k], steps[k]))
  {
    if k :| 0 <= k < |steps| && Stalls(run[k], steps[k]) {
      Conservation(run, steps, capacity, k);
      if Alert(run[k]) {
        NoWaitIsForgotten(run, steps, capacity, k);
        StalledExactlyAfter(run[k], steps[k]);
        assert !Alert(run[k + 1]);
      }
    } else {
      forall k | 0 <= k < |run| ensures Alert(run[k]) {
        AlertUntilStalled(run, steps, capacity, k);
      }
    }
  }

  // ---------------------------------------------------------------------------------------------
  // Waits that are kept, and polled again only when woken
  // ---------------------------------------------------------------------------------------------

  /**
   The wait assumptions under which progress is promised: a send or reserve that returned Pending is
   kept, is polled again only after it was woken, and then asks for the same number of slots.
   */
  ghost predicate Patient<T>(s: World<T>, a: Action<T>) {
    match a
    case Send(_, w, _) => w !in s.waits || (w in s.woken && s.waits[w] == 1)
    case Reserve(_, w, n, _) => w !in s.waits || (w in s.woken && s.waits[w] == n)
    case Abandon(_) => false
    case _ => true
  }

  ghost predicate PatientRun<T>(run: seq<World<T>>, steps: seq<Action<T>>, capacity: nat, most: nat) {
    SizedRun(run, steps, capacity, most) && forall i :: 0 <= i < |steps| ==> Patient(run[i], steps[i])
  }

  /** Every wait is in exactly one of the queue and the woken set. */
  ghost predicate Tracked<T>(s: World<T>) {
    && Distinct(s.core.sendWaiters)
    && (forall w :: w in s.core.sendWaiters ==> w in s.waits && w !in s.woken)
    && (forall w :: w in s.woken ==> w in s.waits)
    && (forall w :: w in s.waits ==> s.waits[w] > 0 && (w in s.core.sendWaiters || w in s.woken))
  }

  lemma FrontIsNew<T>(s: World<T>, n: nat)
    requires Tracked(s) && n <= |s.core.sendWaiters|
    ensures |Woke(s, n).woken| == |s.woken| + n
    ensures forall w :: w in s.core.sendWaiters[..n] ==> w in s.waits
    ensures Distinct(s.core.sendWaiters[n..])
    ensures forall w :: w in s.core.sendWaiters <==> w in s.core.sendWaiters[..n] || w in s.core.sendWaiters[n..]
    ensures forall w :: w in s.core.sendWaiters[n..] ==> w !in Woke(s, n).woken
  {
    var q := s.core.sendWaiters;
    assert q == q[..n] + q[n..];
    SizeOf(q[..n]);
    assert Elems(q[..n]) !! s.woken;
  }

  lemma {:induction false} SizeOf(q: seq<nat>)
    requires Distinct(q)
    ensures |Elems(q)| == |q|
  {
    if q != [] {
      var n := |q| - 1;
      SizeOf(q[..n]);
      assert Elems(q) == Elems(q[..n]) + {q[n]};
      assert q[n] !in q[..n];
    }
  }

  /** What one step does to the queue of waiting senders, to the woken set and to the free slots. */
  ghost predicate Pushed<T>(s: World<T>, s': World<T>, w: nat, n: nat) {
    s' == Park(s, w, n).(core := Enqueue(s.core, w))
  }

  ghost predicate Popped<T>(s: World<T>, s': World<T>, n: nat) {
    && n <= |s.core.sendWaiters|
    && s'.core.sendWaiters == s.core.sendWaiters[n..] && s'.woken == Woke(s, n).woken && s'.waits == s.waits
  }

  ghost predicate Settled<T>(s: World<T>, s': World<T>, w: nat) {
    s'.core.sendWaiters == s.core.sendWaiters && s'.waits == s.waits - {w} && s'.woken == s.woken - {w}
  }

  ghost predicate Untouched<T>(s: World<T>, s': World<T>) {
    s'.core.sendWaiters == s.core.sendWaiters && s'.waits == s.waits && s'.woken == s.woken
  }

  lemma PushedTracks<T>(s: World<T>, s': World<T>, w: nat, n: nat)
    requires Tracked(s) && (w !in s.waits || w in s.woken) && n > 0 && Pushed(s, s', w, n)
    ensures Tracked(s')
  {
    var q := s.core.sendWaiters;
    assert w !in q;
    assert forall x :: x in q + [w] <==> x in q || x == w;
  }

  lemma PoppedTracks<T>(s: World<T>, s': World<T>, n: nat)
    requires Tracked(s) && Popped(s, s', n)
    ensures Tracked(s')
  {
    FrontIsNew(s, n);
  }

  lemma SettledTracks<T>(s: World<T>, s': World<T>, w: nat)
    requires Tracked(s) && (w !in s.waits || w in s.woken) && Settled(s, s', w)
    ensures Tracked(s')
  {
  }

  lemma SendTracks<T>(s: World<T>, w: nat, v: T)
    requires Tracked(s) && (w !in s.waits || w in s.woken)
    ensures Tracked(SendStep(s, w, v))
  {
    var s' := SendStep(s, w, v);
    if Room(s.core, 1) == Full { PushedTracks(s, s', w, 1); } else { SettledTracks(s, s', w); }
  }

  lemma ReserveTracks<T>(s: World<T>, h: nat, w: nat, n: nat, many: bool)
    requires Conserved(s) && Tracked(s) && (w !in s.waits || w in s.woken)
    ensures Tracked(ReserveStep(s, h, w, n, many))
  {
    var s' := ReserveStep(s, h, w, n, many);
    if Room(s.core, n) == Full { PushedTracks(s, s', w, n); } else { SettledTracks(s, s', w); }
  }

  lemma StepTracks<T>(s: World<T>, a: Action<T>)
    requires Conserved(s) && Tracked(s) && Enabled(s, a) && Patient(s, a)
    ensures Tracked(Apply(s, a))
  {
    match a
    case Send(_, w, v) => SendTracks(s, w, v);
    case Reserve(h, w, n, many) => ReserveTracks(s, h, w, n, many);
    case Receive(w) => if s.core.queue != [] { PoppedTracks(s, ReceiveStep(s, w), Wakes(s.core, 1)); }
    case DropHold(i) =>
      HoldsRemove(s.holds, s.handles, s.core.reserved, i);
      PoppedTracks(s, DropHoldStep(s, i), Wakes(s.core, s.holds[i].slots));
    case CloseReceiver => PoppedTracks(s, Apply(s, a), |s.core.sendWaiters|);
    case _ => OtherEffect(s, a);
  }

  lemma {:induction false} PatientRunTracks<T>(run: seq<World<T>>, steps: seq<Action<T>>,
                                              capacity: nat, most: nat, k: nat)
    requires PatientRun(run, steps, capacity, most) && k < |run|
    ensures Conserved(run[k]) && Tracked(run[k]) && run[k].core.capacity == capacity
  {
    Conservation(run, steps, capacity, k);
    if k > 0 {
      PatientRunTracks(run, steps, capacity, most, k - 1);
      StepTracks(run[k - 1], steps[k - 1]);
    }
  }

  lemma TrackedFront<T>(s: World<T>, m: nat)
    requires Tracked(s)
    ensures |AwakeAfter(s, m)| == |s.woken| + Wakes(s.core, m)
  {
    FrontIsNew(s, Wakes(s.core, m));
    assert AwakeAfter(s, m) == Woke(s, Wakes(s.core, m)).woken;
  }

  lemma TrackedAwake<T>(s: World<T>, m: nat)
    requires Tracked(s)
    ensures Awake(s) == s.woken && |AwakeAfter(s, m)| == |s.woken| + Wakes(s.core, m)
    ensures SleepsOn(s, m) ==> Wakes(s.core, m) == m
  {
    TrackedFront(s, m);
    if Wakes(s.core, m) < m {
      assert Front(s, m) == s.core.sendWaiters;
    }
  }

  /** Every sender such a step wakes still waits, and no wake is given up. */
  lemma PatientStepsServe<T>(s: World<T>, a: Action<T>)
    requires Tracked(s) && Patient(s, a)
    ensures Served(s) ==> !Starves(s, a)
    ensures !Stalls(s, a)
  {
    var m := Freed(s, a);
    TrackedAwake(s, m);
    if SleepsOn(s, m) { assert SomebodySleeps(s); }
    assert !GivesUp(s, a);
  }

  lemma QueuedSleep<T>(s: World<T>)
    requires Tracked(s) && s.core.sendWaiters != []
    ensures SomebodySleeps(s) && Awake(s) == s.woken
  {
    assert s.core.sendWaiters[0] in s.core.sendWaiters;
  }

  /**
   Single-slot waits: while a sender is queued, every free slot has a woken sender on its way to it,
   whoever else barges in with `try_send` or `try_reserve`.
   */
  lemma {:induction false} SendersProgress<T>(run: seq<World<T>>, steps: seq<Action<T>>, capacity: nat, k: nat)
    requires PatientRun(run, steps, capacity, 1) && capacity > 0 && k < |run|
    ensures run[k].core.sendWaiters != [] ==> capacity - |run[k].core.queue| - run[k].core.reserved <= |run[k].woken|
    ensures Served(run[k])
  {
    if k > 0 {
      SendersProgress(run, steps, capacity, k - 1);
      PatientRunTracks(run, steps, capacity, 1, k - 1);
      PatientStepsServe(run[k - 1], steps[k - 1]);
      NoWaitIsForgotten(run, steps, capacity, k - 1);
      StarvedExactlyAfter(run[k - 1], steps[k - 1]);
    }
    PatientRunTracks(run, steps, capacity, 1, k);
    if run[k].core.sendWaiters != [] { QueuedSleep(run[k]); }
  }

  /**
   `reserve_many` up to the capacity: the channel never stalls completely.  With nothing queued and
   nothing reserved, a queued sender means another one is awake and will be polled.
   */
  lemma NeverStalls<T>(run: seq<World<T>>, steps: seq<Action<T>>, capacity: nat, k: nat)
    requires PatientRun(run, steps, capacity, capacity) && capacity > 0 && k < |run|
    requires run[k].core.queue == [] && run[k].core.reserved == 0 && run[k].core.sendWaiters != []
    ensures run[k].woken != {}
  {
    forall j | 0 <= j < k ensures !Stalls(run[j], steps[j]) {
      PatientRunTracks(run, steps, capacity, capacity, j);
      PatientStepsServe(run[j], steps[j]);
    }
    AlertUntilStalled(run, steps, capacity, k);
    PatientRunTracks(run, steps, capacity, capacity, k);
    QueuedSleep(run[k]);
  }

  /**
   The bound on the request is exact: some run grants a reservation of `n` slots if and only if `n`
   is at most the capacity, so a larger request waits for ever.
   */
  lemma GrantableIffFits<T>(capacity: nat, n: nat)
    requires capacity > 0
    ensures n <= capacity <==> Room(Start<T>(capacity).core, n) == Sent
    ensures n > capacity ==> forall run: seq<World<T>>, steps, k: nat ::
              IsRun(run, steps, capacity) && k < |run| ==> Room(run[k].core, n) != Sent
  {
    forall run: seq<World<T>>, steps, k: nat | n > capacity && IsRun(run, steps, capacity) && k < |run|
      ensures Room(run[k].core, n) != Sent
    {
      Conservation(run, steps, capacity, k);
    }
  }

  /** Worlds of a one-slot channel with one handle, for the run below. */
  ghost function OneSlot(queue: seq<int>, waiters: seq<nat>, accepted: seq<int>, received: seq<int>,
                         waits: map<nat, nat>, woken: set<nat>, parked: seq<nat>, popped: seq<nat>): World<int> {
    World(Core(queue, 1, 0, waiters, None, 1, true), {0}, [], accepted, received, waits, woken,
          parked, popped, false, false)
  }

  ghost function Spurious(): seq<World<int>> {
    [OneSlot([], [], [], [], map[], {}, [], []),
     OneSlot([5], [], [5], [], map[], {}, [], []),
     OneSlot([5], [1], [5], [], map[1 := 1], {}, [1], []),
     OneSlot([5], [1, 1], [5], [], map[1 := 1], {}, [1, 1], []),
     OneSlot([5], [1, 1, 2], [5], [], map[1 := 1, 2 := 1], {}, [1, 1, 2], []),
     OneSlot([], [1, 2], [5], [5], map[1 := 1, 2 := 1], {1}, [1, 1, 2], [1]),
     OneSlot([6], [1, 2], [5, 6], [5], map[2 := 1], {}, [1, 1, 2], [1]),
     OneSlot([], [2], [5, 6], [5, 6], map[2 := 1], {1}, [1, 1, 2], [1, 1])]
  }

  ghost function SpuriousSteps(): seq<Action<int>> {
    [Send(0, 9, 5), Send(0, 1, 6), Send(0, 1, 6), Send(0, 2, 7), Receive(0), Send(0, 1, 6), Receive(0)]
  }

  lemma FullSlotParks(waiters: seq<nat>, waits: map<nat, nat>, w: nat, v: int)
    ensures SendStep(OneSlot([5], waiters, [5], [], waits, {}, waiters, []), w, v)
         == OneSlot([5], waiters + [w], [5], [], waits[w := 1], {}, waiters + [w], [])
  {
  }

  lemma SpuriousParks(i: nat)
    requires 1 <= i < 4
    ensures SendStep(Spurious()[i], SpuriousSteps()[i].w, SpuriousSteps()[i].v) == Spurious()[i + 1]
  {
    if i == 1 {
      FullSlotParks([], map[], 1, 6);
    } else if i == 2 {
      FullSlotParks([1], map[1 := 1], 1, 6);
    } else {
      FullSlotParks([1, 1], map[1 := 1], 2, 7);
    }
  }

  lemma SpuriousAccepts(i: nat)
    requires i == 0 || i == 5
    ensures SendStep(Spurious()[i], SpuriousSteps()[i].w, SpuriousSteps()[i].v) == Spurious()[i + 1]
  {
  }

  lemma SpuriousReceives(i: nat)
    requires i == 4 || i == 6
    ensures ReceiveStep(Spurious()[i], 0) == Spurious()[i + 1]
  {
    assert Elems([1]) == {1};
    assert Spurious()[i].core.sendWaiters[..1] == [1];
  }

  lemma SpuriousIsRun()
    ensures IsRun(Spurious(), SpuriousSteps(), 1)
  {
    forall i | 0 <= i < 7
      ensures Enabled(Spurious()[i], SpuriousSteps()[i])
              && Spurious()[i + 1] == Apply(Spurious()[i], SpuriousSteps()[i])
    {
      if i == 4 || i == 6 {
        SpuriousReceives(i);
      } else if i == 0 || i == 5 {
        SpuriousAccepts(i);
      } else {
        SpuriousParks(i);
      }
    }
  }

  /**
   Polling a queued send once more without a wake breaks the promise: its second waker absorbs the
   wake of a later slot, and sender 2 is left queued beside a free slot with no waiting send awake.
   */
  lemma SpuriousPollStrandsASender()
    ensures IsRun(Spurious(), SpuriousSteps(), 1)
    ensures !Patient(Spurious()[2], SpuriousSteps()[2]) && Starves(Spurious()[6], SpuriousSteps()[6])
    ensures var s := Spurious()[7]; s.core.sendWaiters == [2] && Free(s.core) == 1 && 2 in s.waits && Awake(s) == {}
  {
    SpuriousIsRun();
    var s := Spurious()[6];
    assert Front(s, 1) == [1];
    assert 2 in s.waits && 2 !in s.woken && 2 !in Front(s, 1);
    assert AwakeAfter(s, 1) == {};
  }

  ghost function Dropped(): seq<World<int>> {
    [OneSlot([], [], [], [], map[], {}, [], []),
     OneSlot([5], [], [5], [], map[], {}, [], []),
     OneSlot([5], [1], [5], [], map[1 := 1], {}, [1], []),
     OneSlot([5], [1, 2], [5], [], map[1 := 1, 2 := 1], {}, [1, 2], []),
     OneSlot([], [2], [5], [5], map[1 := 1, 2 := 1], {1}, [1, 2], [1]),
     OneSlot([], [2], [5], [5], map[2 := 1], {}, [1, 2], [1])]
  }

  ghost function DroppedSteps(): seq<Action<int>> {
    [Send(0, 9, 5), Send(0, 1, 6), Send(0, 2, 7), Receive(0), Abandon(1)]
  }

  lemma DroppedParks(i: nat)
    requires i == 1 || i == 2
    ensures SendStep(Dropped()[i], DroppedSteps()[i].w, DroppedSteps()[i].v) == Dropped()[i + 1]
  {
    if i == 1 { FullSlotParks([], map[], 1, 6); } else { FullSlotParks([1], map[1 := 1], 2, 7); }
  }

  lemma DroppedWakes()
    ensures ReceiveStep(Dropped()[3], 0) == Dropped()[4]
  {
    assert Elems([1]) == {1};
    assert Dropped()[3].core.sendWaiters[..1] == [1];
  }

  lemma DroppedLeaves()
    ensures Settle(Dropped()[4], 1) == Dropped()[5]
  {
  }

  lemma DroppedIsRun()
    ensures IsRun(Dropped(), DroppedSteps(), 1)
  {
    forall i | 0 <= i < 5
      ensures Enabled(Dropped()[i], DroppedSteps()[i]) && Dropped()[i + 1] == Apply(Dropped()[i], DroppedSteps()[i])
    {
      if i == 3 { DroppedWakes(); } else if i == 4 { DroppedLeaves(); } else if i > 0 { DroppedParks(i); }
    }
  }

  /**
   A woken send that is dropped instead of polled takes the wake with it: sender 2 stays queued beside
   a free slot.
   */
  lemma DroppedSendStrandsASender()
    ensures IsRun(Dropped(), DroppedSteps(), 1) && Starves(Dropped()[4], DroppedSteps()[4])
    ensures var s := Dropped()[5]; s.core.sendWaiters == [2] && Free(s.core) == 1 && 2 in s.waits && Awake(s) == {}
  {
    DroppedIsRun();
    var s := Dropped()[4];
    assert 2 in s.waits && 2 !in s.woken;
    assert Awake(s) == {1};
  }
}
