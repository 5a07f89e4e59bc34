/**
 `sync::broadcast`: every receiver gets its own copy of every message, from a ring that overwrites the
 oldest one when full.  The runs below show that the channel refines an append-only log.

 Sequence numbers are unbounded here; the source counts them in 64 bits.
 */
module Broadcast {
  import opened Base

  datatype Core<T> = Core(
    buffer: seq<T>,
    capacity: nat,
    nextSeq: nat,
    waiters: seq<nat>,
    sendersAlive: nat,
    receiversAlive: nat
  )

  datatype Got<T> = Message(value: T) | Lagged(n: nat) | Closed | Nothing

  function BaseSeq<T>(c: Core<T>): int {
    c.nextSeq - |c.buffer|
  }

  function Send<T>(c: Core<T>, v: T): (Core<T>, Option<nat>) {
    if c.receiversAlive == 0 then (c, None)
    else
      var kept := if |c.buffer| == c.capacity && c.buffer != [] then c.buffer[1..] else c.buffer;
      (c.(buffer := kept + [v], nextSeq := c.nextSeq + 1, waiters := []), Some(c.receiversAlive))
  }

  /** What a receiver at `pos` finds, and where it stands afterwards. */
  function Read<T>(c: Core<T>, pos: nat): (Got<T>, nat) {
    if pos < BaseSeq(c) then (Lagged(BaseSeq(c) - pos), BaseSeq(c))
    else if pos < c.nextSeq then (Message(c.buffer[pos - BaseSeq(c)]), pos + 1)
    else if c.sendersAlive == 0 then (Closed, pos)
    else (Nothing, pos)
  }

  function DropSender<T>(c: Core<T>): Core<T>
    requires c.sendersAlive > 0
  {
    c.(sendersAlive := c.sendersAlive - 1, waiters := if c.sendersAlive == 1 then [] else c.waiters)
  }

  function Upgrade<T>(c: Core<T>): (Core<T>, bool) {
    if c.sendersAlive == 0 then (c, false) else (c.(sendersAlive := c.sendersAlive + 1), true)
  }

  class Channel<T> {
    var buffer: seq<T>
    const capacity: nat
    var nextSeq: nat
    var waiters: seq<nat>
    var sendersAlive: nat
    var receiversAlive: nat

    ghost function View(): Core<T>
      reads this
    {
      Core(buffer, capacity, nextSeq, waiters, sendersAlive, receiversAlive)
    }

    constructor (capacity: nat)
      requires capacity > 0
      ensures View() == Core([], capacity, 0, [], 1, 1)
    {
      this.capacity := capacity;
      buffer, nextSeq, waiters, sendersAlive, receiversAlive := [], 0, [], 1, 1;
    }

    method SendValue(v: T) returns (receivers: Option<nat>, woken: seq<nat>)
      modifies this
      ensures (View(), receivers) == Send(old(View()), v)
      ensures woken == if receivers.Some? then old(waiters) else []
    {
      if receiversAlive == 0 { return None, []; }
      if |buffer| == capacity && buffer != [] {
        buffer := buffer[1..];
      }
      buffer := buffer + [v];
      nextSeq := nextSeq + 1;
      receivers := Some(receiversAlive);
      woken := waiters;
      waiters := [];
    }

    method Subscribe() returns (nextToRead: nat)
      modifies this
      ensures View() == old(View()).(receiversAlive := old(receiversAlive) + 1) && nextToRead == nextSeq
    {
      receiversAlive := receiversAlive + 1;
      nextToRead := nextSeq;
    }

    /** `recv` when `park` is given a waker, `try_recv` otherwise. */
    method Receive(nextToRead: nat, park: Option<nat>) returns (r: Got<T>, next: nat)
      requires |buffer| <= nextSeq
      modifies this
      ensures (r, next) == Read(old(View()), nextToRead)
      ensures View() == if r.Nothing? && park.Some? then old(View()).(waiters := old(waiters) + [park.value])
              else old(View())
    {
      next := nextToRead;
      var base := nextSeq - |buffer|;
      if nextToRead < base {
        return Lagged(base - nextToRead), base;
      }
      if nextToRead < nextSeq {
        return Message(buffer[nextToRead - base]), nextToRead + 1;
      }
      if sendersAlive == 0 { return Closed, nextToRead; }
      if park.Some? { waiters := waiters + [park.value]; }
      r := Nothing;
    }

    method SenderDropped() returns (woken: seq<nat>)
      requires sendersAlive > 0
      modifies this
      ensures View() == DropSender(old(View())) && woken == if sendersAlive == 0 then old(waiters) else []
    {
      woken := [];
      sendersAlive := sendersAlive - 1;
      if sendersAlive == 0 {
        woken := waiters;
        waiters := [];
      }
    }

    /** Also what cloning a live sender does. */
    method UpgradeWeak() returns (ok: bool)
      modifies this`sendersAlive
      ensures (View(), ok) == Upgrade(old(View()))
    {
      if sendersAlive == 0 { return false; }
      sendersAlive := sendersAlive + 1;
      ok := true;
    }

    /** Wakes nobody: no other receiver was waiting for this one. */
    method ReceiverDropped()
      requires receiversAlive > 0
      modifies this`receiversAlive
      ensures View() == old(View()).(receiversAlive := old(receiversAlive) - 1)
    {
      receiversAlive := receiversAlive - 1;
    }
  }

  // ---------------------------------------------------------------------------------------------
  // The channel, its receivers and the log it stands for
  // ---------------------------------------------------------------------------------------------

  /** A receiver with everything it was ever given: messages with their positions, and lag reports. */
  datatype Rx<T> = Rx(start: nat, pos: nat, got: seq<(nat, T)>, lagged: nat, asleep: bool)

  /** `alive` are the receivers that exist, `senders` the sender handles. */
  datatype World<T> = World(core: Core<T>, log: seq<T>, rxs: map<nat, Rx<T>>, alive: set<nat>, senders: set<nat>)

  function Start<T>(capacity: nat): World<T> {
    World(Core([], capacity, 0, [], 1, 1), [], map[0 := Rx(0, 0, [], 0, false)], {0}, {0})
  }

  datatype Action<T> =
    | Publish(v: T)
    | SubscribeAs(id: nat)
    | PollBy(id: nat)
    | TryBy(id: nat)
    | DropReceiver(id: nat)
    | CloneSender(id: nat)
    | UpgradeSender(id: nat)
    | DropOneSender(h: nat)

  ghost predicate Enabled<T>(s: World<T>, a: Action<T>) {
    match a
    case Publish(_) => s.senders != {}
    case SubscribeAs(id) => s.senders != {} && id !in s.rxs
    case PollBy(id) => id in s.alive && id in s.rxs
    case TryBy(id) => id in s.alive && id in s.rxs
    case DropReceiver(id) => id in s.alive
    case CloneSender(id) => s.senders != {} && id !in s.senders
    case UpgradeSender(id) => id !in s.senders
    case DropOneSender(h) => h in s.senders
  }

  ghost function Noted<T>(x: Rx<T>, r: Got<T>, next: nat): Rx<T> {
    match r
    case Message(v) => x.(pos := next, got := x.got + [(x.pos, v)], asleep := false)
    case Lagged(n) => x.(pos := next, lagged := x.lagged + n, asleep := false)
    case Closed => x.(asleep := false)
    case Nothing => x
  }

  ghost function ReceiveStep<T>(s: World<T>, id: nat, park: bool): World<T>
    requires id in s.rxs
  {
    var (r, next) := Read(s.core, s.rxs[id].pos);
    var x := Noted(s.rxs[id], r, next);
    if r.Nothing? && park then
      s.(core := s.core.(waiters := s.core.waiters + [id]), rxs := s.rxs[id := x.(asleep := true)])
    else s.(rxs := s.rxs[id := x])
  }

  /** Everybody whose waker is in the list is woken. */
  ghost function WakeAll<T>(rxs: map<nat, Rx<T>>, waiters: seq<nat>): map<nat, Rx<T>> {
    map id | id in rxs :: if id in waiters then rxs[id].(asleep := false) else rxs[id]
  }

  ghost function PublishStep<T>(s: World<T>, v: T): World<T> {
    var (core, ok) := Send(s.core, v);
    if ok.None? then s else s.(core := core, log := s.log + [v], rxs := WakeAll(s.rxs, s.core.waiters))
  }

  ghost function AddSender<T>(s: World<T>, id: nat): World<T> {
    var (core, ok) := Upgrade(s.core);
    s.(core := core, senders := if ok then s.senders + {id} else s.senders)
  }

  /** The guard on the counter is never false in a run, as `Inv` shows: nothing underflows. */
  ghost function DropSenderStep<T>(s: World<T>, h: nat): World<T> {
    if s.core.sendersAlive == 0 then s
    else s.(core := DropSender(s.core), senders := s.senders - {h},
            rxs := if s.core.sendersAlive == 1 then WakeAll(s.rxs, s.core.waiters) else s.rxs)
  }

  ghost function Apply<T>(s: World<T>, a: Action<T>): World<T>
    requires Enabled(s, a)
  {
    match a
    case Publish(v) => PublishStep(s, v)
    case SubscribeAs(id) =>
      s.(core := s.core.(receiversAlive := s.core.receiversAlive + 1), alive := s.alive + {id},
         rxs := s.rxs[id := Rx(s.core.nextSeq, s.core.nextSeq, [], 0, false)])
    case PollBy(id) => ReceiveStep(s, id, true)
    case TryBy(id) => ReceiveStep(s, id, false)
    case DropReceiver(id) =>
      if s.core.receiversAlive == 0 then s
      else s.(core := s.core.(receiversAlive := s.core.receiversAlive - 1), alive := s.alive - {id})
    case CloneSender(id) => AddSender(s, id)
    case UpgradeSender(id) => AddSender(s, id)
    case DropOneSender(h) => DropSenderStep(s, h)
  }

  /** The ring holds the last `min(capacity, length)` entries of the log. */
  ghost predicate RingOk<T>(s: World<T>) {
    && s.core.capacity > 0
    && s.core.nextSeq == |s.log|
    && s.core.buffer == s.log[|s.log| - Min(s.core.capacity, |s.log|)..]
  }

  /** A receiver has seen a strictly increasing part of the log and was told about all the rest. */
  ghost predicate RxOk<T>(x: Rx<T>, log: seq<T>) {
    && x.start <= x.pos <= |log|
    && |x.got| + x.lagged == x.pos - x.start
    && (forall i :: 0 <= i < |x.got| ==> x.start <= x.got[i].0 < x.pos && x.got[i].1 == log[x.got[i].0])
    && (forall i, j :: 0 <= i < j < |x.got| ==> x.got[i].0 < x.got[j].0)
  }

  ghost predicate SleepersOk<T>(s: World<T>) {
    && (forall id :: id in s.core.waiters ==> id in s.rxs && s.rxs[id].pos == |s.log| && s.core.sendersAlive > 0)
    && (forall id :: id in s.rxs && s.rxs[id].asleep ==> id in s.core.waiters)
  }

  ghost predicate Inv<T>(s: World<T>) {
    && RingOk(s)
    && (forall id :: id in s.rxs ==> RxOk(s.rxs[id], s.log))
    && SleepersOk(s)
    && s.core.receiversAlive == |s.alive| && s.alive <= s.rxs.Keys
    && s.core.sendersAlive == |s.senders|
  }

  lemma SendKeepsRing<T>(s: World<T>, v: T)
    requires RingOk(s)
    ensures RingOk(PublishStep(s, v))
  {
  }

  lemma LongerLog<T>(x: Rx<T>, log: seq<T>, v: T)
    requires RxOk(x, log)
    ensures RxOk(x, log + [v]) && RxOk(x.(asleep := false), log + [v]) && RxOk(x.(asleep := false), log)
  {
  }

  lemma PublishKeepsInv<T>(s: World<T>, v: T)
    requires Inv(s)
    ensures Inv(PublishStep(s, v))
  {
    SendKeepsRing(s, v);
    forall id | id in s.rxs ensures RxOk(s.rxs[id], s.log + [v]) && RxOk(s.rxs[id].(asleep := false), s.log + [v]) {
      LongerLog(s.rxs[id], s.log, v);
    }
  }

  lemma ReadKeepsRx<T>(s: World<T>, x: Rx<T>)
    requires RingOk(s) && RxOk(x, s.log)
    ensures var (r, next) := Read(s.core, x.pos); RxOk(Noted(x, r, next), s.log)
    ensures x.pos == |s.log|
            ==> Read(s.core, x.pos).1 == x.pos && (Read(s.core, x.pos).0.Closed? || Read(s.core, x.pos).0.Nothing?)
  {
  }

  /** One receiver moved, without leaving a position where its waker is parked. */
  lemma OneRx<T>(s: World<T>, id: nat, x: Rx<T>)
    requires Inv(s) && id in s.rxs && RxOk(x, s.log)
    requires id in s.core.waiters ==> x.pos == |s.log|
    requires x.asleep ==> id in s.core.waiters
    ensures Inv(s.(rxs := s.rxs[id := x]))
  {
  }

  lemma ParkKeepsInv<T>(s: World<T>, id: nat)
    requires Inv(s) && id in s.rxs && s.rxs[id].pos == |s.log| && s.core.sendersAlive > 0
    ensures Inv(s.(core := s.core.(waiters := s.core.waiters + [id])))
  {
    assert forall x :: x in s.core.waiters + [id] <==> x in s.core.waiters || x == id;
  }

  lemma ReceiveKeepsInv<T>(s: World<T>, id: nat, park: bool)
    requires Inv(s) && id in s.rxs
    ensures Inv(ReceiveStep(s, id, park))
  {
    var x := s.rxs[id];
    ReadKeepsRx(s, x);
    var (r, next) := Read(s.core, x.pos);
    if r.Nothing? && park {
      ParkKeepsInv(s, id);
      OneRx(s.(core := s.core.(waiters := s.core.waiters + [id])), id, x.(asleep := true));
    } else {
      OneRx(s, id, Noted(x, r, next));
    }
  }

  lemma SubscribeKeepsInv<T>(s: World<T>, id: nat)
    requires Inv(s) && Enabled(s, SubscribeAs(id))
    ensures Inv(Apply(s, SubscribeAs(id)))
  {
    assert id !in s.core.waiters;
    assert RxOk(Rx(s.core.nextSeq, s.core.nextSeq, [], 0, false), s.log);
  }

  lemma LastSenderKeepsInv<T>(s: World<T>, h: nat)
    requires Inv(s) && h in s.senders
    ensures Inv(DropSenderStep(s, h))
  {
    forall id | id in s.rxs ensures RxOk(s.rxs[id].(asleep := false), s.log) {
      assert RxOk(s.rxs[id], s.log);
    }
  }

  lemma CountsKeepInv<T>(s: World<T>, a: Action<T>)
    requires Inv(s) && Enabled(s, a) && (a.DropReceiver? || a.CloneSender? || a.UpgradeSender?)
    ensures Inv(Apply(s, a))
  {
  }

  lemma StepKeepsInv<T>(s: World<T>, a: Action<T>)
    requires Inv(s) && Enabled(s, a)
    ensures Inv(Apply(s, a))
  {
    match a
    case Publish(v) => PublishKeepsInv(s, v);
    case PollBy(id) => ReceiveKeepsInv(s, id, true);
    case TryBy(id) => ReceiveKeepsInv(s, id, false);
    case SubscribeAs(id) => SubscribeKeepsInv(s, id);
    case DropOneSender(h) => LastSenderKeepsInv(s, h);
    case _ => CountsKeepInv(s, a);
  }

  lemma CapacityIsFixed<T>(s: World<T>, a: Action<T>)
    requires Enabled(s, a)
    ensures Apply(s, a).core.capacity == s.core.capacity
  {
  }

  lemma StartIsFine<T>(capacity: nat)
    requires capacity > 0
    ensures Inv(Start<T>(capacity))
  {
  }

  ghost predicate IsRun<T>(run: seq<World<T>>, steps: seq<Action<T>>, capacity: nat) {
    && |run| == |steps| + 1
    && run[0] == Start(capacity)
    && forall i :: 0 <= i < |steps| ==> Enabled(run[i], steps[i]) && run[i + 1] == Apply(run[i], steps[i])
  }

  lemma {:induction false} RunKeepsInv<T>(run: seq<World<T>>, steps: seq<Action<T>>, capacity: nat, k: nat)
    requires IsRun(run, steps, capacity) && capacity > 0 && k < |run|
    ensures Inv(run[k]) && run[k].core.capacity == capacity
  {
    if k > 0 {
      RunKeepsInv(run, steps, capacity, k - 1);
      StepKeepsInv(run[k - 1], steps[k - 1]);
      CapacityIsFixed(run[k - 1], steps[k - 1]);
    } else {
      StartIsFine<T>(capacity);
    }
  }

  /** The ring is always the last `min(capacity, length)` messages of the log. */
  lemma RingIsEndOfLog<T>(run: seq<World<T>>, steps: seq<Action<T>>, capacity: nat, k: nat)
    requires IsRun(run, steps, capacity) && capacity > 0 && k < |run|
    ensures var n := |run[k].log|; run[k].core.buffer == run[k].log[n - Min(capacity, n)..]
  {
    RunKeepsInv(run, steps, capacity, k);
  }

  /**
   What a receiver was given are log entries at strictly increasing positions since it subscribed,
   and every position it has passed was either delivered or counted in a `Lagged` report.
   */
  lemma DeliveriesAreTheLog<T>(run: seq<World<T>>, steps: seq<Action<T>>, capacity: nat, k: nat, id: nat)
    requires IsRun(run, steps, capacity) && capacity > 0 && k < |run| && id in run[k].rxs
    ensures var x := run[k].rxs[id];
            && |x.got| + x.lagged == x.pos - x.start
            && (forall i :: 0 <= i < |x.got| ==>
                  x.start <= x.got[i].0 < x.pos <= |run[k].log| && x.got[i].1 == run[k].log[x.got[i].0])
            && (forall i, j :: 0 <= i < j < |x.got| ==> x.got[i].0 < x.got[j].0)
  {
    RunKeepsInv(run, steps, capacity, k);
    assert RxOk(run[k].rxs[id], run[k].log);
  }

  /** A send is refused exactly if no receiver is left, and otherwise reports how many there are. */
  lemma SendCountsReceivers<T>(run: seq<World<T>>, steps: seq<Action<T>>, capacity: nat, k: nat, v: T)
    requires IsRun(run, steps, capacity) && capacity > 0 && k < |run|
    ensures Send(run[k].core, v).1 == if run[k].alive == {} then None else Some(|run[k].alive|)
    ensures PublishStep(run[k], v).log == if run[k].alive == {} then run[k].log else run[k].log + [v]
  {
    RunKeepsInv(run, steps, capacity, k);
  }

  /** A parked waker belongs to a receiver with nothing left to read, while a sender is still alive. */
  lemma SleepersHaveReadEverything<T>(run: seq<World<T>>, steps: seq<Action<T>>, capacity: nat, k: nat, id: nat)
    requires IsRun(run, steps, capacity) && capacity > 0 && k < |run| && id in run[k].rxs
    ensures id in run[k].core.waiters || run[k].rxs[id].asleep
            ==> run[k].rxs[id].pos == |run[k].log| && run[k].core.sendersAlive > 0
    ensures run[k].rxs[id].asleep ==> id in run[k].core.waiters
  {
    RunKeepsInv(run, steps, capacity, k);
  }

  /** A receiver only misses what has been overwritten: a report of `n` lands it on the oldest message kept. */
  lemma LagSkipsOnlyOverwritten<T>(run: seq<World<T>>, steps: seq<Action<T>>, capacity: nat, k: nat, pos: nat)
    requires IsRun(run, steps, capacity) && capacity > 0 && k < |run|
    ensures var (r, next) := Read(run[k].core, pos);
            && (r.Lagged? <==> pos + capacity < |run[k].log|)
            && (r.Lagged? ==> r.n == next - pos > 0 && next == |run[k].log| - capacity)
            && (r.Message? <==> pos < |run[k].log| <= pos + capacity)
            && (r.Message? ==> r.value == run[k].log[pos])
  {
    RunKeepsInv(run, steps, capacity, k);
  }

  /**
   A receiver that has read everything is told `Closed` if and only if no sender handle is left; with
   one it finds nothing, and a poll puts it to sleep with its waker stored.
   */
  lemma ClosedIff<T>(run: seq<World<T>>, steps: seq<Action<T>>, capacity: nat, k: nat, pos: nat)
    requires IsRun(run, steps, capacity) && capacity > 0 && k < |run| && pos >= |run[k].log|
    ensures Read(run[k].core, pos) == (if run[k].senders == {} then Closed else Nothing, pos)
  {
    RunKeepsInv(run, steps, capacity, k);
  }

  lemma CaughtUpPollSleepsIff<T>(run: seq<World<T>>, steps: seq<Action<T>>, capacity: nat, k: nat)
    requires IsRun(run, steps, capacity) && capacity > 0 && k < |steps| && steps[k].PollBy?
    requires run[k].rxs[steps[k].id].pos == |run[k].log|
    ensures var id, s' := steps[k].id, run[k + 1];
            && id in s'.rxs && s'.rxs[id].pos == |s'.log|
            && (s'.rxs[id].asleep <==> run[k].senders != {})
            && (run[k].senders != {} ==> s'.core.waiters == run[k].core.waiters + [id])
  {
    ClosedIff(run, steps, capacity, k, run[k].rxs[steps[k].id].pos);
  }

  /** A new receiver starts behind everything sent so far; a sender can be added exactly while one exists. */
  lemma NewHandles<T>(run: seq<World<T>>, steps: seq<Action<T>>, capacity: nat, k: nat)
    requires IsRun(run, steps, capacity) && capacity > 0 && k < |steps|
    ensures steps[k].SubscribeAs? ==>
              && run[k + 1].rxs == run[k].rxs[steps[k].id := Rx(|run[k].log|, |run[k].log|, [], 0, false)]
              && run[k + 1].alive == run[k].alive + {steps[k].id}
    ensures steps[k].UpgradeSender? || steps[k].CloneSender? ==>
              run[k + 1].senders == if run[k].senders == {} then {} else run[k].senders + {steps[k].id}
  {
    RunKeepsInv(run, steps, capacity, k);
  }
}
