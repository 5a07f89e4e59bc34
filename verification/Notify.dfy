/**
 `sync::Notify`: an asynchronous condition variable.

 `Inner` is what the mutex protects; the three functions on it are the critical sections.  `World`
 adds every waiter ever created with its own `WaiterState` cell and says which atomic access each
 thread performs next, so that one `Action` is one indivisible step and a run is any interleaving.
 A waiter taken out of the queue is fired in two later steps (raise `woken`, take the waker), in any
 order relative to the others, which covers the order in which a broadcast walks its list.
 */
module Notify {
  import opened Base
  import WakerCell

  datatype Inner<W> = Inner(permits: nat, waiters: seq<W>)

  /** The locked part of a first poll: spend a banked permit, or queue up behind the others. */
  function Register<W>(i: Inner<W>, w: W): (Inner<W>, bool) {
    if i.permits > 0 then (i.(permits := i.permits - 1), true)
    else (i.(waiters := i.waiters + [w]), false)
  }

  /** The locked part of `notify_one` (oldest first) and `notify_last` (newest first). */
  function Pick<W>(i: Inner<W>, last: bool): (Inner<W>, Option<W>) {
    var n := |i.waiters|;
    if n == 0 then (i.(permits := i.permits + 1), None)
    else if last then (i.(waiters := i.waiters[..n - 1]), Some(i.waiters[n - 1]))
    else (i.(waiters := i.waiters[1..]), Some(i.waiters[0]))
  }

  /** The mutex-protected object, with the critical sections as the source writes them. */
  class Shared<W> {
    var permits: nat
    var waiters: seq<W>

    ghost function View(): Inner<W>
      reads this
    {
      Inner(permits, waiters)
    }

    constructor ()
      ensures View() == Inner(0, [])
    {
      permits, waiters := 0, [];
    }

    method PollLocked(w: W, registered: bool) returns (ready: bool, nowRegistered: bool)
      modifies this
      ensures registered ==> View() == old(View()) && !ready && nowRegistered
      ensures !registered ==> (View(), ready) == Register(old(View()), w) && nowRegistered == !ready
    {
      nowRegistered := registered;
      if !registered {
        if permits > 0 {
          permits := permits - 1;
          return true, false;
        }
        waiters := waiters + [w];
        nowRegistered := true;
      }
      ready := false;
    }

    method NotifyLocked(last: bool) returns (state: Option<W>)
      modifies this
      ensures (View(), state) == Pick(old(View()), last)
    {
      if |waiters| > 0 {
        if last {
          state := Some(waiters[|waiters| - 1]);
          waiters := waiters[..|waiters| - 1];
        } else {
          state := Some(waiters[0]);
          waiters := waiters[1..];
        }
      } else {
        permits := permits + 1;
        state := None;
      }
    }

    method NotifyWaitersLocked() returns (taken: seq<W>)
      modifies this
      ensures taken == old(waiters) && View() == Inner(old(permits), [])
    {
      taken := waiters;
      waiters := [];
    }
  }

  // ---------------------------------------------------------------------------------------------
  // All waiters and all notifiers together
  // ---------------------------------------------------------------------------------------------

  /** How far a notification has got with one waiter. */
  datatype Fire = Unpicked | Picked | Raised | Fired

  datatype Waiter = Waiter(
    cell: WakerCell.Cell,
    registered: bool,
    locked: bool,  // this poll is past the mutex and about to store its waker
    fire: Fire,
    alive: bool,   // the future has not been dropped
    order: nat     // position in the order of registration
  )

  datatype World = World(
    inner: Inner<nat>,
    waiters: map<nat, Waiter>,
    calls: nat,          // notify_one and notify_last calls so far
    granted: set<nat>,   // waiters that own one such call, through a pop or a banked permit
    swept: set<nat>,     // waiters that own a notify_waiters call
    clock: nat
  )

  const Start := World(Inner(0, []), map[], 0, {}, {}, 0)

  datatype Action =
    | Create(w: nat)
    | PollCheck(w: nat)
    | PollLock(w: nat)
    | PollStore(w: nat)
    | PollRecheck(w: nat)
    | Enable(w: nat)
    | NotifyOne
    | NotifyLast
    | NotifyWaiters
    | FireRaise(w: nat)
    | FireTake(w: nat)
    | Drop(w: nat)

  /** What ownership of the future and the program order inside each function allow. */
  ghost predicate Enabled(s: World, a: Action) {
    match a
    case Create(w) => w !in s.waiters
    case PollCheck(w) => w in s.waiters && s.waiters[w].alive && WakerCell.CanPoll(s.waiters[w].cell)
    case PollLock(w) => w in s.waiters && s.waiters[w].cell.pc == WakerCell.Checked && !s.waiters[w].locked
    case PollStore(w) => w in s.waiters && s.waiters[w].cell.pc == WakerCell.Checked && s.waiters[w].locked
    case PollRecheck(w) => w in s.waiters && s.waiters[w].cell.pc == WakerCell.Stored
    case Enable(w) => w in s.waiters && s.waiters[w].alive && WakerCell.CanPoll(s.waiters[w].cell)
    case NotifyOne => true
    case NotifyLast => true
    case NotifyWaiters => true
    case FireRaise(w) => w in s.waiters && s.waiters[w].fire == Picked
    case FireTake(w) => w in s.waiters && s.waiters[w].fire == Raised
    case Drop(w) =>
      && w in s.waiters && s.waiters[w].alive
      && (WakerCell.CanPoll(s.waiters[w].cell) || s.waiters[w].cell.pc == WakerCell.Done)
  }

  ghost function SetCell(s: World, w: nat, c: WakerCell.Cell): World
    requires w in s.waiters
  {
    s.(waiters := s.waiters[w := s.waiters[w].(cell := c)])
  }

  /** Queue an unregistered waiter, or let it spend a permit (`onGrant` is its state then). */
  ghost function Admit(s: World, w: nat, onGrant: Waiter, onQueue: Waiter): World {
    var (inner, got) := Register(s.inner, w);
    if got then s.(inner := inner, waiters := s.waiters[w := onGrant], granted := s.granted + {w})
    else s.(inner := inner, waiters := s.waiters[w := onQueue], clock := s.clock + 1)
  }

  ghost function LockStep(s: World, w: nat): World
    requires w in s.waiters
  {
    var x := s.waiters[w];
    if x.registered then s.(waiters := s.waiters[w := x.(locked := true)])
    else Admit(s, w, x.(cell := x.cell.(pc := WakerCell.Done)),
               x.(registered := true, locked := true, order := s.clock))
  }

  /**
   `enable` is one step: it acts only on a waiter that is neither woken nor registered, and nobody
   but its owner can change that between the unlocked look and the critical section.
   */
  ghost function EnableStep(s: World, w: nat): World
    requires w in s.waiters
  {
    var x := s.waiters[w];
    if x.cell.flag || x.registered then s
    else Admit(s, w, x.(cell := WakerCell.Raise(x.cell)), x.(registered := true, order := s.clock))
  }

  ghost function PickStep(s: World, last: bool): World {
    var (inner, got) := Pick(s.inner, last);
    var s' := s.(inner := inner, calls := s.calls + 1);
    if got.Some? && got.value in s.waiters then
      var w := got.value;
      s'.(waiters := s.waiters[w := s.waiters[w].(fire := Picked)], granted := s.granted + {w})
    else s'
  }

  ghost function SweepStep(s: World): World {
    var all := set w | w in s.inner.waiters;
    s.(inner := s.inner.(waiters := []),
       waiters := map w | w in s.waiters :: if w in all then s.waiters[w].(fire := Picked) else s.waiters[w],
       swept := s.swept + all)
  }

  ghost function Apply(s: World, a: Action): World
    requires Enabled(s, a)
  {
    match a
    case Create(w) => s.(waiters := s.waiters[w := Waiter(WakerCell.Fresh, false, false, Unpicked, true, 0)])
    case PollCheck(w) => SetCell(s, w, WakerCell.Check(s.waiters[w].cell, false))
    case PollLock(w) => LockStep(s, w)
    case PollStore(w) =>
      s.(waiters := s.waiters[w := s.waiters[w].(cell := WakerCell.Store(s.waiters[w].cell), locked := false)])
    case PollRecheck(w) => SetCell(s, w, WakerCell.Recheck(s.waiters[w].cell, false))
    case Enable(w) => EnableStep(s, w)
    case NotifyOne => PickStep(s, false)
    case NotifyLast => PickStep(s, true)
    case NotifyWaiters => SweepStep(s)
    case FireRaise(w) =>
      s.(waiters := s.waiters[w := s.waiters[w].(cell := WakerCell.Raise(s.waiters[w].cell), fire := Raised)])
    case FireTake(w) =>
      s.(waiters := s.waiters[w := s.waiters[w].(cell := WakerCell.Take(s.waiters[w].cell), fire := Fired)])
    case Drop(w) => s.(waiters := s.waiters[w := s.waiters[w].(alive := false)])
  }

  /** What is always true of one waiter; `queued`, `granted` and `swept` are its memberships. */
  ghost predicate WaiterOk(x: Waiter, queued: bool, granted: bool, swept: bool) {
    var pc := x.cell.pc;
    && WakerCell.Inv(x.cell, x.fire == Raised)
    && queued == (x.registered && x.fire == Unpicked)
    && (!x.registered ==> x.fire == Unpicked && pc != WakerCell.Stored && pc != WakerCell.Parked)
    && (!x.registered && pc == WakerCell.Checked ==> !x.cell.flag)
    && (x.locked ==> x.registered && pc == WakerCell.Checked)
    && !(granted && swept)
    && (queued || x.fire == Picked ==> !x.cell.flag && pc != WakerCell.Done)
    && (x.fire == Raised || x.fire == Fired ==> x.cell.flag)
    && (x.registered ==> (granted || swept) == !queued)
    && (!x.registered ==> !swept && granted == (x.cell.flag || pc == WakerCell.Done))
  }

  ghost predicate AllOk(s: World) {
    forall w :: w in s.waiters ==> WaiterOk(s.waiters[w], w in s.inner.waiters, w in s.granted, w in s.swept)
  }

  ghost predicate QueueOk(s: World) {
    var q := s.inner.waiters;
    && (s.inner.permits > 0 ==> q == [])
    && (forall i :: 0 <= i < |q| ==> q[i] in s.waiters && s.waiters[q[i]].order < s.clock)
    && (forall i, j :: 0 <= i < j < |q| ==>
          q[i] in s.waiters && q[j] in s.waiters && s.waiters[q[i]].order < s.waiters[q[j]].order)
  }

  ghost predicate Inv(s: World) {
    && QueueOk(s)
    && AllOk(s)
    && s.granted <= s.waiters.Keys && s.swept <= s.waiters.Keys
    && s.calls == s.inner.permits + |s.granted|
  }

  /** A step that touches one waiter, and no membership of it, need only look at that waiter. */
  lemma Focus(s: World, w: nat, x: Waiter)
    requires Inv(s) && w in s.waiters && x.order == s.waiters[w].order
    requires WaiterOk(x, w in s.inner.waiters, w in s.granted, w in s.swept)
    ensures Inv(s.(waiters := s.waiters[w := x]))
  {
  }

  lemma CreateStep(s: World, w: nat)
    requires Inv(s) && w !in s.waiters
    ensures Inv(Apply(s, Create(w)))
  {
  }

  lemma LocalStep(s: World, a: Action)
    requires Inv(s) && Enabled(s, a)
    requires a.PollCheck? || a.PollStore? || a.PollRecheck? || a.FireRaise? || a.FireTake? || a.Drop?
    ensures Inv(Apply(s, a))
  {
    Focus(s, a.w, Apply(s, a).waiters[a.w]);
  }

  /** The two outcomes of the critical section a first poll and `enable` share. */
  lemma AdmitStep(s: World, w: nat, onGrant: Waiter, onQueue: Waiter)
    requires Inv(s) && w in s.waiters && !s.waiters[w].registered && w !in s.granted
    requires WaiterOk(onGrant, false, true, false) && WaiterOk(onQueue, true, false, false) && onQueue.order == s.clock
    ensures Inv(Admit(s, w, onGrant, onQueue))
  {
    assert w !in s.inner.waiters && w !in s.swept;
    if s.inner.permits == 0 {
      QueueGrows(s, w, onQueue);
    }
  }

  lemma QueueGrows(s: World, w: nat, x: Waiter)
    requires Inv(s) && w in s.waiters && w !in s.inner.waiters && w !in s.granted && w !in s.swept
    requires WaiterOk(x, true, false, false) && x.order == s.clock && s.inner.permits == 0
    ensures Inv(s.(inner := s.inner.(waiters := s.inner.waiters + [w]),
                   waiters := s.waiters[w := x], clock := s.clock + 1))
  {
    var q := s.inner.waiters + [w];
    assert forall v :: v in q <==> v in s.inner.waiters || v == w;
  }

  lemma PickedStep(s: World, k: nat, q: seq<nat>)
    requires Inv(s) && k < |s.inner.waiters|
    requires q == s.inner.waiters[..k] + s.inner.waiters[k + 1..]
    ensures var w := s.inner.waiters[k];
            w in s.waiters &&
            Inv(s.(inner := s.inner.(waiters := q), calls := s.calls + 1,
                   waiters := s.waiters[w := s.waiters[w].(fire := Picked)], granted := s.granted + {w}))
  {
    var w := s.inner.waiters[k];
    assert w in s.inner.waiters && w !in s.granted;
    var ws := s.waiters[w := s.waiters[w].(fire := Picked)];
    var s' := s.(inner := s.inner.(waiters := q), calls := s.calls + 1, waiters := ws, granted := s.granted + {w});
    RemovedOne(s, k, q);
    assert AllOk(s');
    assert QueueOk(s') by { ShorterQueue(s, k, s'); }
  }

  lemma ShorterQueue(s: World, k: nat, s': World)
    requires QueueOk(s) && k < |s.inner.waiters|
    requires s'.inner == s.inner.(waiters := s.inner.waiters[..k] + s.inner.waiters[k + 1..])
    requires s'.clock == s.clock && s'.waiters.Keys == s.waiters.Keys
    requires forall w :: w in s.waiters ==> s'.waiters[w].order == s.waiters[w].order
    ensures QueueOk(s')
  {
    var p, q := s.inner.waiters, s'.inner.waiters;
    assert forall i :: 0 <= i < |q| ==> q[i] == p[if i < k then i else i + 1];
  }

  lemma RemovedOne(s: World, k: nat, q: seq<nat>)
    requires QueueOk(s) && k < |s.inner.waiters|
    requires q == s.inner.waiters[..k] + s.inner.waiters[k + 1..]
    ensures forall v :: v in q <==> v in s.inner.waiters && v != s.inner.waiters[k]
  {
    var p := s.inner.waiters;
    assert forall i, j :: 0 <= i < j < |p| ==> p[i] != p[j];
    forall v | v in p && v != p[k] ensures v in q {
      var i :| 0 <= i < |p| && p[i] == v;
      assert q[if i < k then i else i - 1] == v;
    }
  }

  /** With somebody in the queue, a notification takes the waiter at one end. */
  lemma PickIs(s: World, last: bool)
    requires s.inner.waiters != []
    ensures var q := s.inner.waiters; var k := if last then |q| - 1 else 0; var w := q[k];
            w in s.waiters ==>
              PickStep(s, last) == s.(inner := s.inner.(waiters := q[..k] + q[k + 1..]), calls := s.calls + 1,
                                      waiters := s.waiters[w := s.waiters[w].(fire := Picked)],
                                      granted := s.granted + {w})
  {
    var q := s.inner.waiters;
    assert q[..0] + q[1..] == q[1..];
    assert q[..|q| - 1] + q[|q|..] == q[..|q| - 1];
  }

  lemma BankStep(s: World, last: bool)
    requires Inv(s) && s.inner.waiters == []
    ensures Inv(PickStep(s, last))
  {
  }

  lemma NotifyStep(s: World, last: bool)
    requires Inv(s)
    ensures Inv(PickStep(s, last))
  {
    var q := s.inner.waiters;
    if q == [] {
      BankStep(s, last);
    } else {
      var k := if last then |q| - 1 else 0;
      PickIs(s, last);
      PickedStep(s, k, q[..k] + q[k + 1..]);
    }
  }

  lemma LockedStep(s: World, w: nat)
    requires Inv(s) && Enabled(s, PollLock(w))
    ensures Inv(LockStep(s, w))
  {
    var x := s.waiters[w];
    if x.registered {
      Focus(s, w, x.(locked := true));
    } else {
      AdmitStep(s, w, x.(cell := x.cell.(pc := WakerCell.Done)),
        x.(registered := true, locked := true, order := s.clock));
    }
  }

  lemma EnabledStep(s: World, w: nat)
    requires Inv(s) && Enabled(s, Enable(w))
    ensures Inv(EnableStep(s, w))
  {
    var x := s.waiters[w];
    if !x.cell.flag && !x.registered {
      AdmitStep(s, w, x.(cell := WakerCell.Raise(x.cell)), x.(registered := true, order := s.clock));
    }
  }

  lemma BroadcastStep(s: World)
    requires Inv(s)
    ensures Inv(SweepStep(s))
  {
  }

  lemma StepKeepsInv(s: World, a: Action)
    requires Inv(s) && Enabled(s, a)
    ensures Inv(Apply(s, a))
  {
    match a
    case Create(w) => CreateStep(s, w);
    case PollLock(w) => LockedStep(s, w);
    case Enable(w) => EnabledStep(s, w);
    case NotifyOne => NotifyStep(s, false);
    case NotifyLast => NotifyStep(s, true);
    case NotifyWaiters => BroadcastStep(s);
    case _ => LocalStep(s, a);
  }

  /** Any interleaving at all: `run[i]` is the world before the i-th step. */
  ghost predicate IsRun(run: seq<World>, steps: seq<Action>) {
    && |run| == |steps| + 1
    && run[0] == Start
    && forall i :: 0 <= i < |steps| ==> Enabled(run[i], steps[i]) && run[i + 1] == Apply(run[i], steps[i])
  }

  lemma {:induction false} RunKeepsInv(run: seq<World>, steps: seq<Action>, k: nat)
    requires IsRun(run, steps) && k < |run|
    ensures Inv(run[k])
  {
    if k > 0 {
      RunKeepsInv(run, steps, k - 1);
      StepKeepsInv(run[k - 1], steps[k - 1]);
    }
  }

  /**
   No wakeup is lost: a waiter whose notification has run to the end is never left parked behind a
   waker nobody invoked.
   */
  lemma NoLostWakeup(run: seq<World>, steps: seq<Action>, k: nat, w: nat)
    requires IsRun(run, steps) && k < |run| && w in run[k].waiters
    ensures run[k].waiters[w].fire == Fired && run[k].waiters[w].cell.pc == WakerCell.Parked
            ==> run[k].waiters[w].cell.woke
  {
    RunKeepsInv(run, steps, k);
  }

  /** A banked permit and a queued waiter never exist together. */
  lemma PermitsOnlyWhenNobodyWaits(run: seq<World>, steps: seq<Action>, k: nat)
    requires IsRun(run, steps) && k < |run|
    ensures run[k].inner.permits == 0 || run[k].inner.waiters == []
  {
    RunKeepsInv(run, steps, k);
  }

  /**
   Every completed wait is owed to exactly one notification, and the calls of `notify_one` and
   `notify_last` are exactly the permits still banked plus the waiters that were given one.
   */
  lemma CompletionsAreOwed(run: seq<World>, steps: seq<Action>, k: nat, w: nat)
    requires IsRun(run, steps) && k < |run|
    ensures run[k].calls == run[k].inner.permits + |run[k].granted|
    ensures w in run[k].waiters && (run[k].waiters[w].cell.pc == WakerCell.Done || run[k].waiters[w].cell.flag)
            ==> (w in run[k].granted) != (w in run[k].swept)
  {
    RunKeepsInv(run, steps, k);
  }

  /**
   A broadcast gives a notification to exactly the waiters queued at that moment, empties the queue and
   banks nothing; nobody else is touched.
   */
  lemma BroadcastReachesAll(run: seq<World>, steps: seq<Action>, k: nat, w: nat)
    requires IsRun(run, steps) && k < |steps| && steps[k] == NotifyWaiters
    ensures var s, s' := run[k], run[k + 1];
            && s'.inner == Inner(s.inner.permits, []) && s'.granted == s.granted && s'.calls == s.calls
            && (w in s'.swept <==> w in s.swept || w in s.inner.waiters)
            && s'.waiters.Keys == s.waiters.Keys
            && (w in s.inner.waiters ==> w in s.waiters && s'.waiters[w] == s.waiters[w].(fire := Picked))
            && (w in s.waiters && w !in s.inner.waiters ==> s'.waiters[w] == s.waiters[w])
  {
    RunKeepsInv(run, steps, k);
  }

  /** `notify_one` picks the waiter that registered first, `notify_last` the one that did so last. */
  lemma PickOrder(run: seq<World>, steps: seq<Action>, k: nat, v: nat)
    requires IsRun(run, steps) && k < |run|
    requires v in run[k].inner.waiters
    ensures var (_, front) := Pick(run[k].inner, false);
            var (_, back) := Pick(run[k].inner, true);
            && front.Some? && front.value in run[k].waiters && back.Some? && back.value in run[k].waiters
            && v in run[k].waiters
            && run[k].waiters[front.value].order <= run[k].waiters[v].order <= run[k].waiters[back.value].order
  {
    RunKeepsInv(run, steps, k);
    var q := run[k].inner.waiters;
    var i :| 0 <= i < |q| && q[i] == v;
    assert i == 0 || run[k].waiters[q[0]].order < run[k].waiters[q[i]].order;
    assert i == |q| - 1 || run[k].waiters[q[i]].order < run[k].waiters[q[|q| - 1]].order;
  }

  // ---------------------------------------------------------------------------------------------
  // Dropped waiters keep their place in the queue
  // ---------------------------------------------------------------------------------------------

  /** Waiters in the queue whose futures still exist. */
  ghost function LiveQueued(s: World): set<nat> {
    set w | w in s.inner.waiters && w in s.waiters && s.waiters[w].alive
  }

  /** A call that banks no permit and reaches nobody who could complete. */
  ghost predicate Wasted(s: World, last: bool) {
    var s' := PickStep(s, last);
    s'.inner.permits == s.inner.permits && LiveQueued(s') == LiveQueued(s)
  }

  ghost function End(q: seq<nat>, last: bool): nat
    requires q != []
  {
    if last then q[|q| - 1] else q[0]
  }

  lemma PickLeaves(s: World, last: bool)
    requires QueueOk(s) && s.inner.waiters != []
    ensures var w := End(s.inner.waiters, last);
            && w in s.waiters && PickStep(s, last).inner.permits == s.inner.permits
            && LiveQueued(PickStep(s, last)) == LiveQueued(s) - {w}
  {
    var q := s.inner.waiters;
    var k := if last then |q| - 1 else 0;
    var rest := if last then q[..|q| - 1] else q[1..];
    assert rest == q[..k] + q[k + 1..];
    RemovedOne(s, k, rest);
    assert q[k] in s.waiters;
  }

  /** A call is wasted if and only if the waiter at the end it picks from was dropped. */
  lemma WastedIff(run: seq<World>, steps: seq<Action>, k: nat, last: bool)
    requires IsRun(run, steps) && k < |run|
    ensures var s := run[k]; var q := s.inner.waiters;
            Wasted(s, last) <==> q != [] && End(q, last) in s.waiters && !s.waiters[End(q, last)].alive
  {
    RunKeepsInv(run, steps, k);
    var s := run[k];
    if s.inner.waiters != [] {
      PickLeaves(s, last);
      var w := End(s.inner.waiters, last);
      assert w in LiveQueued(s) <==> s.waiters[w].alive;
    }
  }

  ghost predicate Gone(s: World, w: nat) {
    && w in s.waiters && !s.waiters[w].alive
    && WakerCell.CanPoll(s.waiters[w].cell)
  }

  lemma GoneIsStable(s: World, a: Action, w: nat)
    requires Gone(s, w) && Enabled(s, a)
    ensures Gone(Apply(s, a), w)
  {
  }

  /** What such a call was spent on never completes. */
  lemma {:induction false} DroppedNeverComplete(run: seq<World>, steps: seq<Action>, k: nat, j: nat, w: nat)
    requires IsRun(run, steps) && k <= j < |run| && Gone(run[k], w)
    ensures Gone(run[j], w) && run[j].waiters[w].cell.pc != WakerCell.Done
  {
    if k < j {
      DroppedNeverComplete(run, steps, k, j - 1, w);
      GoneIsStable(run[j - 1], steps[j - 1], w);
    }
  }

  // A waiter that owns a notification, and what can still become of it.

  ghost predicate Notified(s: World, w: nat) {
    w in s.waiters && (w in s.granted || w in s.swept)
  }

  ghost predicate IsDone(s: World, w: nat) {
    w in s.waiters && s.waiters[w].cell.pc == WakerCell.Done
  }

  /** A dropped future is not in the middle of a poll. */
  ghost predicate DropOk(s: World, w: nat) {
    w in s.waiters && !s.waiters[w].alive ==> IsDone(s, w) || Gone(s, w)
  }

  lemma StepKeepsDropOk(s: World, a: Action, w: nat)
    requires DropOk(s, w) && Enabled(s, a)
    ensures DropOk(Apply(s, a), w)
  {
  }

  lemma {:induction false} RunKeepsDropOk(run: seq<World>, steps: seq<Action>, k: nat, w: nat)
    requires IsRun(run, steps) && k < |run|
    ensures DropOk(run[k], w)
  {
    if k > 0 {
      RunKeepsDropOk(run, steps, k - 1, w);
      StepKeepsDropOk(run[k - 1], steps[k - 1], w);
    }
  }

  /** `steps` lead from `s` to `t`. */
  ghost predicate Leads(s: World, steps: seq<Action>, t: World)
    decreases |steps|
  {
    if steps == [] then s == t else Enabled(s, steps[0]) && Leads(Apply(s, steps[0]), steps[1..], t)
  }

  /** Some continuation completes the wait. */
  ghost predicate CanComplete(s: World, w: nat) {
    exists more, t :: Leads(s, more, t) && IsDone(t, w)
  }

  /** The next step of the notifier, or of the poll, on the way to completion. */
  ghost function Next(s: World, w: nat): Action
    requires w in s.waiters
  {
    var x := s.waiters[w];
    if x.fire == Picked then FireRaise(w)
    else if WakerCell.CanPoll(x.cell) then PollCheck(w)
    else if x.cell.pc == WakerCell.Stored then PollRecheck(w)
    else if x.locked then PollStore(w)
    else PollLock(w)
  }

  ghost function Ahead(s: World, w: nat): nat
    requires w in s.waiters
  {
    var x := s.waiters[w];
    (if x.fire == Picked then 4 else 0) +
    (if x.cell.pc == WakerCell.Checked then if x.locked then 2 else 3 else 1)
  }

  lemma NextAdvances(s: World, w: nat)
    requires Inv(s) && Notified(s, w) && s.waiters[w].alive && !IsDone(s, w)
    ensures Enabled(s, Next(s, w))
    ensures var t := Apply(s, Next(s, w));
            Notified(t, w) && t.waiters[w].alive && (IsDone(t, w) || Ahead(t, w) < Ahead(s, w))
  {
    assert WaiterOk(s.waiters[w], w in s.inner.waiters, w in s.granted, w in s.swept);
  }

  lemma {:induction false} WayToCompletion(s: World, w: nat) returns (steps: seq<Action>, t: World)
    requires Inv(s) && Notified(s, w) && s.waiters[w].alive
    ensures Leads(s, steps, t) && IsDone(t, w)
    decreases !IsDone(s, w), Ahead(s, w)
  {
    if IsDone(s, w) {
      return [], s;
    }
    var a := Next(s, w);
    NextAdvances(s, w);
    StepKeepsInv(s, a);
    var rest;
    rest, t := WayToCompletion(Apply(s, a), w);
    steps := [a] + rest;
    assert steps[1..] == rest;
  }

  lemma {:induction false} NoWayBack(s: World, steps: seq<Action>, t: World, w: nat)
    requires Gone(s, w) && Leads(s, steps, t)
    ensures !IsDone(t, w)
    decreases |steps|
  {
    if steps != [] {
      GoneIsStable(s, steps[0], w);
      NoWayBack(Apply(s, steps[0]), steps[1..], t, w);
    }
  }

  lemma LiveCanComplete(s: World, w: nat)
    requires Inv(s) && Notified(s, w) && s.waiters[w].alive
    ensures CanComplete(s, w)
  {
    var more, t := WayToCompletion(s, w);
  }

  lemma GoneCannotComplete(s: World, w: nat)
    requires Gone(s, w)
    ensures !CanComplete(s, w)
  {
    forall more, t | Leads(s, more, t) ensures !IsDone(t, w) {
      NoWayBack(s, more, t, w);
    }
  }

  /**
   In any state of any run, the notification a waiter owns can still complete it, or has done so, if and
   only if the waiter is done or its future still exists: whenever it was dropped, before being picked
   or after, its notification is lost.
   */
  lemma NotificationCountsIff(run: seq<World>, steps: seq<Action>, k: nat, w: nat)
    requires IsRun(run, steps) && k < |run| && Notified(run[k], w)
    ensures CanComplete(run[k], w) <==> IsDone(run[k], w) || run[k].waiters[w].alive
  {
    var s := run[k];
    RunKeepsInv(run, steps, k);
    RunKeepsDropOk(run, steps, k, w);
    if IsDone(s, w) {
      assert Leads(s, [], s);
    } else if s.waiters[w].alive {
      LiveCanComplete(s, w);
    } else {
      GoneCannotComplete(s, w);
    }
  }

  ghost function Enrolled(order: nat, fire: Fire, alive: bool): Waiter {
    Waiter(WakerCell.Fresh, true, false, fire, alive, order)
  }

  const NewWaiter := Waiter(WakerCell.Fresh, false, false, Unpicked, true, 0)

  ghost function Wasting(): seq<World> {
    [Start,
     World(Inner(0, []), map[0 := NewWaiter], 0, {}, {}, 0),
     World(Inner(0, [0]), map[0 := Enrolled(0, Unpicked, true)], 0, {}, {}, 1),
     World(Inner(0, [0]), map[0 := Enrolled(0, Unpicked, true), 1 := NewWaiter], 0, {}, {}, 1),
     World(Inner(0, [0, 1]), map[0 := Enrolled(0, Unpicked, true), 1 := Enrolled(1, Unpicked, true)], 0, {}, {}, 2),
     World(Inner(0, [0, 1]), map[0 := Enrolled(0, Unpicked, false), 1 := Enrolled(1, Unpicked, true)], 0, {}, {}, 2),
     World(Inner(0, [1]), map[0 := Enrolled(0, Picked, false), 1 := Enrolled(1, Unpicked, true)], 1, {0}, {}, 2)]
  }

  ghost function WastingSteps(): seq<Action> {
    [Create(0), Enable(0), Create(1), Enable(1), Drop(0), NotifyOne]
  }

  lemma WastingStep(i: nat)
    requires i < 6
    ensures Enabled(Wasting()[i], WastingSteps()[i]) && Apply(Wasting()[i], WastingSteps()[i]) == Wasting()[i + 1]
  {
  }

  /** It does happen: the first of two enabled waiters is dropped, and the call goes to it. */
  lemma WastedCall()
    ensures IsRun(Wasting(), WastingSteps()) && Wasted(Wasting()[5], false)
    ensures LiveQueued(Wasting()[6]) == {1} && Wasting()[6].inner.permits == 0
  {
    forall i | 0 <= i < 6
      ensures Enabled(Wasting()[i], WastingSteps()[i]) && Wasting()[i + 1] == Apply(Wasting()[i], WastingSteps()[i])
    {
      WastingStep(i);
    }
    WastedIff(Wasting(), WastingSteps(), 5, false);
  }

  ghost function Losing(): seq<World> {
    Wasting()[..5] +
    [World(Inner(0, [1]), map[0 := Enrolled(0, Picked, true), 1 := Enrolled(1, Unpicked, true)], 1, {0}, {}, 2),
     World(Inner(0, [1]), map[0 := Enrolled(0, Picked, false), 1 := Enrolled(1, Unpicked, true)], 1, {0}, {}, 2)]
  }

  ghost function LosingSteps(): seq<Action> {
    [Create(0), Enable(0), Create(1), Enable(1), NotifyOne, Drop(0)]
  }

  lemma LosingStep(i: nat)
    requires i < 6
    ensures Enabled(Losing()[i], LosingSteps()[i]) && Apply(Losing()[i], LosingSteps()[i]) == Losing()[i + 1]
  {
    if i < 4 { WastingStep(i); }
  }

  /** The same loss a moment later: the waiter is alive when it is picked, and dropped before it is polled. */
  lemma LostAfterPick()
    ensures IsRun(Losing(), LosingSteps()) && !Wasted(Losing()[4], false)
    ensures Notified(Losing()[6], 0) && !CanComplete(Losing()[6], 0)
    ensures LiveQueued(Losing()[6]) == {1} && Losing()[6].inner.permits == 0
  {
    forall i | 0 <= i < 6
      ensures Enabled(Losing()[i], LosingSteps()[i]) && Losing()[i + 1] == Apply(Losing()[i], LosingSteps()[i])
    {
      LosingStep(i);
    }
    WastedIff(Losing(), LosingSteps(), 4, false);
    NotificationCountsIff(Losing(), LosingSteps(), 6, 0);
  }
}
