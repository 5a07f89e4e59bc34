/**
 Signal listeners: one flag and one waker per listener, a list of listeners per signal number, and a
 dispatcher that walks the list under the slot's lock while the listeners are polled from elsewhere.
 */
module Signal {
  import opened Base
  import WakerCell

  // ---------------------------------------------------------------------------------------------
  // Dispatch and poll as the source writes them
  // ---------------------------------------------------------------------------------------------

  class ListenerState {
    var pending: bool
    var waker: Option<nat>

    constructor ()
      ensures !pending && waker == None
    {
      pending, waker := false, None;
    }

    /** One uninterrupted poll. */
    method Poll(cx: nat) returns (ready: bool)
      modifies this
      ensures ready == old(pending) && !pending
      ensures waker == if ready then old(waker) else Some(cx)
    {
      if pending {
        pending := false;
        return true;
      }
      waker := Some(cx);
      ready := false;
    }

    /** The dispatcher's part: the flag goes up, then the waker is taken. */
    method Raise() returns (taken: Option<nat>)
      modifies this
      ensures pending && waker == None && taken == old(waker)
    {
      pending := true;
      taken := waker;
      waker := None;
    }

    /** The same, as it shows among all listeners of a slot. */
    method RaiseAmong(ghost all: set<ListenerState>) returns (taken: Option<nat>)
      requires this in all
      modifies this
      ensures Raised(this) && taken == old(waker) && Wakers(all) == old(Wakers(all))[this := None]
      ensures forall l :: l in all && old(Raised(l)) ==> Raised(l)
    {
      taken := Raise();
    }
  }

  /** A weak reference is `Some` exactly while the listener it points to is owned by a `Signal`. */
  datatype Weak = Weak(target: Option<ListenerState>)

  function Upgradable(ls: seq<Weak>): seq<Weak> {
    if ls == [] then []
    else if ls[|ls| - 1].target.Some? then Upgradable(ls[..|ls| - 1]) + [ls[|ls| - 1]]
    else Upgradable(ls[..|ls| - 1])
  }

  /**
   Exactly the listeners still owned are kept, each as often as before, and in the same order: an entry
   moves to the position given by the number of kept entries in front of it.
   */
  lemma {:induction false} UpgradableIsFilter(ls: seq<Weak>, i: nat, w: Weak)
    ensures multiset(Upgradable(ls))[w] == if w.target.Some? then multiset(ls)[w] else 0
    ensures i < |ls| && ls[i].target.Some? ==>
              var k := |Upgradable(ls[..i])|; k < |Upgradable(ls)| && Upgradable(ls)[k] == ls[i]
  {
    if ls != [] {
      var n := |ls| - 1;
      UpgradableIsFilter(ls[..n], i, w);
      assert ls == ls[..n] + [ls[n]];
      if i < n { assert ls[..n][..i] == ls[..i]; }
    }
  }

  /** Whom a dispatch wakes, in order: a listener met a second time has no waker left. */
  ghost function WakersOf(ls: seq<Weak>, wakers: map<ListenerState, Option<nat>>): seq<nat> {
    if ls == [] then []
    else if ls[0].target.Some? && ls[0].target.value in wakers then
      var l := ls[0].target.value;
      var rest := WakersOf(ls[1..], wakers[l := None]);
      if wakers[l].Some? then [wakers[l].value] + rest else rest
    else WakersOf(ls[1..], wakers)
  }

  ghost predicate Stores(weak: Weak, wakers: map<ListenerState, Option<nat>>, w: nat) {
    weak.target.Some? && weak.target.value in wakers && wakers[weak.target.value] == Some(w)
  }

  /** A waker is invoked exactly if it is the one stored by a listener still owned. */
  lemma {:induction false} WokenIff(ls: seq<Weak>, wakers: map<ListenerState, Option<nat>>, w: nat)
    ensures w in WakersOf(ls, wakers) <==>
              exists i :: 0 <= i < |ls| && Stores(ls[i], wakers, w)
    decreases |ls|
  {
    if ls != [] {
      var rest := ls[1..];
      assert forall i :: 0 <= i < |rest| ==> rest[i] == ls[i + 1];
      if ls[0].target.Some? && ls[0].target.value in wakers {
        var l := ls[0].target.value;
        WokenIff(rest, wakers[l := None], w);
        if i :| 0 < i < |ls| && Stores(ls[i], wakers, w) {
          if ls[i].target.value != l {
            assert Stores(rest[i - 1], wakers[l := None], w);
          } else {
            assert Stores(ls[0], wakers, w);
          }
        }
      } else {
        WokenIff(rest, wakers, w);
        if i :| 0 < i < |ls| && Stores(ls[i], wakers, w) {
          assert Stores(rest[i - 1], wakers, w);
        }
      }
    }
  }

  ghost function Listening(ls: seq<Weak>): set<ListenerState> {
    set w | w in ls && w.target.Some? :: w.target.value
  }

  ghost function Wakers(ls: set<ListenerState>): map<ListenerState, Option<nat>>
    reads ls
  {
    map l | l in ls :: l.waker
  }

  ghost predicate Raised(l: ListenerState)
    reads l
  {
    l.pending && l.waker == None
  }

  function Listed(o: Option<nat>): seq<nat> {
    if o.Some? then [o.value] else []
  }

  lemma NextOwned(ls: seq<Weak>, i: nat, wakers: map<ListenerState, Option<nat>>, woken: seq<nat>)
    requires i < |ls| && ls[i].target.Some? && ls[i].target.value in wakers
    ensures Upgradable(ls[..i + 1]) == Upgradable(ls[..i]) + [ls[i]]
    ensures Listening(ls[..i + 1]) == Listening(ls[..i]) + {ls[i].target.value}
    ensures var l := ls[i].target.value;
            woken + WakersOf(ls[i..], wakers) == (woken + Listed(wakers[l])) + WakersOf(ls[i + 1..], wakers[l := None])
  {
    assert ls[..i + 1][..i] == ls[..i];
    assert ls[..i + 1] == ls[..i] + [ls[i]];
    assert ls[i..][0] == ls[i] && ls[i..][1..] == ls[i + 1..];
  }

  lemma NextGone(ls: seq<Weak>, i: nat, wakers: map<ListenerState, Option<nat>>)
    requires i < |ls| && ls[i].target.None?
    ensures Listening(ls[..i + 1]) == Listening(ls[..i])
    ensures Upgradable(ls[..i + 1]) == Upgradable(ls[..i]) && WakersOf(ls[i..], wakers) == WakersOf(ls[i + 1..], wakers)
  {
    assert ls[..i + 1][..i] == ls[..i];
    assert ls[..i + 1] == ls[..i] + [ls[i]];
    assert ls[i..][0] == ls[i] && ls[i..][1..] == ls[i + 1..];
  }

  class SignalSlot {
    var listeners: seq<Weak>

    constructor ()
      ensures listeners == []
    {
      listeners := [];
    }

    /** Raises every listener still owned by somebody, in order, and forgets the others. */
    method Dispatch() returns (woken: seq<nat>)
      modifies this, Listening(listeners)
      ensures listeners == Upgradable(old(listeners))
      ensures forall l :: l in old(Listening(listeners)) ==> Raised(l)
      ensures woken == WakersOf(old(listeners), old(Wakers(Listening(listeners))))
    {
      woken := [];
      var kept: seq<Weak> := [];
      ghost var all := Listening(listeners);
      for i := 0 to |listeners|
        invariant listeners == old(listeners)
        invariant kept == Upgradable(listeners[..i])
        invariant Listening(listeners[..i]) <= all && forall l :: l in Listening(listeners[..i]) ==> Raised(l)
        invariant woken + WakersOf(listeners[i..], Wakers(all)) == WakersOf(old(listeners), old(Wakers(all)))
      {
        var weak := listeners[i];
        ghost var wakers := Wakers(all);
        if weak.target.Some? {
          NextOwned(listeners, i, wakers, woken);
          var taken := weak.target.value.RaiseAmong(all);
          woken := woken + Listed(taken);
          kept := kept + [weak];
        } else {
          NextGone(listeners, i, wakers);
        }
      }
      assert listeners[..|listeners|] == listeners;
      listeners := kept;
    }
  }

  // ---------------------------------------------------------------------------------------------
  // The same accesses interleaved
  // ---------------------------------------------------------------------------------------------

  datatype Listener = Listener(
    cell: WakerCell.Cell,
    alive: bool,
    born: nat,    // dispatches begun before it registered
    raised: nat,  // times its flag was raised
    taken: nat,   // value of `raised` at its last receive
    received: nat
  )

  /** The dispatcher's progress through the list it has locked. */
  datatype Job =
    | NoJob
    | Scanning(todo: seq<nat>, kept: seq<nat>)
    | Taking(id: nat, todo: seq<nat>, kept: seq<nat>)

  datatype World = World(listed: seq<nat>, listeners: map<nat, Listener>, job: Job, dispatches: nat)

  const Start := World([], map[], NoJob, 0)

  datatype Action =
    | Register(id: nat)
    | Begin
    | Visit
    | TakeWaker
    | End
    | PollCheck(id: nat)
    | PollStore(id: nat)
    | PollRecheck(id: nat)
    | DropSignal(id: nat)

  ghost predicate Enabled(s: World, a: Action) {
    match a
    case Register(id) => id !in s.listeners && s.job.NoJob?
    case Begin => s.job.NoJob?
    case Visit => s.job.Scanning? && s.job.todo != []
    case TakeWaker => s.job.Taking?
    case End => s.job.Scanning? && s.job.todo == []
    case PollCheck(id) => id in s.listeners && s.listeners[id].alive && WakerCell.CanPoll(s.listeners[id].cell)
    case PollStore(id) => id in s.listeners && s.listeners[id].cell.pc == WakerCell.Checked
    case PollRecheck(id) => id in s.listeners && s.listeners[id].cell.pc == WakerCell.Stored
    case DropSignal(id) => id in s.listeners && s.listeners[id].alive && WakerCell.CanPoll(s.listeners[id].cell)
  }

  /** Both looks at the flag are swaps: seeing it up counts as one receive. */
  ghost function Looked(x: Listener, cell: WakerCell.Cell): Listener {
    if x.cell.flag then x.(cell := cell, taken := x.raised, received := x.received + 1) else x.(cell := cell)
  }

  ghost function Put(s: World, id: nat, x: Listener): World {
    s.(listeners := s.listeners[id := x])
  }

  ghost function VisitStep(s: World): World
    requires s.job.Scanning? && s.job.todo != []
  {
    var id, rest := s.job.todo[0], s.job.todo[1..];
    if id in s.listeners && s.listeners[id].alive then
      var x := s.listeners[id];
      s.(job := Taking(id, rest, s.job.kept),
         listeners := s.listeners[id := x.(cell := WakerCell.Raise(x.cell), raised := x.raised + 1)])
    else s.(job := Scanning(rest, s.job.kept))
  }

  ghost function TakeStep(s: World): World
    requires s.job.Taking?
  {
    var id := s.job.id;
    var s' := s.(job := Scanning(s.job.todo, s.job.kept + [id]));
    if id in s.listeners then
      s'.(listeners := s.listeners[id := s.listeners[id].(cell := WakerCell.Take(s.listeners[id].cell))])
    else s'
  }

  ghost function Apply(s: World, a: Action): World
    requires Enabled(s, a)
  {
    match a
    case Register(id) =>
      s.(listed := s.listed + [id],
         listeners := s.listeners[id := Listener(WakerCell.Fresh, true, s.dispatches, 0, 0, 0)])
    case Begin => s.(job := Scanning(s.listed, []), dispatches := s.dispatches + 1)
    case Visit => VisitStep(s)
    case TakeWaker => TakeStep(s)
    case End => s.(listed := s.job.kept, job := NoJob)
    case PollCheck(id) => Put(s, id, Looked(s.listeners[id], WakerCell.Check(s.listeners[id].cell, true)))
    case PollStore(id) => Put(s, id, s.listeners[id].(cell := WakerCell.Store(s.listeners[id].cell)))
    case PollRecheck(id) => Put(s, id, Looked(s.listeners[id], WakerCell.Recheck(s.listeners[id].cell, true)))
    case DropSignal(id) => Put(s, id, s.listeners[id].(alive := false))
  }

  /** The whole list of a slot, wherever the dispatcher keeps its parts. */
  ghost function Roster(s: World): seq<nat> {
    match s.job
    case NoJob => s.listed
    case Scanning(todo, kept) => kept + todo
    case Taking(id, todo, kept) => kept + ([id] + todo)
  }

  ghost predicate Waiting(s: World, id: nat) {
    !s.job.NoJob? && id in s.job.todo
  }

  ghost predicate ListenerOk(x: Listener, taking: bool, waiting: bool, dispatches: nat) {
    && WakerCell.Inv(x.cell, taking)
    && x.cell.pc != WakerCell.Done
    && x.received <= x.taken <= x.raised
    && x.cell.flag == (x.taken < x.raised)
    && x.born + x.raised + (if waiting then 1 else 0) <= dispatches
    && (x.alive ==> x.born + x.raised + (if waiting then 1 else 0) == dispatches)
  }

  ghost predicate Inv(s: World) {
    && Distinct(Roster(s))
    && (forall id :: id in Roster(s) ==> id in s.listeners)
    && (forall id :: id in s.listeners && s.listeners[id].alive ==> id in Roster(s))
    && forall id :: id in s.listeners ==>
                      ListenerOk(s.listeners[id], s.job.Taking? && s.job.id == id, Waiting(s, id), s.dispatches)
  }

  lemma Focus(s: World, id: nat, x: Listener)
    requires Inv(s) && id in s.listeners
    requires ListenerOk(x, s.job.Taking? && s.job.id == id, Waiting(s, id), s.dispatches)
    requires x.alive ==> s.listeners[id].alive
    ensures Inv(s.(listeners := s.listeners[id := x]))
  {
    assert Roster(s.(listeners := s.listeners[id := x])) == Roster(s);
  }

  lemma RegisterStep(s: World, id: nat)
    requires Inv(s) && Enabled(s, Register(id))
    ensures Inv(Apply(s, Register(id)))
  {
    var s' := Apply(s, Register(id));
    assert forall i :: i in Roster(s') <==> i in Roster(s) || i == id;
  }

  lemma OnlyOnce(kept: seq<nat>, id: nat, rest: seq<nat>)
    requires Distinct(kept + ([id] + rest))
    ensures id !in rest && id !in kept
  {
    var r := kept + ([id] + rest);
    assert r[|kept|] == id;
    assert forall j :: 0 <= j < |kept| ==> kept[j] == r[j];
    assert forall j :: 0 <= j < |rest| ==> rest[j] == r[|kept| + 1 + j];
  }

  lemma VisitKeepsInv(s: World)
    requires Inv(s) && Enabled(s, Visit)
    ensures Inv(VisitStep(s))
  {
    assert Roster(s)[|s.job.kept|] == s.job.todo[0];
    if s.listeners[s.job.todo[0]].alive { RaiseKeepsInv(s); } else { PruneKeepsInv(s); }
  }

  lemma RaiseKeepsInv(s: World)
    requires Inv(s) && Enabled(s, Visit) && s.job.todo[0] in s.listeners && s.listeners[s.job.todo[0]].alive
    ensures Inv(VisitStep(s))
  {
    var id, rest, kept := s.job.todo[0], s.job.todo[1..], s.job.kept;
    assert s.job.todo == [id] + rest;
    OnlyOnce(kept, id, rest);
    assert Roster(VisitStep(s)) == Roster(s);
    assert forall i :: i != id ==> (i in s.job.todo <==> i in rest);
  }

  lemma PruneKeepsInv(s: World)
    requires Inv(s) && Enabled(s, Visit) && s.job.todo[0] in s.listeners && !s.listeners[s.job.todo[0]].alive
    ensures Inv(VisitStep(s))
  {
    var r, k := Roster(s), |s.job.kept|;
    Pruned(r, k);
    assert Roster(VisitStep(s)) == r[..k] + r[k + 1..];
    assert r[k] == s.job.todo[0];
    assert forall i :: i != s.job.todo[0] ==> (i in s.job.todo <==> i in s.job.todo[1..]);
  }

  lemma Pruned(r: seq<nat>, k: nat)
    requires Distinct(r) && k < |r|
    ensures Distinct(r[..k] + r[k + 1..])
    ensures forall i :: i in r[..k] + r[k + 1..] <==> i in r && i != r[k]
  {
    var q := r[..k] + r[k + 1..];
    forall i | i in r && i != r[k] ensures i in q {
      var j :| 0 <= j < |r| && r[j] == i;
      assert q[if j < k then j else j - 1] == i;
    }
  }

  lemma TakeKeepsInv(s: World)
    requires Inv(s) && s.job.Taking?
    ensures Inv(TakeStep(s))
  {
    var s' := TakeStep(s);
    assert (s.job.kept + [s.job.id]) + s.job.todo == s.job.kept + ([s.job.id] + s.job.todo);
    assert Roster(s') == Roster(s);
    OnlyOnce(s.job.kept, s.job.id, s.job.todo);
  }

  lemma ListenerSteps(s: World, a: Action)
    requires Inv(s) && Enabled(s, a) && (a.PollCheck? || a.PollStore? || a.PollRecheck? || a.DropSignal?)
    ensures Inv(Apply(s, a))
  {
    Focus(s, a.id, Apply(s, a).listeners[a.id]);
  }

  lemma StepKeepsInv(s: World, a: Action)
    requires Inv(s) && Enabled(s, a)
    ensures Inv(Apply(s, a))
  {
    var s' := Apply(s, a);
    match a
    case Register(id) => RegisterStep(s, id);
    case Begin => assert Roster(s') == Roster(s);
    case Visit => VisitKeepsInv(s);
    case TakeWaker => TakeKeepsInv(s);
    case End => assert Roster(s') == Roster(s);
    case _ => ListenerSteps(s, a);
  }

  ghost predicate IsRun(run: seq<World>, steps: seq<Action>) {
    && |run| == |steps| + 1
    && run[0] == Start
    && forall i :: 0 <= i < |steps| ==> Enabled(run[i], steps[i]) && run[i + 1] == Apply(run[i], steps[i])
  }

  lemma {:induction false} RunKeepsInv(run: seq<World>, steps: seq<Action>, k: nat)
    requires IsRun(run, steps) && k < |run|
    ensures Inv(run[k])
  {
    if k > 0 {
      RunKeepsInv(run, steps, k - 1);
      StepKeepsInv(run[k - 1], steps[k - 1]);
    }
  }

  /** A listener with a pending signal is never left asleep once the dispatcher is past it. */
  lemma NoParkedSignal(run: seq<World>, steps: seq<Action>, k: nat, id: nat)
    requires IsRun(run, steps) && k < |run| && id in run[k].listeners
    requires !(run[k].job.Taking? && run[k].job.id == id)
    ensures WakerCell.NotLost(run[k].listeners[id].cell)
  {
    RunKeepsInv(run, steps, k);
  }

  /** Signals coalesce but are never invented: at most one receive per dispatch since registering. */
  lemma ReceivesNeverOutnumberDispatches(run: seq<World>, steps: seq<Action>, k: nat, id: nat)
    requires IsRun(run, steps) && k < |run| && id in run[k].listeners
    ensures var x := run[k].listeners[id];
            x.received + (if x.cell.flag then 1 else 0) + x.born <= run[k].dispatches
  {
    RunKeepsInv(run, steps, k);
  }

  /**
   Nor are they lost: between dispatches every live listener has been raised exactly once per
   dispatch since it registered, and its flag is up exactly if it has not been received since.
   */
  lemma EveryDispatchReachesEveryListener(run: seq<World>, steps: seq<Action>, k: nat, id: nat)
    requires IsRun(run, steps) && k < |run| && id in run[k].listeners
    requires run[k].job.NoJob? && run[k].listeners[id].alive
    ensures run[k].listeners[id].raised == run[k].dispatches - run[k].listeners[id].born
    ensures run[k].listeners[id].cell.flag <==> run[k].listeners[id].taken < run[k].listeners[id].raised
    ensures id in run[k].listed
  {
    RunKeepsInv(run, steps, k);
  }

  /**
   Either look of a poll receives a signal exactly if one is pending, and lowers the flag; a poll that
   finds none at either look ends asleep.
   */
  lemma LookReceivesIff(run: seq<World>, steps: seq<Action>, k: nat)
    requires IsRun(run, steps) && k < |steps| && (steps[k].PollCheck? || steps[k].PollRecheck?)
    ensures var x, x' := run[k].listeners[steps[k].id], run[k + 1].listeners[steps[k].id];
            && x'.received == x.received + (if x.cell.flag then 1 else 0)
            && !x'.cell.flag && x'.raised == x.raised
            && (x.cell.flag ==> x'.cell.pc == WakerCell.Idle)
            && (!x.cell.flag && steps[k].PollCheck? ==> x'.cell.pc == WakerCell.Checked)
            && (!x.cell.flag && steps[k].PollRecheck? ==> x'.cell.pc == WakerCell.Parked)
  {
    RunKeepsInv(run, steps, k);
  }
}
