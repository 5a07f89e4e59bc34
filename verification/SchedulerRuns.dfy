/**
 Every interleaving of the worker threads before shutdown: no `schedule` call is lost or run twice.

 `queues`, `hands` and `modes` are indexed by thread.  A hand holds the entry a thread has taken out
 of a queue and not yet run or put back.  Threads spawned by `block_in_place` are appended.
 */
module SchedulerRuns {
  import opened Scheduler

  datatype Mode =
    | Searching  // between tasks
    | Running
    | Retiring   // running a task that called `block_in_place`
    | Draining   // handing its leftovers to the injector
    | Gone

  datatype World = World(
    workers: nat,
    injector: seq<nat>,
    queues: seq<seq<nat>>,
    hands: seq<seq<nat>>,
    modes: seq<Mode>,
    index: seq<nat>,      // the worker slot each thread serves
    scheduled: nat,       // schedule calls so far; they are numbered from 0
    started: seq<nat>,    // entries whose task was run
    starters: seq<nat>    // by which thread
  )

  function Start(n: nat): World {
    World(n, [], seq(n, _ => []), seq(n, _ => []), seq(n, _ => Searching), seq(n, i => i), 0, [], [])
  }

  datatype Action =
    | ScheduleOutside
    | ScheduleBy(t: nat)
    | PopLocal(t: nat)
    | StealInjector(t: nat, k: nat)
    | StealSibling(t: nat, victim: nat, k: nat)
    | RunTask(t: nat)
    | BlockInPlace(t: nat)
    | FinishTask(t: nat)
    | Requeue(t: nat)
    | Exit(t: nat)

  ghost predicate Shape(s: World) {
    && s.workers <= |s.queues|
    && |s.hands| == |s.queues| && |s.modes| == |s.queues| && |s.index| == |s.queues|
    && |s.starters| == |s.started|
  }

  ghost predicate IsMode(s: World, t: nat, m: Mode) {
    Shape(s) && t < |s.queues| && s.modes[t] == m
  }

  ghost predicate EmptyHanded(s: World, t: nat) {
    Shape(s) && t < |s.queues| && s.hands[t] == []
  }

  /** Program order of each thread: its own queue first, and only a draining thread puts entries back. */
  ghost predicate Enabled(s: World, a: Action) {
    match a
    case ScheduleOutside => Shape(s)
    case ScheduleBy(t) => IsMode(s, t, Running) || IsMode(s, t, Retiring)
    case PopLocal(t) => (IsMode(s, t, Searching) || IsMode(s, t, Draining)) && EmptyHanded(s, t) && s.queues[t] != []
    case StealInjector(t, k) =>
      IsMode(s, t, Searching) && EmptyHanded(s, t) && s.queues[t] == [] && 0 < k <= |s.injector|
    case StealSibling(t, v, k) =>
      && IsMode(s, t, Searching) && EmptyHanded(s, t) && s.queues[t] == []
      && v < s.workers && v != s.index[t] && 0 < k <= |s.queues[v]|
    case RunTask(t) => IsMode(s, t, Searching) && s.hands[t] != []
    case BlockInPlace(t) => IsMode(s, t, Running) || IsMode(s, t, Retiring)
    case FinishTask(t) => IsMode(s, t, Running) || IsMode(s, t, Retiring)
    case Requeue(t) => IsMode(s, t, Draining) && s.hands[t] != []
    case Exit(t) => IsMode(s, t, Draining) && s.hands[t] == [] && s.queues[t] == []
  }

  ghost function Block(s: World, t: nat): World
    requires Shape(s) && t < |s.queues|
  {
    if s.modes[t] == Retiring then s
    else s.(modes := s.modes[t := Retiring] + [Searching], queues := s.queues + [[]], hands := s.hands + [[]],
            index := s.index + [s.index[t]])
  }

  ghost function Apply(s: World, a: Action): World
    requires Enabled(s, a)
  {
    match a
    case ScheduleOutside => s.(injector := s.injector + [s.scheduled], scheduled := s.scheduled + 1)
    case ScheduleBy(t) => s.(queues := s.queues[t := s.queues[t] + [s.scheduled]], scheduled := s.scheduled + 1)
    case PopLocal(t) => s.(hands := s.hands[t := [s.queues[t][0]]], queues := s.queues[t := s.queues[t][1..]])
    case StealInjector(t, k) =>
      s.(hands := s.hands[t := [s.injector[0]]], queues := s.queues[t := s.injector[1..k]], injector := s.injector[k..])
    case StealSibling(t, v, k) =>
      var q := s.queues[v];
      s.(hands := s.hands[t := [q[0]]], queues := s.queues[t := q[1..k]][v := q[k..]])
    case RunTask(t) =>
      s.(modes := s.modes[t := Running], hands := s.hands[t := s.hands[t][1..]],
         started := s.started + [s.hands[t][0]], starters := s.starters + [t])
    case BlockInPlace(t) => Block(s, t)
    case FinishTask(t) => s.(modes := s.modes[t := if s.modes[t] == Retiring then Draining else Searching])
    case Requeue(t) => s.(injector := s.injector + [s.hands[t][0]], hands := s.hands[t := s.hands[t][1..]])
    case Exit(t) => s.(modes := s.modes[t := Gone])
  }

  /** How often the entry occurs in the whole system, run ones included. */
  ghost function Places(s: World, e: nat): nat {
    Copies(s.injector, e) + Total(s.queues, e) + Total(s.hands, e) + Copies(s.started, e)
  }

  ghost predicate Counted(s: World) {
    forall e: nat :: Places(s, e) == if e < s.scheduled then 1 else 0
  }

  ghost predicate Inv(s: World) {
    && Shape(s)
    && Counted(s)
    && ThreadsOk(s)
  }

  ghost predicate ThreadsOk(s: World)
    requires Shape(s)
  {
    && (forall t :: 0 <= t < |s.queues| ==>
          |s.hands[t]| <= 1 && (s.modes[t] == Gone ==> s.queues[t] == [] && s.hands[t] == []))
    && (forall t :: 0 <= t < s.workers ==> s.index[t] == t)
  }

  lemma TotalGrows(queues: seq<seq<nat>>, e: nat)
    ensures Total(queues + [[]], e) == Total(queues, e)
  {
    assert (queues + [[]])[..|queues|] == queues;
  }

  ghost function Added(s: World, a: Action, e: nat): nat {
    if a.ScheduleOutside? || a.ScheduleBy? then One(s.scheduled, e) else 0
  }

  lemma PlacesAfterTaking(s: World, a: Action, e: nat)
    requires Enabled(s, a) && (a.PopLocal? || a.StealInjector? || a.StealSibling?)
    ensures Places(Apply(s, a), e) == Places(s, e)
  {
    match a
    case PopLocal(t) => TotalUpdate(s.hands, t, [s.queues[t][0]], e); FirstOut(s.queues, t, e);
    case StealInjector(t, k) =>
      TotalUpdate(s.hands, t, [s.injector[0]], e);
      InjectorBatch(s.injector, s.queues, t, k, e);
    case StealSibling(t, v, k) => TotalUpdate(s.hands, t, [s.queues[v][0]], e); SiblingBatch(s.queues, t, v, k, e);
  }

  lemma PlacesAfterPutting(s: World, a: Action, e: nat)
    requires Enabled(s, a) && (a.ScheduleOutside? || a.ScheduleBy? || a.RunTask? || a.Requeue?)
    ensures Places(Apply(s, a), e) == Places(s, e) + Added(s, a, e)
  {
    match a
    case ScheduleOutside =>
    case ScheduleBy(t) => TotalUpdate(s.queues, t, s.queues[t] + [s.scheduled], e);
    case RunTask(t) => FirstOut(s.hands, t, e);
    case Requeue(t) => FirstOut(s.hands, t, e);
  }

  lemma PlacesAfter(s: World, a: Action, e: nat)
    requires Enabled(s, a)
    ensures Places(Apply(s, a), e) == Places(s, e) + Added(s, a, e)
  {
    if a.PopLocal? || a.StealInjector? || a.StealSibling? {
      PlacesAfterTaking(s, a, e);
    } else if a.BlockInPlace? {
      TotalGrows(s.queues, e);
      TotalGrows(s.hands, e);
    } else if !(a.FinishTask? || a.Exit?) {
      PlacesAfterPutting(s, a, e);
    }
  }

  lemma ThreadsAfter(s: World, a: Action)
    requires Inv(s) && Enabled(s, a)
    ensures Shape(Apply(s, a)) && ThreadsOk(Apply(s, a))
  {
  }

  lemma StepKeepsInv(s: World, a: Action)
    requires Inv(s) && Enabled(s, a)
    ensures Inv(Apply(s, a))
  {
    ThreadsAfter(s, a);
    var s' := Apply(s, a);
    forall e: nat ensures Places(s', e) == if e < s'.scheduled then 1 else 0 {
      PlacesAfter(s, a, e);
    }
  }

  ghost predicate IsRun(run: seq<World>, steps: seq<Action>, n: nat) {
    && |run| == |steps| + 1
    && run[0] == Start(n)
    && forall i :: 0 <= i < |steps| ==> Enabled(run[i], steps[i]) && run[i + 1] == Apply(run[i], steps[i])
  }

  lemma {:induction false} NothingQueued(queues: seq<seq<nat>>, e: nat)
    requires forall i :: 0 <= i < |queues| ==> queues[i] == []
    ensures Total(queues, e) == 0
  {
    if queues != [] {
      NothingQueued(queues[..|queues| - 1], e);
    }
  }

  lemma {:induction false} RunKeepsInv(run: seq<World>, steps: seq<Action>, n: nat, k: nat)
    requires IsRun(run, steps, n) && k < |run|
    ensures Inv(run[k])
  {
    if k == 0 {
      forall e: nat ensures Places(Start(n), e) == 0 {
        NothingQueued(Start(n).queues, e);
      }
    } else {
      RunKeepsInv(run, steps, n, k - 1);
      StepKeepsInv(run[k - 1], steps[k - 1]);
    }
  }

  /**
   Every schedule call's entry is in exactly one place: the injector, one thread's queue, one
   thread's hands, or among the entries that were run, which it therefore joins at most once.
   */
  lemma NoEntryIsLostOrDoubled(run: seq<World>, steps: seq<Action>, n: nat, k: nat, e: nat)
    requires IsRun(run, steps, n) && k < |run| && e < run[k].scheduled
    ensures var s := run[k];
            Copies(s.injector, e) + Total(s.queues, e) + Total(s.hands, e) + Copies(s.started, e) == 1
  {
    RunKeepsInv(run, steps, n, k);
    assert Places(run[k], e) == 1;
  }

  lemma {:induction false} NoneOfMine(queues: seq<seq<nat>>, t: nat, e: nat)
    requires t < |queues|
    ensures Copies(queues[t], e) <= Total(queues, e)
    ensures Total(queues, e) > 0 ==> exists u :: 0 <= u < |queues| && e in queues[u]
  {
    var n := |queues| - 1;
    if t < n {
      NoneOfMine(queues[..n], t, e);
    }
    if Total(queues, e) > 0 {
      if Copies(queues[n], e) > 0 {
        assert e in queues[n];
      } else {
        NoneOfMine(queues[..n], 0, e);
        var u :| 0 <= u < |queues[..n]| && e in queues[..n][u];
        assert e in queues[u];
      }
    }
  }

  ghost predicate Leaving(s: World, t: nat) {
    t < |s.modes| && (s.modes[t] == Retiring || s.modes[t] == Draining || s.modes[t] == Gone)
  }

  /** What was run between two worlds, and not by `t`. */
  ghost predicate RunByOthers(s: World, s': World, t: nat) {
    && s.started <= s'.started && |s'.starters| == |s'.started|
    && forall i :: |s.started| <= i < |s'.started| ==> s'.starters[i] != t
  }

  lemma OnlySearchersRun(s: World, a: Action, t: nat)
    requires Inv(s) && Enabled(s, a) && Leaving(s, t)
    ensures Leaving(Apply(s, a), t) && s.starters <= Apply(s, a).starters && RunByOthers(s, Apply(s, a), t)
  {
  }

  lemma RunShape(run: seq<World>, steps: seq<Action>, n: nat, k: nat)
    requires IsRun(run, steps, n) && k < |run|
    ensures Shape(run[k])
  {
    RunKeepsInv(run, steps, n, k);
  }

  lemma LeaversStep(run: seq<World>, steps: seq<Action>, n: nat, i: nat, t: nat)
    requires IsRun(run, steps, n) && i < |steps| && Leaving(run[i], t)
    ensures Leaving(run[i + 1], t) && run[i].starters <= run[i + 1].starters && RunByOthers(run[i], run[i + 1], t)
  {
    RunKeepsInv(run, steps, n, i);
    OnlySearchersRun(run[i], steps[i], t);
  }

  /** From its `block_in_place` on, a thread stays on its way out and starts nothing more. */
  lemma {:induction false} LeaversRunNothing(run: seq<World>, steps: seq<Action>, n: nat, k: nat, j: nat, t: nat)
    requires IsRun(run, steps, n) && k <= j < |run| && Leaving(run[k], t)
    ensures Leaving(run[j], t) && RunByOthers(run[k], run[j], t)
  {
    if k == j {
      RunShape(run, steps, n, k);
    } else {
      LeaversRunNothing(run, steps, n, k, j - 1, t);
      LeaversStep(run, steps, n, j - 1, t);
      Compose(run[k], run[j - 1], run[j], t);
    }
  }

  lemma Compose(a: World, b: World, c: World, t: nat)
    requires RunByOthers(a, b, t) && RunByOthers(b, c, t) && b.starters <= c.starters
    ensures RunByOthers(a, c, t)
  {
  }

  /**
   Whatever a thread had queued at any moment from its `block_in_place` on is, once it is gone, in the
   injector, with another thread, or was run by another thread: never lost with it.
   */
  lemma LeftoversSurvive(run: seq<World>, steps: seq<Action>, n: nat, k: nat, j: nat, t: nat, e: nat)
    requires IsRun(run, steps, n) && k <= j < |run|
    requires Leaving(run[k], t) && t < |run[k].queues| && e in run[k].queues[t]
    requires t < |run[j].modes| && run[j].modes[t] == Gone
    ensures || e in run[j].injector
            || (exists u :: 0 <= u < |run[j].queues| && u != t && e in run[j].queues[u])
            || (exists u :: 0 <= u < |run[j].hands| && u != t && e in run[j].hands[u])
            || (exists i ::
                  && |run[k].started| <= i < |run[j].started| && i < |run[j].starters|
                  && run[j].started[i] == e && run[j].starters[i] != t)
  {
    RunKeepsInv(run, steps, n, k);
    RunKeepsInv(run, steps, n, j);
    LeaversRunNothing(run, steps, n, k, j, t);
    NoneOfMine(run[k].queues, t, e);
    assert Copies(run[k].queues[t], e) > 0;
    assert Places(run[k], e) == 1;
    assert Copies(run[k].started, e) == 0;
    ScheduledGrows(run, steps, n, k, j);
    assert Places(run[j], e) == 1;
    if Copies(run[j].injector, e) > 0 {
    } else if Total(run[j].queues, e) > 0 {
      NoneOfMine(run[j].queues, 0, e);
    } else if Total(run[j].hands, e) > 0 {
      NoneOfMine(run[j].hands, 0, e);
    } else {
      assert e in run[j].started && e !in run[k].started;
      var i :| 0 <= i < |run[j].started| && run[j].started[i] == e;
      assert i >= |run[k].started|;
    }
  }

  lemma {:induction false} ScheduledGrows(run: seq<World>, steps: seq<Action>, n: nat, k: nat, j: nat)
    requires IsRun(run, steps, n) && k <= j < |run|
    ensures run[k].scheduled <= run[j].scheduled
  {
    if k < j {
      ScheduledGrows(run, steps, n, k, j - 1);
    }
  }

  /** Worker `i` has a thread that is not on its way out. */
  ghost predicate Staffed(s: World, i: nat) {
    exists t :: 0 <= t < |s.modes| && t < |s.index| && s.index[t] == i && !Leaving(s, t)
  }

  lemma StaysStaffed(s: World, a: Action, i: nat)
    requires Inv(s) && Enabled(s, a) && Staffed(s, i)
    ensures Staffed(Apply(s, a), i)
  {
    var s' := Apply(s, a);
    var t :| 0 <= t < |s.modes| && t < |s.index| && s.index[t] == i && !Leaving(s, t);
    if a == BlockInPlace(t) {
      assert s'.index[|s.index|] == i && !Leaving(s', |s.modes|);
    } else {
      assert s'.index[t] == i && !Leaving(s', t);
    }
  }

  /** Whoever blocks in place is replaced: in every run each worker keeps a thread that can take tasks. */
  lemma {:induction false} EveryWorkerIsStaffed(run: seq<World>, steps: seq<Action>, n: nat, k: nat, i: nat)
    requires IsRun(run, steps, n) && k < |run| && i < n
    ensures Staffed(run[k], i)
  {
    if k == 0 {
      assert run[0].index[i] == i && !Leaving(run[0], i);
    } else {
      EveryWorkerIsStaffed(run, steps, n, k - 1, i);
      RunKeepsInv(run, steps, n, k - 1);
      StaysStaffed(run[k - 1], steps[k - 1], i);
    }
  }

  /** A task scheduled by a worker's own task goes behind that worker's queue, any other behind the injector. */
  lemma ScheduledWhere(run: seq<World>, steps: seq<Action>, n: nat, k: nat, t: nat)
    requires IsRun(run, steps, n) && k < |steps| && t < |run[k].queues|
    requires steps[k] == ScheduleOutside || steps[k] == ScheduleBy(t)
    ensures var s, s' := run[k], run[k + 1];
            && s'.scheduled == s.scheduled + 1
            && (steps[k].ScheduleBy? ==>
                  s'.injector == s.injector && s'.queues == s.queues[t := s.queues[t] + [s.scheduled]])
            && (steps[k].ScheduleOutside? ==> s'.injector == s.injector + [s.scheduled] && s'.queues == s.queues)
  {
    assert run[k + 1] == Apply(run[k], steps[k]);
  }
}
