/**
 The multi-threaded scheduler's queues: a shared injector, one local queue per worker thread, batch
 stealing between them, and the retirement of a thread that called `block_in_place`.

 A queue entry is one `schedule` call.  The lock-free deques are sequences; a steal may move any
 number of entries, which covers whatever batch size the library chooses.
 */
module Scheduler {
  import opened Base

  // ---------------------------------------------------------------------------------------------
  // The queue operations as the worker threads call them
  // ---------------------------------------------------------------------------------------------

  /** `queues[t]` is the local queue of thread `t`; the first `stealers` threads can be stolen from. */
  class Queues {
    var injector: seq<nat>
    var queues: seq<seq<nat>>
    const stealers: nat
    var stealCounts: seq<nat>

    ghost predicate Valid()
      reads this
    {
      stealers <= |queues| && |stealCounts| == stealers
    }

    constructor (n: nat)
      ensures Valid() && stealers == n && injector == [] && queues == seq(n, _ => [])
    {
      injector, queues, stealers, stealCounts := [], seq(n, _ => []), n, seq(n, _ => 0);
    }

    /** How often `e` is queued anywhere. */
    ghost function Queued(e: nat): nat
      reads this
    {
      Copies(injector, e) + Total(queues, e)
    }

    /** `task` was added, and nothing else changed. */
    twostate predicate Gained(task: nat)
      reads this
    {
      forall e :: Queued(e) == old(Queued(e)) + One(task, e)
    }

    /** `task` was taken out, and everything else is still queued somewhere. */
    twostate predicate Lost(task: nat)
      reads this
    {
      forall e :: Queued(e) + One(task, e) == old(Queued(e))
    }

    method Schedule(task: nat, local: Option<nat>)
      requires Valid() && (local.Some? ==> local.value < |queues|)
      modifies this`injector, this`queues
      ensures Valid() && Gained(task)
      ensures local.Some? ==> queues == old(queues)[local.value := old(queues)[local.value] + [task]]
      ensures local.Some? ==> injector == old(injector)
      ensures local.None? ==> injector == old(injector) + [task] && queues == old(queues)
    {
      if local.Some? {
        forall e { TotalUpdate(queues, local.value, queues[local.value] + [task], e); }
        queues := queues[local.value := queues[local.value] + [task]];
      } else {
        injector := injector + [task];
      }
    }

    /** Moves a batch from `victim` into the empty queue of `t` and hands out its first entry. */
    method StealSibling(t: nat, victim: nat) returns (r: Option<nat>)
      requires Valid() && t < |queues| && victim < stealers && queues[t] == []
      modifies this`queues
      ensures Valid()
      ensures r.None? <==> old(queues)[victim] == []
      ensures r.None? ==> queues == old(queues)
      ensures r.Some? ==> r.value == old(queues)[victim][0] && Lost(r.value)
      ensures r.Some? ==> exists k ::
                && 0 < k <= |old(queues)[victim]|
                && queues == old(queues)[t := old(queues)[victim][1..k]][victim := old(queues)[victim][k..]]
    {
      var q := queues[victim];
      if q == [] { return None; }
      var k: nat :| 0 < k <= |q|;
      forall e { SiblingBatch(queues, t, victim, k, e); }
      queues := queues[t := q[1..k]][victim := q[k..]];
      r := Some(q[0]);
    }

    method StealInjector(t: nat) returns (r: Option<nat>)
      requires Valid() && t < |queues| && queues[t] == []
      modifies this`queues, this`injector
      ensures Valid()
      ensures r.None? <==> old(injector) == []
      ensures r.None? ==> queues == old(queues) && injector == old(injector)
      ensures r.Some? ==> r.value == old(injector)[0] && Lost(r.value)
      ensures r.Some? ==> exists k ::
                && 0 < k <= |old(injector)| && injector == old(injector)[k..]
                && queues == old(queues)[t := old(injector)[1..k]]
    {
      if injector == [] { return None; }
      var k: nat :| 0 < k <= |injector|;
      forall e { InjectorBatch(injector, queues, t, k, e); }
      queues := queues[t := injector[1..k]];
      r := Some(injector[0]);
      injector := injector[k..];
    }

    method PopOwn(t: nat) returns (r: Option<nat>)
      requires Valid() && t < |queues|
      modifies this`queues
      ensures Valid() && (r.None? <==> old(queues)[t] == [])
      ensures r.None? ==> queues == old(queues)
      ensures r.Some? ==> r.value == old(queues)[t][0] && Lost(r.value)
      ensures r.Some? ==> queues == old(queues)[t := old(queues)[t][1..]]
    {
      if queues[t] == [] { return None; }
      var q := queues[t];
      forall e { FirstOut(queues, t, e); }
      queues := queues[t := q[1..]];
      r := Some(q[0]);
    }

    /** Tries every other worker once, going round from `idx`, and counts a success. */
    method StealAround(t: nat, idx: nat) returns (r: Option<nat>)
      requires Valid() && t < |queues| && idx < stealers && queues[t] == []
      modifies this`queues, this`stealCounts
      ensures Valid()
      ensures r.None? <==> forall v :: 0 <= v < stealers && v != idx ==> old(queues)[v] == []
      ensures r.None? ==> queues == old(queues) && stealCounts == old(stealCounts)
      ensures r.Some? ==> Lost(r.value) && FromNearest(old(queues), stealers, idx, r.value)
      ensures r.Some? ==> stealCounts == old(stealCounts)[idx := old(stealCounts)[idx] + 1]
    {
      r := None;
      var n := stealers;
      for offset := 1 to n
        invariant Valid() && queues == old(queues) && stealCounts == old(stealCounts) && r.None?
        invariant forall o :: 1 <= o < offset ==> queues[Victim(idx, o, n)] == []
      {
        var victim := Victim(idx, offset, n);
        r := StealSibling(t, victim);
        if r.Some? {
          NotSelf(idx, offset, n);
          assert IsNearest(old(queues), n, idx, offset);
          stealCounts := stealCounts[idx := stealCounts[idx] + 1];
          return;
        }
      }
      AllVisited(queues, n, idx);
    }

    /**
     The search of thread `t`, registered as worker `idx`: its own queue, then the injector, then
     every other worker once.  It comes back empty-handed only if all of those are empty.
     */
    method NextTask(t: nat, idx: nat) returns (r: Option<nat>)
      requires Valid() && t < |queues| && idx < stealers && (t < stealers ==> t == idx)
      modifies this`queues, this`injector, this`stealCounts
      ensures Valid()
      ensures r.Some? ==> Lost(r.value)
      ensures r.None? ==> queues == old(queues) && injector == old(injector)
      ensures r.None? <==>
                && old(queues)[t] == [] && old(injector) == []
                && forall v :: 0 <= v < stealers && v != idx ==> old(queues)[v] == []
      ensures old(queues)[t] != [] ==> r == Some(old(queues)[t][0])
      ensures old(queues)[t] == [] && old(injector) != [] ==> r == Some(old(injector)[0])
      ensures r.Some? && old(queues)[t] == [] && old(injector) == [] ==>
                && FromNearest(old(queues), stealers, idx, r.value)
                && stealCounts == old(stealCounts)[idx := old(stealCounts)[idx] + 1]
      ensures r.None? || old(queues)[t] != [] || old(injector) != [] ==> stealCounts == old(stealCounts)
    {
      r := PopOwn(t);
      if r.Some? { return; }
      r := StealInjector(t);
      if r.Some? { return; }
      r := StealAround(t, idx);
    }

    /** What a retiring thread leaves behind goes to the injector, in order. */
    method DrainRetired(t: nat)
      requires Valid() && t < |queues|
      modifies this`queues, this`injector
      ensures Valid() && queues == old(queues)[t := []] && injector == old(injector) + old(queues)[t]
    {
      while queues[t] != []
        invariant Valid() && t < |queues| && |queues| == |old(queues)|
        invariant queues == old(queues)[t := queues[t]]
        invariant injector + queues[t] == old(injector) + old(queues)[t]
        decreases |queues[t]|
      {
        var task := queues[t][0];
        assert queues[t] == [task] + queues[t][1..];
        queues := queues[t := queues[t][1..]];
        injector := injector + [task];
      }
    }
  }

  function Victim(idx: nat, offset: nat, n: nat): (v: nat)
    requires n > 0
    ensures v < n
  {
    (idx + offset) % n
  }

  /** The victim at this offset is the first with anything queued. */
  ghost predicate IsNearest(queues: seq<seq<nat>>, n: nat, idx: nat, offset: nat)
    requires n <= |queues|
  {
    && 1 <= offset < n
    && queues[Victim(idx, offset, n)] != []
    && forall o :: 1 <= o < offset ==> queues[Victim(idx, o, n)] == []
  }

  /** `task` is the oldest entry of the first worker after `idx`, going round, with anything queued. */
  ghost predicate FromNearest(queues: seq<seq<nat>>, n: nat, idx: nat, task: nat)
    requires n <= |queues|
  {
    exists offset :: IsNearest(queues, n, idx, offset) && queues[Victim(idx, offset, n)][0] == task
  }

  lemma NotSelf(idx: nat, offset: nat, n: nat)
    requires idx < n && 1 <= offset < n
    ensures Victim(idx, offset, n) != idx
  {
    if idx + offset >= n {
      assert (idx + offset) % n == idx + offset - n;
    }
  }

  /** The search visits worker `v` at this offset. */
  lemma Visits(idx: nat, v: nat, n: nat)
    requires idx < n && v < n && v != idx
    ensures var o := if v > idx then v - idx else v + n - idx; 1 <= o < n && Victim(idx, o, n) == v
  {
  }

  lemma AllVisited(queues: seq<seq<nat>>, n: nat, idx: nat)
    requires idx < n <= |queues|
    requires forall o :: 1 <= o < n ==> queues[Victim(idx, o, n)] == []
    ensures forall v :: 0 <= v < n && v != idx ==> queues[v] == []
  {
    forall v | 0 <= v < n && v != idx ensures queues[v] == [] {
      Visits(idx, v, n);
      var o := if v > idx then v - idx else v + n - idx;
      assert queues[Victim(idx, o, n)] == [];
    }
  }

  ghost function One(task: nat, e: nat): nat {
    if task == e then 1 else 0
  }

  ghost function Copies(q: seq<nat>, e: nat): nat {
    multiset(q)[e]
  }

  ghost function Total(queues: seq<seq<nat>>, e: nat): nat {
    if queues == [] then 0 else Total(queues[..|queues| - 1], e) + Copies(queues[|queues| - 1], e)
  }

  lemma {:induction false} TotalUpdate(queues: seq<seq<nat>>, i: nat, q: seq<nat>, e: nat)
    requires i < |queues|
    ensures Total(queues[i := q], e) + Copies(queues[i], e) == Total(queues, e) + Copies(q, e)
  {
    var n := |queues| - 1;
    if i == n {
      assert queues[i := q][..n] == queues[..n];
    } else {
      TotalUpdate(queues[..n], i, q, e);
      assert queues[i := q][..n] == queues[..n][i := q];
    }
  }

  /** A stolen batch: its first entry, the entries moved along, and those left where they were. */
  lemma Batch(q: seq<nat>, k: nat, e: nat)
    requires 0 < k <= |q|
    ensures Copies(q, e) == One(q[0], e) + Copies(q[1..k], e) + Copies(q[k..], e)
  {
    assert q == ([q[0]] + q[1..k]) + q[k..];
  }

  lemma SiblingBatch(queues: seq<seq<nat>>, t: nat, victim: nat, k: nat, e: nat)
    requires t < |queues| && victim < |queues| && queues[t] == [] && 0 < k <= |queues[victim]|
    ensures var q := queues[victim];
            Total(queues[t := q[1..k]][victim := q[k..]], e) + One(q[0], e) == Total(queues, e)
  {
    var q := queues[victim];
    Batch(q, k, e);
    TotalUpdate(queues, t, q[1..k], e);
    TotalUpdate(queues[t := q[1..k]], victim, q[k..], e);
  }

  lemma InjectorBatch(injector: seq<nat>, queues: seq<seq<nat>>, t: nat, k: nat, e: nat)
    requires t < |queues| && queues[t] == [] && 0 < k <= |injector|
    ensures Copies(injector[k..], e) + Total(queues[t := injector[1..k]], e) + One(injector[0], e)
         == Copies(injector, e) + Total(queues, e)
  {
    Batch(injector, k, e);
    TotalUpdate(queues, t, injector[1..k], e);
  }

  lemma FirstOut(queues: seq<seq<nat>>, t: nat, e: nat)
    requires t < |queues| && queues[t] != []
    ensures Total(queues[t := queues[t][1..]], e) + One(queues[t][0], e) == Total(queues, e)
  {
    Batch(queues[t], 1, e);
    TotalUpdate(queues, t, queues[t][1..], e);
  }
}
