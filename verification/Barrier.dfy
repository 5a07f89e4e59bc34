/**
 `sync::Barrier`: a reusable rendezvous of `n` calls.

 The round counter of the source wraps at 2^64, so the model keeps both the wrapped counter and the
 true number of completed rounds and says exactly where the two can differ in effect.
 */
module Barrier {
  const WRAP: nat := 0x1_0000_0000_0000_0000

  datatype Core = Core(n: nat, arrived: nat, generation: nat, wakers: seq<nat>)

  /** One call to `wait` up to its first suspension; the flag says "leader". */
  function Arrive(c: Core): (Core, bool) {
    if c.arrived + 1 == c.n then (c.(arrived := 0, generation := (c.generation + 1) % WRAP, wakers := []), true)
    else (c.(arrived := c.arrived + 1), false)
  }

  /** One poll of a waiting call that arrived in generation `mine`. */
  function Poll(c: Core, mine: nat, w: nat): (Core, bool) {
    if c.generation != mine then (c, true) else (c.(wakers := c.wakers + [w]), false)
  }

  class Rendezvous {
    const n: nat
    var arrived: nat
    var generation: nat
    var wakers: seq<nat>

    ghost function View(): Core
      reads this
    {
      Core(n, arrived, generation, wakers)
    }

    constructor (n: nat)
      requires n > 0
      ensures View() == Core(n, 0, 0, [])
    {
      this.n, arrived, generation, wakers := n, 0, 0, [];
    }

    method WaitArrive() returns (leader: bool, mine: nat, woken: seq<nat>)
      modifies this
      ensures (View(), leader) == Arrive(old(View())) && mine == old(generation)
      ensures woken == if leader then old(wakers) else []
    {
      mine := generation;
      arrived := arrived + 1;
      if arrived == n {
        arrived := 0;
        generation := (generation + 1) % WRAP;
        woken := wakers;
        wakers := [];
        return true, mine, woken;
      }
      return false, mine, [];
    }

    method WaitPoll(mine: nat, w: nat) returns (ready: bool)
      modifies this
      ensures (View(), ready) == Poll(old(View()), mine, w)
    {
      if generation != mine { return true; }
      wakers := wakers + [w];
      ready := false;
    }
  }

  // ---------------------------------------------------------------------------------------------
  // All calls together
  // ---------------------------------------------------------------------------------------------

  datatype Call = Call(round: nat, leader: bool, resolved: bool, asleep: bool)

  /** `rounds` counts completed rounds without wrapping; calls are numbered in order of arrival. */
  datatype World = World(core: Core, rounds: nat, calls: seq<Call>)

  datatype Action = Arrival | Polled(k: nat)

  function Start(n: nat): World {
    World(Core(n, 0, 0, []), 0, [])
  }

  /** A call that was dropped early is simply never polled again: its arrival still counts. */
  ghost predicate Enabled(s: World, a: Action) {
    a.Polled? ==> a.k < |s.calls| && !s.calls[a.k].resolved
  }

  ghost function WakeAll(calls: seq<Call>, wakers: seq<nat>): seq<Call> {
    seq(|calls|, i requires 0 <= i < |calls| => if i in wakers then calls[i].(asleep := false) else calls[i])
  }

  ghost function ArrivalStep(s: World): World {
    var (core, leader) := Arrive(s.core);
    if leader then World(core, s.rounds + 1, WakeAll(s.calls, s.core.wakers) + [Call(s.rounds, true, true, false)])
    else World(core, s.rounds, s.calls + [Call(s.rounds, false, false, false)])
  }

  ghost function PolledStep(s: World, k: nat): World
    requires k < |s.calls|
  {
    var (core, ready) := Poll(s.core, s.calls[k].round % WRAP, k);
    s.(core := core, calls := s.calls[k := s.calls[k].(resolved := ready, asleep := !ready)])
  }

  ghost function Apply(s: World, a: Action): World
    requires Enabled(s, a)
  {
    match a
    case Arrival => ArrivalStep(s)
    case Polled(k) => PolledStep(s, k)
  }

  /** Number of the first arrival of round `r`: `n * r`, kept linear for the proofs. */
  ghost function First(n: nat, r: nat): nat {
    if r == 0 then 0 else First(n, r - 1) + n
  }

  lemma {:induction false} FirstIsProduct(n: nat, r: nat)
    ensures First(n, r) == n * r
  {
    if r > 0 {
      FirstIsProduct(n, r - 1);
      assert n * r == n * (r - 1) + n;
    }
  }

  lemma {:induction false} FirstGrows(n: nat, p: nat, q: nat)
    requires p < q
    ensures First(n, p) + n <= First(n, q)
  {
    if p < q - 1 {
      FirstGrows(n, p, q - 1);
    }
  }

  ghost predicate CallOk(s: World, i: nat)
    requires i < |s.calls|
  {
    var c := s.calls[i];
    && First(s.core.n, c.round) <= i < First(s.core.n, c.round) + s.core.n
    && c.round <= s.rounds
    && c.leader == (i == First(s.core.n, c.round) + s.core.n - 1)
    && (c.leader ==> c.resolved)
    && (c.resolved ==> c.round < s.rounds && !c.asleep)
    && (c.asleep ==> i in s.core.wakers)
  }

  ghost predicate Inv(s: World) {
    && s.core.arrived < s.core.n
    && |s.calls| == First(s.core.n, s.rounds) + s.core.arrived
    && s.core.generation == s.rounds % WRAP
    && (forall i :: 0 <= i < |s.calls| ==> CallOk(s, i))
    && (forall i :: 0 <= i < |s.core.wakers| ==>
          s.core.wakers[i] < |s.calls| && s.calls[s.core.wakers[i]].round % WRAP == s.core.generation)
  }

  lemma WrapStep(r: nat)
    ensures (r % WRAP + 1) % WRAP == (r + 1) % WRAP
  {
  }

  lemma ArrivalKeepsInv(s: World)
    requires Inv(s)
    ensures Inv(ArrivalStep(s))
  {
    var s' := ArrivalStep(s);
    var last := |s.calls|;
    WrapStep(s.rounds);
    forall i | 0 <= i < |s'.calls| ensures CallOk(s', i) {
      if i < last { assert CallOk(s, i); }
    }
  }

  lemma PolledKeepsInv(s: World, k: nat)
    requires Inv(s) && k < |s.calls| && !s.calls[k].resolved
    ensures Inv(PolledStep(s, k))
  {
    var s' := PolledStep(s, k);
    assert CallOk(s, k);
    forall i | 0 <= i < |s'.calls| ensures CallOk(s', i) {
      assert CallOk(s, i);
    }
  }

  ghost predicate IsRun(run: seq<World>, steps: seq<Action>, n: nat) {
    && |run| == |steps| + 1
    && run[0] == Start(n)
    && forall i :: 0 <= i < |steps| ==> Enabled(run[i], steps[i]) && run[i + 1] == Apply(run[i], steps[i])
  }

  lemma {:induction false} RunKeepsInv(run: seq<World>, steps: seq<Action>, n: nat, k: nat)
    requires IsRun(run, steps, n) && n > 0 && k < |run|
    ensures Inv(run[k]) && run[k].core.n == n
  {
    if k > 0 {
      RunKeepsInv(run, steps, n, k - 1);
      match steps[k - 1]
      case Arrival => ArrivalKeepsInv(run[k - 1]);
      case Polled(j) => PolledKeepsInv(run[k - 1], j);
    }
  }

  /** Arrivals are `n` per completed round plus those of the current one. */
  lemma ArrivalsAddUp(run: seq<World>, steps: seq<Action>, n: nat, k: nat)
    requires IsRun(run, steps, n) && n > 0 && k < |run|
    ensures |run[k].calls| == n * run[k].rounds + run[k].core.arrived && run[k].core.arrived < n
  {
    RunKeepsInv(run, steps, n, k);
    FirstIsProduct(n, run[k].rounds);
  }

  /** A call belongs to round `r` exactly if it is one of the `n` consecutive arrivals from `n * r` on. */
  lemma RoundsAreBlocks(run: seq<World>, steps: seq<Action>, n: nat, k: nat, i: nat, r: nat)
    requires IsRun(run, steps, n) && n > 0 && k < |run| && i < |run[k].calls|
    ensures run[k].calls[i].round == r <==> n * r <= i < n * r + n
    ensures run[k].calls[i].round == r && run[k].calls[i].leader <==> i == n * r + n - 1
  {
    RunKeepsInv(run, steps, n, k);
    assert CallOk(run[k], i);
    var p := run[k].calls[i].round;
    FirstIsProduct(n, r);
    if p < r { FirstGrows(n, p, r); }
    if r < p { FirstGrows(n, r, p); }
  }

  /** No call resolves before the `n`-th arrival of its own round. */
  lemma NobodyLeavesEarly(run: seq<World>, steps: seq<Action>, n: nat, k: nat, i: nat)
    requires IsRun(run, steps, n) && n > 0 && k < |run| && i < |run[k].calls| && run[k].calls[i].resolved
    ensures |run[k].calls| >= n * run[k].calls[i].round + n
  {
    RunKeepsInv(run, steps, n, k);
    assert CallOk(run[k], i);
    var r := run[k].calls[i].round;
    FirstIsProduct(n, r);
    FirstGrows(n, r, run[k].rounds);
  }

  /**
   A poll answers "my round is over" correctly if and only if the round is not exactly a multiple of
   2^64 rounds old, which never happens in the first 2^64 rounds.
   */
  lemma PollIsRightIff(run: seq<World>, steps: seq<Action>, n: nat, k: nat, i: nat)
    requires IsRun(run, steps, n) && n > 0 && k < |run| && i < |run[k].calls|
    ensures var r := run[k].calls[i].round;
            (Poll(run[k].core, r % WRAP, i).1 <==> r < run[k].rounds)
            <==> !(r < run[k].rounds && (run[k].rounds - r) % WRAP == 0)
  {
    RunKeepsInv(run, steps, n, k);
    assert CallOk(run[k], i);
    SameResidue(run[k].rounds, run[k].calls[i].round);
  }

  lemma SameResidue(a: nat, b: nat)
    requires b <= a
    ensures a % WRAP == b % WRAP <==> (a - b) % WRAP == 0
  {
  }

  /** The run of `m` arrivals and nothing else. */
  ghost function Arrivals(n: nat, m: nat): (run: seq<World>)
    ensures |run| == m + 1
  {
    if m == 0 then [Start(n)] else Arrivals(n, m - 1) + [ArrivalStep(Arrivals(n, m - 1)[m - 1])]
  }

  lemma {:induction false} ArrivalsAreARun(n: nat, m: nat)
    ensures IsRun(Arrivals(n, m), seq(m, _ => Arrival), n) && |Arrivals(n, m)[m].calls| == m
  {
    if m > 0 {
      ArrivalsAreARun(n, m - 1);
    }
  }

  /** The first call of a barrier for two, `r` rounds later and never polled in between. */
  lemma LateCall(r: nat)
    requires r > 0
    ensures IsRun(Arrivals(2, 2 * r), seq(2 * r, _ => Arrival), 2)
    ensures var s := Arrivals(2, 2 * r)[2 * r];
            s.rounds == r && s.calls != [] && s.calls[0].round == 0 && !s.calls[0].resolved
  {
    var m := 2 * r;
    var run, steps := Arrivals(2, m), seq(m, _ => Arrival);
    ArrivalsAreARun(2, m);
    ArrivalsAddUp(run, steps, 2, m);
    RoundsAreBlocks(run, steps, 2, m, 0, 0);
    OnlyLeadersResolve(run, steps, 2, m, 0);
  }

  /** After 2^64 rounds it is told that its round is not over. */
  lemma WrongAnswer()
    ensures IsRun(Arrivals(2, 2 * WRAP), seq(2 * WRAP, _ => Arrival), 2)
    ensures var s := Arrivals(2, 2 * WRAP)[2 * WRAP];
            s.calls != [] && s.calls[0].round == 0 < s.rounds && !s.calls[0].resolved && !Poll(s.core, 0, 0).1
  {
    LateCall(WRAP);
    PollIsRightIff(Arrivals(2, 2 * WRAP), seq(2 * WRAP, _ => Arrival), 2, 2 * WRAP, 0);
  }

  lemma {:induction false} OnlyLeadersResolve(run: seq<World>, steps: seq<Action>, n: nat, k: nat, i: nat)
    requires IsRun(run, steps, n) && n > 0 && k < |run| && i < |run[k].calls|
    requires forall j :: 0 <= j < |steps| ==> steps[j] == Arrival
    ensures run[k].calls[i].resolved <==> run[k].calls[i].leader
  {
    if k > 0 && i < |run[k - 1].calls| {
      OnlyLeadersResolve(run, steps, n, k - 1, i);
    }
  }

  /** For the first 2^64 rounds every stored waker, and every call asleep, belongs to the current round. */
  lemma SleepersAreInTheCurrentRound(run: seq<World>, steps: seq<Action>, n: nat, k: nat, i: nat)
    requires IsRun(run, steps, n) && n > 0 && k < |run| && i < |run[k].calls| && run[k].rounds < WRAP
    ensures i in run[k].core.wakers ==> run[k].calls[i].round == run[k].rounds
    ensures run[k].calls[i].asleep ==> i in run[k].core.wakers
  {
    RunKeepsInv(run, steps, n, k);
    assert CallOk(run[k], i);
  }
}
