/**
 `sync::OnceCell`: a value initialised at most once, by whichever caller claims it first.

 The value is written outside the lock, before the state is published, so writing and publishing are
 separate steps here.  An initialiser may panic or be dropped while it runs, which resets the cell.
 */
module OnceCell {
  import opened Base

  datatype State = Uninit | Initializing | Initialized
  datatype Core<T> = Core(state: State, wakers: seq<nat>, value: Option<T>)

  datatype Claim = Ready | Busy | Yours
  datatype SetResult = Stored | AlreadyInitialized | InitializingElsewhere

  function TryClaim<T>(c: Core<T>): (Core<T>, Claim) {
    match c.state
    case Initialized => (c, Ready)
    case Initializing => (c, Busy)
    case Uninit => (c.(state := Initializing), Yours)
  }

  /** One poll of a caller that found the cell busy; true means "look again". */
  function PollWait<T>(c: Core<T>, w: nat): (Core<T>, bool) {
    if c.state != Initializing then (c, true) else (c.(wakers := c.wakers + [w]), false)
  }

  function Write<T>(c: Core<T>, v: T): Core<T> {
    c.(value := Some(v))
  }

  function Publish<T>(c: Core<T>): Core<T> {
    c.(state := Initialized, wakers := [])
  }

  function Reset<T>(c: Core<T>): Core<T> {
    c.(state := Uninit, wakers := [])
  }

  function Set<T>(c: Core<T>, v: T): (Core<T>, SetResult) {
    match c.state
    case Initialized => (c, AlreadyInitialized)
    case Initializing => (c, InitializingElsewhere)
    case Uninit => (Publish(Write(c, v)), Stored)
  }

  function Get<T>(c: Core<T>): Option<T> {
    if c.state == Initialized then c.value else None
  }

  class Once<T> {
    var state: State
    var wakers: seq<nat>
    var value: Option<T>

    ghost function View(): Core<T>
      reads this
    {
      Core(state, wakers, value)
    }

    constructor ()
      ensures View() == Core(Uninit, [], None)
    {
      state, wakers, value := Uninit, [], None;
    }

    constructor NewWith(v: T)
      ensures View() == Core(Initialized, [], Some(v))
    {
      state, wakers, value := Initialized, [], Some(v);
    }

    method ClaimCell() returns (r: Claim)
      modifies this
      ensures (View(), r) == TryClaim(old(View()))
    {
      if state == Initialized { return Ready; }
      if state == Initializing { return Busy; }
      state := Initializing;
      r := Yours;
    }

    method Wait(w: nat) returns (ready: bool)
      modifies this
      ensures (View(), ready) == PollWait(old(View()), w)
    {
      if state != Initializing { return true; }
      wakers := wakers + [w];
      ready := false;
    }

    /** The end of a successful initialiser: the write, and then the locked publication. */
    method Finish(v: T) returns (woken: seq<nat>)
      modifies this
      ensures View() == Publish(Write(old(View()), v)) && woken == old(wakers)
    {
      value := Some(v);
      state := Initialized;
      woken := wakers;
      wakers := [];
    }

    /** The drop of the reset guard of an initialiser that never finished. */
    method Abandon() returns (woken: seq<nat>)
      modifies this
      ensures View() == Reset(old(View())) && woken == old(wakers)
    {
      state := Uninit;
      woken := wakers;
      wakers := [];
    }

    method SetValue(v: T) returns (r: SetResult, woken: seq<nat>)
      modifies this
      ensures (View(), r) == Set(old(View()), v) && woken == if r == Stored then old(wakers) else []
    {
      if state == Initialized { return AlreadyInitialized, []; }
      if state == Initializing { return InitializingElsewhere, []; }
      value := Some(v);
      state := Initialized;
      woken := wakers;
      wakers := [];
      r := Stored;
    }

    method GetValue() returns (r: Option<T>)
      ensures r == Get(View())
    {
      r := if state == Initialized then value else None;
    }
  }

  // ---------------------------------------------------------------------------------------------
  // All callers together
  // ---------------------------------------------------------------------------------------------

  datatype World<T> = World(
    core: Core<T>,
    armed: set<nat>,      // callers holding an armed reset guard
    written: set<nat>,    // those of them that have already written the value
    published: seq<T>,    // every value that ever became the cell's value
    seen: seq<T>,         // every value a reader or a successful caller ever saw
    asleep: set<nat>      // callers parked and not woken since
  )

  function Start<T>(init: Option<T>): World<T> {
    match init
    case None => World(Core(Uninit, [], None), {}, {}, [], [], {})
    case Some(v) => World(Core(Initialized, [], Some(v)), {}, {}, [v], [], {})
  }

  datatype Action<T> =
    | ClaimBy(c: nat)
    | WaitBy(c: nat)
    | WriteBy(c: nat, v: T)
    | PublishBy(c: nat)
    | AbandonBy(c: nat)
    | SetTo(v: T)
    | Look

  ghost predicate Enabled<T>(s: World<T>, a: Action<T>) {
    match a
    case ClaimBy(c) => c !in s.armed
    case WaitBy(c) => c !in s.armed
    case WriteBy(c, _) => c in s.armed && c !in s.written
    case PublishBy(c) => c in s.written
    case AbandonBy(c) => c in s.armed && c !in s.written
    case SetTo(_) => true
    case Look => true
  }

  /** A read of the value slot, made only after the state said `Initialized`. */
  ghost function Seen<T>(s: World<T>): World<T> {
    if s.core.value.Some? then s.(seen := s.seen + [s.core.value.value]) else s
  }

  ghost function WakeEveryone<T>(s: World<T>, core: Core<T>): World<T> {
    s.(core := core, asleep := s.asleep - Elems(s.core.wakers))
  }

  ghost function ClaimStep<T>(s: World<T>, c: nat): World<T> {
    var (core, r) := TryClaim(s.core);
    match r
    case Ready => Seen(s)
    case Busy => s
    case Yours => s.(core := core, armed := s.armed + {c})
  }

  ghost function SetStep<T>(s: World<T>, v: T): World<T> {
    var (core, r) := Set(s.core, v);
    if r == Stored then WakeEveryone(s, core).(published := s.published + [v]) else s
  }

  /** Publication and the disarming of the guard: nothing of the caller can run in between. */
  ghost function PublishStep<T>(s: World<T>, c: nat): World<T> {
    var s' := WakeEveryone(s, Publish(s.core)).(armed := s.armed - {c}, written := s.written - {c});
    if s.core.value.Some? then Seen(s'.(published := s.published + [s.core.value.value])) else s'
  }

  ghost function Apply<T>(s: World<T>, a: Action<T>): World<T>
    requires Enabled(s, a)
  {
    match a
    case ClaimBy(c) => ClaimStep(s, c)
    case WaitBy(c) =>
      var (core, ready) := PollWait(s.core, c);
      s.(core := core, asleep := if ready then s.asleep - {c} else s.asleep + {c})
    case WriteBy(c, v) => s.(core := Write(s.core, v), written := s.written + {c})
    case PublishBy(c) => PublishStep(s, c)
    case AbandonBy(c) => WakeEveryone(s, Reset(s.core)).(armed := s.armed - {c})
    case SetTo(v) => SetStep(s, v)
    case Look =>
      var r := Get(s.core);
      if r.Some? then s.(seen := s.seen + [r.value]) else s
  }

  ghost predicate Inv<T>(s: World<T>) {
    && |s.armed| == (if s.core.state == Initializing then 1 else 0)
    && s.written <= s.armed
    && (s.written != {} ==> s.core.value.Some?)
    && |s.published| == (if s.core.state == Initialized then 1 else 0)
    && (s.core.state == Initialized ==> s.core.value == Some(s.published[0]))
    && (s.core.state != Initialized ==> s.seen == [])
    && (forall i :: 0 <= i < |s.seen| ==> s.core.value == Some(s.seen[i]))
    && (s.core.wakers != [] ==> s.core.state == Initializing)
    && s.asleep <= Elems(s.core.wakers)
  }

  lemma InitialiserKeepsInv<T>(s: World<T>, a: Action<T>)
    requires Inv(s) && Enabled(s, a) && (a.WriteBy? || a.PublishBy? || a.AbandonBy?)
    ensures Inv(Apply(s, a))
  {
    OnlyOne(s.armed, a.c);
  }

  lemma WaitKeepsInv<T>(s: World<T>, c: nat)
    requires Inv(s) && c !in s.armed
    ensures Inv(Apply(s, WaitBy(c)))
  {
    if s.core.state == Initializing {
      assert forall x :: x in s.core.wakers + [c] <==> x in s.core.wakers || x == c;
    }
  }

  lemma CallerKeepsInv<T>(s: World<T>, a: Action<T>)
    requires Inv(s) && Enabled(s, a) && (a.ClaimBy? || a.SetTo? || a.Look?)
    ensures Inv(Apply(s, a))
  {
  }

  lemma StepKeepsInv<T>(s: World<T>, a: Action<T>)
    requires Inv(s) && Enabled(s, a)
    ensures Inv(Apply(s, a))
  {
    if a.WriteBy? || a.PublishBy? || a.AbandonBy? {
      InitialiserKeepsInv(s, a);
    } else if a.WaitBy? {
      WaitKeepsInv(s, a.c);
    } else {
      CallerKeepsInv(s, a);
    }
  }

  ghost predicate IsRun<T>(run: seq<World<T>>, steps: seq<Action<T>>, init: Option<T>) {
    && |run| == |steps| + 1
    && run[0] == Start(init)
    && forall i :: 0 <= i < |steps| ==> Enabled(run[i], steps[i]) && run[i + 1] == Apply(run[i], steps[i])
  }

  lemma {:induction false} RunKeepsInv<T>(run: seq<World<T>>, steps: seq<Action<T>>, init: Option<T>, k: nat)
    requires IsRun(run, steps, init) && k < |run|
    ensures Inv(run[k])
  {
    if k > 0 {
      RunKeepsInv(run, steps, init, k - 1);
      StepKeepsInv(run[k - 1], steps[k - 1]);
    }
  }

  /** Exactly one armed initialiser exists while the cell is initialising, and none otherwise. */
  lemma OneInitialiser<T>(run: seq<World<T>>, steps: seq<Action<T>>, init: Option<T>, k: nat)
    requires IsRun(run, steps, init) && k < |run|
    ensures run[k].core.state == Initializing <==> |run[k].armed| == 1
    ensures run[k].core.state != Initializing <==> run[k].armed == {}
  {
    RunKeepsInv(run, steps, init, k);
  }

  /**
   Who gets to initialise: a claim is answered `Ready` exactly once something was published, `Busy`
   exactly while somebody initialises, and otherwise it arms the caller and nobody else.
   */
  lemma ClaimIff<T>(run: seq<World<T>>, steps: seq<Action<T>>, init: Option<T>, k: nat)
    requires IsRun(run, steps, init) && k < |steps| && steps[k].ClaimBy?
    ensures var s := run[k]; var r := TryClaim(s.core).1;
            && (r == Ready <==> s.published != [])
            && (r == Busy <==> s.armed != {})
            && (r == Yours <==> s.published == [] && s.armed == {})
            && run[k + 1].armed == (if r == Yours then {steps[k].c} else s.armed)
            && run[k + 1].seen == if r == Ready then s.seen + [s.published[0]] else s.seen
  {
    RunKeepsInv(run, steps, init, k);
    if run[k].core.state != Initializing { assert run[k].armed == {}; }
  }

  /** A waiting caller is put to sleep exactly while somebody initialises, and else told to look again. */
  lemma WaitIff<T>(run: seq<World<T>>, steps: seq<Action<T>>, init: Option<T>, k: nat)
    requires IsRun(run, steps, init) && k < |steps| && steps[k].WaitBy?
    ensures steps[k].c in run[k + 1].asleep <==> run[k].armed != {}
    ensures run[k].armed != {} ==> run[k + 1].core.wakers == run[k].core.wakers + [steps[k].c]
    ensures run[k].armed == {} ==> run[k + 1].core == run[k].core
  {
    RunKeepsInv(run, steps, init, k);
  }

  /** A `set` is stored exactly if nobody initialises and nothing was published; otherwise it says which. */
  lemma SetIff<T>(run: seq<World<T>>, steps: seq<Action<T>>, init: Option<T>, k: nat, v: T)
    requires IsRun(run, steps, init) && k < |run|
    ensures var s := run[k]; var r := Set(s.core, v).1;
            && (r == Stored <==> s.armed == {} && s.published == [])
            && (r == AlreadyInitialized <==> s.published != [])
            && (r == InitializingElsewhere <==> s.armed != {})
  {
    RunKeepsInv(run, steps, init, k);
    if run[k].core.state != Initializing { assert run[k].armed == {}; }
  }

  /** At most one value is ever published, and every reader ever sees just that one. */
  lemma OneValue<T>(run: seq<World<T>>, steps: seq<Action<T>>, init: Option<T>, k: nat)
    requires IsRun(run, steps, init) && k < |run|
    ensures |run[k].published| <= 1
    ensures forall i :: 0 <= i < |run[k].seen| ==> run[k].published == [run[k].seen[i]]
  {
    RunKeepsInv(run, steps, init, k);
  }

  /** The value `v` of initialiser `c` is in the slot, written but unpublished, or published. */
  ghost predicate Holds<T>(s: World<T>, c: nat, v: T) {
    || (c in s.written && s.core.value == Some(v))
    || (s.core.state == Initialized && s.published == [v])
  }

  lemma HoldsOn<T>(s: World<T>, a: Action<T>, c: nat, v: T)
    requires Inv(s) && Enabled(s, a) && Holds(s, c, v)
    ensures Holds(Apply(s, a), c, v)
  {
    if c in s.written {
      OnlyOne(s.armed, c);
    } else {
      assert s.armed == {};
    }
  }

  lemma {:induction false} WrittenStays<T>(run: seq<World<T>>, steps: seq<Action<T>>, init: Option<T>, j: nat, k: nat)
    requires IsRun(run, steps, init) && j < |steps| && steps[j].WriteBy? && j < k < |run|
    ensures Holds(run[k], steps[j].c, steps[j].v)
  {
    if k > j + 1 {
      WrittenStays(run, steps, init, j, k - 1);
      RunKeepsInv(run, steps, init, k - 1);
      HoldsOn(run[k - 1], steps[k - 1], steps[j].c, steps[j].v);
    }
  }

  /** What an initialiser publishes is what it wrote itself, whatever the others tried in between. */
  lemma OwnValueIsPublished<T>(run: seq<World<T>>, steps: seq<Action<T>>, init: Option<T>, j: nat, k: nat)
    requires IsRun(run, steps, init) && j < k < |steps|
    requires steps[j].WriteBy? && steps[k] == PublishBy(steps[j].c)
    ensures run[k + 1].published == [steps[j].v] && Get(run[k + 1].core) == Some(steps[j].v)
  {
    WrittenStays(run, steps, init, j, k);
    WrittenStays(run, steps, init, j, k + 1);
    RunKeepsInv(run, steps, init, k);
    RunKeepsInv(run, steps, init, k + 1);
    OnlyOne(run[k].armed, steps[j].c);
  }

  /** A `set` that reports success has published its own value; one that does not has changed nothing. */
  lemma SetPublishesItsValue<T>(run: seq<World<T>>, steps: seq<Action<T>>, init: Option<T>, k: nat)
    requires IsRun(run, steps, init) && k < |steps| && steps[k].SetTo?
    ensures Set(run[k].core, steps[k].v).1 == Stored ==>
              run[k + 1].published == [steps[k].v] && Get(run[k + 1].core) == Some(steps[k].v)
    ensures Set(run[k].core, steps[k].v).1 != Stored ==> run[k + 1] == run[k]
  {
    RunKeepsInv(run, steps, init, k);
  }

  /** Conversely, a value that can be seen was given to the constructor, to `set`, or written by an initialiser. */
  lemma {:induction false} ValueHasOrigin<T>(run: seq<World<T>>, steps: seq<Action<T>>, init: Option<T>, k: nat)
    requires IsRun(run, steps, init) && k < |run| && run[k].core.value.Some?
    ensures var v := run[k].core.value.value;
            || init == Some(v)
            || exists j :: 0 <= j < k && (steps[j].WriteBy? || steps[j].SetTo?) && steps[j].v == v
  {
    if k > 0 && run[k - 1].core.value == run[k].core.value {
      ValueHasOrigin(run, steps, init, k - 1);
    } else if k > 0 {
      assert (steps[k - 1].WriteBy? || steps[k - 1].SetTo?) && steps[k - 1].v == run[k].core.value.value;
    }
  }

  /** Once initialised the cell keeps its state and its value for the rest of the run. */
  lemma {:induction false} Immutable<T>(run: seq<World<T>>, steps: seq<Action<T>>, init: Option<T>, k: nat, j: nat)
    requires IsRun(run, steps, init) && k <= j < |run| && run[k].core.state == Initialized
    ensures run[j].core.state == Initialized && run[j].core.value == run[k].core.value
            && run[j].published == run[k].published
  {
    if k < j {
      Immutable(run, steps, init, k, j - 1);
      RunKeepsInv(run, steps, init, j - 1);
      Settled(run[j - 1], steps[j - 1]);
    }
  }

  lemma Settled<T>(s: World<T>, a: Action<T>)
    requires Inv(s) && Enabled(s, a) && s.core.state == Initialized
    ensures Apply(s, a).core.state == Initialized && Apply(s, a).core.value == s.core.value
    ensures Apply(s, a).published == s.published
  {
    assert s.armed == {};
  }

  /**
   `get` yields nothing exactly until a value has been published, and from then on always that value:
   an earlier unlocked write is never visible, and no later look can differ.
   */
  lemma GetSeesThePublished<T>(run: seq<World<T>>, steps: seq<Action<T>>, init: Option<T>, k: nat, j: nat)
    requires IsRun(run, steps, init) && k <= j < |run|
    ensures Get(run[k].core) == if run[k].published == [] then None else Some(run[k].published[0])
    ensures Get(run[k].core).Some? ==> Get(run[j].core) == Get(run[k].core)
  {
    RunKeepsInv(run, steps, init, k);
    if run[k].core.state == Initialized {
      Immutable(run, steps, init, k, j);
    }
  }

  /** Nobody sleeps on a cell that is not initialising: both ways out of it wake every sleeper. */
  lemma NobodyStranded<T>(run: seq<World<T>>, steps: seq<Action<T>>, init: Option<T>, k: nat)
    requires IsRun(run, steps, init) && k < |run|
    ensures run[k].asleep != {} || run[k].core.wakers != [] ==> run[k].core.state == Initializing
    ensures forall c :: c in run[k].asleep ==> c in run[k].core.wakers
  {
    RunKeepsInv(run, steps, init, k);
    if c :| c in run[k].asleep {
      assert c in Elems(run[k].core.wakers);
    }
  }

  /** The unlocked write never races a read: nobody can have seen the cell initialised by then. */
  lemma WritesAreUnobserved<T>(run: seq<World<T>>, steps: seq<Action<T>>, init: Option<T>, k: nat)
    requires IsRun(run, steps, init) && k < |steps| && steps[k].WriteBy?
    ensures run[k].core.state == Initializing && run[k].armed == {steps[k].c} && run[k].seen == []
  {
    RunKeepsInv(run, steps, init, k);
    OnlyOne(run[k].armed, steps[k].c);
  }
}
