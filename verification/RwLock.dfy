/**
 `sync::RwLock`: many readers or one writer, with a queue of waiting tasks.

 Releasing a guard only clears its own share and wakes a batch; woken tasks poll again and grant
 themselves the lock.  `World` adds the live guards, the pending acquires and the woken tasks that have
 not polled since.  A task may be polled without a wake, and an acquire may be dropped, at any moment.
 */
module RwLock {
  import opened Base

  datatype Mode = Read | Write
  datatype Waiter = Waiter(mode: Mode, task: nat)
  datatype Core = Core(writerLocked: bool, readers: nat, waiters: seq<Waiter>)

  predicate WriterPending(q: seq<Waiter>) {
    exists i :: 0 <= i < |q| && q[i].mode == Write
  }

  function LeadingReads(q: seq<Waiter>): nat {
    if q != [] && q[0].mode == Read then 1 + LeadingReads(q[1..]) else 0
  }

  /** How many tasks a release wakes from the front of the queue. */
  function Batch(q: seq<Waiter>, readers: nat): (n: nat)
    ensures n <= |q|
  {
    LeadingReadsIsMaximal(q);
    var k := LeadingReads(q);
    if k > 0 then k else if readers == 0 && q != [] then 1 else 0
  }

  /** The leading block of readers is all readers, and cannot be extended. */
  lemma {:induction false} LeadingReadsIsMaximal(q: seq<Waiter>)
    ensures LeadingReads(q) <= |q|
    ensures forall i :: 0 <= i < LeadingReads(q) ==> q[i].mode == Read
    ensures LeadingReads(q) < |q| ==> q[LeadingReads(q)].mode == Write
  {
    if q != [] && q[0].mode == Read {
      LeadingReadsIsMaximal(q[1..]);
    }
  }

  /**
   A wake batch is the maximal leading block of readers, or, only if there is none and no reader is
   active, exactly one writer; the rest of the queue keeps its order.
   */
  lemma BatchShape(q: seq<Waiter>, readers: nat)
    ensures var n := Batch(q, readers);
            || (n > 0 && (forall i :: 0 <= i < n ==> q[i].mode == Read) && (n < |q| ==> q[n].mode == Write))
            || (n == 1 && readers == 0 && q[0].mode == Write)
            || (n == 0 && (q == [] || (readers > 0 && q[0].mode == Write)))
  {
    LeadingReadsIsMaximal(q);
  }

  function Names(q: seq<Waiter>): seq<nat> {
    seq(|q|, i requires 0 <= i < |q| => q[i].task)
  }

  /** The tasks such a batch wakes, in queue order. */
  function Woken(q: seq<Waiter>, readers: nat): seq<nat> {
    Names(q[..Batch(q, readers)])
  }

  function WakeEligible(c: Core): Core {
    c.(waiters := c.waiters[Batch(c.waiters, c.readers)..])
  }

  function CanRead(c: Core): bool {
    !c.writerLocked && !WriterPending(c.waiters)
  }

  function CanWrite(c: Core): bool {
    !c.writerLocked && c.readers == 0
  }

  function Acquire(c: Core, m: Mode): (Core, bool) {
    match m
    case Read => if CanRead(c) then (c.(readers := c.readers + 1), true) else (c, false)
    case Write => if CanWrite(c) then (c.(writerLocked := true), true) else (c, false)
  }

  function Queue(c: Core, m: Mode, task: nat): Core {
    c.(waiters := c.waiters + [Waiter(m, task)])
  }

  function ReleaseRead(c: Core): Core
    requires c.readers > 0
  {
    var c' := c.(readers := c.readers - 1);
    if c'.readers == 0 then WakeEligible(c') else c'
  }

  function ReleaseWrite(c: Core): Core {
    WakeEligible(c.(writerLocked := false))
  }

  function Downgrade(c: Core): Core {
    WakeEligible(c.(writerLocked := false, readers := 1))
  }

  class Lock {
    var writerLocked: bool
    var readers: nat
    var waiters: seq<Waiter>

    ghost function View(): Core
      reads this
    {
      Core(writerLocked, readers, waiters)
    }

    constructor ()
      ensures View() == Core(false, 0, [])
    {
      writerLocked, readers, waiters := false, 0, [];
    }

    method AnyWriterPending() returns (b: bool)
      ensures b == WriterPending(waiters)
    {
      for i := 0 to |waiters|
        invariant forall j :: 0 <= j < i ==> waiters[j].mode != Write
      {
        if waiters[i].mode == Write { return true; }
      }
      b := false;
    }

    method WakeBatch() returns (woken: seq<nat>)
      modifies this`waiters
      ensures View() == WakeEligible(old(View()))
      ensures woken == Woken(old(waiters), readers)
    {
      woken := [];
      LeadingReadsIsMaximal(waiters);
      ghost var k := LeadingReads(waiters);
      while waiters != [] && waiters[0].mode == Read
        invariant |woken| <= |old(waiters)| && waiters == old(waiters)[|woken|..]
        invariant |woken| + LeadingReads(waiters) == k
        invariant forall i :: 0 <= i < |woken| ==> woken[i] == old(waiters)[i].task
      {
        woken := woken + [waiters[0].task];
        waiters := waiters[1..];
      }
      if woken == [] && readers == 0 {
        if waiters != [] {
          woken := [waiters[0].task];
          waiters := waiters[1..];
        }
      }
    }

    method PollAcquire(m: Mode, task: nat) returns (ready: bool)
      modifies this
      ensures ready == Acquire(old(View()), m).1
      ensures View() == if ready then Acquire(old(View()), m).0 else Queue(old(View()), m, task)
    {
      ready := TryAcquire(m);
      if !ready { waiters := waiters + [Waiter(m, task)]; }
    }

    method TryAcquire(m: Mode) returns (ok: bool)
      modifies this
      ensures (View(), ok) == Acquire(old(View()), m)
    {
      if m == Read {
        var pending := AnyWriterPending();
        if !writerLocked && !pending {
          readers := readers + 1;
          return true;
        }
      } else if !writerLocked && readers == 0 {
        writerLocked := true;
        return true;
      }
      ok := false;
    }

    method DropRead() returns (woken: seq<nat>)
      requires readers > 0
      modifies this
      ensures View() == ReleaseRead(old(View()))
      ensures woken == if readers == 0 then Woken(old(waiters), 0) else []
    {
      readers := readers - 1;
      woken := [];
      if readers == 0 { woken := WakeBatch(); }
    }

    method DropWrite() returns (woken: seq<nat>)
      modifies this
      ensures View() == ReleaseWrite(old(View())) && woken == Woken(old(waiters), readers)
    {
      writerLocked := false;
      woken := WakeBatch();
    }

    method DowngradeGuard() returns (woken: seq<nat>)
      modifies this
      ensures View() == Downgrade(old(View())) && woken == Woken(old(waiters), 1)
    {
      writerLocked := false;
      readers := 1;
      woken := WakeBatch();
    }
  }

  // ---------------------------------------------------------------------------------------------
  // The lock with its guards and tasks
  // ---------------------------------------------------------------------------------------------

  datatype World = World(
    core: Core,
    readGuards: set<nat>,
    writeGuards: set<nat>,
    mapped: set<nat>,      // write guards narrowed by `map`: they can be dropped but not downgraded
    woken: set<nat>,       // tasks woken and not polled since
    waiting: set<nat>,     // tasks whose acquire returned Pending and was neither granted nor dropped since
    joined: seq<Waiter>,   // everything ever queued, in order
    left: seq<Waiter>      // everything ever woken, in order
  )

  const Start := World(Core(false, 0, []), {}, {}, {}, {}, {}, [], [])

  datatype Action =
    | PollLock(m: Mode, task: nat, g: nat)
    | Abandon(task: nat)  // drops a pending acquire; its queue entries and wakes stay behind
    | TryLock(m: Mode, g: nat)
    | DropReadGuard(g: nat)
    | DropWriteGuard(g: nat)
    | DowngradeTo(g: nat, g': nat)
    | MapTo(g: nat, g': nat)

  ghost predicate Unused(s: World, g: nat) {
    g !in s.readGuards && g !in s.writeGuards
  }

  ghost predicate Enabled(s: World, a: Action) {
    match a
    case PollLock(_, _, g) => Unused(s, g)
    case Abandon(task) => task in s.waiting
    case TryLock(_, g) => Unused(s, g)
    case DropReadGuard(g) => g in s.readGuards
    case DropWriteGuard(g) => g in s.writeGuards
    case DowngradeTo(g, g') => g in s.writeGuards && g !in s.mapped && Unused(s, g')
    case MapTo(g, g') => g in s.writeGuards && g !in s.mapped && Unused(s, g')
  }

  ghost function Granted(s: World, core: Core, m: Mode, g: nat): World {
    match m
    case Read => s.(core := core, readGuards := s.readGuards + {g})
    case Write => s.(core := core, writeGuards := s.writeGuards + {g})
  }

  ghost function Tasks(q: seq<Waiter>): set<nat> {
    set i | 0 <= i < |q| :: q[i].task
  }

  /** Install `core`, whose queue lost its first `n` entries to a wake batch. */
  ghost function Released(s: World, core: Core, n: nat): World
    requires n <= |s.core.waiters|
  {
    var front := s.core.waiters[..n];
    s.(core := core, woken := s.woken + Tasks(front), left := s.left + front)
  }

  ghost function PollStep(s: World, m: Mode, task: nat, g: nat): World {
    var (core, ok) := Acquire(s.core, m);
    var s' := s.(woken := s.woken - {task});
    if ok then Granted(s'.(waiting := s.waiting - {task}), core, m, g)
    else s'.(core := Queue(s.core, m, task), waiting := s.waiting + {task}, joined := s.joined + [Waiter(m, task)])
  }

  ghost function DropReadStep(s: World, g: nat): World {
    var s' := s.(readGuards := s.readGuards - {g});
    if s.core.readers == 0 then s'
    else Released(s', ReleaseRead(s.core), if s.core.readers == 1 then Batch(s.core.waiters, 0) else 0)
  }

  ghost function DropWriteStep(s: World, g: nat): World {
    Released(s.(writeGuards := s.writeGuards - {g}, mapped := s.mapped - {g}),
             ReleaseWrite(s.core), Batch(s.core.waiters, s.core.readers))
  }

  ghost function Apply(s: World, a: Action): World
    requires Enabled(s, a)
  {
    match a
    case PollLock(m, task, g) => PollStep(s, m, task, g)
    case Abandon(task) => s.(waiting := s.waiting - {task})
    case TryLock(m, g) =>
      var (core, ok) := Acquire(s.core, m);
      if ok then Granted(s, core, m, g) else s
    case DropReadGuard(g) => DropReadStep(s, g)
    case DropWriteGuard(g) => DropWriteStep(s, g)
    case DowngradeTo(g, g') =>
      Released(s.(writeGuards := s.writeGuards - {g}, readGuards := s.readGuards + {g'}),
               Downgrade(s.core), Batch(s.core.waiters, 1))
    case MapTo(g, g') => s.(writeGuards := s.writeGuards - {g} + {g'}, mapped := s.mapped + {g'})
  }

  ghost predicate Inv(s: World) {
    && s.core.readers == |s.readGuards|
    && |s.writeGuards| == (if s.core.writerLocked then 1 else 0)
    && !(s.core.writerLocked && s.core.readers > 0)
    && s.joined == s.left + s.core.waiters
    && s.waiting <= s.woken + Tasks(s.core.waiters)
  }

  lemma TasksSplit(q: seq<Waiter>, n: nat)
    requires n <= |q|
    ensures Tasks(q) == Tasks(q[..n]) + Tasks(q[n..])
  {
    forall t | t in Tasks(q) ensures t in Tasks(q[..n]) + Tasks(q[n..]) {
      var i :| 0 <= i < |q| && q[i].task == t;
      if i < n { assert q[..n][i].task == t; } else { assert q[n..][i - n].task == t; }
    }
    assert forall i :: 0 <= i < n ==> q[..n][i] == q[i];
    assert forall i :: 0 <= i < |q| - n ==> q[n..][i] == q[n + i];
  }

  lemma TasksAppend(q: seq<Waiter>, w: Waiter)
    ensures Tasks(q + [w]) == Tasks(q) + {w.task}
  {
    TasksSplit(q + [w], |q|);
    assert (q + [w])[..|q|] == q && (q + [w])[|q|..] == [w];
    assert Tasks([w]) == {w.task} by { assert [w][0].task == w.task; }
  }

  lemma PollKeepsInv(s: World, m: Mode, task: nat, g: nat)
    requires Inv(s) && Unused(s, g)
    ensures Inv(PollStep(s, m, task, g))
  {
    if !Acquire(s.core, m).1 {
      TasksAppend(s.core.waiters, Waiter(m, task));
    }
  }

  lemma TryKeepsInv(s: World, a: Action)
    requires Inv(s) && Enabled(s, a) && (a.Abandon? || a.TryLock?)
    ensures Inv(Apply(s, a))
  {
  }

  /** However many entries a batch takes off the queue, their tasks are now awake. */
  lemma BatchKeepsTrack(s: World, n: nat)
    requires Inv(s) && n <= |s.core.waiters|
    ensures var q := s.core.waiters;
            && s.joined == (s.left + q[..n]) + q[n..]
            && s.waiting <= s.woken + Tasks(q[..n]) + Tasks(q[n..])
  {
    var q := s.core.waiters;
    assert q == q[..n] + q[n..];
    TasksSplit(q, n);
  }

  lemma ReleaseKeepsInv(s: World, a: Action)
    requires Inv(s) && Enabled(s, a) && !(a.PollLock? || a.Abandon? || a.TryLock?)
    ensures Inv(Apply(s, a))
  {
    if !a.DropReadGuard? {
      OnlyOne(s.writeGuards, a.g);
    }
    BatchKeepsTrack(s, Batch(s.core.waiters, 0));
    BatchKeepsTrack(s, Batch(s.core.waiters, 1));
  }

  lemma StepKeepsInv(s: World, a: Action)
    requires Inv(s) && Enabled(s, a)
    ensures Inv(Apply(s, a))
  {
    if a.PollLock? {
      PollKeepsInv(s, a.m, a.task, a.g);
    } else if a.Abandon? || a.TryLock? {
      TryKeepsInv(s, a);
    } else {
      ReleaseKeepsInv(s, a);
    }
  }

  ghost predicate IsRun(run: seq<World>, steps: seq<Action>) {
    && |run| == |steps| + 1
    && run[0] == Start
    && forall i :: 0 <= i < |steps| ==> Enabled(run[i], steps[i]) && run[i + 1] == Apply(run[i], steps[i])
  }

  lemma {:induction false} RunKeepsInv(run: seq<World>, steps: seq<Action>, k: nat)
    requires IsRun(run, steps) && k < |run|
    ensures Inv(run[k])
  {
    if k > 0 {
      RunKeepsInv(run, steps, k - 1);
      StepKeepsInv(run[k - 1], steps[k - 1]);
    }
  }

  /** Exclusion in every run: at most one write guard, and none beside a read guard. */
  lemma Exclusion(run: seq<World>, steps: seq<Action>, k: nat)
    requires IsRun(run, steps) && k < |run|
    ensures |run[k].writeGuards| <= 1
    ensures run[k].writeGuards == {} || run[k].readGuards == {}
    ensures run[k].core.readers == |run[k].readGuards|
    ensures run[k].core.writerLocked <==> run[k].writeGuards != {}
  {
    RunKeepsInv(run, steps, k);
  }

  /** Whether a step gets the lock, by what the guards and the queue say. */
  ghost predicate Entitled(s: World, m: Mode) {
    && s.writeGuards == {}
    && (m == Read ==> forall i :: 0 <= i < |s.core.waiters| ==> s.core.waiters[i].mode != Write)
    && (m == Write ==> s.readGuards == {})
  }

  /**
   Readers share: in every run, a read lock is granted if and only if there is no write guard and no
   queued writer, however many read guards there are, and a write lock if and only if there is no guard
   at all.  A poll that is refused is queued last, and a refused try changes nothing.
   */
  lemma GrantedIff(run: seq<World>, steps: seq<Action>, k: nat)
    requires IsRun(run, steps) && k < |steps| && (steps[k].PollLock? || steps[k].TryLock?)
    ensures var s, s', a := run[k], run[k + 1], steps[k];
            && (Entitled(s, a.m) && a.m == Read ==> s'.readGuards == s.readGuards + {a.g} && s'.writeGuards == {})
            && (Entitled(s, a.m) && a.m == Write ==> s'.writeGuards == {a.g} && s'.readGuards == {})
            && (Entitled(s, a.m) ==> s'.core.waiters == s.core.waiters)
            && (!Entitled(s, a.m) ==> s'.readGuards == s.readGuards && s'.writeGuards == s.writeGuards)
            && (!Entitled(s, a.m) && a.TryLock? ==> s' == s)
            && (!Entitled(s, a.m) && a.PollLock? ==> s'.core.waiters == s.core.waiters + [Waiter(a.m, a.task)])
  {
    RunKeepsInv(run, steps, k);
  }

  /** The step gives up the last guard, or turns it into a read guard. */
  ghost predicate Frees(s: World, a: Action) {
    a.DropWriteGuard? || a.DowngradeTo? || (a.DropReadGuard? && |s.readGuards| == 1)
  }

  /**
   What such a step wakes: from the front of the queue every reader up to the first writer, or, if a
   writer is first and the lock is now free, that one writer.  All other steps wake nobody.
   */
  lemma ReleasesWake(run: seq<World>, steps: seq<Action>, k: nat)
    requires IsRun(run, steps) && k < |steps|
    ensures Frees(run[k], steps[k]) ==>
              exists n ::
                && 0 <= n <= |run[k].core.waiters|
                && run[k + 1].left == run[k].left + run[k].core.waiters[..n]
                && run[k + 1].woken == run[k].woken + Tasks(run[k].core.waiters[..n])
                && Eligible(run[k].core.waiters, n, steps[k].DowngradeTo?)
    ensures !Frees(run[k], steps[k]) ==> run[k + 1].left == run[k].left && run[k + 1].woken <= run[k].woken
  {
    RunKeepsInv(run, steps, k);
    var s, a := run[k], steps[k];
    var q := s.core.waiters;
    if Frees(s, a) {
      var n := Batch(q, if a.DowngradeTo? then 1 else 0);
      BatchIsEligible(q, a.DowngradeTo?);
      assert run[k + 1].left == s.left + q[..n] && run[k + 1].woken == s.woken + Tasks(q[..n]);
    } else if a.DropReadGuard? {
      assert q[..0] == [] && Tasks([]) == {};
    }
  }

  /** The first `n` of the queue are the ones to wake. */
  ghost predicate Eligible(q: seq<Waiter>, n: nat, readersLeft: bool)
    requires n <= |q|
  {
    if q != [] && q[0].mode == Write then n == if readersLeft then 0 else 1
    else (forall i :: 0 <= i < n ==> q[i].mode == Read) && (n < |q| ==> q[n].mode == Write)
  }

  lemma BatchIsEligible(q: seq<Waiter>, readersLeft: bool)
    ensures Eligible(q, Batch(q, if readersLeft then 1 else 0), readersLeft)
  {
    LeadingReadsIsMaximal(q);
  }

  /** The wakers a release hands out are, in order, the tasks of the entries it takes off the queue. */
  lemma WokenAreTheRemoved(c: Core, i: nat)
    ensures var n := |c.waiters| - |WakeEligible(c).waiters|;
            && n == |Woken(c.waiters, c.readers)|
            && WakeEligible(c).waiters == c.waiters[n..]
            && (i < n ==> Woken(c.waiters, c.readers)[i] == c.waiters[i].task)
            && Eligible(c.waiters, n, c.readers > 0)
  {
    BatchIsEligible(c.waiters, c.readers > 0);
    BatchShape(c.waiters, c.readers);
  }

  /**
   Writers are preferred: while one is queued no step adds a read guard, whether by polling or by
   trying, except that a write guard may turn itself into one.
   */
  lemma QueuedWriterHoldsReadersBack(run: seq<World>, steps: seq<Action>, k: nat)
    requires IsRun(run, steps) && k < |steps| && WriterPending(run[k].core.waiters)
    ensures run[k + 1].readGuards <= run[k].readGuards || (steps[k].DowngradeTo? && run[k].readGuards == {})
  {
    RunKeepsInv(run, steps, k);
  }

  /** Tasks are woken in exactly the order in which they queued. */
  lemma WokenInOrder(run: seq<World>, steps: seq<Action>, k: nat)
    requires IsRun(run, steps) && k < |run|
    ensures run[k].joined == run[k].left + run[k].core.waiters
  {
    RunKeepsInv(run, steps, k);
  }

  // ---------------------------------------------------------------------------------------------
  // Where the lock can strand its waiters
  // ---------------------------------------------------------------------------------------------

  predicate IsFree(c: Core) {
    !c.writerLocked && c.readers == 0
  }

  /** Tasks that were woken and still want the lock: waking a finished or dropped acquire helps nobody. */
  ghost function Awake(s: World): set<nat> {
    s.woken * s.waiting
  }

  /** The lock is free, somebody waits for it, and nobody who does is awake to take it. */
  ghost predicate Stranded(s: World) {
    IsFree(s.core) && s.waiting != {} && Awake(s) == {}
  }

  /** Nobody is awake, and the batch a release would wake consists of finished or dropped acquires only. */
  ghost predicate StaleBatch(s: World) {
    && s.waiting != {} && Awake(s) == {}
    && Tasks(s.core.waiters[..Batch(s.core.waiters, 0)]) !! s.waiting
  }

  /** A reader, the only task awake if any is, queues up at a free lock behind a writer. */
  ghost predicate RequeuesLast(s: World, a: Action) {
    && a.PollLock? && a.m == Read
    && IsFree(s.core) && WriterPending(s.core.waiters)
    && Awake(s) <= {a.task}
  }

  /** The steps that strand, each by what can be seen before it. */
  ghost predicate Strands(s: World, a: Action) {
    match a
    case PollLock(_, _, _) => RequeuesLast(s, a)
    case Abandon(task) => IsFree(s.core) && Awake(s) <= {task} && s.waiting != {task}
    case DropReadGuard(_) => s.core.readers == 1 && StaleBatch(s)
    case DropWriteGuard(_) => StaleBatch(s)
    case _ => false
  }

  lemma WakesSomebody(q: seq<Waiter>)
    ensures q != [] ==> Batch(q, 0) > 0 && q[0].task in Tasks(q[..Batch(q, 0)])
  {
    BatchShape(q, 0);
    if q != [] {
      assert q[..Batch(q, 0)][0] == q[0];
    }
  }

  lemma PollStrandsIff(s: World, m: Mode, task: nat, g: nat)
    requires Unused(s, g)
    ensures Stranded(PollStep(s, m, task, g)) <==> RequeuesLast(s, PollLock(m, task, g))
  {
    var s' := PollStep(s, m, task, g);
    if !Acquire(s.core, m).1 {
      assert task in s'.waiting;
      assert Awake(s') == Awake(s) - {task};
    }
  }

  lemma AbandonStrandsIff(s: World, task: nat)
    requires task in s.waiting
    ensures Stranded(Apply(s, Abandon(task))) <==> Strands(s, Abandon(task))
  {
    assert s.waiting - {task} == {} <==> s.waiting == {task};
    assert s.woken * (s.waiting - {task}) == Awake(s) - {task};
  }

  lemma ReleaseStrandsIff(s: World, a: Action)
    requires Inv(s) && Enabled(s, a) && !Stranded(s) && (a.DropReadGuard? || a.DropWriteGuard?)
    ensures Stranded(Apply(s, a)) <==> Strands(s, a)
  {
    var front := Tasks(s.core.waiters[..Batch(s.core.waiters, 0)]);
    assert (s.woken + front) * s.waiting == Awake(s) + front * s.waiting;
  }

  /** A step strands somebody if and only if it is one of those. */
  lemma StrandedExactlyAfter(s: World, a: Action)
    requires Inv(s) && Enabled(s, a) && !Stranded(s)
    ensures Stranded(Apply(s, a)) <==> Strands(s, a)
  {
    if a.PollLock? {
      PollStrandsIff(s, a.m, a.task, a.g);
    } else if a.Abandon? {
      AbandonStrandsIff(s, a.task);
    } else if a.DropReadGuard? || a.DropWriteGuard? {
      ReleaseStrandsIff(s, a);
    }
  }

  lemma {:induction false} CarefulRunsStrandNobody(run: seq<World>, steps: seq<Action>, k: nat)
    requires IsRun(run, steps) && k < |run|
    requires forall j :: 0 <= j < k ==> !Strands(run[j], steps[j])
    ensures !Stranded(run[k])
  {
    if k > 0 {
      CarefulRunsStrandNobody(run, steps, k - 1);
      RunKeepsInv(run, steps, k - 1);
      StrandedExactlyAfter(run[k - 1], steps[k - 1]);
    }
  }

  /**
   A run strands nobody if and only if it never takes such a step.  Each condition is one on the state
   before the step.
   */
  lemma NeverStrandedIff(run: seq<World>, steps: seq<Action>)
    requires IsRun(run, steps)
    ensures (forall j :: 0 <= j < |run| ==> !Stranded(run[j]))
       <==> (forall j :: 0 <= j < |steps| ==> !Strands(run[j], steps[j]))
  {
    if j :| 0 <= j < |steps| && Strands(run[j], steps[j]) {
      RunKeepsInv(run, steps, j);
      if !Stranded(run[j]) {
        StrandedExactlyAfter(run[j], steps[j]);
        assert Stranded(run[j + 1]);
      }
    } else {
      forall j | 0 <= j < |run| ensures !Stranded(run[j]) {
        CarefulRunsStrandNobody(run, steps, j);
      }
    }
  }

  /** Whoever is stranded is in the queue: no acquire is ever forgotten altogether. */
  lemma StrandedAreQueued(run: seq<World>, steps: seq<Action>, k: nat, task: nat)
    requires IsRun(run, steps) && k < |run| && Stranded(run[k]) && task in run[k].waiting
    ensures exists i :: 0 <= i < |run[k].core.waiters| && run[k].core.waiters[i].task == task
  {
    RunKeepsInv(run, steps, k);
    assert task !in Awake(run[k]);
  }

  // ---------------------------------------------------------------------------------------------
  // Waits that are kept, and polled again only when woken
  // ---------------------------------------------------------------------------------------------

  ghost predicate Patient(s: World, a: Action) {
    match a
    case PollLock(_, task, _) => task !in s.waiting || task in s.woken
    case Abandon(_) => false
    case _ => true
  }

  /** Every queue entry belongs to a wait of its own that has not been woken. */
  ghost predicate Neat(s: World) {
    var q := s.core.waiters;
    && (forall i :: 0 <= i < |q| ==> q[i].task in s.waiting && q[i].task !in s.woken)
    && (forall i, j :: 0 <= i < j < |q| ==> q[i].task != q[j].task)
  }

  lemma PollStaysNeat(s: World, m: Mode, task: nat, g: nat)
    requires Neat(s) && (task !in s.waiting || task in s.woken)
    ensures Neat(PollStep(s, m, task, g))
  {
  }

  /** A batch leaves the queue without leaving a second entry of its tasks behind. */
  lemma ReleaseStaysNeat(s: World, s': World, n: nat)
    requires Neat(s) && n <= |s.core.waiters| && s'.core.waiters == s.core.waiters[n..]
    requires s'.waiting == s.waiting && s'.woken == s.woken + Tasks(s.core.waiters[..n])
    ensures Neat(s')
  {
    var q := s.core.waiters;
    forall i | n <= i < |q| ensures q[i].task !in Tasks(q[..n]) {
      assert forall j :: 0 <= j < n ==> q[..n][j] == q[j];
    }
    assert forall i :: 0 <= i < |q| - n ==> q[n..][i] == q[n + i];
  }

  lemma PatientStep(s: World, a: Action)
    requires Neat(s) && Enabled(s, a) && Patient(s, a)
    ensures Neat(Apply(s, a))
  {
    var s', q := Apply(s, a), s.core.waiters;
    match a
    case PollLock(m, task, g) => PollStaysNeat(s, m, task, g);
    case DropReadGuard(_) =>
      if s.core.readers > 0 {
        ReleaseStaysNeat(s, s', if s.core.readers == 1 then Batch(q, 0) else 0);
      }
    case DropWriteGuard(_) => ReleaseStaysNeat(s, s', Batch(q, s.core.readers));
    case DowngradeTo(_, _) => ReleaseStaysNeat(s, s', Batch(q, 1));
    case _ =>
  }

  lemma {:induction false} PatientRunIsNeat(run: seq<World>, steps: seq<Action>, k: nat)
    requires IsRun(run, steps) && k < |run|
    requires forall j :: 0 <= j < k ==> Patient(run[j], steps[j])
    ensures Neat(run[k])
  {
    if k > 0 {
      PatientRunIsNeat(run, steps, k - 1);
      PatientStep(run[k - 1], steps[k - 1]);
    }
  }

  /** With such waits every release finds somebody to wake, and the reader that queues up again is the only culprit. */
  lemma PatientRunsStrandByRequeueing(run: seq<World>, steps: seq<Action>, k: nat)
    requires IsRun(run, steps) && k < |steps|
    requires forall j :: 0 <= j <= k ==> Patient(run[j], steps[j])
    ensures Strands(run[k], steps[k]) <==> RequeuesLast(run[k], steps[k])
  {
    RunKeepsInv(run, steps, k);
    PatientRunIsNeat(run, steps, k);
    NeatBatchesAreLive(run[k]);
  }

  lemma NeatBatchesAreLive(s: World)
    requires Inv(s) && Neat(s)
    ensures !StaleBatch(s)
  {
    var q := s.core.waiters;
    WakesSomebody(q);
    if w :| w in s.waiting && w !in s.woken {
      var i :| 0 <= i < |q| && q[i].task == w;
      assert q[0].task in s.waiting;
    }
  }

  // ---------------------------------------------------------------------------------------------
  // Both kinds of stranding do happen
  // ---------------------------------------------------------------------------------------------

  const R := Waiter(Read, 1)
  const W := Waiter(Write, 2)
  const V := Waiter(Write, 1)

  ghost function Stranding(): seq<World> {
    [Start,
     World(Core(true, 0, []), {}, {0}, {}, {}, {}, [], []),
     World(Core(true, 0, [R]), {}, {0}, {}, {}, {1}, [R], []),
     World(Core(true, 0, [R, W]), {}, {0}, {}, {}, {1, 2}, [R, W], []),
     World(Core(false, 0, [W]), {}, {}, {}, {1}, {1, 2}, [R, W], [R]),
     World(Core(false, 0, [W, R]), {}, {}, {}, {}, {1, 2}, [R, W, R], [R])]
  }

  ghost function StrandingSteps(): seq<Action> {
    [TryLock(Write, 0), PollLock(Read, 1, 7), PollLock(Write, 2, 8), DropWriteGuard(0), PollLock(Read, 1, 7)]
  }

  lemma StrandingAcquires(i: nat)
    requires i < 3
    ensures Enabled(Stranding()[i], StrandingSteps()[i])
            && Apply(Stranding()[i], StrandingSteps()[i]) == Stranding()[i + 1]
  {
  }

  lemma StrandingRelease()
    ensures Enabled(Stranding()[3], DropWriteGuard(0)) && Apply(Stranding()[3], DropWriteGuard(0)) == Stranding()[4]
  {
    assert [R, W][1..] == [W];
    assert LeadingReads([W]) == 0;
    assert Batch([R, W], 0) == 1;
    assert [R, W][..1] == [R];
    assert Tasks([R]) == {1} by { assert [R][0].task == 1; }
  }

  lemma StrandingRequeue()
    ensures Enabled(Stranding()[4], PollLock(Read, 1, 7))
            && Apply(Stranding()[4], PollLock(Read, 1, 7)) == Stranding()[5]
  {
    assert WriterPending([W]) by { assert [W][0].mode == Write; }
  }

  /** A reader and then a writer queue behind a writer, which lets go: patient tasks, and yet stranded. */
  lemma StrandingRun()
    ensures IsRun(Stranding(), StrandingSteps()) && Stranded(Stranding()[5])
    ensures forall i :: 0 <= i < 5 ==> Patient(Stranding()[i], StrandingSteps()[i])
  {
    forall i | 0 <= i < 5
      ensures Enabled(Stranding()[i], StrandingSteps()[i])
              && Stranding()[i + 1] == Apply(Stranding()[i], StrandingSteps()[i])
    {
      if i < 3 { StrandingAcquires(i); } else if i == 3 { StrandingRelease(); } else { StrandingRequeue(); }
    }
  }

  ghost function Stale(): seq<World> {
    [Start,
     World(Core(true, 0, []), {}, {0}, {}, {}, {}, [], []),
     World(Core(true, 0, [V]), {}, {0}, {}, {}, {1}, [V], []),
     World(Core(true, 0, [V, V]), {}, {0}, {}, {}, {1}, [V, V], []),
     World(Core(true, 0, [V, V, W]), {}, {0}, {}, {}, {1, 2}, [V, V, W], []),
     World(Core(false, 0, [V, W]), {}, {}, {}, {1}, {1, 2}, [V, V, W], [V]),
     World(Core(true, 0, [V, W]), {}, {7}, {}, {}, {2}, [V, V, W], [V]),
     World(Core(false, 0, [W]), {}, {}, {}, {1}, {2}, [V, V, W], [V, V])]
  }

  ghost function StaleSteps(): seq<Action> {
    [TryLock(Write, 0), PollLock(Write, 1, 7), PollLock(Write, 1, 7), PollLock(Write, 2, 8),
     DropWriteGuard(0), PollLock(Write, 1, 7), DropWriteGuard(7)]
  }

  lemma StaleAcquires(i: nat)
    requires i < 4 || i == 5
    ensures Enabled(Stale()[i], StaleSteps()[i]) && Apply(Stale()[i], StaleSteps()[i]) == Stale()[i + 1]
  {
  }

  lemma StaleReleases(i: nat)
    requires i == 4 || i == 6
    ensures Enabled(Stale()[i], StaleSteps()[i]) && Apply(Stale()[i], StaleSteps()[i]) == Stale()[i + 1]
  {
    var q := Stale()[i].core.waiters;
    assert Batch(q, 0) == 1;
    assert q[..1] == [V];
    assert Tasks([V]) == {1} by { assert [V][0].task == 1; }
  }

  /** A second poll without a wake leaves a second entry behind, which later absorbs the wake meant for writer 2. */
  lemma StaleRun()
    ensures IsRun(Stale(), StaleSteps()) && Stranded(Stale()[7]) && StaleBatch(Stale()[6])
    ensures Stale()[7].core.waiters == [W] && Stale()[7].waiting == {2}
  {
    forall i | 0 <= i < 7
      ensures Enabled(Stale()[i], StaleSteps()[i]) && Stale()[i + 1] == Apply(Stale()[i], StaleSteps()[i])
    {
      if i == 4 || i == 6 { StaleReleases(i); } else { StaleAcquires(i); }
    }
    StaleReleases(6);
    var q := Stale()[6].core.waiters;
    assert Batch(q, 0) == 1 && q[..1] == [V];
    assert Tasks([V]) == {1} by { assert [V][0].task == 1; }
  }
}
