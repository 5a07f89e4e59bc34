/**
 The io_uring file driver: who may touch an operation's buffer, and when.

 An operation's state is shared by the future that awaits it and by the driver's `slab`.  The kernel
 is an abstract set of operations it may still read from or write into.  One `Action` is one atomic
 step of the submitting thread, the driver thread, the kernel, or the awaiting task, so that a run is
 any interleaving while the driver is running.
 */
module UringOps {
  import opened Base
  import WakerCell

  /** The payload kept alive for the kernel: at most one of the two exits ever happens. */
  datatype Buffer = Present | HandedBack | Freed

  /** How far the driver has come with one operation. */
  datatype Phase =
    | Reserved    // has an id, not in the slab yet
    | Listed      // in the slab, entry not queued yet
    | Queued      // entry in `pending`
    | Drained     // entry moved out of `pending` by the driver thread
    | InKernel    // pushed on the submission queue; the kernel owns the buffer
    | Lost        // both pushes on a full submission queue failed
    | Posted      // completion posted, not yet processed by the driver
    | Unlisted    // removed from the slab by the completion handler
    | Recorded    // result stored
    | Woken       // waker taken
    | Released    // the driver's reference is gone

  datatype Op = Op(
    cell: WakerCell.Cell,  // `flag` is "a result is recorded"
    phase: Phase,
    posted: int,           // what the kernel reported, once it did
    result: Option<int>,   // what the driver recorded
    output: Option<int>,   // what the future resolved with
    buf: Buffer,
    held: bool,            // the submitter or its future still holds the state
    exits: nat             // how often the buffer left the operation state
  )

  datatype World = World(
    nextId: nat,
    slab: set<nat>,
    pending: seq<nat>,
    draining: seq<nat>,
    kernel: set<nat>,
    completions: seq<nat>,
    ops: map<nat, Op>
  )

  const Start := World(0, {}, [], [], {}, [], map[])

  datatype Action =
    | Reserve               // submit: take an id, build the state
    | List(id: nat)         // submit: insert into the slab
    | Enqueue(id: nat)      // submit: push the entry
    | Drain                 // driver: take the whole pending queue
    | Push(ok: bool)        // driver: move the first drained entry to the kernel
    | Complete(id: nat, res: int)  // kernel: post a completion
    | Unlist                // driver: remove the first completion's id from the slab
    | Record(id: nat)       // driver: store the result
    | TakeWaker(id: nat)    // driver: take and invoke the waker
    | Release(id: nat)      // driver: drop its reference
    | PollCheck(id: nat)
    | PollStore(id: nat)
    | PollRecheck(id: nat)
    | DropFuture(id: nat)

  ghost predicate InPhase(s: World, id: nat, p: Phase) {
    id in s.ops && s.ops[id].phase == p
  }

  /** The submitter polls or drops the future only after `submit` returned it. */
  ghost predicate Submitted(s: World, id: nat) {
    id in s.ops && s.ops[id].held && s.ops[id].phase != Reserved && s.ops[id].phase != Listed
  }

  ghost predicate Enabled(s: World, a: Action) {
    match a
    case Reserve => true
    case List(id) => InPhase(s, id, Reserved)
    case Enqueue(id) => InPhase(s, id, Listed)
    case Drain => s.draining == []
    case Push(_) => s.draining != []
    case Complete(id, _) => id in s.kernel
    case Unlist => s.completions != []
    case Record(id) => InPhase(s, id, Unlisted)
    case TakeWaker(id) => InPhase(s, id, Recorded)
    case Release(id) => InPhase(s, id, Woken)
    case PollCheck(id) => Submitted(s, id) && WakerCell.CanPoll(s.ops[id].cell)
    case PollStore(id) => Submitted(s, id) && s.ops[id].cell.pc == WakerCell.Checked
    case PollRecheck(id) => Submitted(s, id) && s.ops[id].cell.pc == WakerCell.Stored
    case DropFuture(id) =>
      Submitted(s, id) && (WakerCell.CanPoll(s.ops[id].cell) || s.ops[id].cell.pc == WakerCell.Done)
  }

  ghost function Put(s: World, id: nat, op: Op): World {
    s.(ops := s.ops[id := op])
  }

  ghost function Move(s: World, id: nat, p: Phase): World
    requires id in s.ops
  {
    Put(s, id, s.ops[id].(phase := p))
  }

  /** A poll that found the result takes the buffer out, as `take_result` does. */
  ghost function AfterPoll(op: Op, cell: WakerCell.Cell): Op {
    if cell.pc == WakerCell.Done then op.(cell := cell, output := op.result, buf := HandedBack, exits := op.exits + 1)
    else op.(cell := cell)
  }

  /** The last reference frees the operation state, and the buffer with it if it is still inside. */
  ghost function Unreferenced(op: Op): Op {
    if op.buf == Present then op.(buf := Freed, exits := op.exits + 1) else op
  }

  ghost function DropRef(op: Op): Op {
    if op.phase == Released then Unreferenced(op.(held := false)) else op.(held := false)
  }

  ghost function ReleaseRef(op: Op): Op {
    if op.held then op.(phase := Released) else Unreferenced(op.(phase := Released))
  }

  ghost function PushStep(s: World, ok: bool): World
    requires s.draining != []
  {
    var id := s.draining[0];
    var s' := s.(draining := s.draining[1..]);
    if id !in s.ops then s'
    else if ok then Move(s', id, InKernel).(kernel := s.kernel + {id})
    else Move(s', id, Lost)
  }

  /** An id the slab does not know is ignored, as in the source. */
  ghost function UnlistStep(s: World): World
    requires s.completions != []
  {
    var id := s.completions[0];
    var s' := s.(completions := s.completions[1..]);
    if id in s.slab && id in s.ops then Move(s', id, Unlisted).(slab := s.slab - {id}) else s'
  }

  ghost function DrainStep(s: World): World {
    s.(pending := [], draining := s.pending,
       ops := map id | id in s.ops :: if id in s.pending then s.ops[id].(phase := Drained) else s.ops[id])
  }

  ghost function Apply(s: World, a: Action): World
    requires Enabled(s, a)
  {
    match a
    case Reserve =>
      Put(s, s.nextId, Op(WakerCell.Fresh, Reserved, 0, None, None, Present, true, 0)).(nextId := s.nextId + 1)
    case List(id) => Move(s, id, Listed).(slab := s.slab + {id})
    case Enqueue(id) => Move(s, id, Queued).(pending := s.pending + [id])
    case Drain => DrainStep(s)
    case Push(ok) => PushStep(s, ok)
    case Complete(id, res) =>
      if id in s.ops then
        var s' := Put(s, id, s.ops[id].(phase := Posted, posted := res));
        s'.(kernel := s.kernel - {id}, completions := s.completions + [id])
      else s
    case Unlist => UnlistStep(s)
    case Record(id) =>
      var op := s.ops[id];
      Put(s, id, op.(phase := Recorded, result := Some(op.posted), cell := WakerCell.Raise(op.cell)))
    case TakeWaker(id) => Put(s, id, s.ops[id].(phase := Woken, cell := WakerCell.Take(s.ops[id].cell)))
    case Release(id) => Put(s, id, ReleaseRef(s.ops[id]))
    case PollCheck(id) => Put(s, id, AfterPoll(s.ops[id], WakerCell.Check(s.ops[id].cell, false)))
    case PollStore(id) => Put(s, id, AfterPoll(s.ops[id], WakerCell.Store(s.ops[id].cell)))
    case PollRecheck(id) => Put(s, id, AfterPoll(s.ops[id], WakerCell.Recheck(s.ops[id].cell, false)))
    case DropFuture(id) => Put(s, id, DropRef(s.ops[id]))
  }

  // ---------------------------------------------------------------------------------------------
  // The invariant
  // ---------------------------------------------------------------------------------------------

  predicate BeforeRecord(p: Phase) {
    p != Recorded && p != Woken && p != Released
  }

  ghost predicate OpOk(op: Op) {
    && WakerCell.Inv(op.cell, op.phase == Recorded)
    && op.cell.flag == !BeforeRecord(op.phase)
    && op.result == (if op.cell.flag then Some(op.posted) else None)
    && op.output == (if op.cell.pc == WakerCell.Done then Some(op.posted) else None)
    && (op.buf == HandedBack) == (op.cell.pc == WakerCell.Done)
    && (op.cell.pc == WakerCell.Done ==> op.cell.flag)
    && (op.buf == Freed ==> op.phase == Released && !op.held)
    && (op.phase == Released && !op.held ==> op.buf != Present)
    && op.exits == (if op.buf == Present then 0 else 1)
    && (op.phase == Reserved || op.phase == Listed ==> op.held && op.cell.pc == WakerCell.Idle)
  }

  /** Where the driver's containers list an operation, as its phase says. */
  ghost predicate PlacedOk(s: World, id: nat)
    requires id in s.ops
  {
    var p := s.ops[id].phase;
    && (id in s.pending) == (p == Queued)
    && (id in s.draining) == (p == Drained)
    && (id in s.kernel) == (p == InKernel)
    && (id in s.completions) == (p == Posted)
    && (id in s.slab) == (BeforeRecord(p) && p != Reserved && p != Unlisted)
  }

  ghost predicate Inv(s: World) {
    && (forall id :: id in s.ops ==> id < s.nextId && OpOk(s.ops[id]) && PlacedOk(s, id))
    && (forall id :: id in s.pending || id in s.draining || id in s.kernel || id in s.completions || id in s.slab ==>
          id in s.ops)
    && Distinct(s.pending) && Distinct(s.draining) && Distinct(s.completions)
  }

  /** A step on the cell, the buffer or the references of one operation. */
  lemma Focus(s: World, id: nat, op: Op)
    requires Inv(s) && id in s.ops && OpOk(op)
    requires op.phase == s.ops[id].phase || (!BeforeRecord(op.phase) && s.ops[id].phase in {Unlisted, Recorded, Woken})
    ensures Inv(Put(s, id, op))
  {
    var s' := Put(s, id, op);
    assert PlacedOk(s, id);
    forall i | i in s'.ops ensures PlacedOk(s', i) {
      if i != id { assert PlacedOk(s, i); }
    }
  }

  lemma DistinctTail(q: seq<nat>)
    requires Distinct(q) && q != []
    ensures Distinct(q[1..]) && forall v :: v in q[1..] <==> v in q && v != q[0]
  {
  }

  lemma DistinctAppend(q: seq<nat>, id: nat)
    requires Distinct(q) && id !in q
    ensures Distinct(q + [id]) && forall v :: v in q + [id] <==> v in q || v == id
  {
  }

  /** A step that moves one operation from one container to the next. */
  lemma Relocated(s: World, id: nat, s': World)
    requires Inv(s) && id in s.ops
    requires id in s'.ops && s'.ops == s.ops[id := s'.ops[id]] && s'.nextId == s.nextId
    requires OpOk(s'.ops[id]) && PlacedOk(s', id)
    requires Distinct(s'.pending) && Distinct(s'.draining) && Distinct(s'.completions)
    requires forall i :: i != id ==>
               && (i in s'.pending <==> i in s.pending) && (i in s'.draining <==> i in s.draining)
               && (i in s'.kernel <==> i in s.kernel) && (i in s'.completions <==> i in s.completions)
               && (i in s'.slab <==> i in s.slab)
    ensures Inv(s')
  {
    forall i | i in s'.ops ensures i < s'.nextId && OpOk(s'.ops[i]) && PlacedOk(s', i) {
      if i != id { assert PlacedOk(s, i); }
    }
  }

  lemma SubmitSteps(s: World, a: Action)
    requires Inv(s) && Enabled(s, a) && (a.List? || a.Enqueue?)
    ensures Inv(Apply(s, a))
  {
    assert PlacedOk(s, a.id);
    if a.Enqueue? { DistinctAppend(s.pending, a.id); }
    Relocated(s, a.id, Apply(s, a));
  }

  lemma ReserveStep(s: World)
    requires Inv(s)
    ensures Inv(Apply(s, Reserve))
  {
    var s' := Apply(s, Reserve);
    forall i | i in s'.ops ensures PlacedOk(s', i) {
      if i in s.ops { assert PlacedOk(s, i); }
    }
  }

  lemma DrainKeepsInv(s: World)
    requires Inv(s) && s.draining == []
    ensures Inv(DrainStep(s))
  {
    var s' := DrainStep(s);
    forall i | i in s'.ops ensures OpOk(s'.ops[i]) && PlacedOk(s', i) {
      assert PlacedOk(s, i);
    }
  }

  lemma PushKeepsInv(s: World, ok: bool)
    requires Inv(s) && s.draining != []
    ensures Inv(PushStep(s, ok))
  {
    var id := s.draining[0];
    DistinctTail(s.draining);
    assert id in s.draining && PlacedOk(s, id);
    Relocated(s, id, PushStep(s, ok));
  }

  lemma CompleteStep(s: World, id: nat, res: int)
    requires Inv(s) && id in s.kernel
    ensures Inv(Apply(s, Complete(id, res)))
  {
    assert PlacedOk(s, id);
    DistinctAppend(s.completions, id);
    Relocated(s, id, Apply(s, Complete(id, res)));
  }

  lemma UnlistKeepsInv(s: World)
    requires Inv(s) && s.completions != []
    ensures Inv(UnlistStep(s))
  {
    var id := s.completions[0];
    DistinctTail(s.completions);
    assert id in s.completions && PlacedOk(s, id);
    Relocated(s, id, UnlistStep(s));
  }

  lemma HandlerSteps(s: World, a: Action)
    requires Inv(s) && Enabled(s, a) && (a.Record? || a.TakeWaker? || a.Release?)
    ensures Inv(Apply(s, a))
  {
    Focus(s, a.id, Apply(s, a).ops[a.id]);
  }

  lemma FutureSteps(s: World, a: Action)
    requires Inv(s) && Enabled(s, a) && (a.PollCheck? || a.PollStore? || a.PollRecheck? || a.DropFuture?)
    ensures Inv(Apply(s, a))
  {
    Focus(s, a.id, Apply(s, a).ops[a.id]);
  }

  lemma StepKeepsInv(s: World, a: Action)
    requires Inv(s) && Enabled(s, a)
    ensures Inv(Apply(s, a))
  {
    match a
    case Reserve => ReserveStep(s);
    case Drain => DrainKeepsInv(s);
    case List(_) => SubmitSteps(s, a);
    case Enqueue(_) => SubmitSteps(s, a);
    case Push(ok) => PushKeepsInv(s, ok);
    case Complete(id, res) => CompleteStep(s, id, res);
    case Unlist => UnlistKeepsInv(s);
    case Record(_) => HandlerSteps(s, a);
    case TakeWaker(_) => HandlerSteps(s, a);
    case Release(_) => HandlerSteps(s, a);
    case _ => FutureSteps(s, a);
  }

  ghost predicate IsRun(run: seq<World>, steps: seq<Action>) {
    && |run| == |steps| + 1
    && run[0] == Start
    && forall i :: 0 <= i < |steps| ==> Enabled(run[i], steps[i]) && run[i + 1] == Apply(run[i], steps[i])
  }

  lemma {:induction false} RunKeepsInv(run: seq<World>, steps: seq<Action>, k: nat)
    requires IsRun(run, steps) && k < |run|
    ensures Inv(run[k])
  {
    if k > 0 {
      RunKeepsInv(run, steps, k - 1);
      StepKeepsInv(run[k - 1], steps[k - 1]);
    }
  }

  // ---------------------------------------------------------------------------------------------
  // What the driver promises
  // ---------------------------------------------------------------------------------------------

  /** Everything queued for the kernel or held by it is in the slab with its buffer inside. */
  lemma KernelBuffersAreAlive(run: seq<World>, steps: seq<Action>, k: nat, id: nat)
    requires IsRun(run, steps) && k < |run|
    requires id in run[k].pending || id in run[k].draining || id in run[k].kernel
    ensures id in run[k].slab && id in run[k].ops && run[k].ops[id].buf == Present
  {
    RunKeepsInv(run, steps, k);
    assert PlacedOk(run[k], id);
  }

  /** Once an operation has been completed it stays completed. */
  ghost predicate Completed(p: Phase) {
    p == Posted || p == Unlisted || p == Recorded || p == Woken || p == Released
  }

  /** A buffer leaves its operation at most once, and only after the kernel has let go of it. */
  lemma BufferLeavesOnceAfterCompletion(run: seq<World>, steps: seq<Action>, k: nat, id: nat)
    requires IsRun(run, steps) && k < |run| && id in run[k].ops
    ensures run[k].ops[id].exits <= 1
    ensures run[k].ops[id].buf != Present ==> Completed(run[k].ops[id].phase) && id !in run[k].kernel
    ensures run[k].ops[id].buf == Freed ==> !run[k].ops[id].held && run[k].ops[id].phase == Released
  {
    RunKeepsInv(run, steps, k);
    assert PlacedOk(run[k], id);
  }

  /** A poll that sees a result finds the buffer (so taking it never panics) and yields what the kernel reported. */
  lemma ResultAlwaysFindsItsBuffer(run: seq<World>, steps: seq<Action>, k: nat, id: nat)
    requires IsRun(run, steps) && k < |steps|
    requires steps[k] == PollCheck(id) || steps[k] == PollRecheck(id)
    requires run[k].ops[id].cell.flag
    ensures run[k].ops[id].buf == Present && run[k + 1].ops[id].buf == HandedBack
    ensures run[k + 1].ops[id].output == Some(run[k].ops[id].posted)
  {
    RunKeepsInv(run, steps, k);
  }

  /** The completion handler always finds the id it was given in the slab. */
  lemma CompletionsAreKnown(run: seq<World>, steps: seq<Action>, k: nat)
    requires IsRun(run, steps) && k < |steps| && steps[k] == Unlist
    ensures run[k].completions[0] in run[k].slab
  {
    RunKeepsInv(run, steps, k);
    var id := run[k].completions[0];
    assert id in run[k].completions && PlacedOk(run[k], id);
  }

  /** A recorded result never leaves its future asleep once the driver has taken the waker. */
  lemma NoParkedResult(run: seq<World>, steps: seq<Action>, k: nat, id: nat)
    requires IsRun(run, steps) && k < |run| && id in run[k].ops
    requires run[k].ops[id].phase == Woken || run[k].ops[id].phase == Released
    ensures WakerCell.NotLost(run[k].ops[id].cell) && run[k].ops[id].cell.flag
  {
    RunKeepsInv(run, steps, k);
  }

  // ---------------------------------------------------------------------------------------------
  // Operations the submission queue refused twice
  // ---------------------------------------------------------------------------------------------

  lemma LostIsStable(s: World, a: Action, id: nat)
    requires Inv(s) && Enabled(s, a) && InPhase(s, id, Lost)
    ensures InPhase(Apply(s, a), id, Lost)
  {
    assert PlacedOk(s, id);
    if a.Push? { assert s.draining[0] in s.draining; }
    if a.Unlist? { assert s.completions[0] in s.completions; }
  }

  lemma LostKeepsAll(s: World, id: nat)
    requires Inv(s) && InPhase(s, id, Lost)
    ensures id in s.slab && s.ops[id].buf == Present && s.ops[id].result == None && s.ops[id].output == None
  {
    assert PlacedOk(s, id);
  }

  lemma {:induction false} LostStays(run: seq<World>, steps: seq<Action>, k: nat, j: nat, id: nat)
    requires IsRun(run, steps) && k <= j < |run| && InPhase(run[k], id, Lost)
    ensures InPhase(run[j], id, Lost)
  {
    if k < j {
      LostStays(run, steps, k, j - 1, id);
      RunKeepsInv(run, steps, j - 1);
      LostIsStable(run[j - 1], steps[j - 1], id);
    }
  }

  /** A lost operation stays lost: in the slab with its buffer, without a result, its future never resolved. */
  lemma LostForEver(run: seq<World>, steps: seq<Action>, k: nat, j: nat, id: nat)
    requires IsRun(run, steps) && k <= j < |run| && InPhase(run[k], id, Lost)
    ensures InPhase(run[j], id, Lost) && id in run[j].slab && run[j].ops[id].buf == Present
    ensures run[j].ops[id].result == None && run[j].ops[id].output == None
  {
    LostStays(run, steps, k, j, id);
    RunKeepsInv(run, steps, j);
    LostKeepsAll(run[j], id);
  }

  /** `steps` take the driver from `s` to `t`. */
  ghost predicate Leads(s: World, steps: seq<Action>, t: World)
    decreases |steps|
  {
    if steps == [] then s == t else Enabled(s, steps[0]) && Leads(Apply(s, steps[0]), steps[1..], t)
  }

  ghost predicate HasResult(s: World, id: nat) {
    id in s.ops && s.ops[id].result.Some?
  }

  function Ahead(p: Phase): nat {
    match p
    case Reserved => 7
    case Listed => 6
    case Queued => 5
    case Drained => 4
    case InKernel => 3
    case Posted => 2
    case Unlisted => 1
    case _ => 0
  }

  /** The next step on the way of operation `id` to its result. */
  ghost function Next(s: World, id: nat): Action
    requires id in s.ops
  {
    match s.ops[id].phase
    case Reserved => List(id)
    case Listed => Enqueue(id)
    case Queued => if s.draining == [] then Drain else Push(true)
    case Drained => Push(true)
    case InKernel => Complete(id, 0)
    case Posted => Unlist
    case _ => Record(id)
  }

  /** Others in front of it in the queue it has to pass. */
  ghost function Waiting(s: World, id: nat): nat
    requires id in s.ops
  {
    if s.ops[id].phase == Posted then |s.completions| else |s.draining|
  }

  /** Nearer to the result: it is there, a phase has passed, or the queue in front got shorter. */
  ghost predicate Nearer(s: World, t: World, id: nat)
    requires id in s.ops
  {
    && id in t.ops && t.ops[id].phase != Lost
    && (HasResult(t, id) || Ahead(t.ops[id].phase) < Ahead(s.ops[id].phase)
        || (t.ops[id].phase == s.ops[id].phase && Waiting(t, id) < Waiting(s, id)))
  }

  lemma PushAdvances(s: World, id: nat)
    requires Inv(s) && id in s.ops && s.draining != [] && (InPhase(s, id, Queued) || InPhase(s, id, Drained))
    ensures Nearer(s, PushStep(s, true), id)
  {
    assert PlacedOk(s, id);
    assert s.draining[0] in s.draining && PlacedOk(s, s.draining[0]);
  }

  lemma UnlistAdvances(s: World, id: nat)
    requires Inv(s) && InPhase(s, id, Posted)
    ensures s.completions != [] && Nearer(s, UnlistStep(s), id)
  {
    assert PlacedOk(s, id);
    assert s.completions[0] in s.completions && PlacedOk(s, s.completions[0]);
  }

  lemma NextAdvances(s: World, id: nat)
    requires Inv(s) && id in s.ops && s.ops[id].phase != Lost && !HasResult(s, id)
    ensures Enabled(s, Next(s, id)) && Nearer(s, Apply(s, Next(s, id)), id)
  {
    assert PlacedOk(s, id);
    if (InPhase(s, id, Queued) || InPhase(s, id, Drained)) && s.draining != [] {
      PushAdvances(s, id);
    } else if InPhase(s, id, Posted) {
      UnlistAdvances(s, id);
    }
  }

  lemma {:induction false} WayToResult(s: World, id: nat) returns (steps: seq<Action>, t: World)
    requires Inv(s) && id in s.ops && s.ops[id].phase != Lost
    ensures Leads(s, steps, t) && HasResult(t, id)
    decreases !HasResult(s, id), Ahead(s.ops[id].phase), Waiting(s, id)
  {
    if HasResult(s, id) {
      return [], s;
    }
    var a := Next(s, id);
    NextAdvances(s, id);
    StepKeepsInv(s, a);
    var rest;
    rest, t := WayToResult(Apply(s, a), id);
    steps := [a] + rest;
    assert steps[1..] == rest;
  }

  lemma {:induction false} NoWayFromLost(s: World, steps: seq<Action>, t: World, id: nat)
    requires Inv(s) && InPhase(s, id, Lost) && Leads(s, steps, t)
    ensures !HasResult(t, id)
    decreases |steps|
  {
    if steps != [] {
      LostIsStable(s, steps[0], id);
      StepKeepsInv(s, steps[0]);
      NoWayFromLost(Apply(s, steps[0]), steps[1..], t, id);
    }
  }

  /** Some continuation ends with a result for `id`. */
  ghost predicate ResultCanCome(s: World, id: nat) {
    exists more, t :: Leads(s, more, t) && HasResult(t, id)
  }

  lemma CanCome(s: World, id: nat)
    requires Inv(s) && id in s.ops && s.ops[id].phase != Lost
    ensures ResultCanCome(s, id)
  {
    var more, t := WayToResult(s, id);
  }

  lemma CannotCome(s: World, id: nat)
    requires Inv(s) && InPhase(s, id, Lost)
    ensures !ResultCanCome(s, id)
  {
    forall more, t | Leads(s, more, t) ensures !HasResult(t, id) {
      NoWayFromLost(s, more, t, id);
    }
  }

  /** From any state of any run, a result can still come if and only if the operation is not lost. */
  lemma ResultCanComeIff(run: seq<World>, steps: seq<Action>, k: nat, id: nat)
    requires IsRun(run, steps) && k < |run| && id in run[k].ops
    ensures ResultCanCome(run[k], id) <==> run[k].ops[id].phase != Lost
  {
    RunKeepsInv(run, steps, k);
    if run[k].ops[id].phase != Lost { CanCome(run[k], id); } else { CannotCome(run[k], id); }
  }

  ghost function Submission(p: Phase): map<nat, Op> {
    map[0 := Op(WakerCell.Fresh, p, 0, None, None, Present, true, 0)]
  }

  ghost function Refusing(): seq<World> {
    [Start,
     World(1, {}, [], [], {}, [], Submission(Reserved)),
     World(1, {0}, [], [], {}, [], Submission(Listed)),
     World(1, {0}, [0], [], {}, [], Submission(Queued)),
     World(1, {0}, [], [0], {}, [], Submission(Drained)),
     World(1, {0}, [], [], {}, [], Submission(Lost))]
  }

  ghost function RefusingSteps(): seq<Action> {
    [Reserve, List(0), Enqueue(0), Drain, Push(false)]
  }

  lemma RefusingStep(i: nat)
    requires i < 5
    ensures Enabled(Refusing()[i], RefusingSteps()[i]) && Apply(Refusing()[i], RefusingSteps()[i]) == Refusing()[i + 1]
  {
  }

  /** It does happen: one submission, refused twice, and no continuation brings its result. */
  lemma RefusedSubmission()
    ensures IsRun(Refusing(), RefusingSteps())
    ensures InPhase(Refusing()[5], 0, Lost) && !ResultCanCome(Refusing()[5], 0)
  {
    forall i | 0 <= i < 5
      ensures Enabled(Refusing()[i], RefusingSteps()[i])
              && Refusing()[i + 1] == Apply(Refusing()[i], RefusingSteps()[i])
    {
      RefusingStep(i);
    }
    ResultCanComeIff(Refusing(), RefusingSteps(), 5, 0);
  }

  // ---------------------------------------------------------------------------------------------
  // The driver thread's own loop over real objects
  // ---------------------------------------------------------------------------------------------

  class OpState<B> {
    var result: Option<int>
    var waker: Option<nat>
    var buf: Option<B>

    constructor (keepalive: B)
      ensures result == None && waker == None && buf == Some(keepalive)
    {
      result, waker, buf := None, None, Some(keepalive);
    }

    /** One uninterrupted poll of the future; `None` is `Pending`. */
    method Poll(cx: nat) returns (out: Option<(int, B)>)
      requires result.Some? ==> buf.Some?
      modifies this
      ensures result == old(result)
      ensures old(result).Some?
              ==> out == Some((old(result).value, old(buf).value)) && buf == None && waker == old(waker)
      ensures old(result).None? ==> out == None && buf == old(buf) && waker == Some(cx)
    {
      if result.Some? {
        out := Some((result.value, buf.value));
        buf := None;
        return;
      }
      waker := Some(cx);
      out := None;
    }
  }

  /** The first result that the first `n` completions report for `id`. */
  function FirstResult(completions: seq<(nat, int)>, n: nat, id: nat): Option<int>
    requires n <= |completions|
  {
    if n == 0 then None
    else
      var r := FirstResult(completions, n - 1, id);
      if r.None? && completions[n - 1].0 == id then Some(completions[n - 1].1) else r
  }

  /** Whom a round of completions wakes, in order: a second completion of an id finds nothing. */
  function WakersOf(wakers: map<nat, Option<nat>>, completions: seq<(nat, int)>): seq<nat> {
    if completions == [] then []
    else
      var id := completions[0].0;
      var rest := WakersOf(wakers - {id}, completions[1..]);
      if id in wakers && wakers[id].Some? then [wakers[id].value] + rest else rest
  }

  ghost predicate NotBefore(completions: seq<(nat, int)>, n: nat, id: nat)
    requires n <= |completions|
  {
    forall i :: 0 <= i < n ==> completions[i].0 != id
  }

  /** The recorded result is the first one reported, and there is one exactly if any was. */
  lemma {:induction false} FirstResultIsFirst(completions: seq<(nat, int)>, n: nat, id: nat)
    requires n <= |completions|
    ensures var r := FirstResult(completions, n, id);
            if r.None? then NotBefore(completions, n, id)
            else exists i :: 0 <= i < n && completions[i] == (id, r.value) && NotBefore(completions, i, id)
  {
    if n > 0 {
      FirstResultIsFirst(completions, n - 1, id);
      var r := FirstResult(completions, n - 1, id);
      if r.Some? {
        var i :| 0 <= i < n - 1 && completions[i] == (id, r.value) && NotBefore(completions, i, id);
      } else if completions[n - 1].0 == id {
        assert completions[n - 1] == (id, completions[n - 1].1);
      }
    }
  }

  /** A waker is invoked exactly if it is the one stored for a known operation that completed. */
  lemma {:induction false} WokenIff(wakers: map<nat, Option<nat>>, completions: seq<(nat, int)>, w: nat)
    ensures w in WakersOf(wakers, completions) <==>
              exists i :: 0 <= i < |completions| && completions[i].0 in wakers && wakers[completions[i].0] == Some(w)
    decreases |completions|
  {
    if completions != [] {
      var id, rest := completions[0].0, completions[1..];
      WokenIff(wakers - {id}, rest, w);
      assert forall i :: 0 <= i < |rest| ==> rest[i] == completions[i + 1];
      if i :| 0 <= i < |completions| && completions[i].0 in wakers && wakers[completions[i].0] == Some(w) {
        if completions[i].0 != id {
          assert rest[i - 1].0 in wakers - {id} && (wakers - {id})[rest[i - 1].0] == Some(w);
        } else {
          assert completions[0].0 in wakers && wakers[completions[0].0] == Some(w);
        }
      }
    }
  }

  lemma NextCompletion(wakers: map<nat, Option<nat>>, completions: seq<(nat, int)>, n: nat, woken: seq<nat>)
    requires n < |completions|
    ensures var id := completions[n].0;
            var now := if id in wakers && wakers[id].Some? then woken + [wakers[id].value] else woken;
            woken + WakersOf(wakers, completions[n..]) == now + WakersOf(wakers - {id}, completions[n + 1..])
  {
    assert completions[n..][0] == completions[n] && completions[n..][1..] == completions[n + 1..];
  }

  /** What an operation state holds. */
  datatype Held<B> = Held(result: Option<int>, waker: Option<nat>, buf: Option<B>)

  ghost function Contents<B>(ops: map<nat, OpState<B>>): map<nat, Held<B>>
    reads ops.Values
  {
    map id | id in ops :: Held(ops[id].result, ops[id].waker, ops[id].buf)
  }

  function Answered<B>(ops: map<nat, Held<B>>, id: nat, res: int): map<nat, Held<B>>
  {
    if id in ops then ops[id := Held(Some(res), None, ops[id].buf)] else ops
  }

  /** All operations after `n` completions: the first one for each records its result and takes its waker. */
  function Settled<B>(ops: map<nat, Held<B>>, completions: seq<(nat, int)>, n: nat): map<nat, Held<B>>
    requires n <= |completions|
  {
    map id | id in ops ::
      var r := FirstResult(completions, n, id);
      if r.Some? then Held(r, None, ops[id].buf) else ops[id]
  }

  ghost function Unanswered<B>(ops: map<nat, OpState<B>>, completions: seq<(nat, int)>, n: nat): map<nat, OpState<B>>
    requires n <= |completions|
  {
    map id | id in ops && FirstResult(completions, n, id).None? :: ops[id]
  }

  ghost predicate Injective<B>(ops: map<nat, OpState<B>>) {
    forall i, j :: i in ops && j in ops && i != j ==> ops[i] != ops[j]
  }

  lemma NextSettled<B>(ops: map<nat, Held<B>>, completions: seq<(nat, int)>, n: nat)
    requires n < |completions|
    ensures var (id, res) := completions[n];
            Settled(ops, completions, n + 1) ==
            if FirstResult(completions, n, id).None? then Answered(Settled(ops, completions, n), id, res)
            else Settled(ops, completions, n)
  {
  }

  lemma NextUnanswered<B>(ops: map<nat, OpState<B>>, completions: seq<(nat, int)>, n: nat)
    requires n < |completions|
    ensures Unanswered(ops, completions, n + 1) == Unanswered(ops, completions, n) - {completions[n].0}
  {
  }

  class Driver<B> {
    var nextId: nat
    var pending: seq<nat>
    var slab: map<nat, OpState<B>>

    ghost predicate Valid()
      reads this
    {
      && (forall i :: i in slab ==> i < nextId)
      && Injective(slab)
    }

    ghost function Wakers(): map<nat, Option<nat>>
      reads this, slab.Values
    {
      map id | id in slab :: slab[id].waker
    }

    constructor ()
      ensures Valid() && slab == map[] && pending == [] && nextId == 0
    {
      nextId, pending, slab := 0, [], map[];
    }

    method Submit(keepalive: B) returns (state: OpState<B>, id: nat)
      requires Valid()
      modifies this
      ensures Valid() && fresh(state) && id == old(nextId) && nextId == id + 1
      ensures slab == old(slab)[id := state] && pending == old(pending) + [id]
      ensures state.result == None && state.waker == None && state.buf == Some(keepalive)
    {
      id := nextId;
      nextId := nextId + 1;
      state := new OpState(keepalive);
      slab := slab[id := state];
      pending := pending + [id];
    }

    /** One completion: out of the slab, result recorded, waker taken; an unknown id is a no-op. */
    method Handle(id: nat, res: int) returns (woken: Option<nat>)
      requires Valid()
      modifies this`slab, if id in slab then {slab[id]} else {}
      ensures Valid() && slab == old(slab) - {id} && Wakers() == old(Wakers()) - {id}
      ensures id !in old(slab) ==> woken == None
      ensures id in old(slab) ==>
                var st := old(slab)[id];
                st.result == Some(res) && st.waker == None && st.buf == old(st.buf) && woken == old(st.waker)
    {
      woken := None;
      if id in slab {
        var state := slab[id];
        slab := slab - {id};
        state.result := Some(res);
        woken := state.waker;
        state.waker := None;
      }
    }

    /** The same, seen on all operations of a round, whether still in the slab or not. */
    method HandleOneOf(ghost round: map<nat, OpState<B>>, id: nat, res: int) returns (woken: Option<nat>)
      requires Valid() && Injective(round) && forall i :: i in slab ==> i in round && slab[i] == round[i]
      modifies this`slab, round.Values
      ensures Valid() && slab == old(slab) - {id}
      ensures woken == (if id in old(slab) then old(slab[id].waker) else None) && Wakers() == old(Wakers()) - {id}
      ensures Contents(round) == if id in old(slab) then Answered(old(Contents(round)), id, res)
              else old(Contents(round))
    {
      woken := Handle(id, res);
    }

    /** Where a round stands after `n` completions: `all` are the wakers it invokes in the end. */
    ghost predicate Midway(round: map<nat, OpState<B>>, start: map<nat, Held<B>>, all: seq<nat>,
                           completions: seq<(nat, int)>, n: nat, woken: seq<nat>)
      requires n <= |completions|
      reads this, slab.Values, round.Values
    {
      && Valid() && Injective(round) && slab == Unanswered(round, completions, n)
      && Contents(round) == Settled(start, completions, n)
      && woken + WakersOf(Wakers(), completions[n..]) == all
    }

    method ProcessOne(ghost round: map<nat, OpState<B>>, ghost start: map<nat, Held<B>>, ghost all: seq<nat>,
                      completions: seq<(nat, int)>, n: nat, woken: seq<nat>) returns (more: seq<nat>)
      requires n < |completions| && Midway(round, start, all, completions, n, woken)
      modifies this`slab, round.Values
      ensures Midway(round, start, all, completions, n + 1, more)
    {
      NextCompletion(Wakers(), completions, n, woken);
      NextSettled(start, completions, n);
      NextUnanswered(round, completions, n);
      var w := HandleOneOf(round, completions[n].0, completions[n].1);
      more := if w.Some? then woken + [w.value] else woken;
    }

    /**
     One round of completions: every known operation leaves the slab with the first result reported
     for it recorded; a second completion of the same id would find nothing and change nothing.
     */
    method ProcessCompletions(completions: seq<(nat, int)>) returns (woken: seq<nat>)
      requires Valid()
      modifies this`slab, slab.Values
      ensures Valid() && slab == Unanswered(old(slab), completions, |completions|)
      ensures Contents(old(slab)) == Settled(old(Contents(slab)), completions, |completions|)
      ensures woken == WakersOf(old(Wakers()), completions)
    {
      woken := [];
      ghost var round, start, all := slab, Contents(slab), WakersOf(Wakers(), completions);
      assert completions[0..] == completions;
      for n := 0 to |completions|
        invariant round == old(slab) && Midway(round, start, all, completions, n, woken)
      {
        woken := ProcessOne(round, start, all, completions, n, woken);
      }
    }
  }
}
