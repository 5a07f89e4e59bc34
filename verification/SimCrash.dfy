/**
 What a simulated crash leaves behind, for every history of operations.

 Each file carries its content at the last honest fsync and the events since then that can reach the
 durable prefix.  Replaying those on the snapshot is the reference: `crash_and_reopen` yields exactly
 that, whatever lying fsyncs, torn writes, growth, renames, reopenings and earlier crashes happened in
 between: a crash adds no event, and only an honest fsync takes a new snapshot.
 */
module SimCrash {
  import opened Base
  import opened SimDriver

  datatype Event = Patch(pos: nat, bytes: seq<Byte>) | Cut(len: nat)

  datatype Hist = Hist(snap: seq<Byte>, events: seq<Event>)

  datatype World = World(s: State, hist: map<nat, Hist>)

  /** The part of a write that lands inside an image, which it never lengthens. */
  function Clip(img: seq<Byte>, pos: nat, bytes: seq<Byte>): seq<Byte> {
    if pos >= |img| then img
    else
      var n := Min(|bytes|, |img| - pos);
      img[..pos] + bytes[..n] + img[pos + n..]
  }

  function Effect(img: seq<Byte>, e: Event): seq<Byte> {
    match e
    case Patch(pos, bytes) => Clip(img, pos, bytes)
    case Cut(len) => img[..Min(len, |img|)]
  }

  function Replay(snap: seq<Byte>, events: seq<Event>): seq<Byte> {
    if events == [] then snap else Effect(Replay(snap, events[..|events| - 1]), events[|events| - 1])
  }

  lemma ReplayAppend(snap: seq<Byte>, events: seq<Event>, e: Event)
    ensures Replay(snap, events + [e]) == Effect(Replay(snap, events), e)
  {
    assert (events + [e])[..|events|] == events;
  }

  function Image(f: SimFile): seq<Byte> {
    f.data[..Min(f.durable, |f.data|)]
  }

  function Note(hist: map<nat, Hist>, h: nat, e: Event): map<nat, Hist> {
    if h in hist then hist[h := hist[h].(events := hist[h].events + [e])] else hist
  }

  /** The bookkeeping beside one operation; files that are gone keep their last entry. */
  ghost function Record(w: World, op: Op): map<nat, Hist> {
    var s := w.s;
    match op
    case OpenOp(p, create, excl, truncate) =>
      var (_, st, h) := Open(s, p, create, excl, truncate);
      if st != Ok then w.hist
      else
        var hist := if p in s.paths then w.hist else w.hist[h := Hist([], [])];
        if truncate then Note(hist, h, Cut(0)) else hist
    case WriteOp(h, pos, src) =>
      if WriteAt(s, h, pos, src).1 == Ok then Note(w.hist, h, Patch(pos, src[..Applied(|src|, s.torn)])) else w.hist
    case FsyncOp(h) =>
      if Fsync(s, h).1 == Ok && !s.lies && h in s.files then w.hist[h := Hist(s.files[h].data, [])] else w.hist
    case SetLenOp(h, n) => if SetLen(s, h, n).1 == Ok then Note(w.hist, h, Cut(n)) else w.hist
    case _ => w.hist
  }

  ghost function Step(w: World, op: Op): World {
    World(Apply(w.s, op), Record(w, op))
  }

  ghost predicate FileTracked(f: SimFile, x: Hist) {
    f.durable <= |f.data| && Image(f) == Replay(x.snap, x.events)
  }

  ghost predicate Tracked(w: World) {
    forall h :: h in w.s.files ==> h in w.hist && FileTracked(w.s.files[h], w.hist[h])
  }

  lemma GrowthIsInvisible(f: SimFile, n: nat)
    requires f.durable <= |f.data|
    ensures Image(f.(data := Resize(f.data, n))) == Image(f)
  {
  }

  lemma WriteIsAPatch(f: SimFile, pos: nat, bytes: seq<Byte>)
    requires f.durable <= |f.data| && pos + |bytes| <= |f.data|
    ensures Image(f.(data := Overwrite(f.data, pos, bytes))) == Clip(Image(f), pos, bytes)
  {
  }

  lemma ShrinkIsACut(f: SimFile, n: nat)
    requires f.durable <= |f.data| && n <= |f.data|
    ensures Image(SimFile(f.data[..n], Min(f.durable, n))) == Effect(Image(f), Cut(n))
  {
  }

  /** An operation on one file leaves the others and their histories alone. */
  lemma OneFile(w: World, w': World, h: nat)
    requires Tracked(w)
    requires h in w'.s.files ==> h in w'.hist && FileTracked(w'.s.files[h], w'.hist[h])
    requires forall g :: g in w'.s.files && g != h ==> g in w.s.files && w'.s.files[g] == w.s.files[g]
    requires forall g :: g in w.hist && g != h ==> g in w'.hist && w'.hist[g] == w.hist[g]
    ensures Tracked(w')
  {
  }

  lemma Noted(f: SimFile, x: Hist, f': SimFile, e: Event)
    requires FileTracked(f, x) && f'.durable <= |f'.data| && Image(f') == Effect(Image(f), e)
    ensures FileTracked(f', x.(events := x.events + [e]))
  {
    ReplayAppend(x.snap, x.events, e);
  }

  lemma OpenTracks(w: World, op: Op)
    requires Inv(w.s) && Tracked(w) && op.OpenOp?
    ensures Tracked(Step(w, op))
  {
    var (s', st, h) := Open(w.s, op.path, op.create, op.excl, op.truncate);
    if st == Ok {
      var f := if op.path in w.s.paths then w.s.files[h] else SimFile([], 0);
      var x := if op.path in w.s.paths then w.hist[h] else Hist([], []);
      assert FileTracked(f, x);
      if op.truncate {
        Noted(f, x, SimFile([], 0), Cut(0));
      }
      OneFile(w, Step(w, op), h);
    }
  }

  lemma WrittenTracked(f: SimFile, x: Hist, pos: nat, src: seq<Byte>, k: nat)
    requires FileTracked(f, x) && k <= |src|
    ensures FileTracked(Written(f, pos, src, k), x.(events := x.events + [Patch(pos, src[..k])]))
  {
    var grown := f.(data := Resize(f.data, pos + |src|));
    GrowthIsInvisible(f, pos + |src|);
    WriteIsAPatch(grown, pos, src[..k]);
    Noted(f, x, Written(f, pos, src, k), Patch(pos, src[..k]));
  }

  lemma WriteTracks(w: World, op: Op)
    requires Tracked(w) && op.WriteOp?
    ensures Tracked(Step(w, op))
  {
    if WriteAt(w.s, op.h, op.pos, op.src).1 == Ok {
      WriteChangesOneFile(w.s, op.h, op.pos, op.src);
      WrittenTracked(w.s.files[op.h], w.hist[op.h], op.pos, op.src, Applied(|op.src|, w.s.torn));
      OneFile(w, Step(w, op), op.h);
    }
  }

  lemma GrowTracks(w: World, op: Op)
    requires Tracked(w) && op.FallocateOp?
    ensures Tracked(Step(w, op))
  {
    if op.h in w.s.files {
      GrowthIsInvisible(w.s.files[op.h], op.offset + op.len);
    }
  }

  function Relengthened(f: SimFile, n: nat): SimFile {
    if n >= |f.data| then f.(data := Resize(f.data, n)) else SimFile(f.data[..n], Min(f.durable, n))
  }

  lemma RelengthenedTracked(f: SimFile, x: Hist, n: nat)
    requires FileTracked(f, x)
    ensures FileTracked(Relengthened(f, n), x.(events := x.events + [Cut(n)]))
  {
    if n >= |f.data| {
      GrowthIsInvisible(f, n);
      assert Effect(Image(f), Cut(n)) == Image(f);
    } else {
      ShrinkIsACut(f, n);
    }
    Noted(f, x, Relengthened(f, n), Cut(n));
  }

  lemma SetLenChangesOneFile(s: State, h: nat, n: nat)
    requires SetLen(s, h, n).1 == Ok
    ensures h in s.files && SetLen(s, h, n).0.files == s.files[h := Relengthened(s.files[h], n)]
  {
  }

  lemma SetLenTracks(w: World, op: Op)
    requires Tracked(w) && op.SetLenOp?
    ensures Tracked(Step(w, op))
  {
    if SetLen(w.s, op.h, op.n).1 == Ok {
      SetLenChangesOneFile(w.s, op.h, op.n);
      RelengthenedTracked(w.s.files[op.h], w.hist[op.h], op.n);
      OneFile(w, Step(w, op), op.h);
    }
  }

  lemma FsyncTracks(w: World, op: Op)
    requires Tracked(w) && op.FsyncOp?
    ensures Tracked(Step(w, op))
  {
    if op.h in w.s.files {
      var f := w.s.files[op.h];
      assert Image(f.(durable := |f.data|)) == f.data;
    }
  }

  lemma CrashTracks(w: World)
    requires Tracked(w)
    ensures Tracked(Step(w, CrashOp))
  {
    assert forall h :: h in w.s.files ==> Image(CrashFile(w.s.files[h])) == Image(w.s.files[h]);
  }

  lemma OthersTrack(w: World, op: Op)
    requires Tracked(w)
    requires op.CloseOp? || op.RenameOp? || op.RemoveOp? || op.SetDiskFull? || op.SetLies? || op.InjectTorn?
    ensures Tracked(Step(w, op))
  {
  }

  lemma StepTracks(w: World, op: Op)
    requires Inv(w.s) && Tracked(w)
    ensures Tracked(Step(w, op))
  {
    match op
    case OpenOp(_, _, _, _) => OpenTracks(w, op);
    case WriteOp(_, _, _) => WriteTracks(w, op);
    case FsyncOp(_) => FsyncTracks(w, op);
    case FallocateOp(_, _, _) => GrowTracks(w, op);
    case SetLenOp(_, _) => SetLenTracks(w, op);
    case CrashOp => CrashTracks(w);
    case _ => OthersTrack(w, op);
  }

  ghost function Run(ops: seq<Op>): World {
    if ops == [] then World(Fresh, map[]) else Step(Run(ops[..|ops| - 1]), ops[|ops| - 1])
  }

  lemma {:induction false} RunTracks(ops: seq<Op>)
    ensures Tracked(Run(ops)) && Run(ops).s == After(ops) && Inv(Run(ops).s)
  {
    if ops != [] {
      RunTracks(ops[..|ops| - 1]);
      StepTracks(Run(ops[..|ops| - 1]), ops[|ops| - 1]);
    }
    AccountsAlwaysBalance(ops);
  }

  /**
   For every history: a crash keeps every path, and the file behind it holds exactly the replay, on
   its content at the last honest fsync, of the cuts and of the parts of writes that fell inside it.
   */
  lemma CrashIsReplay(ops: seq<Op>, p: Path)
    requires p in After(ops).paths
    ensures var s := Crash(After(ops)); var h := After(ops).paths[p]; var hist := Run(ops).hist;
            && p in s.paths && s.paths[p] == h && h in s.files && h in hist
            && s.files[h].data == Replay(hist[h].snap, hist[h].events)
            && s.files[h].durable == |s.files[h].data| && h in s.closed
  {
    RunTracks(ops);
    var h := After(ops).paths[p];
    assert h in After(ops).files && FileTracked(After(ops).files[h], Run(ops).hist[h]);
  }

  // ---------------------------------------------------------------------------------------------
  // Histories that never write into the durable prefix
  // ---------------------------------------------------------------------------------------------

  /** The shortest length the file was set to since the snapshot. */
  function Shortest(snap: seq<Byte>, events: seq<Event>): nat {
    if events == [] then |snap|
    else
      var n := Shortest(snap, events[..|events| - 1]);
      var e := events[|events| - 1];
      if e.Cut? then Min(n, e.len) else n
  }

  /** No write starts below the durable length of its moment. */
  ghost predicate Appending(snap: seq<Byte>, events: seq<Event>) {
    forall i :: 0 <= i < |events| && events[i].Patch? ==> events[i].pos >= Shortest(snap, events[..i])
  }

  lemma {:induction false} ReplayLength(snap: seq<Byte>, events: seq<Event>)
    ensures |Replay(snap, events)| == Shortest(snap, events) <= |snap|
  {
    if events != [] {
      ReplayLength(snap, events[..|events| - 1]);
    }
  }

  /** What the last write over position `i` put there, if there was one. */
  function LastWritten(events: seq<Event>, i: nat): Option<Byte> {
    if events == [] then None
    else
      var e := events[|events| - 1];
      if e.Patch? && e.pos <= i < e.pos + |e.bytes| then Some(e.bytes[i - e.pos])
      else LastWritten(events[..|events| - 1], i)
  }

  lemma {:induction false} ReplayAt(snap: seq<Byte>, events: seq<Event>, i: nat)
    requires i < Shortest(snap, events)
    ensures i < |snap| && i < |Replay(snap, events)|
    ensures Replay(snap, events)[i] == match LastWritten(events, i) case None => snap[i] case Some(b) => b
  {
    ReplayLength(snap, events);
    if events != [] {
      var before := events[..|events| - 1];
      ReplayLength(snap, before);
      ReplayAt(snap, before, i);
    }
  }

  /** Below the shortest length set, every byte is the one of the snapshot or was last written as the same. */
  ghost predicate Restored(snap: seq<Byte>, events: seq<Event>) {
    forall i :: 0 <= i < Shortest(snap, events) && i < |snap| ==>
                  LastWritten(events, i) == None || LastWritten(events, i) == Some(snap[i])
  }

  lemma ReplayIsCutIff(snap: seq<Byte>, events: seq<Event>)
    ensures Shortest(snap, events) <= |snap|
    ensures Replay(snap, events) == snap[..Shortest(snap, events)] <==> Restored(snap, events)
  {
    ReplayLength(snap, events);
    var n := Shortest(snap, events);
    forall i | 0 <= i < n
      ensures Replay(snap, events)[i] == match LastWritten(events, i) case None => snap[i] case Some(b) => b
    {
      ReplayAt(snap, events, i);
    }
    if Replay(snap, events) == snap[..n] {
      forall i | 0 <= i < n ensures LastWritten(events, i) == None || LastWritten(events, i) == Some(snap[i]) {
        assert snap[..n][i] == snap[i];
      }
    }
  }

  /**
   For every history: a crash yields the content at the last honest fsync, cut to the shortest length
   set since, if and only if every byte overwritten below that length was last written as it had been.
   */
  lemma FileSurvivesIff(ops: seq<Op>, p: Path)
    requires p in After(ops).paths && After(ops).paths[p] in Run(ops).hist
    ensures var s := Crash(After(ops)); var x := Run(ops).hist[After(ops).paths[p]];
            && p in s.paths && s.paths[p] in s.files && Shortest(x.snap, x.events) <= |x.snap|
            && (s.files[s.paths[p]].data == x.snap[..Shortest(x.snap, x.events)] <==> Restored(x.snap, x.events))
  {
    CrashIsReplay(ops, p);
    var x := Run(ops).hist[After(ops).paths[p]];
    ReplayIsCutIff(x.snap, x.events);
  }

  lemma {:induction false} ShortestShrinks(snap: seq<Byte>, events: seq<Event>, k: nat)
    requires k <= |events|
    ensures Shortest(snap, events) <= Shortest(snap, events[..k])
  {
    var n := |events| - 1;
    if k <= n {
      ShortestShrinks(snap, events[..n], k);
      assert events[..n][..k] == events[..k];
    } else {
      assert events[..k] == events;
    }
  }

  lemma {:induction false} AppendingWritesBeyond(snap: seq<Byte>, events: seq<Event>, i: nat)
    requires Appending(snap, events) && i < Shortest(snap, events)
    ensures LastWritten(events, i) == None
  {
    if events != [] {
      var n := |events| - 1;
      ShortestShrinks(snap, events, n);
      assert forall k :: 0 <= k < n ==> events[..n][..k] == events[..k];
      AppendingWritesBeyond(snap, events[..n], i);
    }
  }

  /**
   In particular, if no write since the last honest fsync starts inside the durable prefix, a crash
   yields the content at that fsync, cut to the shortest length set since.
   */
  lemma AppendOnlyFilesSurvive(ops: seq<Op>, p: Path)
    requires p in After(ops).paths && After(ops).paths[p] in Run(ops).hist
    requires var x := Run(ops).hist[After(ops).paths[p]]; Appending(x.snap, x.events)
    ensures var s := Crash(After(ops)); var x := Run(ops).hist[After(ops).paths[p]];
            && p in s.paths && s.paths[p] in s.files && Shortest(x.snap, x.events) <= |x.snap|
            && s.files[s.paths[p]].data == x.snap[..Shortest(x.snap, x.events)]
  {
    FileSurvivesIff(ops, p);
    var x := Run(ops).hist[After(ops).paths[p]];
    forall i | 0 <= i < Shortest(x.snap, x.events) ensures LastWritten(x.events, i) == None {
      AppendingWritesBeyond(x.snap, x.events, i);
    }
  }

  lemma ClipChangesIff(img: seq<Byte>, pos: nat, bytes: seq<Byte>)
    ensures Clip(img, pos, bytes) != img
            <==> exists i :: 0 <= i < |bytes| && pos + i < |img| && bytes[i] != img[pos + i]
  {
    if i :| 0 <= i < |bytes| && pos + i < |img| && bytes[i] != img[pos + i] {
      assert Clip(img, pos, bytes)[pos + i] == bytes[i];
    } else {
      assert Clip(img, pos, bytes) == img;
    }
  }

  /** One of the bytes a write applies differs from the byte it replaces below the durable length. */
  ghost predicate HitsDurable(f: SimFile, pos: nat, bytes: seq<Byte>) {
    exists i :: 0 <= i < |bytes| && pos + i < f.durable <= |f.data| && bytes[i] != f.data[pos + i]
  }

  lemma HitIffImageChanges(f: SimFile, pos: nat, src: seq<Byte>, k: nat)
    requires f.durable <= |f.data| && k <= |src|
    ensures Image(Written(f, pos, src, k)) != Image(f) <==> HitsDurable(f, pos, src[..k])
  {
    GrowthIsInvisible(f, pos + |src|);
    WriteIsAPatch(f.(data := Resize(f.data, pos + |src|)), pos, src[..k]);
    ClipChangesIff(Image(f), pos, src[..k]);
  }

  /**
   In-place overwriting is where the model of durability as a length shows: after any history, a
   write changes what a crash leaves of its file if and only if it puts a different byte below the
   durable length.
   */
  lemma OverwriteShowsIff(ops: seq<Op>, h: nat, pos: nat, src: seq<Byte>)
    requires WriteAt(After(ops), h, pos, src).1 == Ok
    ensures var s := After(ops); var s' := WriteAt(s, h, pos, src).0;
            && h in s.files && h in s'.files
            && (CrashFile(s'.files[h]).data != CrashFile(s.files[h]).data
                <==> HitsDurable(s.files[h], pos, src[..Applied(|src|, s.torn)]))
  {
    AccountsAlwaysBalance(ops);
    var s := After(ops);
    WriteChangesOneFile(s, h, pos, src);
    HitIffImageChanges(s.files[h], pos, src, Applied(|src|, s.torn));
  }

  // ---------------------------------------------------------------------------------------------
  // It does happen
  // ---------------------------------------------------------------------------------------------

  const OneByte: seq<Op> := [OpenOp("f", true, false, false), WriteOp(0, 0, [1]), FsyncOp(0)]
  const Overwritten: seq<Op> := OneByte + [WriteOp(0, 0, [2])]
  const Twice: seq<Op> := Overwritten + [CrashOp]

  /** The worlds of the history above, file by file. */
  lemma OneByteHistory()
    ensures Run(OneByte) == World(OneFileDisk(1), map[0 := Hist([1], [])])
  {
    var made := World(State(map["f" := 0], map[0 := SimFile([], 0)], 1, {}, None, 0, false, None),
      map[0 := Hist([], [])]);
    assert Run([]) == World(Fresh, map[]);
    assert OneByte[..1] == [OneByte[0]] && OneByte[..1][..0] == [];
    assert Run(OneByte[..1]) == made;
    assert OneByte[..2][..1] == OneByte[..1] && OneByte[..2][1] == OneByte[1];
    var written := Step(made, OneByte[1]);
    assert Run(OneByte[..2]) == written;
    assert written.s.files[0].data == [1];
    assert OneByte[..2] == OneByte[..|OneByte| - 1];
  }

  lemma Extended(ops: seq<Op>, op: Op)
    ensures Run(ops + [op]) == Step(Run(ops), op)
  {
    assert (ops + [op])[..|ops|] == ops;
  }

  lemma {:induction false} RunIsAfter(ops: seq<Op>)
    ensures Run(ops).s == After(ops)
  {
    if ops != [] {
      RunIsAfter(ops[..|ops| - 1]);
    }
  }

  /** A disk with one file of one byte, which is durable. */
  ghost function OneFileDisk(b: Byte): State {
    State(map["f" := 0], map[0 := SimFile([b], 1)], 1, {}, None, 1, false, None)
  }

  lemma SecondWrite(s: State)
    requires s == OneFileDisk(1)
    ensures WriteAt(s, 0, 0, [2]) == (OneFileDisk(2), Ok) && [2][..Applied(1, s.torn)] == [2]
  {
    WriteChangesOneFile(s, 0, 0, [2]);
    assert [2][..1] == [2];
    assert Overwrite([1], 0, [2]) == [2];
    assert s.files[0 := SimFile([2], 1)] == map[0 := SimFile([2], 1)];
  }

  lemma SecondStep(w: World)
    requires w == World(OneFileDisk(1), map[0 := Hist([1], [])])
    ensures Step(w, WriteOp(0, 0, [2])) == World(OneFileDisk(2), map[0 := Hist([1], [Patch(0, [2])])])
  {
    SecondWrite(w.s);
    assert w.hist[0].events + [Patch(0, [2])] == [Patch(0, [2])];
    assert Note(w.hist, 0, Patch(0, [2])) == map[0 := Hist([1], [Patch(0, [2])])];
  }

  lemma CrashStep(w: World, b: Byte)
    requires w.s == OneFileDisk(b)
    ensures Step(w, CrashOp).hist == w.hist
    ensures Step(w, CrashOp).s.paths == w.s.paths && Step(w, CrashOp).s.files == w.s.files
  {
    assert [b][..1] == [b];
    assert CrashFiles(w.s.files) == w.s.files;
  }

  lemma OverwrittenHistory()
    ensures Run(Overwritten) == World(OneFileDisk(2), map[0 := Hist([1], [Patch(0, [2])])])
  {
    OneByteHistory();
    Extended(OneByte, WriteOp(0, 0, [2]));
    SecondStep(Run(OneByte));
  }

  lemma TwiceHistory()
    ensures Run(Twice).hist == Run(Overwritten).hist
    ensures Run(Twice).s.paths == Run(Overwritten).s.paths && Run(Twice).s.files == Run(Overwritten).s.files
  {
    OverwrittenHistory();
    Extended(Overwritten, CrashOp);
    CrashStep(Run(Overwritten), 2);
  }

  lemma CrashLeaves(s: State)
    requires s.files == map[0 := SimFile([2], 1)]
    ensures 0 in Crash(s).files && Crash(s).files[0].data == [2]
  {
    assert [2][..1] == [2];
  }

  lemma PatchIsNotRestored()
    ensures !Restored([1], [Patch(0, [2])])
  {
    var events: seq<Event> := [Patch(0, [2])];
    assert events[..0] == [];
    assert Shortest([1], events) == 1 && LastWritten(events, 0) == Some(2);
  }

  /**
   One byte written, synced and overwritten: the crash keeps the second value, which was never synced.
   A second crash keeps it again, and the content at the last honest fsync is still the first value.
   */
  lemma UnsyncedOverwriteSurvives()
    ensures After(Overwritten).paths == After(Twice).paths == map["f" := 0]
    ensures 0 in Run(Overwritten).hist && 0 in Run(Twice).hist
    ensures Run(Overwritten).hist[0].snap == Run(Twice).hist[0].snap == [1]
    ensures 0 in Crash(After(Overwritten)).files && Crash(After(Overwritten)).files[0].data == [2]
    ensures 0 in Crash(After(Twice)).files && Crash(After(Twice)).files[0].data == [2]
    ensures var x := Run(Twice).hist[0]; !Restored(x.snap, x.events)
  {
    OverwrittenHistory();
    TwiceHistory();
    RunIsAfter(Overwritten);
    RunIsAfter(Twice);
    CrashLeaves(After(Overwritten));
    CrashLeaves(After(Twice));
    PatchIsNotRestored();
  }

  /** Reading behind the end of a file that was just synced slices out of range. */
  lemma ReadBehindTheEnd()
    ensures ReadAt(After(OneByte), 0, 2, 0) == OutOfRange
  {
    OneByteHistory();
    RunIsAfter(OneByte);
  }
}
