/**
 `SimDriver`: the in-memory file system with disk-full, lying-fsync, torn-write and crash faults.

 Every operation is a function on the state behind the driver's one lock; `Disk` is the object whose
 methods perform them.
 */
module SimDriver {
  import opened Base

  type Path = string
  type Fraction = r: real | 0.0 <= r <= 1.0

  datatype SimFile = SimFile(data: seq<Byte>, durable: nat)

  datatype State = State(
    paths: map<Path, nat>,
    files: map<nat, SimFile>,
    nextHandle: nat,
    closed: set<nat>,
    capacity: Option<nat>,
    used: nat,
    lies: bool,
    torn: Option<Fraction>
  )

  const Fresh := State(map[], map[], 0, {}, None, 0, false, None)

  datatype Status = Ok | BadHandle | NoSpace | NotFound | AlreadyExists
  datatype ReadResult = Data(bytes: seq<Byte>) | ReadBadHandle | OutOfRange

  function SaturatingSub(a: nat, b: nat): nat {
    if a >= b then a - b else 0
  }

  function Zeros(n: nat): seq<Byte> {
    seq(n, _ => 0)
  }

  function Resize(data: seq<Byte>, n: nat): seq<Byte> {
    if |data| < n then data + Zeros(n - |data|) else data
  }

  function LenAt(files: map<nat, SimFile>, h: nat): nat {
    if h in files then |files[h].data| else 0
  }

  /** Shared growth: zero-fills, and refuses what does not fit the configured disk. */
  function GrowTo(s: State, h: nat, n: nat): (State, bool) {
    var cur := LenAt(s.files, h);
    var growth := if n > cur then n - cur else 0;
    if growth > 0 && s.capacity.Some? && s.used + growth > s.capacity.value then (s, false)
    else (s.(used := s.used + growth,
             files := if h in s.files then s.files[h := s.files[h].(data := Resize(s.files[h].data, n))]
                      else s.files), true)
  }

  function Truncated(s: State, h: nat): State {
    if h in s.files then s.(used := SaturatingSub(s.used, |s.files[h].data|), files := s.files[h := SimFile([], 0)])
    else s
  }

  function Created(s: State, p: Path): State {
    s.(nextHandle := s.nextHandle + 1, paths := s.paths[p := s.nextHandle],
       files := s.files[s.nextHandle := SimFile([], 0)])
  }

  function Open(s: State, p: Path, create: bool, excl: bool, truncate: bool): (State, Status, nat) {
    if p in s.paths && create && excl then (s, AlreadyExists, 0)
    else if p !in s.paths && !create then (s, NotFound, 0)
    else
      var s1 := if p in s.paths then s else Created(s, p);
      var h := s1.paths[p];
      var s2 := if truncate then Truncated(s1, h) else s1;
      (s2.(closed := s2.closed - {h}), Ok, h)
  }

  /** A position past the end slices out of range in the source, even for an empty read. */
  function ReadAt(s: State, h: nat, pos: nat, len: nat): ReadResult {
    if h in s.closed || h !in s.files then ReadBadHandle
    else
      var data := s.files[h].data;
      if pos > |data| then OutOfRange else Data(data[pos..pos + Min(|data| - pos, len)])
  }

  /** How many bytes of a write of `n` a pending torn-write fault lets through. */
  function Applied(n: nat, torn: Option<Fraction>): (k: nat)
    ensures k <= n
  {
    match torn
    case None => n
    case Some(f) => var k := (n as real * f).Floor; if k < 0 then 0 else Min(k, n)
  }

  function Overwrite(data: seq<Byte>, pos: nat, bytes: seq<Byte>): seq<Byte>
    requires pos + |bytes| <= |data|
  {
    data[..pos] + bytes + data[pos + |bytes|..]
  }

  function Patched(s: State, h: nat, pos: nat, part: seq<Byte>): State
    requires h in s.files && pos + |part| <= |s.files[h].data|
  {
    s.(torn := None, files := s.files[h := s.files[h].(data := Overwrite(s.files[h].data, pos, part))])
  }

  function WriteAt(s: State, h: nat, pos: nat, src: seq<Byte>): (State, Status) {
    if h in s.closed || h !in s.files then (s, BadHandle)
    else
      var (s1, ok) := GrowTo(s, h, pos + |src|);
      if !ok then (s, NoSpace) else (Patched(s1, h, pos, src[..Applied(|src|, s.torn)]), Ok)
  }

  /** The type of a buffer length. */
  type Length32 = n: int | 0 <= n < 0x1_0000_0000

  /** A length cast to a signed 32-bit number. */
  function AsInt32(n: Length32): int {
    if n < 0x8000_0000 then n else n - 0x1_0000_0000
  }

  /** What a write of `n` bytes returns: its whole length even if torn, or a negated error number. */
  function WriteResult(st: Status, n: Length32): int {
    match st
    case Ok => AsInt32(n)
    case NoSpace => -28
    case _ => -9
  }

  /**
   The result is the length exactly for a successful write of less than 2^31 bytes, and a successful
   write looks failed exactly if it is longer.
   */
  lemma WriteReportsItsLengthIff(st: Status, n: Length32)
    ensures WriteResult(st, n) == n <==> st == Ok && n < 0x8000_0000
    ensures st == Ok ==> (WriteResult(st, n) < 0 <==> n >= 0x8000_0000)
    ensures (st == NoSpace ==> WriteResult(st, n) == -28) && (st == BadHandle ==> WriteResult(st, n) == -9)
  {
  }

  /** The shortest write that looks failed, into a new file on an unlimited disk. */
  lemma LongWriteLooksFailed(src: seq<Byte>)
    requires |src| == 0x8000_0000
    ensures var s := After([OpenOp("f", true, false, false)]);
            WriteAt(s, 0, 0, src).1 == Ok && WriteResult(Ok, |src|) == -0x8000_0000
  {
    assert [OpenOp("f", true, false, false)][..0] == [];
  }

  function Fsync(s: State, h: nat): (State, Status) {
    if h in s.closed then (s, BadHandle)
    else if s.lies then (s, Ok)
    else if h !in s.files then (s, BadHandle)
    else (s.(files := s.files[h := s.files[h].(durable := |s.files[h].data|)]), Ok)
  }

  function Fallocate(s: State, h: nat, offset: nat, len: nat): (State, Status) {
    if h !in s.files then (s, BadHandle)
    else var (s', ok) := GrowTo(s, h, offset + len); (s', if ok then Ok else NoSpace)
  }

  function SetLen(s: State, h: nat, n: nat): (State, Status) {
    if h !in s.files then (s, BadHandle)
    else if n >= |s.files[h].data| then
      var (s', ok) := GrowTo(s, h, n); (s', if ok then Ok else NoSpace)
    else
      var f := s.files[h];
      (s.(used := SaturatingSub(s.used, |f.data| - n),
          files := s.files[h := SimFile(f.data[..n], Min(f.durable, n))]), Ok)
  }

  function Close(s: State, h: nat): State {
    s.(closed := s.closed + {h})
  }

  /** Forgets a file that no path leads to any more. */
  function Unlinked(s: State, h: nat): State {
    if h in s.files then s.(used := SaturatingSub(s.used, |s.files[h].data|), files := s.files - {h}) else s
  }

  function Rename(s: State, from: Path, to: Path): (State, Status) {
    if from !in s.paths then (s, NotFound)
    else
      var h := s.paths[from];
      var paths := s.paths - {from};
      var s' := s.(paths := paths[to := h]);
      (if to in paths && paths[to] != h then Unlinked(s', paths[to]) else s', Ok)
  }

  function Remove(s: State, p: Path): (State, Status) {
    if p !in s.paths then (s, NotFound)
    else (Unlinked(s.(paths := s.paths - {p}), s.paths[p]), Ok)
  }

  /** Only the durable prefix of each file survives; every open handle does not. */
  function CrashFile(f: SimFile): SimFile {
    var n := Min(f.durable, |f.data|);
    SimFile(f.data[..n], n)
  }

  function CrashFiles(files: map<nat, SimFile>): map<nat, SimFile> {
    map h | h in files :: CrashFile(files[h])
  }

  ghost function Crash(s: State): State {
    State(s.paths, CrashFiles(s.files), s.nextHandle, s.paths.Values, s.capacity,
          TotalLen(CrashFiles(s.files), s.nextHandle), false, None)
  }

  /** Sum of the lengths of all files with a handle below `n`. */
  ghost function TotalLen(files: map<nat, SimFile>, n: nat): nat {
    if n == 0 then 0 else TotalLen(files, n - 1) + LenAt(files, n - 1)
  }

  // ---------------------------------------------------------------------------------------------
  // The driver object
  // ---------------------------------------------------------------------------------------------

  class Disk {
    var paths: map<Path, nat>
    var files: map<nat, SimFile>
    var nextHandle: nat
    var closed: set<nat>
    var capacity: Option<nat>
    var used: nat
    var lies: bool
    var torn: Option<Fraction>

    ghost function View(): State
      reads this
    {
      State(paths, files, nextHandle, closed, capacity, used, lies, torn)
    }

    constructor ()
      ensures View() == Fresh
    {
      paths, files, nextHandle, closed := map[], map[], 0, {};
      capacity, used, lies, torn := None, 0, false, None;
    }

    method Grow(h: nat, n: nat) returns (ok: bool)
      modifies this
      ensures (View(), ok) == GrowTo(old(View()), h, n)
    {
      var cur := if h in files then |files[h].data| else 0;
      if n > cur {
        var growth := n - cur;
        if capacity.Some? {
          if used + growth > capacity.value { return false; }
        }
        used := used + growth;
      }
      if h in files {
        var f := files[h];
        files := files[h := f.(data := if |f.data| < n then f.data + Zeros(n - |f.data|) else f.data)];
      }
      ok := true;
    }

    method OpenFile(p: Path, create: bool, excl: bool, truncate: bool) returns (st: Status, h: nat)
      modifies this
      ensures (View(), st, h) == Open(old(View()), p, create, excl, truncate)
    {
      if p in paths && create && excl { return AlreadyExists, 0; }
      if p !in paths && !create { return NotFound, 0; }
      if p in paths {
        h := paths[p];
      } else {
        h := nextHandle;
        nextHandle := nextHandle + 1;
        paths := paths[p := h];
        files := files[h := SimFile([], 0)];
      }
      if truncate && h in files {
        var oldLen := |files[h].data|;
        files := files[h := SimFile([], 0)];
        used := SaturatingSub(used, oldLen);
      }
      closed := closed - {h};
      st := Ok;
    }

    method Write(h: nat, pos: nat, src: seq<Byte>) returns (result: int, st: Status)
      requires |src| < 0x1_0000_0000
      modifies this
      ensures (View(), st) == WriteAt(old(View()), h, pos, src) && result == WriteResult(st, |src|)
    {
      if h in closed || h !in files { return -9, BadHandle; }
      var ok := Grow(h, pos + |src|);
      if !ok { return -28, NoSpace; }
      var n := Applied(|src|, torn);
      torn := None;
      files := files[h := files[h].(data := Overwrite(files[h].data, pos, src[..n]))];
      result, st := AsInt32(|src|), Ok;
    }

    method Read(h: nat, pos: nat, len: nat) returns (r: ReadResult)
      ensures r == ReadAt(View(), h, pos, len)
    {
      if h in closed || h !in files { return ReadBadHandle; }
      var data := files[h].data;
      var avail := SaturatingSub(|data|, pos);
      var n := Min(avail, len);
      if pos + n > |data| { return OutOfRange; }
      r := Data(data[pos..pos + n]);
    }

    method Sync(h: nat) returns (st: Status)
      modifies this
      ensures (View(), st) == Fsync(old(View()), h)
    {
      if h in closed { return BadHandle; }
      if lies { return Ok; }
      if h !in files { return BadHandle; }
      files := files[h := files[h].(durable := |files[h].data|)];
      st := Ok;
    }

    method SetLength(h: nat, n: nat) returns (st: Status)
      modifies this
      ensures (View(), st) == SetLen(old(View()), h, n)
    {
      if h !in files { return BadHandle; }
      var cur := |files[h].data|;
      if n >= cur {
        var ok := Grow(h, n);
        return if ok then Ok else NoSpace;
      }
      files := files[h := SimFile(files[h].data[..n], Min(files[h].durable, n))];
      used := SaturatingSub(used, cur - n);
      st := Ok;
    }

    /** Unlike reads and writes this does not mind a closed handle. */
    method Preallocate(h: nat, offset: nat, len: nat) returns (st: Status)
      modifies this
      ensures (View(), st) == Fallocate(old(View()), h, offset, len)
    {
      if h !in files { return BadHandle; }
      var ok := Grow(h, offset + len);
      st := if ok then Ok else NoSpace;
    }

    method CloseHandle(h: nat)
      modifies this`closed
      ensures View() == Close(old(View()), h)
    {
      closed := closed + {h};
    }

    method SetDiskFullAt(bytes: nat)
      modifies this`capacity
      ensures View() == Apply(old(View()), SetDiskFull(bytes))
    {
      capacity := Some(bytes);
    }

    method SetFsyncLies(on: bool)
      modifies this`lies
      ensures View() == Apply(old(View()), SetLies(on))
    {
      lies := on;
    }

    method InjectTornWrite(fraction: Fraction)
      modifies this`torn
      ensures View() == Apply(old(View()), InjectTorn(fraction))
    {
      torn := Some(fraction);
    }

    method RenameFile(from: Path, to: Path) returns (st: Status)
      modifies this
      ensures (View(), st) == Rename(old(View()), from, to)
    {
      if from !in paths { return NotFound; }
      var h := paths[from];
      paths := paths - {from};
      var previous := if to in paths then Some(paths[to]) else None;
      paths := paths[to := h];
      if previous.Some? && previous.value != h && previous.value in files {
        used := SaturatingSub(used, |files[previous.value].data|);
        files := files - {previous.value};
      }
      st := Ok;
    }

    method RemoveFile(p: Path) returns (st: Status)
      modifies this
      ensures (View(), st) == Remove(old(View()), p)
    {
      if p !in paths { return NotFound; }
      var h := paths[p];
      paths := paths - {p};
      if h in files {
        used := SaturatingSub(used, |files[h].data|);
        files := files - {h};
      }
      st := Ok;
    }

    /** A new driver holding what was durable, the files visited in whatever order. */
    method CrashAndReopen() returns (d: Disk)
      requires forall h :: h in files ==> h < nextHandle
      ensures fresh(d) && d.View() == Crash(View())
    {
      var kept: map<nat, SimFile> := map[];
      var total := 0;
      var todo := files.Keys;
      EmptyTotal(nextHandle);
      while todo != {}
        invariant todo <= files.Keys
        invariant kept.Keys == files.Keys - todo
        invariant forall h :: h in kept ==> kept[h] == CrashFile(files[h])
        invariant total == TotalLen(kept, nextHandle)
        decreases todo
      {
        var h :| h in todo;
        var f := files[h];
        var durable := f.data[..Min(f.durable, |f.data|)];
        total := total + |durable|;
        TotalChange(kept, kept[h := SimFile(durable, |durable|)], nextHandle, h);
        kept := kept[h := SimFile(durable, |durable|)];
        todo := todo - {h};
      }
      assert kept == CrashFiles(files);
      d := new Disk();
      d.paths, d.files, d.nextHandle, d.closed := paths, kept, nextHandle, paths.Values;
      d.capacity, d.used := capacity, total;
    }
  }

  lemma {:induction false} EmptyTotal(n: nat)
    ensures TotalLen(map[], n) == 0
  {
    if n > 0 {
      EmptyTotal(n - 1);
    }
  }

  // ---------------------------------------------------------------------------------------------
  // Accounting
  // ---------------------------------------------------------------------------------------------

  ghost predicate PathsOk(s: State) {
    && (forall p :: p in s.paths ==> s.paths[p] in s.files)
    && (forall h :: h in s.files ==> exists p :: p in s.paths && s.paths[p] == h)
    && (forall p, q :: p in s.paths && q in s.paths && p != q ==> s.paths[p] != s.paths[q])
  }

  ghost predicate FilesOk(s: State) {
    forall h :: h in s.files ==> h < s.nextHandle && s.files[h].durable <= |s.files[h].data|
  }

  ghost predicate Inv(s: State) {
    PathsOk(s) && FilesOk(s) && s.used == TotalLen(s.files, s.nextHandle)
  }

  lemma {:induction false} TotalChange(files: map<nat, SimFile>, files': map<nat, SimFile>, n: nat, h: nat)
    requires forall i :: 0 <= i < n && i != h ==> LenAt(files', i) == LenAt(files, i)
    ensures TotalLen(files', n) == TotalLen(files, n) + (if h < n then LenAt(files', h) - LenAt(files, h) else 0)
  {
    if n > 0 {
      TotalChange(files, files', n - 1, h);
    }
  }

  lemma {:induction false} OneFileFits(files: map<nat, SimFile>, n: nat, h: nat)
    requires h < n
    ensures LenAt(files, h) <= TotalLen(files, n)
  {
    if h < n - 1 {
      OneFileFits(files, n - 1, h);
    }
  }

  /** Changing the content of one file and the total by the same amount keeps the books. */
  lemma Resized(s: State, h: nat, f: SimFile, used: nat)
    requires Inv(s) && h in s.files && f.durable <= |f.data| && used == s.used + |f.data| - |s.files[h].data|
    ensures Inv(s.(used := used, files := s.files[h := f]))
  {
    TotalChange(s.files, s.files[h := f], s.nextHandle, h);
  }

  lemma GrowKeepsInv(s: State, h: nat, n: nat)
    requires Inv(s) && h in s.files
    ensures Inv(GrowTo(s, h, n).0)
  {
    var f := s.files[h];
    Resized(s, h, f.(data := Resize(f.data, n)), s.used + (if n > |f.data| then n - |f.data| else 0));
  }

  lemma PatchKeepsInv(s: State, h: nat, pos: nat, part: seq<Byte>)
    requires Inv(s) && h in s.files && pos + |part| <= |s.files[h].data|
    ensures Inv(Patched(s, h, pos, part))
  {
    Resized(s, h, s.files[h].(data := Overwrite(s.files[h].data, pos, part)), s.used);
  }

  lemma WriteKeepsInv(s: State, h: nat, pos: nat, src: seq<Byte>)
    requires Inv(s)
    ensures Inv(WriteAt(s, h, pos, src).0)
  {
    if h in s.files && h !in s.closed {
      var (s1, ok) := GrowTo(s, h, pos + |src|);
      if ok {
        GrowKeepsInv(s, h, pos + |src|);
        PatchKeepsInv(s1, h, pos, src[..Applied(|src|, s.torn)]);
      }
    }
  }

  lemma TruncateKeepsInv(s: State, h: nat)
    requires Inv(s)
    ensures Inv(Truncated(s, h))
    ensures h in s.files ==> s.used >= |s.files[h].data|
  {
    if h in s.files {
      OneFileFits(s.files, s.nextHandle, h);
      Resized(s, h, SimFile([], 0), s.used - |s.files[h].data|);
    }
  }

  lemma CreateKeepsInv(s: State, p: Path)
    requires Inv(s) && p !in s.paths
    ensures Inv(Created(s, p))
  {
    var s' := Created(s, p);
    TotalChange(s.files, s'.files, s'.nextHandle, s.nextHandle);
    forall h | h in s'.files ensures exists q :: q in s'.paths && s'.paths[q] == h {
      if h == s.nextHandle {
        assert s'.paths[p] == h;
      } else {
        var q :| q in s.paths && s.paths[q] == h;
        assert s'.paths[q] == h;
      }
    }
  }

  lemma OpenKeepsInv(s: State, p: Path, create: bool, excl: bool, truncate: bool)
    requires Inv(s)
    ensures Inv(Open(s, p, create, excl, truncate).0)
  {
    if p !in s.paths && create {
      CreateKeepsInv(s, p);
      TruncateKeepsInv(Created(s, p), s.nextHandle);
    } else if p in s.paths {
      TruncateKeepsInv(s, s.paths[p]);
    }
  }

  lemma SetLenKeepsInv(s: State, h: nat, n: nat)
    requires Inv(s)
    ensures Inv(SetLen(s, h, n).0)
    ensures h in s.files && n < |s.files[h].data| ==> s.used >= |s.files[h].data| - n
  {
    if h in s.files {
      OneFileFits(s.files, s.nextHandle, h);
      if n >= |s.files[h].data| {
        GrowKeepsInv(s, h, n);
      } else {
        Resized(s, h, SimFile(s.files[h].data[..n], Min(s.files[h].durable, n)), s.used - (|s.files[h].data| - n));
      }
    }
  }

  lemma FsyncKeepsInv(s: State, h: nat)
    requires Inv(s)
    ensures Inv(Fsync(s, h).0)
  {
    if h in s.files {
      Resized(s, h, s.files[h].(durable := |s.files[h].data|), s.used);
    }
  }

  /** A file and all paths to it leave together. */
  lemma UnlinkKeepsInv(s: State, s': State, h: nat)
    requires Inv(s) && h in s.files
    requires s' == s.(paths := s'.paths)
    requires PathsOk(s'.(files := s.files - {h}))
    ensures Inv(Unlinked(s', h)) && s.used >= |s.files[h].data|
  {
    OneFileFits(s.files, s.nextHandle, h);
    TotalChange(s.files, s.files - {h}, s.nextHandle, h);
  }

  lemma RemoveKeepsInv(s: State, p: Path)
    requires Inv(s)
    ensures Inv(Remove(s, p).0)
  {
    if p in s.paths {
      var h, s' := s.paths[p], s.(paths := s.paths - {p});
      forall g | g in s.files - {h} ensures exists q :: q in s'.paths && s'.paths[q] == g {
        var q :| q in s.paths && s.paths[q] == g;
        assert s'.paths[q] == g;
      }
      UnlinkKeepsInv(s, s', h);
    }
  }

  lemma RenameKeepsInv(s: State, from: Path, to: Path)
    requires Inv(s)
    ensures Inv(Rename(s, from, to).0)
  {
    if from in s.paths {
      var h, s' := s.paths[from], s.(paths := (s.paths - {from})[to := s.paths[from]]);
      var gone := if to in s.paths && to != from then {s.paths[to]} else {};
      forall g | g in s.files - gone ensures exists q :: q in s'.paths && s'.paths[q] == g {
        var q :| q in s.paths && s.paths[q] == g;
        assert s'.paths[if q == from then to else q] == g;
      }
      assert PathsOk(s'.(files := s.files - gone));
      if gone != {} {
        UnlinkKeepsInv(s, s', s.paths[to]);
      } else {
        assert s.files - gone == s.files;
      }
    }
  }

  lemma CrashKeepsInv(s: State)
    requires Inv(s)
    ensures Inv(Crash(s))
  {
  }

  /** A file after a write of which the first `k` bytes were applied. */
  function Written(f: SimFile, pos: nat, src: seq<Byte>, k: nat): SimFile
    requires k <= |src|
  {
    f.(data := Overwrite(Resize(f.data, pos + |src|), pos, src[..k]))
  }

  lemma WriteChangesOneFile(s: State, h: nat, pos: nat, src: seq<Byte>)
    requires WriteAt(s, h, pos, src).1 == Ok
    ensures h in s.files
    ensures WriteAt(s, h, pos, src).0.files == s.files[h := Written(s.files[h], pos, src, Applied(|src|, s.torn))]
  {
  }

  lemma OverwrittenSlice(data: seq<Byte>, pos: nat, part: seq<Byte>, n: nat)
    requires |part| <= n && pos + n <= |data|
    ensures Overwrite(data, pos, part)[pos..pos + n] == part + data[pos + |part|..pos + n]
  {
    var a, b := data[..pos], data[pos + |part|..];
    assert Overwrite(data, pos, part) == a + (part + b);
    assert (a + (part + b))[pos..pos + n] == (part + b)[..n];
    assert (part + b)[..n] == part + b[..n - |part|];
  }

  lemma WrittenSlice(s: State, h: nat, f: SimFile, pos: nat, src: seq<Byte>, k: nat)
    requires h in s.files && h !in s.closed && k <= |src| && s.files[h] == Written(f, pos, src, k)
    ensures ReadAt(s, h, pos, |src|) == Data(src[..k] + Resize(f.data, pos + |src|)[pos + k..pos + |src|])
    ensures k == |src| ==> ReadAt(s, h, pos, |src|) == Data(src)
  {
    var data := Resize(f.data, pos + |src|);
    OverwrittenSlice(data, pos, src[..k], |src|);
    assert k == |src| ==> src[..k] + data[pos + k..pos + |src|] == src;
  }

  /**
   Reading a successful write back gives its bytes up to where a pending fault tore it, and after
   that what was there before, or zeros where the file had to grow; no other file changes.
   */
  lemma WrittenBytesReadBack(s: State, h: nat, pos: nat, src: seq<Byte>)
    requires WriteAt(s, h, pos, src).1 == Ok
    ensures var s' := WriteAt(s, h, pos, src).0;
            var k := Applied(|src|, s.torn);
            && ReadAt(s', h, pos, |src|) == Data(src[..k] + Resize(s.files[h].data, pos + |src|)[pos + k..pos + |src|])
            && (s.torn.None? ==> ReadAt(s', h, pos, |src|) == Data(src))
            && forall g :: g != h ==> (g in s'.files <==> g in s.files) && (g in s.files ==> s'.files[g] == s.files[g])
  {
    WriteChangesOneFile(s, h, pos, src);
    WrittenSlice(WriteAt(s, h, pos, src).0, h, s.files[h], pos, src, Applied(|src|, s.torn));
  }

  // ---------------------------------------------------------------------------------------------
  // Every history of operations
  // ---------------------------------------------------------------------------------------------

  datatype Op =
    | OpenOp(path: Path, create: bool, excl: bool, truncate: bool)
    | WriteOp(h: nat, pos: nat, src: seq<Byte>)
    | FsyncOp(h: nat)
    | FallocateOp(h: nat, offset: nat, len: nat)
    | SetLenOp(h: nat, n: nat)
    | CloseOp(h: nat)
    | RenameOp(path: Path, to: Path)
    | RemoveOp(path: Path)
    | SetDiskFull(bytes: nat)
    | SetLies(on: bool)
    | InjectTorn(fraction: Fraction)
    | CrashOp

  ghost function Apply(s: State, op: Op): State {
    match op
    case OpenOp(p, create, excl, truncate) => Open(s, p, create, excl, truncate).0
    case WriteOp(h, pos, src) => WriteAt(s, h, pos, src).0
    case FsyncOp(h) => Fsync(s, h).0
    case FallocateOp(h, offset, len) => Fallocate(s, h, offset, len).0
    case SetLenOp(h, n) => SetLen(s, h, n).0
    case CloseOp(h) => Close(s, h)
    case RenameOp(p, to) => Rename(s, p, to).0
    case RemoveOp(p) => Remove(s, p).0
    case SetDiskFull(bytes) => s.(capacity := Some(bytes))
    case SetLies(on) => s.(lies := on)
    case InjectTorn(fraction) => s.(torn := Some(fraction))
    case CrashOp => Crash(s)
  }

  lemma KnobsKeepInv(s: State, op: Op)
    requires Inv(s) && (op.CloseOp? || op.SetDiskFull? || op.SetLies? || op.InjectTorn?)
    ensures Inv(Apply(s, op))
  {
  }

  lemma FallocateKeepsInv(s: State, h: nat, offset: nat, len: nat)
    requires Inv(s)
    ensures Inv(Fallocate(s, h, offset, len).0)
  {
    if h in s.files {
      GrowKeepsInv(s, h, offset + len);
    }
  }

  lemma StepKeepsInv(s: State, op: Op)
    requires Inv(s)
    ensures Inv(Apply(s, op))
  {
    match op
    case OpenOp(p, create, excl, truncate) => OpenKeepsInv(s, p, create, excl, truncate);
    case WriteOp(h, pos, src) => WriteKeepsInv(s, h, pos, src);
    case FsyncOp(h) => FsyncKeepsInv(s, h);
    case FallocateOp(h, offset, len) => FallocateKeepsInv(s, h, offset, len);
    case SetLenOp(h, n) => SetLenKeepsInv(s, h, n);
    case RenameOp(p, to) => RenameKeepsInv(s, p, to);
    case RemoveOp(p) => RemoveKeepsInv(s, p);
    case CrashOp => CrashKeepsInv(s);
    case _ => KnobsKeepInv(s, op);
  }

  ghost function After(ops: seq<Op>): State {
    if ops == [] then Fresh else Apply(After(ops[..|ops| - 1]), ops[|ops| - 1])
  }

  /**
   After any history: the bytes in use are the sum of all file lengths, paths and files correspond
   one to one, and no durable length exceeds its file.
   */
  lemma {:induction false} AccountsAlwaysBalance(ops: seq<Op>)
    ensures Inv(After(ops))
  {
    if ops != [] {
      AccountsAlwaysBalance(ops[..|ops| - 1]);
      StepKeepsInv(After(ops[..|ops| - 1]), ops[|ops| - 1]);
    }
  }

  /** None of the saturating subtractions ever saturates: one file never outweighs the total. */
  lemma NothingSaturates(ops: seq<Op>, h: nat)
    requires h in After(ops).files
    ensures |After(ops).files[h].data| <= After(ops).used
  {
    AccountsAlwaysBalance(ops);
    OneFileFits(After(ops).files, After(ops).nextHandle, h);
  }

  /** Growth is granted exactly if it is none at all or the new total of all files fits the disk. */
  lemma GrowthIffItFits(ops: seq<Op>, h: nat, n: nat)
    requires h in After(ops).files
    ensures var s := After(ops);
            var grown := s.files[h := s.files[h].(data := Resize(s.files[h].data, n))];
            && (GrowTo(s, h, n).1
                <==> n <= |s.files[h].data| || s.capacity.None? || TotalLen(grown, s.nextHandle) <= s.capacity.value)
            && (GrowTo(s, h, n).1 ==> GrowTo(s, h, n).0.files == grown)
            && (!GrowTo(s, h, n).1 ==> GrowTo(s, h, n).0 == s)
  {
    AccountsAlwaysBalance(ops);
    var s := After(ops);
    TotalChange(s.files, s.files[h := s.files[h].(data := Resize(s.files[h].data, n))], s.nextHandle, h);
  }

  /** A file can be `n` bytes long: the disk has no limit, the file does not grow, or the new total fits. */
  ghost predicate Fits(s: State, h: nat, n: nat)
    requires h in s.files
  {
    || s.capacity.None?
    || n <= |s.files[h].data|
    || TotalLen(s.files[h := s.files[h].(data := Resize(s.files[h].data, n))], s.nextHandle) <= s.capacity.value
  }

  /** After any history a write to an open file succeeds if and only if its end fits the disk. */
  lemma WriteSucceedsIff(ops: seq<Op>, h: nat, pos: nat, src: seq<Byte>)
    ensures var s := After(ops);
            WriteAt(s, h, pos, src).1 ==
            if h in s.closed || h !in s.files then BadHandle else if Fits(s, h, pos + |src|) then Ok else NoSpace
  {
    if h in After(ops).files { GrowthIffItFits(ops, h, pos + |src|); }
  }

  /** So does a new length of any file that exists. */
  lemma SetLenSucceedsIff(ops: seq<Op>, h: nat, n: nat)
    ensures var s := After(ops);
            SetLen(s, h, n).1 == if h !in s.files then BadHandle else if Fits(s, h, n) then Ok else NoSpace
  {
    if h in After(ops).files { GrowthIffItFits(ops, h, n); }
  }

  lemma FallocateSucceedsIff(ops: seq<Op>, h: nat, offset: nat, len: nat)
    ensures var s := After(ops);
            Fallocate(s, h, offset, len).1 ==
            if h !in s.files then BadHandle else if Fits(s, h, offset + len) then Ok else NoSpace
  {
    if h in After(ops).files { GrowthIffItFits(ops, h, offset + len); }
  }

  /** Growing keeps every byte and adds zeros. */
  lemma GrowthIsZeros(data: seq<Byte>, n: nat, i: nat)
    ensures |Resize(data, n)| == if n > |data| then n else |data|
    ensures i < |Resize(data, n)| ==> Resize(data, n)[i] == if i < |data| then data[i] else 0
  {
  }

  /** A torn write applies its fraction of the bytes, rounded down; any other applies all of them. */
  lemma AppliedIsTheFraction(n: nat, f: Fraction)
    ensures Applied(n, None) == n
    ensures Applied(n, Some(f)) as real <= n as real * f < (Applied(n, Some(f)) + 1) as real
  {
    var x := n as real * f;
    assert 0.0 <= x <= n as real;
    assert x.Floor as real <= x < (x.Floor + 1) as real;
  }

  /** A write that succeeds uses the fault up; one that fails changes nothing, and neither touches the settings. */
  lemma FaultIsUsedOnce(s: State, h: nat, pos: nat, src: seq<Byte>)
    ensures var (s', st) := WriteAt(s, h, pos, src);
            && (st == Ok ==> s' == s.(torn := None, used := s'.used, files := s'.files))
            && (st != Ok ==> s' == s)
  {
  }

  /** Of the settings a crash keeps the size of the disk only, and exactly the handles that paths lead to are closed. */
  lemma CrashKeepsOnlyTheLimit(s: State, h: nat)
    ensures var s' := Crash(s);
            && s'.capacity == s.capacity && !s'.lies && s'.torn == None
            && s'.paths == s.paths && s'.nextHandle == s.nextHandle
            && (h in s'.closed <==> exists p :: p in s.paths && s.paths[p] == h)
  {
  }

  /**
   An fsync reports success if and only if the handle is not closed and either the disk lies or the file
   exists.  Honest success makes the whole file durable; lying changes nothing at all.
   */
  lemma SyncSucceedsIff(s: State, h: nat)
    ensures Fsync(s, h).1 == Ok <==> h !in s.closed && (s.lies || h in s.files)
    ensures Fsync(s, h).1 != Ok || s.lies ==> Fsync(s, h).0 == s
    ensures Fsync(s, h).1 == Ok && !s.lies ==>
              Fsync(s, h).0.files == s.files[h := SimFile(s.files[h].data, |s.files[h].data|)]
  {
  }

  /** A lying disk syncs even a handle that was never opened. */
  lemma SyncOfNothing(h: nat)
    ensures h !in After([SetLies(true)]).files && Fsync(After([SetLies(true)]), h).1 == Ok
  {
    assert After([]) == Fresh;
    assert [SetLies(true)][..0] == [];
  }
}
