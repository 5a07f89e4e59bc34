/**
 What the simulated disk looks like from outside: a map from paths to bytes.  Handles and the file
 table behind them implement it, as is shown here operation by operation for every state with sound
 accounts, which `SimDriver.AccountsAlwaysBalance` shows every history of operations to end in.
 */
module SimContents {
  import opened Base
  import opened SimDriver

  ghost function Contents(s: State): map<Path, seq<Byte>> {
    map p | p in s.paths && s.paths[p] in s.files :: s.files[s.paths[p]].data
  }

  /** Because paths and files correspond one to one, a change behind a handle shows at one path only. */
  lemma ChangeBehindHandle(s: State, s': State, p: Path, f: SimFile)
    requires PathsOk(s) && p in s.paths && s'.paths == s.paths && s'.files == s.files[s.paths[p] := f]
    ensures Contents(s') == Contents(s)[p := f.data]
  {
  }

  lemma CreateShows(s: State, p: Path)
    requires PathsOk(s) && FilesOk(s) && p !in s.paths
    ensures Contents(Created(s, p)) == Contents(s)[p := []]
  {
  }

  lemma TruncateShows(s: State, p: Path)
    requires PathsOk(s) && p in s.paths
    ensures Contents(Truncated(s, s.paths[p])) == Contents(s)[p := []]
  {
    ChangeBehindHandle(s, Truncated(s, s.paths[p]), p, SimFile([], 0));
  }

  lemma ClosingIsInvisible(s: State, closed: set<nat>)
    ensures Contents(s.(closed := closed)) == Contents(s)
  {
  }

  lemma OpenExistingShows(s: State, p: Path, create: bool, excl: bool, truncate: bool)
    requires PathsOk(s) && p in s.paths && !(create && excl)
    ensures var s' := Open(s, p, create, excl, truncate).0; var c := Contents(s);
            p in c && Contents(s') == if truncate then c[p := []] else c
  {
    var h := s.paths[p];
    var s2 := if truncate then Truncated(s, h) else s;
    if truncate { TruncateShows(s, p); }
    ClosingIsInvisible(s2, s2.closed - {h});
  }

  lemma OpenNewShows(s: State, p: Path, excl: bool, truncate: bool)
    requires PathsOk(s) && FilesOk(s) && p !in s.paths
    ensures Contents(Open(s, p, true, excl, truncate).0) == Contents(s)[p := []]
  {
    var s1, h := Created(s, p), s.nextHandle;
    CreateShows(s, p);
    var s2 := if truncate then Truncated(s1, h) else s1;
    assert s2.paths == s1.paths && s2.files == s1.files;
    assert Contents(s2) == Contents(s1);
    ClosingIsInvisible(s2, s2.closed - {h});
  }

  /** An open fails without any effect, finds the content, or leaves an empty file at the path. */
  lemma OpenShows(s: State, p: Path, create: bool, excl: bool, truncate: bool)
    requires PathsOk(s) && FilesOk(s)
    ensures var (s', st, h) := Open(s, p, create, excl, truncate); var c := Contents(s);
            && st == (if p in c && create && excl then AlreadyExists else if p !in c && !create then NotFound else Ok)
            && (st != Ok ==> s' == s)
            && (st == Ok && p in c && !truncate ==> Contents(s') == c)
            && (st == Ok && (p !in c || truncate) ==> Contents(s') == c[p := []])
            && (st == Ok ==> p in s'.paths && s'.paths[p] == h && h !in s'.closed)
  {
    if p in s.paths {
      if !(create && excl) { OpenExistingShows(s, p, create, excl, truncate); }
    } else if create {
      OpenNewShows(s, p, excl, truncate);
    }
  }

  /** A write through an open handle patches exactly the file its path names. */
  lemma WriteShows(s: State, p: Path, pos: nat, src: seq<Byte>)
    requires PathsOk(s) && p in s.paths
    ensures var (s', st) := WriteAt(s, s.paths[p], pos, src); var c := Contents(s);
            && p in c && (st == BadHandle <==> s.paths[p] in s.closed)
            && (st == Ok ==>
                  Contents(s') == c[p := Overwrite(Resize(c[p], pos + |src|), pos, src[..Applied(|src|, s.torn)])])
            && (st != Ok ==> s' == s)
  {
    var h := s.paths[p];
    var (s', st) := WriteAt(s, h, pos, src);
    if st == Ok {
      ChangeBehindHandle(s, s', p, s'.files[h]);
    }
  }

  /** A new length keeps the common prefix and fills up with zeros. */
  lemma SetLenShows(s: State, p: Path, n: nat)
    requires PathsOk(s) && p in s.paths
    ensures var (s', st) := SetLen(s, s.paths[p], n); var c := Contents(s);
            && p in c && (st == Ok || (st == NoSpace && s' == s))
            && (st == Ok ==> Contents(s') == c[p := if n < |c[p]| then c[p][..n] else c[p] + Zeros(n - |c[p]|)])
  {
    var h := s.paths[p];
    var (s', st) := SetLen(s, h, n);
    if st == Ok {
      assert n == |s.files[h].data| ==> s.files[h].data + Zeros(0) == s.files[h].data;
      ChangeBehindHandle(s, s', p, s'.files[h]);
    }
  }

  ghost function Renamed(c: map<Path, seq<Byte>>, from: Path, to: Path): map<Path, seq<Byte>> {
    if from in c then (c - {from})[to := c[from]] else c
  }

  lemma RenameShowsAt(s: State, from: Path, to: Path, q: Path)
    requires PathsOk(s)
    ensures var c', d := Contents(Rename(s, from, to).0), Renamed(Contents(s), from, to);
            (q in c' <==> q in d) && (q in c' ==> c'[q] == d[q])
  {
  }

  /** A rename moves the content, replacing whatever was at the target, and touches nothing else. */
  lemma RenameShows(s: State, from: Path, to: Path)
    requires PathsOk(s)
    ensures Rename(s, from, to).1 == (if from in Contents(s) then Ok else NotFound)
    ensures Contents(Rename(s, from, to).0) == Renamed(Contents(s), from, to)
  {
    forall q ensures var c', d := Contents(Rename(s, from, to).0), Renamed(Contents(s), from, to);
                     (q in c' <==> q in d) && (q in c' ==> c'[q] == d[q]) {
      RenameShowsAt(s, from, to, q);
    }
  }

  lemma RemoveShows(s: State, p: Path)
    requires PathsOk(s)
    ensures var (s', st) := Remove(s, p); var c := Contents(s);
            && st == (if p in c then Ok else NotFound)
            && Contents(s') == c - {p}
  {
  }

  /** Reading is a slice of the content, and fails exactly on a closed handle or past the end. */
  lemma ReadShows(s: State, p: Path, pos: nat, len: nat)
    requires PathsOk(s) && p in s.paths
    ensures var r := ReadAt(s, s.paths[p], pos, len); var c := Contents(s);
            && p in c
            && (r.ReadBadHandle? <==> s.paths[p] in s.closed)
            && (r.OutOfRange? <==> s.paths[p] !in s.closed && pos > |c[p]|)
            && (r.Data? ==> pos + |r.bytes| <= |c[p]| && r.bytes == c[p][pos..pos + |r.bytes|])
            && (r.Data? ==> |r.bytes| == len || (|r.bytes| < len && pos + |r.bytes| == |c[p]|))
  {
  }

  /** Preallocating fills up with zeros, through a closed handle as well; it never shortens. */
  lemma FallocateShows(s: State, p: Path, offset: nat, len: nat, closed: set<nat>)
    requires PathsOk(s) && p in s.paths
    ensures var (s', st) := Fallocate(s, s.paths[p], offset, len); var c := Contents(s);
            && p in c && (st == Ok || (st == NoSpace && s' == s))
            && (st == Ok ==> Contents(s') == c[p := Resize(c[p], offset + len)])
            && Fallocate(s.(closed := closed), s.paths[p], offset, len) == (s'.(closed := closed), st)
  {
    var h := s.paths[p];
    var (s', st) := Fallocate(s, h, offset, len);
    if st == Ok {
      ChangeBehindHandle(s, s', p, s'.files[h]);
    }
  }

  /** Syncing and closing leave every content as it is; they only decide what a crash or a read sees later. */
  lemma SyncAndCloseShowNothing(s: State, h: nat)
    requires PathsOk(s)
    ensures Contents(Fsync(s, h).0) == Contents(s)
    ensures Contents(Close(s, h)) == Contents(s)
    ensures forall p, pos, len :: p in s.paths && s.paths[p] == h ==>
              ReadAt(Close(s, h), s.paths[p], pos, len).ReadBadHandle?
  {
    ClosingIsInvisible(s, s.closed + {h});
    var s' := Fsync(s, h).0;
    assert forall g :: g in s.files ==> g in s'.files && s'.files[g].data == s.files[g].data;
  }

  /** A crash keeps every path with a prefix of its content, all of it exactly if it was durable to the end. */
  lemma CrashShows(s: State, p: Path)
    requires PathsOk(s) && FilesOk(s) && p in s.paths
    ensures var c, c' := Contents(s), Contents(Crash(s)); var n := s.files[s.paths[p]].durable;
            && c'.Keys == c.Keys && n <= |c[p]| && c'[p] == c[p][..n]
            && (c'[p] == c[p] <==> n == |c[p]|)
            && s.paths[p] in Crash(s).closed
  {
  }

  /** An honest fsync right before a crash is what keeps a file whole. */
  lemma SyncedContentSurvives(s: State, p: Path)
    requires PathsOk(s) && FilesOk(s) && p in s.paths && !s.lies && s.paths[p] !in s.closed
    ensures p in Contents(s) && p in Contents(Crash(Fsync(s, s.paths[p]).0))
    ensures Contents(Crash(Fsync(s, s.paths[p]).0))[p] == Contents(s)[p]
  {
    SyncAndCloseShowNothing(s, s.paths[p]);
    CrashShows(Fsync(s, s.paths[p]).0, p);
  }
}
