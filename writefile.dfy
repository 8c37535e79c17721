/**
 * The writefile package: write a file's new content to a temporary file in
 * the same directory, then rename it over the target, so that the target
 * never holds partial content. `New` first follows symbolic links from the
 * target, so that the file replaced is the one the links lead to, and
 * `Commit` carries the replaced file's permission bits over.
 */
module WriteFile {
  import opened Wrappers
  import opened WriteFs

  /** The most symbolic links `New` follows before giving up. */
  const MaxSymlinkDeref: nat := 16

  /** Where following symbolic links from a path ends. */
  datatype Walked =
    | Resolved(path: Path)             // an absent path or a regular file: the file to replace
    | Failed(at: Path, err: Error)     // the walk stopped at `at` with this error

  /**
   * The symbolic-link walk of `New`, started from target and now at cur
   * with `budget` more lstat calls allowed. An absent entry or a regular
   * file ends the walk; a symbolic link is read and followed; any other
   * entry, too many links, or an lstat or readlink failure stops it.
   */
  function Walk(st: FsState, lib: PathLib, target: Path, cur: Path, budget: nat): Walked
    decreases budget
  {
    if budget == 0 then Failed(cur, PathError("open", target, Loop))
    else
      var info := LstatIn(st, cur);
      if info.Err? && !IsNotExist(info.error) then Failed(cur, info.error)
      else if info.Err? || info.value.Regular? then Resolved(cur)
      else if info.value.Symlink? then
        var tgt := ReadlinkIn(st, cur);
        if tgt.Err? then Failed(cur, tgt.error)
        else Walk(st, lib, target, NextHop(lib, cur, tgt.value), budget - 1)
      else Failed(cur, PathError("open", target, NotRegular))
  }

  /**
   * The outcome of `New` on a file system in state st: the new state, the
   * final file name, and either the temporary file or the error. A
   * temporary file is opened only where the walk ended at an absent path
   * or a regular file, and only in that path's directory; no entry that
   * existed before is altered.
   */
  function NewSpec(st: FsState, lib: PathLib, target: Path): (r: (FsState, Path, Option<File>, Option<Error>))
    ensures r.2.Some? <==> r.3.None?
    ensures r.0.faults == st.faults
    ensures forall p :: p in st.entries ==> p in r.0.entries && r.0.entries[p] == st.entries[p]
    ensures r.2.Some? ==>
      (Lstat, r.1) !in st.faults && (r.1 !in st.entries || st.entries[r.1].Regular?) &&
      r.2.value.name == lib.tempName(lib.dir(r.1), st.nextTemp) && r.2.value.name !in st.entries &&
      r.0.entries == st.entries[r.2.value.name := Regular([], TempPerm)] && r.0.open == st.open + {r.2.value.name}
    // a failure creates nothing and leaves every handle as it was; only the name generator may have moved on
    ensures r.3.Some? ==> r.0.entries == st.entries && r.0.open == st.open
    ensures r.0.nextTemp == st.nextTemp || r.0.nextTemp == st.nextTemp + 1
  {
    match Walk(st, lib, target, target, MaxSymlinkDeref)
    case Resolved(p) =>
      WalkResolved(st, lib, target, target, MaxSymlinkDeref);
      var (st', r) := CreateTempIn(st, lib, lib.dir(p));
      (st', p, if r.Ok? then Some(r.value) else None, if r.Err? then Some(r.error) else None)
    case Failed(at, e) => (st, at, None, Some(e))
  }

  /**
   * Where the walk reaches p and the directory of p accepts a new file, `New`
   * returns p as the final name and a fresh, empty temporary file of mode
   * 0o600 in that directory, open for writing; nothing else changes.
   */
  lemma NewOpens(st: FsState, lib: PathLib, target: Path, p: Path)
    requires Walk(st, lib, target, target, MaxSymlinkDeref) == Resolved(p)
    requires (Create, lib.dir(p)) !in st.faults && lib.tempName(lib.dir(p), st.nextTemp) !in st.entries
    ensures var name := lib.tempName(lib.dir(p), st.nextTemp);
      NewSpec(st, lib, target) ==
        (st.(entries := st.entries[name := Regular([], TempPerm)], open := st.open + {name}, nextTemp := st.nextTemp + 1),
         p, Some(File(name)), None)
  {
  }

  /** A walk that succeeds ends, without an lstat failure, at an absent path or at a regular file. */
  lemma {:induction false} WalkResolved(st: FsState, lib: PathLib, target: Path, cur: Path, budget: nat)
    requires Walk(st, lib, target, cur, budget).Resolved?
    ensures var p := Walk(st, lib, target, cur, budget).path;
      (Lstat, p) !in st.faults && (p !in st.entries || st.entries[p].Regular?)
    decreases budget
  {
    if budget > 0 && cur in st.entries && st.entries[cur].Symlink? && (Lstat, cur) !in st.faults {
      WalkResolved(st, lib, target, NextHop(lib, cur, st.entries[cur].target), budget - 1);
    }
  }

  /**
   * A walk that fails names the original target when it ran out of hops or
   * reached an entry that is neither a regular file nor a symbolic link, and
   * otherwise passes on the lstat or readlink error of the hop it stopped
   * at, which names that hop.
   */
  lemma {:induction false} WalkFailed(st: FsState, lib: PathLib, target: Path, cur: Path, budget: nat)
    requires Walk(st, lib, target, cur, budget).Failed?
    ensures var w := Walk(st, lib, target, cur, budget);
      w.err == PathError("open", target, Loop) ||
      (w.err == PathError("open", target, NotRegular) &&
        (Lstat, w.at) !in st.faults && w.at in st.entries && st.entries[w.at].Other?) ||
      (w.err == PathError("lstat", w.at, w.err.cause) && (Lstat, w.at) in st.faults) ||
      (w.err == PathError("readlink", w.at, w.err.cause) && (Readlink, w.at) in st.faults &&
        w.at in st.entries && st.entries[w.at].Symlink?)
    decreases budget
  {
    if budget > 0 && cur in st.entries && st.entries[cur].Symlink? && (Lstat, cur) !in st.faults && (Readlink, cur) !in st.faults {
      WalkFailed(st, lib, target, NextHop(lib, cur, st.entries[cur].target), budget - 1);
    }
  }

  /**
   * Two symbolic links leading to each other: however many hops are
   * allowed, the walk from either runs out of them and fails with ELOOP
   * naming the original target, stopping at one link or the other
   * according to the parity of the budget.
   */
  lemma {:induction false} WalkCycle(st: FsState, lib: PathLib, target: Path, a: Path, b: Path, budget: nat)
    requires (Lstat, a) !in st.faults && (Readlink, a) !in st.faults && (Lstat, b) !in st.faults && (Readlink, b) !in st.faults
    requires a in st.entries && st.entries[a].Symlink? && NextHop(lib, a, st.entries[a].target) == b
    requires b in st.entries && st.entries[b].Symlink? && NextHop(lib, b, st.entries[b].target) == a
    ensures Walk(st, lib, target, a, budget) == Failed(if budget % 2 == 0 then a else b, PathError("open", target, Loop))
    ensures Walk(st, lib, target, b, budget) == Failed(if budget % 2 == 0 then b else a, PathError("open", target, Loop))
    decreases budget
  {
    if budget > 0 {
      WalkCycle(st, lib, target, a, b, budget - 1);
    }
  }

  /**
   * `New`: follows symbolic links from targetFname for at most
   * MaxSymlinkDeref hops and opens a temporary file beside the file they
   * lead to. The returned finalFname is where the walk stopped.
   */
  method New(fs: Fs, lib: PathLib, targetFname: Path) returns (finalFname: Path, f: Option<File>, err: Option<Error>)
    modifies fs
    ensures (fs.State(), finalFname, f, err) == NewSpec(old(fs.State()), lib, targetFname)
  {
    ghost var st := fs.State();
    finalFname := targetFname;
    f := None;
    var i := 0;
    while i < MaxSymlinkDeref
      invariant i <= MaxSymlinkDeref
      invariant fs.State() == st && f == None
      invariant Walk(st, lib, targetFname, finalFname, MaxSymlinkDeref - i) ==
        Walk(st, lib, targetFname, targetFname, MaxSymlinkDeref)
    {
      var info := fs.Lstat(finalFname);
      if info.Err? && !IsNotExist(info.error) {
        err := Some(info.error);
        return;
      } else if info.Err? || info.value.Regular? {
        f, err := NewNoDeref(fs, lib, finalFname);
        return;
      } else if info.value.Symlink? {
        var tgt := fs.Readlink(finalFname);
        if tgt.Err? {
          err := Some(tgt.error);
          return;
        }
        if lib.isAbs(tgt.value) {
          finalFname := tgt.value;
        } else {
          finalFname := lib.clean(lib.join(lib.dir(finalFname), tgt.value));
        }
      } else {
        err := Some(PathError("open", targetFname, NotRegular));
        return;
      }
      i := i + 1;
    }
    err := Some(PathError("open", targetFname, Loop));
  }

  /** `NewNoDeref`: opens a temporary file in the directory of finalFname, whatever finalFname is. */
  method NewNoDeref(fs: Fs, lib: PathLib, finalFname: Path) returns (f: Option<File>, err: Option<Error>)
    modifies fs
    ensures var (st', r) := CreateTempIn(old(fs.State()), lib, lib.dir(finalFname));
      fs.State() == st' && f == (if r.Ok? then Some(r.value) else None) && err == (if r.Err? then Some(r.error) else None)
  {
    var r := fs.CreateTemp(lib, lib.dir(finalFname));
    if r.Ok? {
      f, err := Some(r.value), None;
    } else {
      f, err := None, Some(r.error);
    }
  }

  /**
   * The outcome of `Commit`: sync the temporary file, give it the
   * permission bits of the file it replaces if there is one, close it and
   * rename it over finalFname; a failed sync, close or rename removes the
   * temporary file and reports that failure, a failed stat or chmod is
   * ignored.
   */
  function CommitSpec(st: FsState, lib: PathLib, finalFname: Path, f: File): (r: (FsState, Option<Error>))
    // it succeeds exactly when the handle is open, the temporary file exists and sync, close and rename work
    ensures r.1 == None <==>
      f.name in st.open && f.name in st.entries &&
      (Sync, f.name) !in st.faults && (Close, f.name) !in st.faults && (Rename, f.name) !in st.faults
    ensures r.0.faults == st.faults && r.0.nextTemp == st.nextTemp
    // the handle is released, except when sync fails
    ensures f.name in r.0.open <==> f.name in st.open && (Sync, f.name) in st.faults
    ensures r.0.open - {f.name} == st.open - {f.name}
    // the error returned is that of the step that failed: sync, else close, else rename
    ensures SyncIn(st, f).Some? ==> r.1 == SyncIn(st, f)
    ensures SyncIn(st, f).None? && (Close, f.name) in st.faults ==>
      r.1 == Some(PathError("close", f.name, Errno(st.faults[(Close, f.name)])))
    ensures SyncIn(st, f).None? && (Close, f.name) !in st.faults && r.1 != None ==>
      r.1 == Some(LinkError("rename", f.name, finalFname,
        if (Rename, f.name) in st.faults then Errno(st.faults[(Rename, f.name)]) else NotExist))
    // on failure the temporary file is removed (unless removal itself fails) and nothing else changes
    ensures r.1 != None ==>
      r.0.entries - {f.name} == st.entries - {f.name} &&
      (f.name in r.0.entries <==> f.name in st.entries && (Remove, f.name) in st.faults)
    // on success the temporary file's content replaces finalFname, with the replaced file's permission bits
    ensures r.1 == None ==>
      finalFname in r.0.entries && r.0.entries == (st.entries - {f.name})[finalFname := r.0.entries[finalFname]]
    ensures r.1 == None && st.entries[f.name].Regular? ==>
      var perm := StatPermIn(st, lib, finalFname, MaxStatLinks);
      r.0.entries[finalFname] == Regular(st.entries[f.name].content,
        if perm.Some? && (Chmod, f.name) !in st.faults then perm.value else st.entries[f.name].perm)
  {
    var syncErr := SyncIn(st, f);
    if syncErr.Some? then (RemoveIn(st, f.name).0, syncErr)
    else
      var perm := StatPermIn(st, lib, finalFname, MaxStatLinks);
      var st1 := if perm.Some? then ChmodIn(st, f, perm.value).0 else st;
      var (st2, closeErr) := CloseIn(st1, f);
      if closeErr.Some? then (RemoveIn(st2, f.name).0, closeErr)
      else
        var (st3, renameErr) := RenameIn(st2, f.name, finalFname);
        if renameErr.Some? then (RemoveIn(st3, f.name).0, renameErr)
        else (st3, None)
  }

  /**
   * A commit with nothing failing: the temporary file's content, under the
   * permission bits of the file it replaces (or its own if there is none),
   * becomes finalFname, the temporary name is gone and the handle is closed.
   */
  lemma CommitInstalls(st: FsState, lib: PathLib, finalFname: Path, f: File)
    requires f.name in st.open && f.name in st.entries && st.entries[f.name].Regular? && f.name != finalFname
    requires forall op :: (op, f.name) !in st.faults
    ensures var perm := StatPermIn(st, lib, finalFname, MaxStatLinks);
      CommitSpec(st, lib, finalFname, f) ==
        (st.(entries := (st.entries - {f.name})[finalFname :=
               Regular(st.entries[f.name].content, if perm.Some? then perm.value else st.entries[f.name].perm)],
             open := st.open - {f.name}),
         None)
  {
    assert (Sync, f.name) !in st.faults && (Chmod, f.name) !in st.faults;
    assert (Close, f.name) !in st.faults && (Rename, f.name) !in st.faults;
  }

  /** `Commit`: installs the temporary file f as finalFname. */
  method Commit(fs: Fs, lib: PathLib, finalFname: Path, f: File) returns (err: Option<Error>)
    modifies fs
    ensures (fs.State(), err) == CommitSpec(old(fs.State()), lib, finalFname, f)
  {
    err := fs.Sync(f);
    if err.Some? {
      var _ := fs.Remove(f.name);
      return;
    }
    var perm := fs.StatPerm(lib, finalFname);
    if perm.Some? {
      var _ := fs.Chmod(f, perm.value);
    }
    err := fs.Close(f);
    if err.Some? {
      var _ := fs.Remove(f.name);
      return;
    }
    err := fs.Rename(f.name, finalFname);
    if err.Some? {
      var _ := fs.Remove(f.name);
      return;
    }
  }

  /** The outcome of `Abort`: close the temporary file and remove it, ignoring both errors. */
  function AbortSpec(st: FsState, f: File): (r: FsState)
    ensures r.open == st.open - {f.name} && r.faults == st.faults && r.nextTemp == st.nextTemp
    ensures r.entries == if (Remove, f.name) in st.faults then st.entries else st.entries - {f.name}
    // closing the handle once more reports that it is already closed
    ensures CloseIn(r, f).1 == Some(PathError("close", f.name, Closed))
  {
    RemoveIn(CloseIn(st, f).0, f.name).0
  }

  /** `Abort`: discards the temporary file f. */
  method Abort(fs: Fs, f: File)
    modifies fs
    ensures fs.State() == AbortSpec(old(fs.State()), f)
  {
    var _ := fs.Close(f);
    var _ := fs.Remove(f.name);
  }
}
