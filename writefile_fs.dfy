/**
 * The file system the writefile package runs against, reduced to what it
 * observes: a map from path names to entries (regular files, symbolic links
 * and anything else, such as directories), the set of files with an open
 * handle, and a table of injected failures standing for the errors the
 * operating system may report. Path manipulation is left abstract: a
 * `PathLib` supplies Go's `filepath.IsAbs`, `Join`, `Clean` and `Dir` and
 * the name `ioutil.TempFile` picks, as functions nothing here interprets.
 *
 * Each operation is a function of the state (`LstatIn`, `RemoveIn`, ...),
 * and the `Fs` class performs it in place.
 */
module WriteFs {
  import opened Wrappers

  type Path = string

  /** The path helpers of Go's `path/filepath`, and the temporary-file name generator, uninterpreted. */
  datatype PathLib = PathLib(
    isAbs: Path -> bool,
    join: (Path, Path) -> Path,
    clean: Path -> Path,
    dir: Path -> Path,
    tempName: (Path, nat) -> Path)

  /** Permission bits (`os.ModePerm`, 0o777). */
  type Perm = p: nat | p < 0x200

  /** `ioutil.TempFile` creates its file with mode 0o600. */
  const TempPerm: Perm := 0x180

  /** Linux follows at most 40 symbolic links when resolving a path. */
  const MaxStatLinks := 40

  datatype Entry =
    | Regular(content: string, perm: Perm)
    | Symlink(target: Path)
    | Other(perm: Perm)   // a directory, device, socket or pipe

  /** The system calls that can be made to fail, each on one path. */
  datatype Op = Lstat | Readlink | Create | Sync | Stat | Chmod | Close | Rename | Remove

  datatype Cause =
    | NotExist      // ENOENT
    | Exist         // EEXIST
    | NotRegular    // "not a regular file"
    | Loop          // ELOOP
    | Closed        // os.ErrClosed
    | Errno(code: nat)

  /** Go's `*os.PathError` and `*os.LinkError`. */
  datatype Error =
    | PathError(op: string, path: Path, cause: Cause)
    | LinkError(op: string, from: Path, to: Path, cause: Cause)

  /** `os.IsNotExist`. */
  predicate IsNotExist(e: Error)
  {
    e.cause == NotExist
  }

  /** An `*os.File`: the name it was opened under. */
  datatype File = File(name: Path)

  datatype FsState = FsState(
    entries: map<Path, Entry>,
    faults: map<(Op, Path), nat>,
    open: set<Path>,
    nextTemp: nat)

  /** Where a symbolic link at cur pointing at tgt leads: tgt itself if absolute, else tgt taken relative to cur's directory. */
  function NextHop(lib: PathLib, cur: Path, tgt: Path): Path
  {
    if lib.isAbs(tgt) then tgt else lib.clean(lib.join(lib.dir(cur), tgt))
  }

  /** `os.Lstat`: the entry at p itself, not following a final symbolic link. */
  function LstatIn(st: FsState, p: Path): (r: Result<Entry, Error>)
    ensures r.Ok? <==> (Lstat, p) !in st.faults && p in st.entries
    ensures r.Ok? ==> r.value == st.entries[p]
    ensures r.Err? ==> r.error.PathError? && r.error.path == p && r.error.op == "lstat"
    ensures r.Err? ==> (IsNotExist(r.error) <==> (Lstat, p) !in st.faults)
  {
    if (Lstat, p) in st.faults then Err(PathError("lstat", p, Errno(st.faults[(Lstat, p)])))
    else if p in st.entries then Ok(st.entries[p])
    else Err(PathError("lstat", p, NotExist))
  }

  /** `os.Readlink`: the target of the symbolic link at p (EINVAL, 22, if p is not one). */
  function ReadlinkIn(st: FsState, p: Path): (r: Result<Path, Error>)
    ensures r.Ok? <==> (Readlink, p) !in st.faults && p in st.entries && st.entries[p].Symlink?
    ensures r.Ok? ==> r.value == st.entries[p].target
    ensures r.Err? ==> r.error == PathError("readlink", p, r.error.cause)
  {
    if (Readlink, p) in st.faults then Err(PathError("readlink", p, Errno(st.faults[(Readlink, p)])))
    else if p !in st.entries then Err(PathError("readlink", p, NotExist))
    else if st.entries[p].Symlink? then Ok(st.entries[p].target)
    else Err(PathError("readlink", p, Errno(22)))
  }

  /**
   * `os.Stat` reduced to what `Commit` uses of it: the permission bits of
   * the entry p names after following symbolic links, or None on any error
   * (absent entry, injected failure, too many links).
   */
  function StatPermIn(st: FsState, lib: PathLib, p: Path, links: nat): (r: Option<Perm>)
    ensures r.Some? ==> p in st.entries && (Stat, p) !in st.faults
    ensures r.Some? && !st.entries[p].Symlink? ==> r.value == st.entries[p].perm
    decreases links
  {
    if (Stat, p) in st.faults || p !in st.entries then None
    else match st.entries[p]
      case Regular(_, perm) => Some(perm)
      case Other(perm) => Some(perm)
      case Symlink(tgt) => if links == 0 then None else StatPermIn(st, lib, NextHop(lib, p, tgt), links - 1)
  }

  /**
   * `ioutil.TempFile(dir, ".new.")`: a new empty regular file with mode
   * 0o600 under a name the generator picks in dir, opened for writing.
   */
  function CreateTempIn(st: FsState, lib: PathLib, dir: Path): (r: (FsState, Result<File, Error>))
    ensures r.0.faults == st.faults && r.0.nextTemp == st.nextTemp + 1
    ensures var name := lib.tempName(dir, st.nextTemp);
      if r.1.Ok? then
        r.1.value == File(name) && name !in st.entries &&
        r.0.entries == st.entries[name := Regular([], TempPerm)] && r.0.open == st.open + {name}
      else
        r.0.entries == st.entries && r.0.open == st.open &&
        ((Create, dir) in st.faults || name in st.entries)
  {
    var name := lib.tempName(dir, st.nextTemp);
    var st1 := st.(nextTemp := st.nextTemp + 1);
    if (Create, dir) in st.faults then (st1, Err(PathError("open", name, Errno(st.faults[(Create, dir)]))))
    else if name in st.entries then (st1, Err(PathError("open", name, Exist)))
    else (st1.(entries := st.entries[name := Regular([], TempPerm)], open := st.open + {name}), Ok(File(name)))
  }

  /** `f.Write(data)`: appends to an open regular file. */
  function WriteIn(st: FsState, f: File, data: string): (r: (FsState, Option<Error>))
    ensures r.1 == None <==> f.name in st.open
    ensures r.0.open == st.open && r.0.faults == st.faults && r.0.nextTemp == st.nextTemp
    ensures r.0.entries ==
      if r.1 == None && f.name in st.entries && st.entries[f.name].Regular? then
        st.entries[f.name := st.entries[f.name].(content := st.entries[f.name].content + data)]
      else st.entries
  {
    if f.name !in st.open then (st, Some(PathError("write", f.name, Closed)))
    else if f.name in st.entries && st.entries[f.name].Regular? then
      var e := st.entries[f.name];
      (st.(entries := st.entries[f.name := e.(content := e.content + data)]), None)
    else (st, None)
  }

  /** `f.Sync()`: fails on a closed handle or an injected failure, and otherwise changes nothing observable here. */
  function SyncIn(st: FsState, f: File): (r: Option<Error>)
    ensures r == None <==> f.name in st.open && (Sync, f.name) !in st.faults
  {
    if f.name !in st.open then Some(PathError("sync", f.name, Closed))
    else if (Sync, f.name) in st.faults then Some(PathError("sync", f.name, Errno(st.faults[(Sync, f.name)])))
    else None
  }

  /** `f.Chmod(perm)`: sets the permission bits of an open file. */
  function ChmodIn(st: FsState, f: File, perm: Perm): (r: (FsState, Option<Error>))
    ensures r.1 == None <==> f.name in st.open && (Chmod, f.name) !in st.faults
    ensures r.0.open == st.open && r.0.faults == st.faults && r.0.nextTemp == st.nextTemp
    ensures r.0.entries ==
      if r.1 == None && f.name in st.entries && st.entries[f.name].Regular? then
        st.entries[f.name := st.entries[f.name].(perm := perm)]
      else st.entries
  {
    if f.name !in st.open then (st, Some(PathError("chmod", f.name, Closed)))
    else if (Chmod, f.name) in st.faults then (st, Some(PathError("chmod", f.name, Errno(st.faults[(Chmod, f.name)]))))
    else if f.name in st.entries && st.entries[f.name].Regular? then
      (st.(entries := st.entries[f.name := st.entries[f.name].(perm := perm)]), None)
    else (st, None)
  }

  /** `f.Close()`: releases the handle; an injected failure is reported but the handle is released all the same. */
  function CloseIn(st: FsState, f: File): (r: (FsState, Option<Error>))
    ensures r.0 == st.(open := st.open - {f.name})
    ensures r.1 == None <==> f.name in st.open && (Close, f.name) !in st.faults
    ensures f.name !in st.open ==> r.1 == Some(PathError("close", f.name, Closed))
  {
    if f.name !in st.open then (st, Some(PathError("close", f.name, Closed)))
    else
      var st1 := st.(open := st.open - {f.name});
      if (Close, f.name) in st.faults then (st1, Some(PathError("close", f.name, Errno(st.faults[(Close, f.name)]))))
      else (st1, None)
  }

  /** `os.Rename(from, to)`: moves the entry at from to to, replacing whatever to held. */
  function RenameIn(st: FsState, from: Path, to: Path): (r: (FsState, Option<Error>))
    ensures r.1 == None <==> (Rename, from) !in st.faults && from in st.entries
    ensures r.0.open == st.open && r.0.faults == st.faults && r.0.nextTemp == st.nextTemp
    ensures r.1 == None ==> r.0.entries == (st.entries - {from})[to := st.entries[from]]
    ensures r.1 != None ==> r.0.entries == st.entries
  {
    if (Rename, from) in st.faults then (st, Some(LinkError("rename", from, to, Errno(st.faults[(Rename, from)]))))
    else if from !in st.entries then (st, Some(LinkError("rename", from, to, NotExist)))
    else (st.(entries := (st.entries - {from})[to := st.entries[from]]), None)
  }

  /** `os.Remove(p)`: unlinks p. An open handle on it stays open. */
  function RemoveIn(st: FsState, p: Path): (r: (FsState, Option<Error>))
    ensures r.1 == None <==> (Remove, p) !in st.faults && p in st.entries
    ensures r.0.open == st.open && r.0.faults == st.faults && r.0.nextTemp == st.nextTemp
    ensures r.0.entries == if r.1 == None then st.entries - {p} else st.entries
  {
    if (Remove, p) in st.faults then (st, Some(PathError("remove", p, Errno(st.faults[(Remove, p)]))))
    else if p !in st.entries then (st, Some(PathError("remove", p, NotExist)))
    else (st.(entries := st.entries - {p}), None)
  }

  /** The file system, changed in place by the operations the package calls. */
  class Fs {
    var entries: map<Path, Entry>
    var faults: map<(Op, Path), nat>
    var open: set<Path>
    var nextTemp: nat

    function State(): FsState
      reads this
    {
      FsState(entries, faults, open, nextTemp)
    }

    constructor (entries: map<Path, Entry>, faults: map<(Op, Path), nat>)
      ensures State() == FsState(entries, faults, {}, 0)
    {
      this.entries := entries;
      this.faults := faults;
      open := {};
      nextTemp := 0;
    }

    function Lstat(p: Path): Result<Entry, Error>
      reads this
    {
      LstatIn(State(), p)
    }

    function Readlink(p: Path): Result<Path, Error>
      reads this
    {
      ReadlinkIn(State(), p)
    }

    function StatPerm(lib: PathLib, p: Path): Option<Perm>
      reads this
    {
      StatPermIn(State(), lib, p, MaxStatLinks)
    }

    method SetState(st: FsState)
      modifies this
      ensures State() == st
    {
      entries, faults, open, nextTemp := st.entries, st.faults, st.open, st.nextTemp;
    }

    method CreateTemp(lib: PathLib, dir: Path) returns (f: Result<File, Error>)
      modifies this
      ensures (State(), f) == CreateTempIn(old(State()), lib, dir)
    {
      var r := CreateTempIn(State(), lib, dir);
      SetState(r.0);
      f := r.1;
    }

    method Write(f: File, data: string) returns (err: Option<Error>)
      modifies this
      ensures (State(), err) == WriteIn(old(State()), f, data)
    {
      var r := WriteIn(State(), f, data);
      SetState(r.0);
      err := r.1;
    }

    method Sync(f: File) returns (err: Option<Error>)
      ensures err == SyncIn(State(), f)
    {
      err := SyncIn(State(), f);
    }

    method Chmod(f: File, perm: Perm) returns (err: Option<Error>)
      modifies this
      ensures (State(), err) == ChmodIn(old(State()), f, perm)
    {
      var r := ChmodIn(State(), f, perm);
      SetState(r.0);
      err := r.1;
    }

    method Close(f: File) returns (err: Option<Error>)
      modifies this
      ensures (State(), err) == CloseIn(old(State()), f)
    {
      var r := CloseIn(State(), f);
      SetState(r.0);
      err := r.1;
    }

    method Rename(from: Path, to: Path) returns (err: Option<Error>)
      modifies this
      ensures (State(), err) == RenameIn(old(State()), from, to)
    {
      var r := RenameIn(State(), from, to);
      SetState(r.0);
      err := r.1;
    }

    method Remove(p: Path) returns (err: Option<Error>)
      modifies this
      ensures (State(), err) == RemoveIn(old(State()), p)
    {
      var r := RemoveIn(State(), p);
      SetState(r.0);
      err := r.1;
    }
  }
}
