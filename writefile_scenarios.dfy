/**
 * The writefile package driven through whole sessions on small file
 * systems in a directory "/t": overwriting a file, aborting, writing
 * through relative, absolute and dangling symbolic links, a symbolic-link
 * cycle and a link to a directory, and a rename that fails.
 */
module WriteFileScenarios {
  import opened Wrappers
  import opened WriteFs
  import opened WriteFile

  /**
   * Path helpers for files that all live in "/t": a path is absolute when
   * it starts with '/', every path's directory is "/t", joining inserts a
   * '/', paths are already clean, and the temporary file is
   * "/t/.new." (each session here opens only one).
   */
  function Lib(): PathLib
  {
    PathLib(IsAbs, Join, Clean, Dir, TempName)
  }

  predicate IsAbs(p: Path) { |p| > 0 && p[0] == '/' }
  function Join(d: Path, t: Path): Path { d + "/" + t }
  function Clean(p: Path): Path { p }
  function Dir(p: Path): Path { "/t" }
  function TempName(d: Path, n: nat): Path { d + "/.new." }

  /** Mode 0o666, which a file written by `ioutil.WriteFile(name, data, 0666)` gets under a zero umask. */
  const FilePerm: Perm := 0x1B6

  /**
   * Replacing an existing regular file: the original is intact while the
   * temporary file is open and written, and after `Commit` holds the new
   * content with its own mode, and the temporary name is gone.
   */
  method Overwrite() returns (whileOpen: Entry, whileWritten: Entry, err: Option<Error>, after: map<Path, Entry>)
    ensures whileOpen == Regular("original", FilePerm) && whileWritten == Regular("original", FilePerm)
    ensures err == None && after == map["/t/overwrite" := Regular("testing", FilePerm)]
  {
    var fs := new Fs(map["/t/overwrite" := Regular("original", FilePerm)], map[]);
    ghost var st := fs.State();
    assert Walk(st, Lib(), "/t/overwrite", "/t/overwrite", MaxSymlinkDeref) == Resolved("/t/overwrite");
    assert Lib().tempName("/t", 0) == "/t/.new.";
    assert Lib().dir("/t/overwrite") == "/t";
    assert "/t/.new." !in st.entries;
    NewOpens(st, Lib(), "/t/overwrite", "/t/overwrite");
    var ff, f, e := New(fs, Lib(), "/t/overwrite");
    assert ff == "/t/overwrite" && f == Some(File("/t/.new."));
    whileOpen := fs.entries["/t/overwrite"];
    assert fs.entries == map["/t/overwrite" := Regular("original", FilePerm), "/t/.new." := Regular("", TempPerm)];
    assert fs.open == {"/t/.new."};
    ghost var st1 := fs.State();
    var werr := fs.Write(f.value, "testing");
    assert werr == None;
    assert fs.entries == st1.entries["/t/.new." := Regular("" + "testing", TempPerm)];
    assert "" + "testing" == "testing";
    whileWritten := fs.entries["/t/overwrite"];
    assert fs.entries == map["/t/overwrite" := Regular("original", FilePerm), "/t/.new." := Regular("testing", TempPerm)];
    assert fs.open == {"/t/.new."};
    assert StatPermIn(fs.State(), Lib(), "/t/overwrite", MaxStatLinks) == Some(FilePerm);
    err := Commit(fs, Lib(), ff, f.value);
    after := fs.entries;
    assert after == map["/t/overwrite" := Regular("testing", FilePerm)];
  }

  /**
   * Aborting: the original keeps its content, the temporary file is gone,
   * and closing the aborted handle once more reports an error.
   */
  method Aborted() returns (after: map<Path, Entry>, closeAgain: Option<Error>)
    ensures after == map["/t/overwrite_abort" := Regular("original", FilePerm)]
    ensures closeAgain == Some(PathError("close", "/t/.new.", Closed))
  {
    var fs := new Fs(map["/t/overwrite_abort" := Regular("original", FilePerm)], map[]);
    ghost var st := fs.State();
    assert Walk(st, Lib(), "/t/overwrite_abort", "/t/overwrite_abort", MaxSymlinkDeref) == Resolved("/t/overwrite_abort");
    assert Lib().tempName("/t", 0) == "/t/.new.";
    assert Lib().dir("/t/overwrite_abort") == "/t";
    NewOpens(st, Lib(), "/t/overwrite_abort", "/t/overwrite_abort");
    var ff, f, e := New(fs, Lib(), "/t/overwrite_abort");
    assert f == Some(File("/t/.new."));
    assert fs.open == {"/t/.new."};
    var _ := fs.Write(f.value, "testing");
    Abort(fs, f.value);
    after := fs.entries;
    assert after == map["/t/overwrite_abort" := Regular("original", FilePerm)];
    closeAgain := fs.Close(f.value);
  }

  /**
   * Writing through a relative symbolic link: `New` resolves it against
   * the link's directory, and `Commit` replaces the file it points at,
   * leaving the link itself in place.
   */
  method SymlinkRelative() returns (ff: Path, err: Option<Error>, after: map<Path, Entry>)
    ensures ff == "/t/sym_target" && err == None
    ensures after == map["/t/sym" := Symlink("sym_target"), "/t/sym_target" := Regular("testing", FilePerm)]
  {
    var fs := new Fs(map["/t/sym" := Symlink("sym_target"), "/t/sym_target" := Regular("original", FilePerm)], map[]);
    ghost var st := fs.State();
    assert NextHop(Lib(), "/t/sym", "sym_target") == "/t/sym_target";
    assert Walk(st, Lib(), "/t/sym", "/t/sym_target", MaxSymlinkDeref - 1) == Resolved("/t/sym_target");
    assert Walk(st, Lib(), "/t/sym", "/t/sym", MaxSymlinkDeref) == Resolved("/t/sym_target");
    ff, err, after := CommitThrough(fs, "/t/sym", "/t/sym_target");
    assert after == map["/t/sym" := Symlink("sym_target"), "/t/sym_target" := Regular("testing", FilePerm)];
  }

  /** Writing through an absolute symbolic link: its target is used as it is. */
  method SymlinkAbsolute() returns (ff: Path, err: Option<Error>, after: map<Path, Entry>)
    ensures ff == "/t/sym_target_abs" && err == None
    ensures after == map["/t/sym_abs" := Symlink("/t/sym_target_abs"), "/t/sym_target_abs" := Regular("testing", FilePerm)]
  {
    var fs := new Fs(map["/t/sym_abs" := Symlink("/t/sym_target_abs"), "/t/sym_target_abs" := Regular("original", FilePerm)], map[]);
    ghost var st := fs.State();
    assert NextHop(Lib(), "/t/sym_abs", "/t/sym_target_abs") == "/t/sym_target_abs";
    assert Walk(st, Lib(), "/t/sym_abs", "/t/sym_target_abs", MaxSymlinkDeref - 1) == Resolved("/t/sym_target_abs");
    assert Walk(st, Lib(), "/t/sym_abs", "/t/sym_abs", MaxSymlinkDeref) == Resolved("/t/sym_target_abs");
    ff, err, after := CommitThrough(fs, "/t/sym_abs", "/t/sym_target_abs");
    assert after == map["/t/sym_abs" := Symlink("/t/sym_target_abs"), "/t/sym_target_abs" := Regular("testing", FilePerm)];
  }

  /**
   * Writing through a dangling symbolic link: `New` succeeds with the
   * missing target as the final name, and `Commit` creates it with the
   * temporary file's mode 0o600, there being no file to inherit from.
   */
  method SymlinkDangling() returns (ff: Path, err: Option<Error>, after: map<Path, Entry>)
    ensures ff == "/t/enoent" && err == None
    ensures after == map["/t/sym_enoent" := Symlink("enoent"), "/t/enoent" := Regular("testing", TempPerm)]
  {
    var fs := new Fs(map["/t/sym_enoent" := Symlink("enoent")], map[]);
    ghost var st := fs.State();
    assert NextHop(Lib(), "/t/sym_enoent", "enoent") == "/t/enoent";
    assert Walk(st, Lib(), "/t/sym_enoent", "/t/enoent", MaxSymlinkDeref - 1) == Resolved("/t/enoent");
    assert Walk(st, Lib(), "/t/sym_enoent", "/t/sym_enoent", MaxSymlinkDeref) == Resolved("/t/enoent");
    ff, err, after := CommitThrough(fs, "/t/sym_enoent", "/t/enoent");
    assert after == map["/t/sym_enoent" := Symlink("enoent"), "/t/enoent" := Regular("testing", TempPerm)];
  }

  /**
   * One session through a link: `New` on target, which leads to final, a
   * write of "testing" and `Commit`; what replaces final is the new
   * content with the mode of the file it replaces, or 0o600 if none.
   */
  method CommitThrough(fs: Fs, target: Path, final: Path) returns (ff: Path, err: Option<Error>, after: map<Path, Entry>)
    requires fs.State() == FsState(fs.entries, map[], {}, 0) && "/t/.new." !in fs.entries
    requires Lib().dir(final) == "/t" && final != "/t/.new."
    requires Walk(fs.State(), Lib(), target, target, MaxSymlinkDeref) == Resolved(final)
    requires final in fs.entries ==> fs.entries[final].Regular?
    modifies fs
    ensures ff == final && err == None
    ensures after == old(fs.entries)[final := Regular("testing", if final in old(fs.entries) then old(fs.entries)[final].perm else TempPerm)]
  {
    ghost var st := fs.State();
    assert Lib().tempName("/t", 0) == "/t/.new.";
    NewOpens(st, Lib(), target, final);
    var f, e;
    ff, f, e := New(fs, Lib(), target);
    assert f == Some(File("/t/.new."));
    assert fs.open == {"/t/.new."};
    ghost var st1 := fs.State();
    var _ := fs.Write(f.value, "testing");
    assert fs.entries == st1.entries["/t/.new." := Regular("" + "testing", TempPerm)];
    assert "" + "testing" == "testing";
    ghost var perm := if final in st.entries then st.entries[final].perm else TempPerm;
    assert StatPermIn(fs.State(), Lib(), final, MaxStatLinks) == if final in st.entries then Some(perm) else None;
    assert fs.entries - {"/t/.new."} == st.entries;
    CommitInstalls(fs.State(), Lib(), ff, f.value);
    err := Commit(fs, Lib(), ff, f.value);
    after := fs.entries;
  }

  /**
   * Two symbolic links pointing at each other: `New` gives up after
   * MaxSymlinkDeref hops with ELOOP naming the path it was given, opens
   * nothing and changes nothing.
   */
  method SymlinkLoop() returns (f: Option<File>, err: Option<Error>, after: map<Path, Entry>)
    ensures f == None && err == Some(PathError("open", "/t/a", Loop))
    ensures after == map["/t/a" := Symlink("/t/b"), "/t/b" := Symlink("/t/a")]
  {
    var fs := new Fs(map["/t/a" := Symlink("/t/b"), "/t/b" := Symlink("/t/a")], map[]);
    WalkCycle(fs.State(), Lib(), "/t/a", "/t/a", "/t/b", MaxSymlinkDeref);
    var ff;
    ff, f, err := New(fs, Lib(), "/t/a");
    after := fs.entries;
  }

  /**
   * A symbolic link to a directory: `New` fails with "not a regular file"
   * naming the link it was given, not the directory.
   */
  method SymlinkDir() returns (f: Option<File>, err: Option<Error>)
    ensures f == None && err == Some(PathError("open", "/t/sym_dir", NotRegular))
  {
    var fs := new Fs(map["/t/sym_dir" := Symlink("/t/target_dir"), "/t/target_dir" := Other(0x1FF)], map[]);
    var ff;
    ff, f, err := New(fs, Lib(), "/t/sym_dir");
  }

  /**
   * A rename that fails: `Commit` reports the rename's error, removes the
   * temporary file, and the original keeps its content.
   */
  method RenameFails() returns (err: Option<Error>, after: map<Path, Entry>)
    ensures err == Some(LinkError("rename", "/t/.new.", "/t/x", Errno(5)))
    ensures after == map["/t/x" := Regular("original", FilePerm)]
  {
    var fs := new Fs(map["/t/x" := Regular("original", FilePerm)], map[(Rename, "/t/.new.") := 5]);
    ghost var st := fs.State();
    assert Walk(st, Lib(), "/t/x", "/t/x", MaxSymlinkDeref) == Resolved("/t/x");
    assert Lib().tempName("/t", 0) == "/t/.new.";
    assert Lib().dir("/t/x") == "/t";
    NewOpens(st, Lib(), "/t/x", "/t/x");
    var ff, f, e := New(fs, Lib(), "/t/x");
    var _ := fs.Write(f.value, "testing");
    assert fs.entries - {"/t/.new."} == map["/t/x" := Regular("original", FilePerm)];
    err := Commit(fs, Lib(), ff, f.value);
    after := fs.entries;
  }
}
