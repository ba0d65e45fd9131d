// backend/sandbox.py: SecureSandbox lays out one directory per task under
// a base directory and copies the file under audit into it. The file
// system is modelled as a set of directory paths and a map from file paths
// to contents; a path is the sequence of its components.
module Sandbox {
  import opened Wrappers

  type Path = seq<string>
  type Bytes = seq<bv8>

  /** The part of `s` before its first '/'. */
  function SlashAt(s: string): (i: nat)
    requires '/' in s
    ensures i < |s| && s[i] == '/' && '/' !in s[..i]
  {
    if s[0] == '/' then 0
    else
      assert s == [s[0]] + s[1..];
      var j := SlashAt(s[1..]);
      assert s[..j + 1] == [s[0]] + s[1..][..j];
      j + 1
  }

  /** A part of a path text: "" (between two slashes) and "." add nothing. */
  function Part(s: string): Path
  {
    if s == "" || s == "." then [] else [s]
  }

  /** The components pathlib reads from a path text: the parts between
      slashes, without the empty and "." ones. ".." is kept as a name. */
  function Components(s: string): (r: Path)
    ensures forall i :: 0 <= i < |r| ==> '/' !in r[i] && r[i] != "" && r[i] != "."
    decreases |s|
  {
    if '/' !in s then Part(s)
    else
      var i := SlashAt(s);
      Part(s[..i]) + Components(s[i + 1..])
  }

  predicate Absolute(s: string)
  {
    s != [] && s[0] == '/'
  }

  /** pathlib's `p / s`: an absolute `s` replaces p, a relative one adds its
      components. */
  function Join(p: Path, s: string): Path
  {
    if Absolute(s) then Components(s) else p + Components(s)
  }

  /** `Path(p).name`: the last component. */
  function Name(p: Path): string
  {
    if p == [] then "" else p[|p| - 1]
  }

  function Parent(p: Path): Path
    requires p != []
  {
    p[..|p| - 1]
  }

  /** q is p or lies below p. */
  predicate Under(q: Path, p: Path)
  {
    |p| <= |q| && q[..|p|] == p
  }

  /** A task id that pathlib keeps as exactly one new component, and that
      names a child of the base on disk (".." would name its parent). */
  predicate PlainName(t: string)
  {
    t != "" && t != "." && t != ".." && '/' !in t
  }

  /** pathlib's `p / t` for a plain name adds that one component. */
  lemma JoinPlain(p: Path, t: string)
    requires PlainName(t)
    ensures Join(p, t) == p + [t]
  {
  }

  /** A relative text never leads out of p. */
  lemma JoinRelative(p: Path, s: string)
    ensures !Absolute(s) ==> Under(Join(p, s), p)
  {
    assert (p + Components(s))[..|p|] == p;
  }

  /** An absolute text leaves p behind: `base / "/etc"` is `/etc`. */
  lemma {:induction false} AbsoluteReplacesBase(p: Path)
    ensures Join(p, "/etc") == ["etc"]
  {
    assert SlashAt("/etc") == 0;
    assert "/etc"[1..] == "etc";
  }

  // ---------------------------------------------------------------------
  // The effect of each file-system call on (dirs, files)

  /** Every ancestor of p, p included (the root [] among them). */
  function Prefixes(p: Path): set<Path>
  {
    set k | 0 <= k <= |p| :: p[..k]
  }

  /** `p.mkdir(parents=True, exist_ok=True)`: raises (None) when p or one of
      its ancestors is a file, and otherwise creates every missing ancestor. */
  function MakeDirs(dirs: set<Path>, files: map<Path, Bytes>, p: Path): (r: Option<set<Path>>)
    ensures r.Some? ==> p in r.value && dirs <= r.value
  {
    if exists k :: 0 <= k <= |p| && p[..k] in files then None
    else
      assert p[..|p|] == p;
      Some(dirs + Prefixes(p))
  }

  /** The directories `shutil.rmtree(p)` leaves (the root is never removed). */
  function PruneDirs(dirs: set<Path>, p: Path): set<Path>
  {
    set q | q in dirs && (q == [] || !Under(q, p))
  }

  /** The files `shutil.rmtree(p)` leaves. */
  function PruneFiles(files: map<Path, Bytes>, p: Path): map<Path, Bytes>
  {
    map q | q in files && !Under(q, p) :: files[q]
  }

  /** Where `shutil.copy2(src, dst)` writes: into dst when dst is a directory. */
  function CopyTarget(dirs: set<Path>, src: Path, dst: Path): Path
  {
    if dst in dirs then dst + [Name(src)] else dst
  }

  /** `shutil.copy2(src, dst)` succeeds when src is a file, the target's
      parent is a directory, the target is not a directory and is not src. */
  predicate CopySucceeds(dirs: set<Path>, files: map<Path, Bytes>, src: Path, dst: Path)
  {
    var target := CopyTarget(dirs, src, dst);
    src in files && target != [] && Parent(target) in dirs && target !in dirs && target != src
  }

  /** Whether `copy_to_sandbox` succeeds: the sandbox directory dir can be
      made, and src can then be copied into it under its own name. */
  predicate CopyIntoSucceeds(dirs: set<Path>, files: map<Path, Bytes>, dir: Path, src: Path)
  {
    MakeDirs(dirs, files, dir).Some? &&
    CopySucceeds(MakeDirs(dirs, files, dir).value, files, src, Join(dir, Name(src)))
  }

  lemma {:induction false} MakeDirsIdempotent(dirs: set<Path>, files: map<Path, Bytes>, p: Path)
    requires MakeDirs(dirs, files, p).Some?
    ensures MakeDirs(MakeDirs(dirs, files, p).value, files, p) == MakeDirs(dirs, files, p)
  {
    var d := MakeDirs(dirs, files, p).value;
    assert d == dirs + Prefixes(p);
    assert d + Prefixes(p) == d;
  }

  lemma {:induction false} PruneIdempotent(dirs: set<Path>, files: map<Path, Bytes>, p: Path)
    ensures PruneDirs(PruneDirs(dirs, p), p) == PruneDirs(dirs, p)
    ensures PruneFiles(PruneFiles(files, p), p) == PruneFiles(files, p)
  {
  }

  /** Nothing below p survives rmtree(p); everything not below p is kept. */
  lemma PruneRemovesExactlySubtree(dirs: set<Path>, files: map<Path, Bytes>, p: Path, q: Path)
    ensures q in PruneDirs(dirs, p) <==> q in dirs && (q == [] || !Under(q, p))
    ensures q in PruneFiles(files, p) <==> q in files && !Under(q, p)
    ensures q in PruneFiles(files, p) ==> PruneFiles(files, p)[q] == files[q]
  {
  }

  /** Two distinct plain task ids own disjoint subtrees of the base. */
  lemma {:induction false} SandboxesDisjoint(base: Path, t: string, u: string, q: Path)
    requires PlainName(t) && PlainName(u) && t != u
    requires Under(q, Join(base, u))
    ensures !Under(q, Join(base, t))
  {
    JoinPlain(base, u);
    JoinPlain(base, t);
    assert q[|base|] == q[..|base| + 1][|base|] == (base + [u])[|base|] == u;
    assert (base + [t])[|base|] == t;
  }

  /** Cleaning up task t leaves every path of another task's sandbox as it was. */
  lemma {:induction false} CleanupIsolated(dirs: set<Path>, files: map<Path, Bytes>, base: Path,
                                           t: string, u: string, q: Path)
    requires PlainName(t) && PlainName(u) && t != u
    requires Under(q, Join(base, u))
    ensures q in PruneDirs(dirs, Join(base, t)) <==> q in dirs
    ensures q in PruneFiles(files, Join(base, t)) <==> q in files
    ensures q in files ==> PruneFiles(files, Join(base, t))[q] == files[q]
  {
    SandboxesDisjoint(base, t, u, q);
  }

  /** `copy2` into `dir / name` writes inside dir. */
  lemma TargetInside(dirs: set<Path>, src: Path, dir: Path)
    ensures !Absolute(Name(src)) ==> Under(CopyTarget(dirs, src, Join(dir, Name(src))), dir)
  {
    var dest := Join(dir, Name(src));
    JoinRelative(dir, Name(src));
    if !Absolute(Name(src)) && dest in dirs {
      assert (dest + [Name(src)])[..|dir|] == dest[..|dir|];
    }
  }

  /** Every file outside p is as it was. */
  ghost predicate FilesKeptOutside(before: map<Path, Bytes>, after: map<Path, Bytes>, p: Path)
  {
    forall q :: !Under(q, p) ==> (q in after <==> q in before) && (q in after ==> after[q] == before[q])
  }

  /** The only directories added are p and its ancestors; the only ones
      removed lie under p. */
  ghost predicate DirsChangedOnlyAt(before: set<Path>, after: set<Path>, p: Path)
  {
    (forall q :: q in after && q !in before ==> Under(p, q)) &&
    (forall q :: q in before && q !in after ==> Under(q, p))
  }

  /** A step that only adds directories followed by one that only removes
      them: together they change directories only at p. */
  lemma KeptOutsideTrans(d0: set<Path>, d1: set<Path>, d2: set<Path>,
                         f0: map<Path, Bytes>, f1: map<Path, Bytes>, f2: map<Path, Bytes>, p: Path)
    requires DirsChangedOnlyAt(d0, d1, p) && DirsChangedOnlyAt(d1, d2, p)
    requires d0 <= d1 && d2 <= d1
    ensures DirsChangedOnlyAt(d0, d2, p)
    ensures FilesKeptOutside(f0, f1, p) && FilesKeptOutside(f1, f2, p) ==> FilesKeptOutside(f0, f2, p)
  {
  }

  // ---------------------------------------------------------------------
  // The file system

  class FileSystem {
    var dirs: set<Path>
    var files: map<Path, Bytes>

    /** The root is a directory, nothing is both a file and a directory,
        and every entry other than the root sits in a directory. */
    ghost predicate Valid()
      reads this
    {
      [] in dirs &&
      (forall p :: p in dirs ==> p !in files) &&
      (forall p :: p in dirs && p != [] ==> Parent(p) in dirs) &&
      (forall p :: p in files ==> p != [] && Parent(p) in dirs)
    }

    predicate Exists(p: Path)
      reads this
    {
      p in dirs || p in files
    }

    constructor Empty()
      ensures Valid() && dirs == {[]} && files == map[]
    {
      dirs := {[]};
      files := map[];
    }

    method MkdirParents(p: Path) returns (ok: bool)
      requires Valid()
      modifies this
      ensures Valid()
      ensures ok == MakeDirs(old(dirs), old(files), p).Some?
      ensures ok ==> dirs == MakeDirs(old(dirs), old(files), p).value
      ensures !ok ==> dirs == old(dirs)
      ensures files == old(files)
    {
      var d := MakeDirs(dirs, files, p);
      ok := d.Some?;
      if ok {
        forall q | q in Prefixes(p) ensures q !in files {
          var k :| 0 <= k <= |p| && q == p[..k];
        }
        forall q | q in Prefixes(p) && q != [] ensures Parent(q) in d.value {
          var k :| 0 <= k <= |p| && q == p[..k];
          assert Parent(q) == p[..k - 1];
        }
        dirs := d.value;
      }
    }

    method CopyFile(src: Path, dst: Path) returns (ok: bool)
      requires Valid()
      modifies this
      ensures Valid()
      ensures ok == CopySucceeds(old(dirs), old(files), src, dst)
      ensures ok ==> files == old(files)[CopyTarget(old(dirs), src, dst) := old(files)[src]]
      ensures !ok ==> files == old(files)
      ensures dirs == old(dirs)
    {
      ok := CopySucceeds(dirs, files, src, dst);
      if ok {
        var target := CopyTarget(dirs, src, dst);
        files := files[target := files[src]];
      }
    }

    method RemoveTree(p: Path)
      requires Valid()
      modifies this
      ensures Valid()
      ensures dirs == PruneDirs(old(dirs), p) && files == PruneFiles(old(files), p)
    {
      forall q | q in PruneDirs(dirs, p) && q != [] ensures Parent(q) in PruneDirs(dirs, p) {
        assert |p| < |q| ==> q[..|p|] == Parent(q)[..|p|];
      }
      forall q | q in PruneFiles(files, p) ensures Parent(q) in PruneDirs(dirs, p) {
        assert |p| < |q| ==> q[..|p|] == Parent(q)[..|p|];
      }
      dirs := PruneDirs(dirs, p);
      files := PruneFiles(files, p);
    }
  }

  // ---------------------------------------------------------------------
  // SecureSandbox

  /** `Path(base_dir) if base_dir else Path(tempfile.gettempdir()) / "cyber_audit_sandbox"`;
      None stands for both None and the empty string. */
  function BaseDirFor(baseDir: Option<Path>, tempDir: Path): Path
  {
    if baseDir.Some? then baseDir.value else tempDir + ["cyber_audit_sandbox"]
  }

  class SecureSandbox {
    const baseDir: Path
    const fs: FileSystem

    constructor Init(baseDir: Path, fs: FileSystem)
      ensures this.baseDir == baseDir && this.fs == fs
    {
      this.baseDir := baseDir;
      this.fs := fs;
    }

    /** `SecureSandbox(base_dir)`: the constructor creates the base directory
        and raises (None) when it cannot. */
    static method Create(baseDir: Option<Path>, tempDir: Path, fs: FileSystem)
      returns (r: Option<SecureSandbox>)
      requires fs.Valid()
      modifies fs
      ensures fs.Valid() && fs.files == old(fs.files)
      ensures var base := BaseDirFor(baseDir, tempDir);
        r.Some? <==> MakeDirs(old(fs.dirs), old(fs.files), base).Some?
      ensures r.Some? ==> r.value.baseDir == BaseDirFor(baseDir, tempDir) && r.value.fs == fs &&
                          r.value.baseDir in fs.dirs
      ensures r.None? ==> fs.dirs == old(fs.dirs)
    {
      var base := BaseDirFor(baseDir, tempDir);
      var ok := fs.MkdirParents(base);
      if ok {
        var s := new SecureSandbox.Init(base, fs);
        r := Some(s);
      } else {
        r := None;
      }
    }

    /** `get_sandbox_path(task_id)`: computes `base_dir / task_id` and touches nothing. */
    function GetSandboxPath(taskId: string): (p: Path)
      ensures PlainName(taskId) ==> p == baseDir + [taskId]
      ensures !Absolute(taskId) ==> Under(p, baseDir)
      ensures Absolute(taskId) ==> p == Components(taskId)
    {
      JoinRelative(baseDir, taskId);
      Join(baseDir, taskId)
    }

    /** `create_sandbox(task_id)`: makes `base_dir / task_id` (and any missing
        ancestor) and returns it; a second call changes nothing. */
    method CreateSandbox(taskId: string) returns (r: Option<Path>)
      requires fs.Valid()
      modifies fs
      ensures fs.Valid() && fs.files == old(fs.files)
      ensures r.Some? <==> MakeDirs(old(fs.dirs), old(fs.files), GetSandboxPath(taskId)).Some?
      ensures r.Some? ==> r.value == GetSandboxPath(taskId) && r.value in fs.dirs &&
                          fs.dirs == old(fs.dirs) + Prefixes(GetSandboxPath(taskId))
      ensures old(GetSandboxPath(taskId) in fs.dirs) ==> r.Some? && fs.dirs == old(fs.dirs)
      ensures r.None? ==> fs.dirs == old(fs.dirs)
    {
      var p := GetSandboxPath(taskId);
      if p in fs.dirs {
        forall q | q in Prefixes(p) ensures q in fs.dirs {
          var k :| 0 <= k <= |p| && q == p[..k];
          AncestorIsDir(fs, p, k);
        }
      }
      var ok := fs.MkdirParents(p);
      r := if ok then Some(p) else None;
    }

    /** `copy_to_sandbox(task_id, source_file)`: creates the task's sandbox,
        then copies the source into it under its own name. */
    method CopyToSandbox(taskId: string, src: Path) returns (r: Option<Path>)
      requires fs.Valid()
      modifies fs
      ensures fs.Valid()
      ensures r.Some? <==> CopyIntoSucceeds(old(fs.dirs), old(fs.files), GetSandboxPath(taskId), src)
      ensures var made := MakeDirs(old(fs.dirs), old(fs.files), GetSandboxPath(taskId));
        fs.dirs == if made.Some? then made.value else old(fs.dirs)
      ensures r.Some? ==> r.value == Join(GetSandboxPath(taskId), Name(src)) && GetSandboxPath(taskId) in fs.dirs
      ensures r.Some? ==> fs.files == old(fs.files)[CopyTarget(fs.dirs, src, r.value) := old(fs.files)[src]]
      ensures r.None? ==> fs.files == old(fs.files)
      ensures old(fs.dirs) <= fs.dirs && DirsChangedOnlyAt(old(fs.dirs), fs.dirs, GetSandboxPath(taskId))
      ensures !Absolute(Name(src)) ==> FilesKeptOutside(old(fs.files), fs.files, GetSandboxPath(taskId))
    {
      var dir := CreateSandbox(taskId);
      if dir.None? {
        return None;
      }
      var sp := dir.value;
      forall q | q in fs.dirs && q !in old(fs.dirs) ensures Under(sp, q) {
        var k :| 0 <= k <= |sp| && q == sp[..k];
      }
      var dest := Join(sp, Name(src));
      TargetInside(fs.dirs, src, sp);
      var ok := fs.CopyFile(src, dest);
      r := if ok then Some(dest) else None;
    }

    /** `cleanup(task_id)`: removes the task's sandbox and everything below
        it when it exists; a failure of rmtree is logged and swallowed. */
    method Cleanup(taskId: string)
      requires fs.Valid()
      modifies fs
      ensures fs.Valid()
      ensures var p := GetSandboxPath(taskId);
        if old(p in fs.dirs) then fs.dirs == PruneDirs(old(fs.dirs), p) && fs.files == PruneFiles(old(fs.files), p)
        else fs.dirs == old(fs.dirs) && fs.files == old(fs.files)
      ensures forall q :: Under(q, GetSandboxPath(taskId)) && q != [] && old(GetSandboxPath(taskId) in fs.dirs)
                ==> !fs.Exists(q)
      ensures fs.dirs <= old(fs.dirs)
      ensures DirsChangedOnlyAt(old(fs.dirs), fs.dirs, GetSandboxPath(taskId))
      ensures FilesKeptOutside(old(fs.files), fs.files, GetSandboxPath(taskId))
    {
      var p := GetSandboxPath(taskId);
      if fs.Exists(p) {
        if p in fs.dirs {
          fs.RemoveTree(p);
        }
        // rmtree on a file raises NotADirectoryError, which is swallowed
      }
    }

    /** `cleanup_all()`: removes the base directory and everything below it. */
    method CleanupAll()
      requires fs.Valid()
      modifies fs
      ensures fs.Valid()
      ensures if old(baseDir in fs.dirs) then fs.dirs == PruneDirs(old(fs.dirs), baseDir) && fs.files == PruneFiles(old(fs.files), baseDir)
              else fs.dirs == old(fs.dirs) && fs.files == old(fs.files)
    {
      if fs.Exists(baseDir) {
        if baseDir in fs.dirs {
          fs.RemoveTree(baseDir);
        }
      }
    }
  }

  lemma {:induction false} AncestorIsDir(fs: FileSystem, p: Path, k: nat)
    requires fs.Valid() && p in fs.dirs && k <= |p|
    ensures p[..k] in fs.dirs
    decreases |p| - k
  {
    if k < |p| {
      AncestorIsDir(fs, p, k + 1);
      assert Parent(p[..k + 1]) == p[..k];
    } else {
      assert p[..k] == p;
    }
  }
}
