/**
 * `write_stream` (utils2download.py): preprocess one stream, name its file
 * after its first trace, and write it unless a file of that name already
 * exists, creating the missing directories first. The file system is a
 * `FileSystem` object whose tables the operations update in place; what
 * each call does to it is specified by `WriteEffect` on a `Disk` value.
 */
module Sink {
  import opened Common
  import opened Restrictions
  import opened Naming
  import opened Preprocessing

  // ---------------------------------------------------------------------------
  // POSIX path names
  // ---------------------------------------------------------------------------

  /** The index of the last `/` of `p`, or -1 when there is none. */
  function LastSlash(p: string): (i: int)
    ensures -1 <= i < |p|
    ensures i >= 0 ==> p[i] == '/'
    ensures forall j :: i < j < |p| ==> p[j] != '/'
  {
    if p == [] then -1 else if p[|p| - 1] == '/' then |p| - 1 else LastSlash(p[..|p| - 1])
  }

  predicate AllSlashes(s: string) {
    forall i :: 0 <= i < |s| ==> s[i] == '/'
  }

  /** `s.rstrip('/')`. */
  function StripSlashes(s: string): (r: string)
    ensures |r| <= |s| && r == s[..|r|]
    ensures forall i :: |r| <= i < |s| ==> s[i] == '/'
    ensures r == [] || r[|r| - 1] != '/'
  {
    if s != [] && s[|s| - 1] == '/' then StripSlashes(s[..|s| - 1]) else s
  }

  /**
   * `os.path.dirname`: everything up to the last `/`, without the trailing
   * slashes unless it is made of slashes only.
   */
  function Dirname(p: string): (d: string)
    ensures |d| <= |p| && d == p[..|d|]
    ensures (forall i :: 0 <= i < |p| ==> p[i] != '/') ==> d == ""
  {
    var head := p[..LastSlash(p) + 1];
    if head != [] && !AllSlashes(head) then StripSlashes(head) else head
  }

  /** The directory `os.makedirs(d)` creates together with those above it. */
  function Chain(d: string): (c: set<string>)
    ensures d != "" ==> d in c
    ensures "" !in c
    ensures forall x :: x in c ==> |x| <= |d| && d[..|x|] == x
    decreases |d|
  {
    if d == "" then {}
    else
      var up := Dirname(d);
      if |up| < |d| then {d} + Chain(up) else {d}
  }

  // ---------------------------------------------------------------------------
  // The file system
  // ---------------------------------------------------------------------------

  /** The files (with the stream each holds) and the directories. */
  datatype Disk = Disk(files: map<string, Stream>, dirs: set<string>)

  /**
   * `os.makedirs(d)`: `d` is the empty path (`FileNotFoundError`), or one of
   * the directories to create is an existing file; otherwise every missing
   * directory on the way to `d` is made.
   */
  function Makedirs(disk: Disk, d: string): (r: Option<Disk>)
    ensures d == "" || d in disk.files ==> r.None?
    ensures r.None? ==> d == "" || exists x :: x in disk.files && |x| <= |d| && d[..|x|] == x
    ensures r.Some? ==> r.value.files == disk.files && d in r.value.dirs && disk.dirs <= r.value.dirs
    ensures r.Some? ==> forall x :: x in r.value.dirs - disk.dirs ==> |x| <= |d| && d[..|x|] == x
    ensures r.Some? ==> forall x :: x in r.value.dirs - disk.dirs ==> x !in disk.files
  {
    if d == "" || exists a :: a in Chain(d) && a in disk.files then None
    else Some(disk.(dirs := disk.dirs + Chain(d)))
  }

  /** The file system, updated in place by the operations that create files and directories. */
  class FileSystem {
    var files: map<string, Stream>
    var dirs: set<string>

    constructor (disk: Disk)
      ensures State() == disk
    {
      files := disk.files;
      dirs := disk.dirs;
    }

    function State(): Disk
      reads this
    {
      Disk(files, dirs)
    }

    /** `os.path.isfile`. */
    predicate IsFile(p: string)
      reads this
    {
      p in files
    }

    /** `os.path.isdir`. */
    predicate IsDir(p: string)
      reads this
    {
      p in dirs
    }

    method MakeDirs(d: string) returns (ok: bool)
      modifies this
      ensures ok == Makedirs(old(State()), d).Some?
      ensures State() == if ok then Makedirs(old(State()), d).value else old(State())
    {
      var m := Makedirs(State(), d);
      if m.None? {
        return false;
      }
      dirs := dirs + Chain(d);
      return true;
    }

    /** `Stream.write(path, format="MSEED")`; `persist` says whether the encoder succeeded. */
    method Write(st: Stream, path: string, persist: (Stream, string) -> bool) returns (ok: bool)
      modifies this
      ensures ok == (path !in old(dirs) && persist(st, path))
      ensures dirs == old(dirs)
      ensures files == if ok then old(files)[path := st] else old(files)
    {
      if path in dirs || !persist(st, path) {
        return false;
      }
      files := files[path := st];
      return true;
    }
  }

  // ---------------------------------------------------------------------------
  // write_stream
  // ---------------------------------------------------------------------------

  /**
   * Why `write_stream` raises: `preproc_stream` raised, the processed stream
   * has no trace, the template could not be formatted, `os.makedirs` failed,
   * or writing the file failed.
   */
  datatype WriteError =
    | PreprocFailed(ppcError: PpcError)
    | NoTrace
    | TemplateFailed(formatError: FormatError)
    | MakedirsFailed(dir: string)
    | WriteFailed(path: string)

  /** What `write_stream` reports: `[Downloaded]` or `[Exist]`, the path and the comment. */
  datatype Written = Downloaded(path: string, comment: string) | Existed(path: string, comment: string)

  /** Where `write_stream` puts a stream, with the outcome of preprocessing. */
  function Target(engine: Engine, ppc: Option<PreprocRestrictions>, template: string, st: Stream)
    : Result<(Preprocessed, string), WriteError>
  {
    match Preproc(engine, ppc, st)
    case Err(e) => Err(PreprocFailed(e))
    case Ok(pp) =>
      if pp.stream == [] then Err(NoTrace)
      else
        var s := pp.stream[0].stats;
        match MseedFilename(template, s.network, s.station, s.location, s.channel,
                            s.starttime, s.endtime, pp.processed)
        case Err(e) => Err(TemplateFailed(e))
        case Ok(path) => Ok((pp, path))
  }

  /** The specification of `write_stream`: its report or error, and the file system after it. */
  function WriteEffect(disk: Disk, engine: Engine, ppc: Option<PreprocRestrictions>, template: string,
                       st: Stream, persist: (Stream, string) -> bool): (Result<Written, WriteError>, Disk)
  {
    match Target(engine, ppc, template, st)
    case Err(e) => (Err(e), disk)
    case Ok((pp, path)) =>
      if path in disk.files then (Ok(Existed(path, pp.comment)), disk)
      else
        var dir := Dirname(path);
        var made := if dir in disk.dirs then Some(disk) else Makedirs(disk, dir);
        match made
        case None => (Err(MakedirsFailed(dir)), disk)
        case Some(d) =>
          if path in d.dirs || !persist(pp.stream, path) then (Err(WriteFailed(path)), d)
          else (Ok(Downloaded(path, pp.comment)), d.(files := d.files[path := pp.stream]))
  }

  /** `write_stream`, on the file system it is given. */
  method WriteStream(fs: FileSystem, engine: Engine, ppc: Option<PreprocRestrictions>, template: string,
                     st: Stream, persist: (Stream, string) -> bool)
    returns (r: Result<Written, WriteError>)
    modifies fs
    ensures (r, fs.State()) == WriteEffect(old(fs.State()), engine, ppc, template, st, persist)
  {
    var pre := PreprocStream(engine, ppc, st);
    if pre.Err? {
      return Err(PreprocFailed(pre.error));
    }
    var pp := pre.value;
    if |pp.stream| == 0 {
      return Err(NoTrace);
    }
    var s := pp.stream[0].stats;
    var name := MseedFilename(template, s.network, s.station, s.location, s.channel,
                              s.starttime, s.endtime, pp.processed);
    if name.Err? {
      return Err(TemplateFailed(name.error));
    }
    var path := name.value;
    if fs.IsFile(path) {
      return Ok(Existed(path, pp.comment));
    }
    var dir := Dirname(path);
    if !fs.IsDir(dir) {
      var ok := fs.MakeDirs(dir);
      if !ok {
        return Err(MakedirsFailed(dir));
      }
    }
    var written := fs.Write(pp.stream, path, persist);
    if !written {
      return Err(WriteFailed(path));
    }
    return Ok(Downloaded(path, pp.comment));
  }

  /** `run_process` and `run_thread` (downloader.py): `write_stream` with the arguments reordered. */
  method RunProcess(fs: FileSystem, engine: Engine, ppc: Option<PreprocRestrictions>, template: string,
                    persist: (Stream, string) -> bool, st: Stream)
    returns (r: Result<Written, WriteError>)
    modifies fs
    ensures (r, fs.State()) == WriteEffect(old(fs.State()), engine, ppc, template, st, persist)
  {
    r := WriteStream(fs, engine, ppc, template, st, persist);
  }

  // ---------------------------------------------------------------------------
  // Properties of write_stream
  // ---------------------------------------------------------------------------

  predicate NoSlash(s: string) {
    forall i :: 0 <= i < |s| ==> s[i] != '/'
  }

  lemma {:induction false} LastSlashBefore(a: string, b: string)
    requires a != [] && a[|a| - 1] == '/' && NoSlash(b)
    ensures LastSlash(a + b) == |a| - 1
    decreases |b|
  {
    if b == [] {
      assert a + b == a;
    } else {
      assert (a + b)[..|a + b| - 1] == a + b[..|b| - 1];
      LastSlashBefore(a, b[..|b| - 1]);
    }
  }

  /** The directory of a file joined onto a directory name is that name, without its trailing slashes. */
  lemma DirnameOfJoin(a: string, b: string)
    requires a != "" && b != "" && NoSlash(b)
    ensures Dirname(Join(a, b)) == if AllSlashes(a) then a else StripSlashes(a)
  {
    var sep := if a[|a| - 1] == '/' then a else a + "/";
    assert Join(a, b) == sep + b;
    LastSlashBefore(sep, b);
    assert (sep + b)[..|sep|] == sep;
    if a[|a| - 1] != '/' {
      assert StripSlashes(sep) == StripSlashes(a);
      assert !AllSlashes(a) && !AllSlashes(sep);
    }
  }

  /** A path the file system already has is reported and left as it is. */
  lemma ExistingPathUntouched(disk: Disk, engine: Engine, ppc: Option<PreprocRestrictions>, template: string,
                              st: Stream, persist: (Stream, string) -> bool)
    requires Target(engine, ppc, template, st).Ok? && Target(engine, ppc, template, st).value.1 in disk.files
    ensures var (pp, path) := Target(engine, ppc, template, st).value;
      WriteEffect(disk, engine, ppc, template, st, persist) == (Ok(Existed(path, pp.comment)), disk)
  {
  }

  /**
   * A file written is named by the template, holds the processed stream and
   * sits in a directory that now exists; it did not exist before.
   */
  lemma DownloadedPlacement(disk: Disk, engine: Engine, ppc: Option<PreprocRestrictions>, template: string,
                            st: Stream, persist: (Stream, string) -> bool)
    requires WriteEffect(disk, engine, ppc, template, st, persist).0.Ok?
    requires WriteEffect(disk, engine, ppc, template, st, persist).0.value.Downloaded?
    ensures var (r, after) := WriteEffect(disk, engine, ppc, template, st, persist);
      var (pp, path) := Target(engine, ppc, template, st).value;
      && r.value.path == path
      && path !in disk.files
      && after.files == disk.files[path := pp.stream]
      && Dirname(path) in after.dirs
  {
    var (pp, path) := Target(engine, ppc, template, st).value;
    var dir := Dirname(path);
    if dir !in disk.dirs {
      assert Makedirs(disk, dir).Some?;
      assert dir in Chain(dir);
    }
  }

  /**
   * Nothing written before is overwritten or removed: the files after the
   * call are those before, plus at most the one reported as downloaded.
   */
  /** The directories `write_stream` makes for `dir`: none if it exists, otherwise `dir` and its missing parents. */
  function Created(disk: Disk, dir: string): set<string> {
    if dir in disk.dirs then {} else Chain(dir)
  }

  /** The call got as far as writing the file (whether or not the write succeeded). */
  predicate ReachedWrite(r: Result<Written, WriteError>) {
    (r.Ok? && r.value.Downloaded?) || (r.Err? && r.error.WriteFailed?)
  }

  lemma NoOverwrite(disk: Disk, engine: Engine, ppc: Option<PreprocRestrictions>, template: string,
                    st: Stream, persist: (Stream, string) -> bool)
    ensures var (r, after) := WriteEffect(disk, engine, ppc, template, st, persist);
      && disk.dirs <= after.dirs
      && (forall p :: p in disk.files ==> p in after.files && after.files[p] == disk.files[p])
      && (r.Ok? && r.value.Downloaded? ==> after.files.Keys == disk.files.Keys + {r.value.path})
      && (!(r.Ok? && r.value.Downloaded?) ==> after.files == disk.files)
    ensures var (r, after) := WriteEffect(disk, engine, ppc, template, st, persist);
      && (ReachedWrite(r) ==> Target(engine, ppc, template, st).Ok?)
      && (ReachedWrite(r) ==> after.dirs == disk.dirs + Created(disk, Dirname(Target(engine, ppc, template, st).value.1)))
      && (!ReachedWrite(r) ==> after.dirs == disk.dirs)
  {
    FilesKept(disk, engine, ppc, template, st, persist);
    DirsMade(disk, engine, ppc, template, st, persist);
  }

  lemma FilesKept(disk: Disk, engine: Engine, ppc: Option<PreprocRestrictions>, template: string,
                  st: Stream, persist: (Stream, string) -> bool)
    ensures var (r, after) := WriteEffect(disk, engine, ppc, template, st, persist);
      && disk.dirs <= after.dirs
      && (forall p :: p in disk.files ==> p in after.files && after.files[p] == disk.files[p])
      && (r.Ok? && r.value.Downloaded? ==> after.files.Keys == disk.files.Keys + {r.value.path})
      && (!(r.Ok? && r.value.Downloaded?) ==> after.files == disk.files)
  {
    match Target(engine, ppc, template, st)
    case Err(_) =>
    case Ok((pp, path)) =>
      if path !in disk.files {
        var dir := Dirname(path);
        var made := if dir in disk.dirs then Some(disk) else Makedirs(disk, dir);
        if made.Some? {
          var d := made.value;
          assert disk.dirs <= d.dirs && d.files == disk.files;
          if !(path in d.dirs || !persist(pp.stream, path)) {
            assert WriteEffect(disk, engine, ppc, template, st, persist)
                == (Ok(Downloaded(path, pp.comment)), d.(files := d.files[path := pp.stream]));
          }
        }
      }
  }

  lemma DirsMade(disk: Disk, engine: Engine, ppc: Option<PreprocRestrictions>, template: string,
                 st: Stream, persist: (Stream, string) -> bool)
    ensures var (r, after) := WriteEffect(disk, engine, ppc, template, st, persist);
      && (ReachedWrite(r) ==> Target(engine, ppc, template, st).Ok?)
      && (ReachedWrite(r) ==> after.dirs == disk.dirs + Created(disk, Dirname(Target(engine, ppc, template, st).value.1)))
      && (!ReachedWrite(r) ==> after.dirs == disk.dirs)
  {
    var w := WriteEffect(disk, engine, ppc, template, st, persist);
    match Target(engine, ppc, template, st)
    case Err(e) =>
      assert w == (Err(e), disk);
    case Ok((pp, path)) =>
      if path in disk.files {
        assert w == (Ok(Existed(path, pp.comment)), disk);
      } else {
        var dir := Dirname(path);
        var made := if dir in disk.dirs then Some(disk) else Makedirs(disk, dir);
        if made.None? {
          assert w == (Err(MakedirsFailed(dir)), disk);
        } else {
          assert made.value.dirs == disk.dirs + Created(disk, dir);
          assert w.1.dirs == made.value.dirs && ReachedWrite(w.0);
        }
      }
  }

  /**
   * Writing the same stream again changes nothing and reports `[Exist]`:
   * `write_stream` is idempotent once it has succeeded.
   */
  lemma WriteIdempotent(disk: Disk, engine: Engine, ppc: Option<PreprocRestrictions>, template: string,
                        st: Stream, persist: (Stream, string) -> bool)
    requires WriteEffect(disk, engine, ppc, template, st, persist).0.Ok?
    ensures var (r, after) := WriteEffect(disk, engine, ppc, template, st, persist);
      WriteEffect(after, engine, ppc, template, st, persist) == (Ok(Existed(r.value.path, r.value.comment)), after)
  {
  }

  /**
   * A path without a directory part cannot be written: `os.path.isdir('')`
   * is false, so `os.makedirs('')` is called and raises.
   */
  lemma BareFileNameFails(disk: Disk, engine: Engine, ppc: Option<PreprocRestrictions>, template: string,
                          st: Stream, persist: (Stream, string) -> bool)
    requires "" !in disk.dirs
    requires Target(engine, ppc, template, st).Ok?
    requires NoSlash(Target(engine, ppc, template, st).value.1)
    requires Target(engine, ppc, template, st).value.1 !in disk.files
    ensures WriteEffect(disk, engine, ppc, template, st, persist) == (Err(MakedirsFailed("")), disk)
  {
  }
}
