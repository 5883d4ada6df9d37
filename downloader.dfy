/**
 * `MseedDownloader` (downloader.py): split the requested interval into
 * chunks, fetch each chunk from the client, group its traces and write
 * every group, one after the other or through a worker pool.
 *
 * The client's `get_waveforms` followed by `Stream._groupby` is the `Fetch`
 * parameter (`None` when either raises, which the source catches). A pool is
 * modelled by its effect: each group is written once, in list order, and the
 * errors of the workers are never seen by the caller.
 */
module Downloader {
  import opened Common
  import opened Restrictions
  import opened Chunking
  import opened Preprocessing
  import opened Sink

  /** What stays fixed for the whole download: processing, naming and the encoder. */
  datatype Job = Job(engine: Engine, ppc: Option<PreprocRestrictions>, storage: string,
                     persist: (Stream, string) -> bool)

  /** The client's request followed by the grouping: the groups of one chunk, or `None`. */
  type Fetch = (DownloadRestrictions, Time, Time) -> Option<seq<Stream>>

  /**
   * Why a download stops: `get_chunktimes` raised, a write raised while the
   * groups were written in turn, or a pool was asked for `max_workers <= 0`
   * (`ValueError`).
   */
  datatype Abort = ChunkFailed(chunkError: ChunkError) | WriteAborted(writeError: WriteError) | PoolRejected(workers: int)

  /** `concurrent_feature in ("thread","Thread","t","T")`. */
  predicate IsThreadFeature(f: string) {
    f in ["thread", "Thread", "t", "T"]
  }

  /** `concurrent_feature in ("process","Process","p","P")`. */
  predicate IsProcessFeature(f: string) {
    f in ["process", "Process", "p", "P"]
  }

  function Write(disk: Disk, job: Job, st: Stream): (Result<Written, WriteError>, Disk) {
    WriteEffect(disk, job.engine, job.ppc, job.storage, st, job.persist)
  }

  /** The groups written in turn: the first error propagates and ends the download. */
  function InTurn(disk: Disk, job: Job, groups: seq<Stream>): (Option<WriteError>, Disk)
    decreases |groups|
  {
    if groups == [] then (None, disk)
    else
      var w := Write(disk, job, groups[0]);
      if w.0.Err? then (Some(w.0.error), w.1) else InTurn(w.1, job, groups[1..])
  }

  /** The groups handed to a pool: every one is written and errors are swallowed. */
  function InPool(disk: Disk, job: Job, groups: seq<Stream>): Disk
    decreases |groups|
  {
    if groups == [] then disk else InPool(Write(disk, job, groups[0]).1, job, groups[1..])
  }

  /** `n_processor` after `if n_processor > len(st_values): n_processor = len(st_values)`. */
  function Clamp(n: int, groups: seq<Stream>): (m: int)
    ensures m <= n && m <= |groups|
    ensures m == n || m == |groups|
  {
    if n > |groups| then |groups| else n
  }

  /** Where the loop stands after a chunk: an abort, the file system, and `n_processor`. */
  datatype Progress = Progress(abort: Option<Abort>, disk: Disk, workers: int)

  /** The body of the loop for a chunk whose groups were fetched. */
  function Chunk(disk: Disk, job: Job, feature: string, n: int, groups: seq<Stream>): Progress {
    if n == 1 then
      var (e, d) := InTurn(disk, job, groups);
      Progress(if e.Some? then Some(WriteAborted(e.value)) else None, d, n)
    else
      var m := Clamp(n, groups);
      if IsThreadFeature(feature) || IsProcessFeature(feature) then
        if m <= 0 then Progress(Some(PoolRejected(m)), disk, m)
        else Progress(None, InPool(disk, job, groups), m)
      else Progress(None, disk, m)
  }

  /** The loop over the chunks from `ws` on; `n` carries over from one chunk to the next. */
  function RunChunks(disk: Disk, job: Job, fetch: Fetch, dr: DownloadRestrictions, feature: string,
                     n: int, ws: seq<Window>): (Option<Abort>, Disk)
    decreases |ws|
  {
    if ws == [] then (None, disk)
    else
      match fetch(dr, ws[0].start, ws[0].end)
      case None => RunChunks(disk, job, fetch, dr, feature, n, ws[1..])
      case Some(groups) =>
        var p := Chunk(disk, job, feature, n, groups);
        if p.abort.Some? then (p.abort, p.disk)
        else RunChunks(p.disk, job, fetch, dr, feature, p.workers, ws[1..])
  }

  /** The specification of `MseedDownloader`: how it stops, and the file system after it. */
  function Download(disk: Disk, job: Job, fetch: Fetch, dr: DownloadRestrictions, n: int,
                    feature: string): (Option<Abort>, Disk)
    requires Terminates(dr.base.starttime, dr.base.endtime, dr.base.chunklength, dr.overlapInSec)
  {
    match Chunks(dr.base.starttime, dr.base.endtime, dr.base.chunklength, dr.overlapInSec)
    case Err(e) => (Some(ChunkFailed(e)), disk)
    case Ok(ws) => RunChunks(disk, job, fetch, dr, feature, n, ws)
  }

  /** `for one_st in st_values: u2d.write_stream(...)`. */
  method WriteInTurn(fs: FileSystem, job: Job, groups: seq<Stream>) returns (e: Option<WriteError>)
    modifies fs
    ensures (e, fs.State()) == InTurn(old(fs.State()), job, groups)
  {
    var i := 0;
    assert groups[0..] == groups;
    while i < |groups|
      invariant 0 <= i <= |groups|
      invariant InTurn(old(fs.State()), job, groups) == InTurn(fs.State(), job, groups[i..])
    {
      assert groups[i..][1..] == groups[i + 1..];
      var r := RunProcess(fs, job.engine, job.ppc, job.storage, job.persist, groups[i]);
      if r.Err? {
        return Some(r.error);
      }
      i := i + 1;
    }
    return None;
  }

  /** `executor.map(run_thread, st_values)` inside the pool's `with` block. */
  method WriteInPool(fs: FileSystem, job: Job, groups: seq<Stream>)
    modifies fs
    ensures fs.State() == InPool(old(fs.State()), job, groups)
  {
    var i := 0;
    assert groups[0..] == groups;
    while i < |groups|
      invariant 0 <= i <= |groups|
      invariant InPool(old(fs.State()), job, groups) == InPool(fs.State(), job, groups[i..])
    {
      assert groups[i..][1..] == groups[i + 1..];
      var _ := RunProcess(fs, job.engine, job.ppc, job.storage, job.persist, groups[i]);
      i := i + 1;
    }
  }

  /** `MseedDownloader`. */
  method MseedDownloader(fs: FileSystem, job: Job, fetch: Fetch, dr: DownloadRestrictions,
                         nProcessor: int, feature: string) returns (abort: Option<Abort>)
    requires Terminates(dr.base.starttime, dr.base.endtime, dr.base.chunklength, dr.overlapInSec)
    modifies fs
    ensures (abort, fs.State()) == Download(old(fs.State()), job, fetch, dr, nProcessor, feature)
  {
    var times := ChunkTimes(dr.base.starttime, dr.base.endtime, dr.base.chunklength, dr.overlapInSec);
    if times.Err? {
      return Some(ChunkFailed(times.error));
    }
    var ws := times.value;
    var n := nProcessor;
    var i := 0;
    assert ws[0..] == ws;
    while i < |ws|
      invariant 0 <= i <= |ws|
      invariant Download(old(fs.State()), job, fetch, dr, nProcessor, feature)
             == RunChunks(fs.State(), job, fetch, dr, feature, n, ws[i..])
    {
      assert ws[i..][1..] == ws[i + 1..];
      var got := fetch(dr, ws[i].start, ws[i].end);
      if got.Some? {
        var groups := got.value;
        if n == 1 {
          var e := WriteInTurn(fs, job, groups);
          if e.Some? {
            return Some(WriteAborted(e.value));
          }
        } else {
          if n > |groups| {
            n := |groups|;
          }
          if IsThreadFeature(feature) || IsProcessFeature(feature) {
            if n <= 0 {
              return Some(PoolRejected(n));
            }
            WriteInPool(fs, job, groups);
          }
        }
      }
      i := i + 1;
    }
    return None;
  }

  // ---------------------------------------------------------------------------
  // Properties of the download loop
  // ---------------------------------------------------------------------------

  /** A chunk whose request fails is skipped: the download is the one without that chunk. */
  lemma {:induction false} FailedFetchSkipped(disk: Disk, job: Job, fetch: Fetch, dr: DownloadRestrictions,
                                              feature: string, n: int, ws: seq<Window>, k: nat)
    requires k < |ws| && fetch(dr, ws[k].start, ws[k].end).None?
    ensures RunChunks(disk, job, fetch, dr, feature, n, ws)
         == RunChunks(disk, job, fetch, dr, feature, n, ws[..k] + ws[k + 1..])
    decreases k
  {
    var rest := ws[..k] + ws[k + 1..];
    if k == 0 {
      assert rest == ws[1..];
    } else {
      assert rest[0] == ws[0];
      assert rest[1..] == ws[1..][..k - 1] + ws[1..][k..];
      match fetch(dr, ws[0].start, ws[0].end)
      case None =>
        FailedFetchSkipped(disk, job, fetch, dr, feature, n, ws[1..], k - 1);
      case Some(groups) =>
        var p := Chunk(disk, job, feature, n, groups);
        if p.abort.None? {
          FailedFetchSkipped(p.disk, job, fetch, dr, feature, p.workers, ws[1..], k - 1);
        }
    }
  }

  /**
   * `n_processor` never grows from one chunk to the next; once clamped to
   * one it stays one, so every later chunk is written in turn.
   */
  lemma WorkersNeverGrow(disk: Disk, job: Job, feature: string, n: int, groups: seq<Stream>)
    ensures Chunk(disk, job, feature, n, groups).workers <= n
    ensures n != 1 ==> Chunk(disk, job, feature, n, groups).workers <= |groups|
    ensures n > 1 && |groups| == 1 ==> Chunk(disk, job, feature, n, groups).workers == 1
  {
  }

  /** With neither a thread nor a process feature and more than one worker, a chunk is not written. */
  lemma UnknownFeatureWritesNothing(disk: Disk, job: Job, feature: string, n: int, groups: seq<Stream>)
    requires n != 1 && !IsThreadFeature(feature) && !IsProcessFeature(feature)
    ensures Chunk(disk, job, feature, n, groups) == Progress(None, disk, Clamp(n, groups))
  {
  }

  /** A pool asked for no worker, or for fewer, refuses to start and the download stops. */
  lemma NonPositiveWorkersStop(disk: Disk, job: Job, feature: string, n: int, groups: seq<Stream>)
    requires IsThreadFeature(feature) || IsProcessFeature(feature)
    requires n <= 0 || groups == []
    requires n != 1
    ensures Chunk(disk, job, feature, n, groups).abort == Some(PoolRejected(Clamp(n, groups)))
    ensures Chunk(disk, job, feature, n, groups).disk == disk
  {
  }

  /** Groups written in turn without an error leave the file system as a pool would. */
  lemma {:induction false} InTurnAsPool(disk: Disk, job: Job, groups: seq<Stream>)
    requires InTurn(disk, job, groups).0.None?
    ensures InTurn(disk, job, groups).1 == InPool(disk, job, groups)
    decreases |groups|
  {
    if groups != [] {
      InTurnAsPool(Write(disk, job, groups[0]).1, job, groups[1..]);
    }
  }

  /** A pool never removes or overwrites a file, whatever its workers raise. */
  lemma {:induction false} PoolKeepsFiles(disk: Disk, job: Job, groups: seq<Stream>)
    ensures var after := InPool(disk, job, groups);
      && disk.dirs <= after.dirs
      && forall p :: p in disk.files ==> p in after.files && after.files[p] == disk.files[p]
    decreases |groups|
  {
    if groups != [] {
      NoOverwrite(disk, job.engine, job.ppc, job.storage, groups[0], job.persist);
      PoolKeepsFiles(Write(disk, job, groups[0]).1, job, groups[1..]);
    }
  }

  /** The same for a whole download: files already on disk survive it unchanged. */
  lemma {:induction false} DownloadKeepsFiles(disk: Disk, job: Job, fetch: Fetch, dr: DownloadRestrictions,
                                              feature: string, n: int, ws: seq<Window>)
    ensures var after := RunChunks(disk, job, fetch, dr, feature, n, ws).1;
      forall p :: p in disk.files ==> p in after.files && after.files[p] == disk.files[p]
    decreases |ws|
  {
    if ws != [] {
      match fetch(dr, ws[0].start, ws[0].end)
      case None =>
        DownloadKeepsFiles(disk, job, fetch, dr, feature, n, ws[1..]);
      case Some(groups) =>
        var p := Chunk(disk, job, feature, n, groups);
        ChunkKeepsFiles(disk, job, feature, n, groups);
        DownloadKeepsFiles(p.disk, job, fetch, dr, feature, p.workers, ws[1..]);
    }
  }

  lemma ChunkKeepsFiles(disk: Disk, job: Job, feature: string, n: int, groups: seq<Stream>)
    ensures var after := Chunk(disk, job, feature, n, groups).disk;
      forall p :: p in disk.files ==> p in after.files && after.files[p] == disk.files[p]
  {
    if n == 1 {
      InTurnKeepsFiles(disk, job, groups);
    } else {
      PoolKeepsFiles(disk, job, groups);
    }
  }

  lemma {:induction false} InTurnKeepsFiles(disk: Disk, job: Job, groups: seq<Stream>)
    ensures var after := InTurn(disk, job, groups).1;
      forall p :: p in disk.files ==> p in after.files && after.files[p] == disk.files[p]
    decreases |groups|
  {
    if groups != [] {
      NoOverwrite(disk, job.engine, job.ppc, job.storage, groups[0], job.persist);
      InTurnKeepsFiles(Write(disk, job, groups[0]).1, job, groups[1..]);
    }
  }

  /** An interval `get_chunktimes` rejects stops the download before anything is fetched. */
  lemma ZeroChunkStops(disk: Disk, job: Job, fetch: Fetch, dr: DownloadRestrictions, n: int, feature: string)
    requires dr.base.chunklength == Some(0)
    ensures Download(disk, job, fetch, dr, n, feature) == (Some(ChunkFailed(ZeroChunkLength)), disk)
  {
  }
}
