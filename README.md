# MseedDownloader, modelled in Dafny

MseedDownloader downloads seismic waveforms from FDSN services and stores them as
MiniSEED files. This project models the core of its two downloaders:

- **the single-station downloader** (`concurrent_downloader/sdl`):
  - the download and preprocessing restrictions;
  - the splitting of a request interval into time chunks (`get_chunktimes`);
  - the file name a stream is stored under (`get_mseed_filename`);
  - the preprocessing pipeline and the comment it leaves (`preproc_stream`);
  - writing a stream without overwriting (`write_stream`);
  - the chunk loop that fetches, groups and writes streams in turn or through a
    thread or process pool (`MseedDownloader`);
- **the bulk downloader** (`concurrent_downloader/mdl`):
  - the station list taken from an inventory (`_get_stations_info`);
  - the per-station restrictions rebuilt from a template object
    (`_build_station_restrictions`);
  - the argument tuples for the process pool (`_prepare_args_for_process`);
  - the whole of `download_by_station`, with the SDS guard, the worker-count cases and
    the two pool modes.

Modules:

- `Common` (`common.dfy`): `Option`, `Result` and Python's substring test.
- `Restrictions` (`restrictions.dfy`): the restriction objects and their defaults.
- `Chunking` (`chunking.dfy`): `get_chunktimes`.
- `Naming` (`naming.dfy`):
  - a model of `str.format` over templates with named placeholders;
  - the `strftime` time stamp;
  - `os.path.join`;
  - `get_mseed_filename`.
- `Preprocessing` (`preprocessing.dfy`): `preproc_stream`. The signal-processing
  library is a parameter (`Engine`).
- `Sink` (`sink.dfy`): `write_stream` over a file-system state. The state is a
  `FileSystem` class whose methods update its files and directories.
- `Downloader` (`downloader.dfy`): `MseedDownloader` and `run_process`.
- `Bulk` (`bulk.dfy`): the bulk downloader.

Each operation that loops or changes state is a method. Each such method is proved
equal to a specification function:

- `ChunkTimes` to `Chunks`;
- `PreprocStream` to `Preproc`;
- `WriteStream` to `WriteEffect`;
- `MseedDownloader` to `Download`;
- `BuildStationRestrictions` to `StationKwargs`;
- `DownloadByStation` to `ByStation`.

Lemmas about those functions state what the source promises:

- the chunks cover the interval;
- a full template round-trips through `format`;
- existing files are never overwritten;
- writing twice is idempotent;
- failed preprocessing steps are reported and skipped;
- one restriction is built per station, and so on.

Times are whole seconds since the Unix epoch. Remote services (the FDSN client, the
mass downloader, the inventory request), the signal processing and the MiniSEED writer
are parameters of the model.

## Model

| member | source | states |
|---|---|---|
| Restrictions.NewBaseRestrictions | concurrent_downloader/sdl/restrictions.py:54-57 | The base restrictions keep the identity fields, the time span and the chunk length exactly as given, and have no extra attributes that clash with those. |
| Restrictions.NewDownloadRestrictions | concurrent_downloader/sdl/restrictions.py:11-59 | Download restrictions have the base built from the arguments, plus the overlap and the grouping key as given. |
| Restrictions.DownloadDefaults | concurrent_downloader/sdl/restrictions.py:12-16 | Without optional arguments: no chunk length, an overlap of 0 and grouping by `{network}.{station}.{channel}`. |
| Restrictions.NewPreprocRestrictions | concurrent_downloader/sdl/restrictions.py:96-105 | Every preprocessing field is stored as given. |
| Restrictions.PreprocDefaults | concurrent_downloader/sdl/restrictions.py:61-65 | The default order is merge, detrend, taper, normalized, and no step has parameters. |
| Restrictions.Attributes | concurrent_downloader/sdl/restrictions.py:54-59 | The object's attribute list: the seven typed attributes in their fixed order, followed by the extra attributes. |
| Chunking.Chunks | concurrent_downloader/sdl/utils2download.py:172-219 | A definition: what `get_chunktimes` returns or raises. Its properties are proved by `Chunking.InputDefaults`, `Chunking.EmptyIff`, `Chunking.ChunksCoverInterval` and `Chunking.AbutWithoutOverlap`, and `Chunking.ChunkTimes` is proved equal to it. |
| Chunking.ChunkTimes | concurrent_downloader/sdl/utils2download.py:172-219 | The cursor loop returns exactly the windows of the `Chunks` specification, including the zero-length error and the single window when no chunk length is set. |
| Chunking.InputDefaults | concurrent_downloader/sdl/utils2download.py:196-202 | A chunk length of 0 raises. No chunk length gives the one window [start, end]. A missing overlap acts as 0. |
| Chunking.EmptyIff | concurrent_downloader/sdl/utils2download.py:204-219 | With a chunk length set, the list is empty exactly when start >= end. |
| Chunking.WindowsShape | concurrent_downloader/sdl/utils2download.py:204-219 | When the step is between 1 and the chunk length: the first window starts at the cursor and the last ends at `end`. Consecutive starts are one step apart. Every window before the last is a full chunk. Every window is non-empty and lies inside the interval. |
| Chunking.WindowsEnds | concurrent_downloader/sdl/utils2download.py:204-219 | When the step is between 1 and the chunk length, the list is non-empty, starts at the cursor and ends at `end`. |
| Chunking.WindowsSteps | concurrent_downloader/sdl/utils2download.py:204-219 | Every window but the last is a full chunk, and the next one starts one step later. |
| Chunking.WindowsInside | concurrent_downloader/sdl/utils2download.py:204-219 | Every window is non-empty, at most a chunk wide and inside [cursor, end]. |
| Chunking.WindowsCover | concurrent_downloader/sdl/utils2download.py:204-219 | When the step is at most the chunk length, every second of [cursor, end) lies in some window. |
| Chunking.ChunksCoverInterval | concurrent_downloader/sdl/utils2download.py:172-219 | When 0 <= overlap < chunk length, the call terminates. It returns non-empty windows from start to end: full chunks whose starts advance by chunk length minus overlap, a remainder window at the end, and no gap in between. |
| Chunking.AbutWithoutOverlap | concurrent_downloader/sdl/utils2download.py:204-219 | With overlap 0, each window ends where the next starts. |
| Chunking.TwoHoursInHours | concurrent_downloader/sdl/utils2download.py:204-219 | Two hours in one-hour chunks gives exactly two adjoining one-hour windows. |
| Chunking.TwoHoursWithOverlap | concurrent_downloader/sdl/utils2download.py:204-219 | Two hours in one-hour chunks with 900 s of overlap gives three windows, the last a 30-minute remainder. |
| Common.ContainsPrefix | concurrent_downloader/sdl/utils2download.py:80-81 | A string contains its own prefix (the `in` test on templates). |
| Common.ContainsSuffix | concurrent_downloader/sdl/utils2download.py:80-81 | A substring of a tail is a substring of the whole string. |
| Naming.Format | concurrent_downloader/sdl/utils2download.py:80-95 | A definition: `str.format` with keyword arguments, doubled braces, `KeyError` and `ValueError`. Its properties are proved by `Naming.FormatEscaped`, `Naming.FormatField` and `Naming.FormatUnparse`. |
| Naming.CloseAt | concurrent_downloader/sdl/utils2download.py:80-88 | Finds the first `}` at or after a position, or reports that there is none. |
| Naming.Escape | concurrent_downloader/sdl/utils2download.py:80-88 | Literal text without braces is written unchanged in a template. |
| Naming.PrependTwice | concurrent_downloader/sdl/utils2download.py:80-88 | Prefixing a format result twice is the same as prefixing it once with both strings. |
| Naming.FormatEscaped | concurrent_downloader/sdl/utils2download.py:80-88 | `format` turns doubled braces back into literal text and raises whatever the rest of the template raises. |
| Naming.FormatEscapedChar | concurrent_downloader/sdl/utils2download.py:80-88 | One escaped literal character (a doubled brace or a plain character) is read back by `format` as itself. |
| Naming.FormatField | concurrent_downloader/sdl/utils2download.py:80-88 | `format` replaces a placeholder whose name is a given key by that key's value. |
| Naming.FormatUnparse | concurrent_downloader/sdl/utils2download.py:80-95 | Round trip: formatting the text of any template whose placeholders all name given keys yields that template's rendering. |
| Naming.Digits | concurrent_downloader/sdl/utils2download.py:73 | A zero-padded field of exactly the given width, made only of digits. |
| Naming.Stamp | concurrent_downloader/sdl/utils2download.py:73 | The `%Y%m%dT%H%M%SZ` stamp: 16 characters, `T` at index 8 and `Z` at index 15, digits everywhere else. |
| Naming.StampExample | test/test_sdldownloader.py:45 | 2019-04-23 01:00:00 UTC is written `20190423T010000Z`. |
| Naming.StampExampleDate | concurrent_downloader/sdl/utils2download.py:73 | The civil date of 1555981200 is 2019-04-23, 3600 s after midnight. |
| Naming.CivilExample | concurrent_downloader/sdl/utils2download.py:73 | Day 18009 after the epoch is 2019-04-23 in the Gregorian calendar. |
| Naming.StampExampleText | concurrent_downloader/sdl/utils2download.py:73 | That date and time are written `20190423T010000Z`. |
| Naming.Join | concurrent_downloader/sdl/utils2download.py:96-102 | `os.path.join`: the result always ends with the second part. When the second part is relative, the result also starts with the first part, is at most one character longer than the two together, and a `/` separates them unless the first part already ends in `/` (its own slashes, `//` included, are kept). |
| Naming.PpcSuffix | concurrent_downloader/sdl/utils2download.py:75-78 | A definition: `.ppc` for a processed stream, empty otherwise. That the marker tells processed from unprocessed streams is proved on the file name by `Naming.MarkedRenderDiffers` and `Naming.FullTemplateMarksPpc`. |
| Naming.MseedFilename | concurrent_downloader/sdl/utils2download.py:57-107 | A definition: the path `get_mseed_filename` returns for each of its three branches, or the error `format` raises. Its properties are proved by `Naming.FullTemplateRenders`, `Naming.FullTemplateMarksPpc`, `Naming.PartialTemplateIgnoresPpc` and `Naming.FallbackPath`. |
| Naming.PartialTemplateIgnoresPpc | concurrent_downloader/sdl/utils2download.py:89-95 | A template with the six identity placeholders but no `{ppc}` gives the same path whether or not the stream was processed. |
| Naming.FallbackPath | concurrent_downloader/sdl/utils2download.py:96-102 | A template missing an identity placeholder is a directory joined with the canonical name. An unprocessed stream's name then ends in `..mseed`. |
| Naming.RenderableFromNames | concurrent_downloader/sdl/utils2download.py:80-95 | A template renders when each of its placeholders is a given key without braces. |
| Naming.FieldShows | concurrent_downloader/sdl/utils2download.py:80-81 | A placeholder of a template appears in the template's text. |
| Naming.FullTemplateTests | concurrent_downloader/sdl/utils2download.py:80-81 | A template using all seven placeholders passes the `{ppc}` branch's `in` tests. |
| Naming.KnownNamesRender | concurrent_downloader/sdl/utils2download.py:80-88 | A template whose placeholders are among the seven names renders with the path fields. |
| Naming.KeysHaveNoBraces | concurrent_downloader/sdl/utils2download.py:80-88 | None of the seven placeholder names contains a brace. |
| Naming.FullTemplateRenders | concurrent_downloader/sdl/utils2download.py:57-88 | A template using all seven placeholders, and only those, yields exactly its rendering with the identity fields, the two stamps and the marker. Its `format` never raises. |
| Naming.CountField | concurrent_downloader/sdl/utils2download.py:80-88 | A placeholder that appears in a template is counted at least once. |
| Naming.MarkerLengthens | concurrent_downloader/sdl/utils2download.py:75-88 | Changing the marker changes the rendered length by the length difference times the number of `{ppc}` placeholders. |
| Naming.MarkedRenderDiffers | concurrent_downloader/sdl/utils2download.py:75-88 | A rendering that uses `{ppc}` differs between processed and unprocessed streams. |
| Naming.FullTemplateMarksPpc | concurrent_downloader/sdl/utils2download.py:57-88 | With a full template, a processed and an unprocessed stream are never written to the same path. |
| Preprocessing.StepOf | concurrent_downloader/sdl/utils2download.py:135-153 | The step dispatch only recognises a name that is the name of that step. |
| Preprocessing.StepOfName | concurrent_downloader/sdl/utils2download.py:135-153 | Each of the eight step names dispatches to its own step. |
| Preprocessing.NormalizedUnknown | concurrent_downloader/sdl/restrictions.py:62 | The default order's `normalized` matches no step of the dispatch, whose name is `normalize`. |
| Preprocessing.Apply | concurrent_downloader/sdl/utils2download.py:134-153 | An unknown name, or a step without parameters, raises and leaves the stream untouched. |
| Preprocessing.Texts | concurrent_downloader/sdl/utils2download.py:155-164 | One comment entry per report: `(name:ok)` or `(name:Failed)`. |
| Preprocessing.AllFailed | concurrent_downloader/sdl/utils2download.py:155-164 | A failed report for each step, in order. |
| Preprocessing.Preproc | concurrent_downloader/sdl/utils2download.py:109-170 | A definition: what `preproc_stream` returns or raises. Its properties are proved by `Preprocessing.PreprocFails`, `Preprocessing.ProcessedIff`, `Preprocessing.DefaultsProcessNothing` and the `RunSteps` lemmas, and `Preprocessing.PreprocStream` is proved equal to it. |
| Preprocessing.PreprocStream | concurrent_downloader/sdl/utils2download.py:109-170 | The loop equals the `Preproc` specification: its stream, its `processed` flag, its comment (entries joined by `->` inside brackets) and its two errors. |
| Preprocessing.ArrowedThenLast | concurrent_downloader/sdl/utils2download.py:155-164 | Adding `->` after every entry but the last produces the `->`-joined list. |
| Preprocessing.TextsAppend | concurrent_downloader/sdl/utils2download.py:155-164 | Appending a report appends its text. |
| Preprocessing.ReportsFollowOrder | concurrent_downloader/sdl/utils2download.py:133-165 | One report per step of `order`, in that order, whatever the steps do. |
| Preprocessing.RunStepsAppend | concurrent_downloader/sdl/utils2download.py:133-165 | Running `a + b` is running `a`, then `b` on the stream `a` leaves, with the reports concatenated. |
| Preprocessing.FailedStepKeepsGoing | concurrent_downloader/sdl/utils2download.py:133-165 | A step that raises is reported `Failed`, and the later steps still run on the stream it left. |
| Preprocessing.UnrunnableStepsLeaveStream | concurrent_downloader/sdl/utils2download.py:133-165 | When no step can run, the stream is unchanged and every step is reported failed. |
| Preprocessing.DefaultsProcessNothing | concurrent_downloader/sdl/restrictions.py:61-65 | With default restrictions a selected stream comes back unchanged, marked processed, with all four default steps reported failed. |
| Preprocessing.PreprocFails | concurrent_downloader/sdl/utils2download.py:125-170 | The call raises exactly when restrictions are given and either the stream is empty, or it is selected with an empty order. |
| Preprocessing.ProcessedIff | concurrent_downloader/sdl/utils2download.py:125-170 | On success, a stream is processed exactly when restrictions are given and its `NET.STA` id is selected. An unprocessed stream is returned unchanged with an empty comment. |
| Sink.LastSlash | concurrent_downloader/sdl/utils2download.py:45 | The index of the last `/`, or -1. |
| Sink.StripSlashes | concurrent_downloader/sdl/utils2download.py:45 | Removes exactly the trailing slashes. |
| Sink.Dirname | concurrent_downloader/sdl/utils2download.py:45 | `os.path.dirname` gives a prefix of the path, and the empty string for a path without `/`. |
| Sink.Chain | concurrent_downloader/sdl/utils2download.py:46-47 | The directories `makedirs` visits include the target, never the empty path, and each is a prefix of the target. |
| Sink.Makedirs | concurrent_downloader/sdl/utils2download.py:46-47 | `makedirs` fails for the empty path and for a path that is a file, and fails only when the path is empty or some prefix of it is a file. On success the files are unchanged, the target is a directory, no directory is lost, and every new directory is a prefix of the target that was not a file. |
| Sink.FileSystem.constructor | concurrent_downloader/sdl/utils2download.py:44-51 | A file system holding the given files and directories. |
| Sink.FileSystem.MakeDirs | concurrent_downloader/sdl/utils2download.py:46-47 | Creates the directories when `Makedirs` succeeds, leaves the state alone otherwise, and reports which happened. |
| Sink.FileSystem.Write | concurrent_downloader/sdl/utils2download.py:51 | Stores the stream at the path unless the path is a directory or the writer fails. Directories are unchanged. |
| Sink.Target | concurrent_downloader/sdl/utils2download.py:32-41 | A definition: the preprocessed stream and the path `write_stream` computes, or the error raised on the way. It is used by `Sink.ExistingPathUntouched`, `Sink.DownloadedPlacement` and `Sink.NoOverwrite`. |
| Sink.WriteEffect | concurrent_downloader/sdl/utils2download.py:13-55 | A definition: the report or error of `write_stream` and the file system after it. Its properties are proved by `Sink.NoOverwrite`, `Sink.ExistingPathUntouched`, `Sink.DownloadedPlacement`, `Sink.WriteIdempotent` and `Sink.BareFileNameFails`, and `Sink.WriteStream` is proved equal to it. |
| Sink.WriteStream | concurrent_downloader/sdl/utils2download.py:13-55 | The result and the new file-system state are those of `WriteEffect`: preprocess, name the file, keep an existing file, otherwise create the directory and write. |
| Sink.RunProcess | concurrent_downloader/sdl/downloader.py:17-18 | The pool's unit of work is `write_stream` on one stream. |
| Sink.LastSlashBefore | concurrent_downloader/sdl/utils2download.py:96-102 | After joining a directory that ends in `/` with a bare name, the last slash is the separator. |
| Sink.DirnameOfJoin | concurrent_downloader/sdl/utils2download.py:45 | The directory of a directory joined with a bare name is the directory without its trailing slashes. |
| Sink.ExistingPathUntouched | concurrent_downloader/sdl/utils2download.py:44-55 | An existing target file is reported `Exist` and the disk is unchanged. |
| Sink.DownloadedPlacement | concurrent_downloader/sdl/utils2download.py:44-51 | A fresh download is written at its computed path, which did not exist. It holds the preprocessed stream, and the path's directory exists afterwards. |
| Sink.NoOverwrite | concurrent_downloader/sdl/utils2download.py:13-55 | No existing file or directory is removed or changed. Only a download adds a file, and it adds exactly its own path. When the call reaches the write (downloaded, or the write failed), the new directories are exactly the target's directory and its parents, and none if that directory existed. On every other outcome the directories are unchanged. |
| Sink.WriteIdempotent | concurrent_downloader/sdl/utils2download.py:13-55 | Writing the same stream again reports `Exist` for the same path and comment, and changes nothing. |
| Sink.BareFileNameFails | concurrent_downloader/sdl/utils2download.py:45-47 | A target without a directory part makes `makedirs('')` raise before anything is written. |
| Downloader.InTurn | concurrent_downloader/sdl/downloader.py:53-55 | A definition: the groups written one after another, stopping at the first error. Its properties are proved by `Downloader.InTurnAsPool` and `Downloader.InTurnKeepsFiles`. |
| Downloader.InPool | concurrent_downloader/sdl/downloader.py:60-66 | A definition: every group written, errors swallowed. Its properties are proved by `Downloader.PoolKeepsFiles` and `Downloader.InTurnAsPool`. |
| Downloader.Chunk | concurrent_downloader/sdl/downloader.py:53-66 | A definition: one chunk's sequential or pooled writes and the worker count that follows. Its properties are proved by `Downloader.WorkersNeverGrow`, `Downloader.UnknownFeatureWritesNothing`, `Downloader.NonPositiveWorkersStop` and `Downloader.ChunkKeepsFiles`. |
| Downloader.RunChunks | concurrent_downloader/sdl/downloader.py:31-66 | A definition: the loop over the chunks, with the worker count carried from one chunk to the next. Its properties are proved by `Downloader.FailedFetchSkipped` and `Downloader.DownloadKeepsFiles`. |
| Downloader.Download | concurrent_downloader/sdl/downloader.py:20-66 | A definition: the whole of `MseedDownloader` on a file system. Its properties are proved by `Downloader.ZeroChunkStops` and `Downloader.DownloadKeepsFiles`, and `Downloader.MseedDownloader` is proved equal to it. |
| Downloader.Clamp | concurrent_downloader/sdl/downloader.py:57-58 | The worker count never grows, and is either unchanged or the number of groups. |
| Downloader.WriteInTurn | concurrent_downloader/sdl/downloader.py:53-55 | Writing groups one after another matches `InTurn`: the first error ends the download. |
| Downloader.WriteInPool | concurrent_downloader/sdl/downloader.py:60-66 | The pool matches `InPool`: each group is written and its errors are swallowed. |
| Downloader.MseedDownloader | concurrent_downloader/sdl/downloader.py:20-66 | The chunk loop matches `Download`: chunking errors, skipped fetches, sequential or pooled writes, and the worker count carried into the next chunk. |
| Downloader.FailedFetchSkipped | concurrent_downloader/sdl/downloader.py:32-52 | A chunk whose fetch fails contributes nothing: the run equals the run without that chunk. |
| Downloader.WorkersNeverGrow | concurrent_downloader/sdl/downloader.py:57-58 | The worker count never grows. Above 1 it is capped at the number of groups, and 1 group means 1 worker. |
| Downloader.UnknownFeatureWritesNothing | concurrent_downloader/sdl/downloader.py:57-66 | With more than one worker and an unknown feature name, the chunk writes nothing. |
| Downloader.NonPositiveWorkersStop | concurrent_downloader/sdl/downloader.py:57-66 | A non-positive worker count, or no groups, makes the pool raise before any write. |
| Downloader.InTurnAsPool | concurrent_downloader/sdl/downloader.py:53-66 | When no write fails, writing in turn leaves the same disk as the pool. |
| Downloader.PoolKeepsFiles | concurrent_downloader/sdl/downloader.py:60-66 | The pool never removes or changes an existing file or directory. |
| Downloader.InTurnKeepsFiles | concurrent_downloader/sdl/downloader.py:53-55 | Writing in turn never removes or changes an existing file. |
| Downloader.ChunkKeepsFiles | concurrent_downloader/sdl/downloader.py:53-66 | Writing a chunk never removes or changes an existing file. |
| Downloader.DownloadKeepsFiles | concurrent_downloader/sdl/downloader.py:31-66 | The whole download never removes or changes an existing file. |
| Downloader.ZeroChunkStops | concurrent_downloader/sdl/downloader.py:24-27 | A chunk length of 0 aborts with the chunking error before anything is written. |
| Bulk.NetworkPairs | concurrent_downloader/mdl/bulk_downloader.py:111-113 | One `(network, station)` pair per station of a network, in order. |
| Bulk.PairsOf | concurrent_downloader/mdl/bulk_downloader.py:111-113 | The pairs of one network code with each of its stations. |
| Bulk.StationsInfo | concurrent_downloader/mdl/bulk_downloader.py:106-114 | A definition: the `(network, station)` pairs of an inventory. Its properties are proved by `Bulk.StationsInfoCount`, `Bulk.StationsInfoMembers` and `Bulk.StationsInfoAppend`. |
| Bulk.StationsInfoCount | concurrent_downloader/mdl/bulk_downloader.py:106-114 | One pair per station of the inventory. |
| Bulk.StationsInfoMembers | concurrent_downloader/mdl/bulk_downloader.py:106-114 | A pair is listed exactly when that network holds that station. |
| Bulk.StationsInfoAppend | concurrent_downloader/mdl/bulk_downloader.py:106-114 | The pairs of two inventories are the pairs of each, in order. |
| Bulk.KwargsOf | concurrent_downloader/mdl/bulk_downloader.py:118-126 | A definition: the keyword map the first loop builds from the attributes. Its properties are proved by `Bulk.KwargsKeys`, `Bulk.KwargsValue`, `Bulk.NoPrivateKeys` and `Bulk.ChunklengthForwarded`, and `Bulk.RebuildKwargs` is proved equal to it. |
| Bulk.Override | concurrent_downloader/mdl/bulk_downloader.py:128-137 | A definition: the template keywords with one pair's network and station. Its properties are proved by `Bulk.OverrideContents` and `Bulk.OverrideTwice`. |
| Bulk.StationKwargs | concurrent_downloader/mdl/bulk_downloader.py:128-137 | One set of restrictions per pair, in order: the template's with that pair's network and station. |
| Bulk.RebuildKwargs | concurrent_downloader/mdl/bulk_downloader.py:118-126 | The first loop builds the keyword map `KwargsOf` from the attributes. |
| Bulk.OverridePerStation | concurrent_downloader/mdl/bulk_downloader.py:128-137 | The second loop yields `StationKwargs`, because each override replaces the previous one. |
| Bulk.BuildStationRestrictions | concurrent_downloader/mdl/bulk_downloader.py:116-137 | The per-station restrictions are those of the template object's rebuilt keywords. |
| Bulk.AttributesNamed | concurrent_downloader/mdl/bulk_downloader.py:118-126 | Every attribute of a restrictions object has a non-empty name. |
| Bulk.OverrideTwice | concurrent_downloader/mdl/bulk_downloader.py:128-137 | Overriding the pair twice is the same as overriding it with the second pair. |
| Bulk.StationKwargsAppend | concurrent_downloader/mdl/bulk_downloader.py:128-137 | One more pair adds one restriction at the end. |
| Bulk.OverrideContents | concurrent_downloader/mdl/bulk_downloader.py:128-137 | An override sets network and station and keeps every other keyword. |
| Bulk.KwargsKeys | concurrent_downloader/mdl/bulk_downloader.py:118-126 | A keyword is present exactly when some public attribute is stored under it, `chunklength` renamed. |
| Bulk.NoPrivateKeys | concurrent_downloader/mdl/bulk_downloader.py:118-126 | No keyword is private or spelled `chunklength`. |
| Bulk.KwargsValue | concurrent_downloader/mdl/bulk_downloader.py:118-126 | The last public attribute stored under a keyword gives its value. |
| Bulk.ChunklengthForwarded | concurrent_downloader/mdl/bulk_downloader.py:118-126 | The chunk length is passed back as `chunklength_in_sec`. |
| Bulk.StationRestrictionsShape | concurrent_downloader/mdl/bulk_downloader.py:128-137 | Each station's restrictions name its network and station. All of them share the template's other keywords and values. |
| Bulk.PrepareArgs | concurrent_downloader/mdl/bulk_downloader.py:139-147 | One argument tuple per restriction, in order, with the shared downloader, domain and storages. |
| Bulk.Process | concurrent_downloader/mdl/bulk_downloader.py:45-70 | A definition: `process` unpacks its five-tuple and runs one download. `Bulk.PoolsAgree` proves that it agrees with the thread pool's unit. |
| Bulk.ThreadOutcomes | concurrent_downloader/mdl/bulk_downloader.py:228-237 | The thread pool gives each restriction's outcome of `_run_subprocess`, in order. |
| Bulk.ProcessOutcomes | concurrent_downloader/mdl/bulk_downloader.py:240-247 | The process pool gives each tuple's outcome of `process`, in order. |
| Bulk.PoolsAgree | concurrent_downloader/mdl/bulk_downloader.py:45-70 | Unpacking the tuples makes the process pool agree with the thread pool. |
| Bulk.RunThreadPool | concurrent_downloader/mdl/bulk_downloader.py:228-237 | Running the thread pool yields `ThreadOutcomes`. |
| Bulk.RunProcessPool | concurrent_downloader/mdl/bulk_downloader.py:240-247 | Running the process pool yields `ProcessOutcomes`. |
| Bulk.SdsGuard | concurrent_downloader/mdl/bulk_downloader.py:188-206 | A definition: the SDS checks and the error each raises. `Bulk.SdsGuardIff` states exactly when it rejects. |
| Bulk.ByStation | concurrent_downloader/mdl/bulk_downloader.py:149-255 | A definition: the outcome of each unit of `download_by_station`, or the error it raises. Its properties are proved by `Bulk.GuardFirst`, `Bulk.ZeroWorkersAfterInventory`, `Bulk.SequentialBranch`, `Bulk.PoolAttemptsEveryStation` and `Bulk.UnknownModeRejected`, and `Bulk.DownloadByStation` is proved equal to it. |
| Bulk.DownloadByStation | concurrent_downloader/mdl/bulk_downloader.py:149-255 | The method equals the `ByStation` specification in each of its branches. |
| Bulk.SdsGuardIff | concurrent_downloader/mdl/bulk_downloader.py:188-206 | An SDS template is rejected exactly when the span is under a day, or the chunk length is missing or under a day. |
| Bulk.GuardFirst | concurrent_downloader/mdl/bulk_downloader.py:188-206 | A rejected SDS request raises before any download. |
| Bulk.ZeroWorkersAfterInventory | concurrent_downloader/mdl/bulk_downloader.py:210-223 | Zero workers raises, but only after the inventory is requested. |
| Bulk.SequentialBranch | concurrent_downloader/mdl/bulk_downloader.py:218-221 | `workers == 1` passes each bare restriction to `process`, which unpacks it as a five-tuple (bulk_downloader.py:48-49) and raises. So the branch raises unless there are no stations. |
| Bulk.PoolAttemptsEveryStation | concurrent_downloader/mdl/bulk_downloader.py:224-247 | With more than one worker in a known mode, every station is downloaded with its own restrictions, one outcome per station. |
| Bulk.UnknownModeRejected | concurrent_downloader/mdl/bulk_downloader.py:249-251 | Any mode but `thread` or `process` raises. |

## Left out

- Chunking.ChunkTimes:
  - it requires `Terminates`;
  - where `Terminates` fails (a non-positive step over a non-empty interval that a full chunk still fits), the source loops for ever and the model has no result.
- Downloader.MseedDownloader and Downloader.Download: they require the same `Terminates`, for the same reason.
- Concurrency:
  - thread and process pools are modelled as writing their groups one after another, in list order;
  - interleaving, parallel writes to the same path, and pool start-up failures other than a non-positive worker count are not modelled.
- Signal processing: merge, detrend, taper, filter, decimate and the others are the `Engine` parameter. A step either returns a stream or raises.
- Remote services:
  - the FDSN client's `get_waveforms` and the trace grouping (`_groupby`) are one `Fetch` parameter;
  - the mass downloader and the inventory request are parameters: `Download` and an optional `Inventory`;
  - client construction is not modelled.
- obspy's own `Restrictions`: its validation and other fields are not modelled. Only the attributes the core reads are kept, plus an open list of extra attributes.
- MiniSEED writing: `st.write` is the `persist` parameter, which succeeds or fails.
- Printing, warnings and timing:
  - not modelled;
  - the only text kept is the preprocessing comment, because it is returned.
- Time:
  - `UTCDateTime` values are whole seconds;
  - fractional seconds and floating-point chunk lengths are not modelled.
- `str.format`: format specifications (`{x:>5}`), conversions (`{x!r}`), attribute and index fields, and positional fields are treated as plain names. Those templates fall outside the file-name properties.
- `os.makedirs`: modelled without permissions, races or symbolic links. A file anywhere on the directory chain makes it fail.
- The closing type check of `get_mseed_filename` (utils2download.py:103-107: `path is True`, or a `TypeError` when the path is not a string) is not modelled. Every branch before it yields a string, so it never fires. The directory branch (utils2download.py:96-102) is modelled by `Naming.FallbackPath`.
- The test scripts' live downloads and credentials are not part of this model.
- In-place preprocessing: `preproc_stream` changes the caller's stream object in place (utils2download.py:136-150), with no copy. The model passes streams as values, so `Sink.WriteIdempotent` speaks of writing an equal stream value a second time. In Python, passing the same object twice would preprocess it twice. No caller in the core reuses a stream.
- Paths are compared as plain strings, with no normalisation: `a//b/x.mseed` and `a/b/x.mseed` are two different files in the model, while the operating system sees one.
- The model has no file-system consistency invariant (such as `/` existing, or every directory's parents existing). It describes a realistic starting disk, but does not require one. For example, on a disk without `/` a write under an absolute path creates `/`, where the source's `isdir` would already have found it.
