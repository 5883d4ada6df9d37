/**
 * `BulkDownloader` (bulk_downloader.py): expand one set of restrictions into
 * one per station of an inventory and hand each to obspy's mass downloader,
 * one by one or through a pool.
 *
 * The inventory request and `MassDownloader.download` are parameters: the
 * inventory is `None` when `get_stations_bulk` raises, and `download` says
 * whether one unit's download finished (`true`) or raised and was caught
 * and reported (`false`). The mass downloader and the domain are opaque
 * values the module only passes along.
 */
module Bulk {
  import opened Common
  import opened Restrictions

  // ---------------------------------------------------------------------------
  // _get_stations_info
  // ---------------------------------------------------------------------------

  datatype Station = Station(code: string)
  datatype Network = Network(code: string, stations: seq<Station>)

  /** What `get_stations_bulk` returns: networks, each with its stations. */
  type Inventory = seq<Network>

  /** The `(net.code, sta.code)` pairs of one network. */
  function NetworkPairs(net: Network): (pairs: seq<(string, string)>)
    ensures |pairs| == |net.stations|
    ensures forall j :: 0 <= j < |pairs| ==> pairs[j] == (net.code, net.stations[j].code)
  {
    PairsOf(net.code, net.stations)
  }

  function PairsOf(code: string, stations: seq<Station>): (pairs: seq<(string, string)>)
    ensures |pairs| == |stations|
    ensures forall j :: 0 <= j < |pairs| ==> pairs[j] == (code, stations[j].code)
  {
    if stations == [] then [] else [(code, stations[0].code)] + PairsOf(code, stations[1..])
  }

  /** `_get_stations_info`: the comprehension over networks, then their stations. */
  function StationsInfo(inv: Inventory): seq<(string, string)> {
    if inv == [] then [] else NetworkPairs(inv[0]) + StationsInfo(inv[1..])
  }

  function StationCount(inv: Inventory): nat {
    if inv == [] then 0 else |inv[0].stations| + StationCount(inv[1..])
  }

  /** One pair per station of the inventory. */
  lemma {:induction false} StationsInfoCount(inv: Inventory)
    ensures |StationsInfo(inv)| == StationCount(inv)
  {
    if inv != [] {
      StationsInfoCount(inv[1..]);
    }
  }

  /** The pairs are exactly the stations of the inventory, each with its network's code. */
  lemma {:induction false} StationsInfoMembers(inv: Inventory, net: string, sta: string)
    ensures (net, sta) in StationsInfo(inv) <==>
      exists i, j :: 0 <= i < |inv| && 0 <= j < |inv[i].stations|
        && inv[i].code == net && inv[i].stations[j].code == sta
  {
    if inv != [] {
      StationsInfoMembers(inv[1..], net, sta);
      var head := NetworkPairs(inv[0]);
      if (net, sta) in head {
        var j :| 0 <= j < |head| && head[j] == (net, sta);
        assert inv[0].code == net && inv[0].stations[j].code == sta;
      }
      if exists i, j :: 0 <= i < |inv| && 0 <= j < |inv[i].stations|
          && inv[i].code == net && inv[i].stations[j].code == sta {
        var i, j :| 0 <= i < |inv| && 0 <= j < |inv[i].stations|
          && inv[i].code == net && inv[i].stations[j].code == sta;
        if i == 0 {
          assert head[j] == (net, sta);
        } else {
          assert inv[1..][i - 1] == inv[i];
        }
      }
    }
  }

  /** Network order first: the pairs of a network come before those of the networks after it. */
  lemma {:induction false} StationsInfoAppend(a: Inventory, b: Inventory)
    ensures StationsInfo(a + b) == StationsInfo(a) + StationsInfo(b)
  {
    if a == [] {
      assert a + b == b;
    } else {
      assert (a + b)[0] == a[0];
      assert (a + b)[1..] == a[1..] + b;
      StationsInfoAppend(a[1..], b);
    }
  }

  // ---------------------------------------------------------------------------
  // _build_station_restrictions
  // ---------------------------------------------------------------------------

  /** Keyword arguments for obspy's `Restrictions(**kwargs)`. */
  type Kwargs = map<string, Value>

  predicate Private(key: string) {
    |key| > 0 && key[0] == '_'
  }

  /** `chunklength` goes back to the keyword it came from; every other key is kept. */
  function Renamed(key: string): string {
    if key == "chunklength" then "chunklength_in_sec" else key
  }

  /** One pass of the first loop: a private attribute is skipped, any other stored under its keyword. */
  function Keep(m: Kwargs, attr: (string, Value)): Kwargs
    requires attr.0 != ""
  {
    if attr.0[0] == '_' then m else m[Renamed(attr.0) := attr.1]
  }

  predicate Named(attrs: seq<(string, Value)>) {
    forall i :: 0 <= i < |attrs| ==> attrs[i].0 != ""
  }

  /** `new_rest_dict` after the first loop, over the attributes in `__dict__` order. */
  function KwargsOf(attrs: seq<(string, Value)>): Kwargs
    requires Named(attrs)
    decreases |attrs|
  {
    if attrs == [] then map[] else Keep(KwargsOf(attrs[..|attrs| - 1]), attrs[|attrs| - 1])
  }

  /** The dictionary of one station's `Restrictions(**new_rest_dict)` call. */
  function Override(kw: Kwargs, info: (string, string)): Kwargs {
    kw["network" := StrValue(info.0)]["station" := StrValue(info.1)]
  }

  /** The keyword arguments of the restrictions built for each pair, in order. */
  function StationKwargs(kw: Kwargs, infos: seq<(string, string)>): (rs: seq<Kwargs>)
    ensures |rs| == |infos|
    ensures forall i :: 0 <= i < |infos| ==> rs[i] == Override(kw, infos[i])
  {
    if infos == [] then [] else [Override(kw, infos[0])] + StationKwargs(kw, infos[1..])
  }

  /** The first loop of `_build_station_restrictions`, over `restrictions.__dict__.items()`. */
  method RebuildKwargs(attrs: seq<(string, Value)>) returns (kw: Kwargs)
    requires Named(attrs)
    ensures kw == KwargsOf(attrs)
  {
    kw := map[];
    var i := 0;
    while i < |attrs|
      invariant 0 <= i <= |attrs|
      invariant kw == KwargsOf(attrs[..i])
    {
      var (key, value) := attrs[i];
      assert attrs[..i + 1][..i] == attrs[..i] && attrs[..i + 1][i] == attrs[i];
      if key[0] == '_' {
      } else if key == "chunklength" {
        assert key + "_in_sec" == "chunklength_in_sec";
        kw := kw[key + "_in_sec" := value];
      } else {
        kw := kw[key := value];
      }
      i := i + 1;
    }
    assert attrs[..|attrs|] == attrs;
  }

  /** The second loop: one dictionary, its `network` and `station` overwritten for each pair. */
  method OverridePerStation(kw: Kwargs, infos: seq<(string, string)>) returns (rests: seq<Kwargs>)
    ensures rests == StationKwargs(kw, infos)
  {
    var current := kw;
    rests := [];
    var j := 0;
    while j < |infos|
      invariant 0 <= j <= |infos|
      invariant rests == StationKwargs(kw, infos[..j])
      invariant j > 0 ==> current == Override(kw, infos[j - 1])
      invariant j == 0 ==> current == kw
    {
      ghost var before := current;
      current := current["network" := StrValue(infos[j].0)];
      current := current["station" := StrValue(infos[j].1)];
      assert current == Override(before, infos[j]);
      if j > 0 {
        OverrideTwice(kw, infos[j - 1], infos[j]);
      }
      StationKwargsAppend(kw, infos[..j], infos[j]);
      assert infos[..j + 1] == infos[..j] + [infos[j]];
      rests := rests + [current];
      j := j + 1;
    }
    assert infos[..|infos|] == infos;
  }

  /** `_build_station_restrictions`. */
  method BuildStationRestrictions(r: BaseRestrictions, infos: seq<(string, string)>)
    returns (rests: seq<Kwargs>)
    requires WellFormed(r)
    ensures Named(Attributes(r))
    ensures rests == StationKwargs(KwargsOf(Attributes(r)), infos)
  {
    AttributesNamed(r);
    var kw := RebuildKwargs(Attributes(r));
    rests := OverridePerStation(kw, infos);
  }

  lemma AttributesNamed(r: BaseRestrictions)
    requires WellFormed(r)
    ensures Named(Attributes(r))
  {
    var attrs := Attributes(r);
    forall i | 0 <= i < |attrs|
      ensures attrs[i].0 != ""
    {
      if i >= |TypedKeys| {
        assert attrs[i] == r.extra[i - |TypedKeys|];
      }
    }
  }

  lemma OverrideTwice(kw: Kwargs, a: (string, string), b: (string, string))
    ensures Override(Override(kw, a), b) == Override(kw, b)
  {
  }

  lemma StationKwargsAppend(kw: Kwargs, infos: seq<(string, string)>, info: (string, string))
    ensures StationKwargs(kw, infos + [info]) == StationKwargs(kw, infos) + [Override(kw, info)]
  {
  }

  /** What each station's restriction holds. */
  lemma OverrideContents(kw: Kwargs, info: (string, string))
    ensures Override(kw, info).Keys == kw.Keys + {"network", "station"}
    ensures Override(kw, info)["network"] == StrValue(info.0)
    ensures Override(kw, info)["station"] == StrValue(info.1)
    ensures forall k :: k in kw && k != "network" && k != "station" ==> Override(kw, info)[k] == kw[k]
  {
  }

  /**
   * The keys of the rebuilt dictionary: one per non-private attribute, with
   * `chunklength` renamed.
   */
  lemma {:induction false} KwargsKeys(attrs: seq<(string, Value)>, k: string)
    requires Named(attrs)
    ensures k in KwargsOf(attrs) <==>
      exists i :: 0 <= i < |attrs| && !Private(attrs[i].0) && Renamed(attrs[i].0) == k
    decreases |attrs|
  {
    if attrs != [] {
      var init := attrs[..|attrs| - 1];
      assert forall i :: 0 <= i < |init| ==> init[i] == attrs[i];
      KwargsKeys(init, k);
    }
  }

  /** A key is never private, and `chunklength` itself never survives the renaming. */
  lemma NoPrivateKeys(attrs: seq<(string, Value)>)
    requires Named(attrs)
    ensures forall k :: k in KwargsOf(attrs) ==> !Private(k) && k != "chunklength"
  {
    forall k | k in KwargsOf(attrs)
      ensures !Private(k) && k != "chunklength"
    {
      KwargsKeys(attrs, k);
      var i :| 0 <= i < |attrs| && !Private(attrs[i].0) && Renamed(attrs[i].0) == k;
      if attrs[i].0 == "chunklength" {
        assert k == "chunklength_in_sec";
        assert k[0] == 'c';
      }
    }
  }

  /** An attribute's value is copied unchanged, unless a later attribute lands on the same key. */
  lemma {:induction false} KwargsValue(attrs: seq<(string, Value)>, i: nat)
    requires Named(attrs) && i < |attrs| && !Private(attrs[i].0)
    requires forall j :: i < j < |attrs| && !Private(attrs[j].0) ==> Renamed(attrs[j].0) != Renamed(attrs[i].0)
    ensures Renamed(attrs[i].0) in KwargsOf(attrs)
    ensures KwargsOf(attrs)[Renamed(attrs[i].0)] == attrs[i].1
    decreases |attrs|
  {
    var init := attrs[..|attrs| - 1];
    if i < |attrs| - 1 {
      assert forall j :: 0 <= j < |init| ==> init[j] == attrs[j];
      KwargsValue(init, i);
    }
  }

  /**
   * The restriction's chunk length reaches the new restrictions under the
   * keyword `chunklength_in_sec` it was given with.
   */
  lemma ChunklengthForwarded(r: BaseRestrictions)
    requires WellFormed(r)
    requires forall i :: 0 <= i < |r.extra| ==> r.extra[i].0 != "chunklength_in_sec"
    ensures Named(Attributes(r)) && "chunklength_in_sec" in KwargsOf(Attributes(r))
    ensures KwargsOf(Attributes(r))["chunklength_in_sec"] == OptionalInt(r.chunklength)
  {
    AttributesNamed(r);
    var attrs := Attributes(r);
    assert attrs[6] == ("chunklength", OptionalInt(r.chunklength));
    forall j | 6 < j < |attrs| && !Private(attrs[j].0)
      ensures Renamed(attrs[j].0) != "chunklength_in_sec"
    {
      assert attrs[j] == r.extra[j - 7];
      assert attrs[j].0 !in TypedKeys;
    }
    KwargsValue(attrs, 6);
  }

  /**
   * The `i`-th restriction is for the `i`-th pair, and apart from `network`
   * and `station` every restriction carries the same values.
   */
  lemma StationRestrictionsShape(kw: Kwargs, infos: seq<(string, string)>, i: nat, j: nat)
    requires i < |infos| && j < |infos|
    ensures var rs := StationKwargs(kw, infos);
      && rs[i]["network"] == StrValue(infos[i].0) && rs[i]["station"] == StrValue(infos[i].1)
      && rs[i].Keys == rs[j].Keys
      && forall k :: k in rs[i] && k != "network" && k != "station" ==> rs[i][k] == rs[j][k] == kw[k]
  {
    OverrideContents(kw, infos[i]);
    OverrideContents(kw, infos[j]);
  }

  // ---------------------------------------------------------------------------
  // Units of work
  // ---------------------------------------------------------------------------

  /** `mdl.download(domain=..., restrictions=..., ...)` inside its `try`: `false` when it raised. */
  type Download<-M, -D> = (M, D, Kwargs, string, string) -> bool

  /** `_prepare_args_for_process`: the restrictions zipped with the repeated shared arguments. */
  function PrepareArgs<M, D>(mdl: M, domain: D, rests: seq<Kwargs>, mseedStorage: string,
                             xmlStorage: string): (args: seq<(M, D, Kwargs, string, string)>)
    ensures |args| == |rests|
    ensures forall i :: 0 <= i < |rests| ==> args[i] == (mdl, domain, rests[i], mseedStorage, xmlStorage)
  {
    if rests == [] then []
    else [(mdl, domain, rests[0], mseedStorage, xmlStorage)] + PrepareArgs(mdl, domain, rests[1..], mseedStorage, xmlStorage)
  }

  /** `process(args)`: unpack the tuple and download. */
  function Process<M, D>(download: Download<M, D>, args: (M, D, Kwargs, string, string)): bool {
    var (mdl, domain, rest, mseedStorage, xmlStorage) := args;
    download(mdl, domain, rest, mseedStorage, xmlStorage)
  }

  /** The thread pool: `_run_subprocess` once per restriction, each outcome its own. */
  function ThreadOutcomes<M, D>(download: Download<M, D>, mdl: M, domain: D, rests: seq<Kwargs>,
                                mseedStorage: string, xmlStorage: string): (r: seq<bool>)
    ensures |r| == |rests|
    ensures forall i :: 0 <= i < |rests| ==> r[i] == download(mdl, domain, rests[i], mseedStorage, xmlStorage)
  {
    if rests == [] then []
    else
      var rest := ThreadOutcomes(download, mdl, domain, rests[1..], mseedStorage, xmlStorage);
      [download(mdl, domain, rests[0], mseedStorage, xmlStorage)] + rest
  }

  /** The process pool: `process` once per packed tuple. */
  function ProcessOutcomes<M, D>(download: Download<M, D>, args: seq<(M, D, Kwargs, string, string)>): (r: seq<bool>)
    ensures |r| == |args|
    ensures forall i :: 0 <= i < |args| ==> r[i] == Process(download, args[i])
  {
    if args == [] then [] else [Process(download, args[0])] + ProcessOutcomes(download, args[1..])
  }

  /** Packing the arguments for the process pool changes nothing: both pools make the same calls. */
  lemma PoolsAgree<M, D>(download: Download<M, D>, mdl: M, domain: D, rests: seq<Kwargs>,
                         mseedStorage: string, xmlStorage: string)
    ensures ProcessOutcomes(download, PrepareArgs(mdl, domain, rests, mseedStorage, xmlStorage))
         == ThreadOutcomes(download, mdl, domain, rests, mseedStorage, xmlStorage)
  {
  }

  method RunThreadPool<M, D>(download: Download<M, D>, mdl: M, domain: D, rests: seq<Kwargs>,
                             mseedStorage: string, xmlStorage: string) returns (outcomes: seq<bool>)
    ensures outcomes == ThreadOutcomes(download, mdl, domain, rests, mseedStorage, xmlStorage)
  {
    outcomes := [];
    for i := 0 to |rests|
      invariant outcomes == ThreadOutcomes(download, mdl, domain, rests[..i], mseedStorage, xmlStorage)
    {
      assert rests[..i + 1] == rests[..i] + [rests[i]];
      outcomes := outcomes + [download(mdl, domain, rests[i], mseedStorage, xmlStorage)];
    }
    assert rests[..|rests|] == rests;
  }

  method RunProcessPool<M, D>(download: Download<M, D>, args: seq<(M, D, Kwargs, string, string)>)
    returns (outcomes: seq<bool>)
    ensures outcomes == ProcessOutcomes(download, args)
  {
    outcomes := [];
    for i := 0 to |args|
      invariant outcomes == ProcessOutcomes(download, args[..i])
    {
      assert args[..i + 1] == args[..i] + [args[i]];
      outcomes := outcomes + [Process(download, args[i])];
    }
    assert args[..|args|] == args;
  }

  // ---------------------------------------------------------------------------
  // download_by_station
  // ---------------------------------------------------------------------------

  /** The marker that asks for SDS storage. */
  const SdsKey: string := "{<SDSdir>}:"

  /** One day, the granularity of an SDS file. */
  const Day: int := 86400

  /**
   * Why `download_by_station` raises: the SDS guard (the span or the chunk
   * is shorter than a day, or the chunk length is `None`, which cannot be
   * compared), the inventory request, the sequential branch unpacking a
   * bare restriction as a 5-tuple, `workers == 0`, a pool refusing a
   * negative `max_workers`, or an unknown mode.
   */
  datatype BulkError =
    | SdsSpanTooShort(span: int)
    | SdsChunkTooShort(chunklength: int)
    | SdsChunkMissing
    | InventoryFailed
    | UnpackFailed
    | ZeroWorkers
    | PoolRejected(workers: int)
    | UnknownMode(mode: string)

  /** The SDS guard at the head of `download_by_station`. */
  function SdsGuard(mseedStorage: string, r: BaseRestrictions): Option<BulkError> {
    if Contains(mseedStorage, SdsKey) && r.endtime - r.starttime < Day then
      Some(SdsSpanTooShort(r.endtime - r.starttime))
    else if Contains(mseedStorage, SdsKey) then
      match r.chunklength
      case None => Some(SdsChunkMissing)
      case Some(c) => if c < Day then Some(SdsChunkTooShort(c)) else None
    else None
  }

  /** The specification of `download_by_station`: the outcome of each unit, or the error it raises. */
  function ByStation<M, D>(mdl: M, domain: D, r: BaseRestrictions, mseedStorage: string, xmlStorage: string,
                           inventory: Option<Inventory>, workers: Option<int>, mode: string,
                           download: Download<M, D>): Result<seq<bool>, BulkError>
    requires WellFormed(r)
  {
    AttributesNamed(r);
    match SdsGuard(mseedStorage, r)
    case Some(e) => Err(e)
    case None =>
      match inventory
      case None => Err(InventoryFailed)
      case Some(inv) =>
        var rests := StationKwargs(KwargsOf(Attributes(r)), StationsInfo(inv));
        if workers == Some(1) then (if rests == [] then Ok([]) else Err(UnpackFailed))
        else if workers == Some(0) then Err(ZeroWorkers)
        else if mode == "thread" || mode == "process" then
          if workers.Some? && workers.value < 0 then Err(PoolRejected(workers.value))
          else if mode == "thread" then Ok(ThreadOutcomes(download, mdl, domain, rests, mseedStorage, xmlStorage))
          else Ok(ProcessOutcomes(download, PrepareArgs(mdl, domain, rests, mseedStorage, xmlStorage)))
        else Err(UnknownMode(mode))
  }

  /** `download_by_station`. */
  method DownloadByStation<M, D>(mdl: M, domain: D, r: BaseRestrictions, mseedStorage: string,
                                 xmlStorage: string, inventory: Option<Inventory>, workers: Option<int>,
                                 mode: string, download: Download<M, D>)
    returns (res: Result<seq<bool>, BulkError>)
    requires WellFormed(r)
    ensures res == ByStation(mdl, domain, r, mseedStorage, xmlStorage, inventory, workers, mode, download)
  {
    var deltat := r.endtime - r.starttime;
    var sds := Contains(mseedStorage, SdsKey);
    if sds && deltat < Day {
      return Err(SdsSpanTooShort(deltat));
    } else if sds && r.chunklength.None? {
      return Err(SdsChunkMissing);
    } else if sds && r.chunklength.value < Day {
      return Err(SdsChunkTooShort(r.chunklength.value));
    }
    if inventory.None? {
      return Err(InventoryFailed);
    }
    var infos := StationsInfo(inventory.value);
    var rests := BuildStationRestrictions(r, infos);
    if workers == Some(1) {
      if |rests| > 0 {
        return Err(UnpackFailed);
      }
      return Ok([]);
    } else if workers == Some(0) {
      return Err(ZeroWorkers);
    }
    if mode == "thread" {
      if workers.Some? && workers.value < 0 {
        return Err(PoolRejected(workers.value));
      }
      var outcomes := RunThreadPool(download, mdl, domain, rests, mseedStorage, xmlStorage);
      return Ok(outcomes);
    } else if mode == "process" {
      var args := PrepareArgs(mdl, domain, rests, mseedStorage, xmlStorage);
      if workers.Some? && workers.value < 0 {
        return Err(PoolRejected(workers.value));
      }
      var outcomes := RunProcessPool(download, args);
      return Ok(outcomes);
    } else {
      return Err(UnknownMode(mode));
    }
  }

  // ---------------------------------------------------------------------------
  // Properties of download_by_station
  // ---------------------------------------------------------------------------

  /** The guard raises exactly for an SDS target whose span or chunk is under a day (or has no chunk length). */
  lemma SdsGuardIff(mseedStorage: string, r: BaseRestrictions)
    ensures SdsGuard(mseedStorage, r).Some? <==>
      Contains(mseedStorage, SdsKey)
      && (r.endtime - r.starttime < Day || r.chunklength.None? || r.chunklength.value < Day)
  {
  }

  /** The guard runs first: when it raises, nothing else matters, not even the inventory. */
  lemma GuardFirst<M, D>(mdl: M, domain: D, r: BaseRestrictions, mseedStorage: string, xmlStorage: string,
                         inventory: Option<Inventory>, workers: Option<int>, mode: string,
                         download: Download<M, D>)
    requires WellFormed(r) && SdsGuard(mseedStorage, r).Some?
    ensures ByStation(mdl, domain, r, mseedStorage, xmlStorage, inventory, workers, mode, download)
         == Err(SdsGuard(mseedStorage, r).value)
  {
  }

  /** `workers == 0` is rejected only once the inventory has been fetched. */
  lemma ZeroWorkersAfterInventory<M, D>(mdl: M, domain: D, r: BaseRestrictions, mseedStorage: string,
                                        xmlStorage: string, inventory: Option<Inventory>, mode: string,
                                        download: Download<M, D>)
    requires WellFormed(r) && SdsGuard(mseedStorage, r).None?
    ensures ByStation(mdl, domain, r, mseedStorage, xmlStorage, inventory, Some(0), mode, download)
         == if inventory.None? then Err(InventoryFailed) else Err(ZeroWorkers)
  {
  }

  /** `workers == 1` succeeds only when there is no station at all. */
  lemma SequentialBranch<M, D>(mdl: M, domain: D, r: BaseRestrictions, mseedStorage: string,
                               xmlStorage: string, inv: Inventory, mode: string, download: Download<M, D>)
    requires WellFormed(r) && SdsGuard(mseedStorage, r).None?
    ensures ByStation(mdl, domain, r, mseedStorage, xmlStorage, Some(inv), Some(1), mode, download)
         == if StationCount(inv) == 0 then Ok([]) else Err(UnpackFailed)
  {
    StationsInfoCount(inv);
  }

  /**
   * Through either pool, every station is attempted exactly once with its
   * own restriction, and a failing station does not affect the others.
   */
  lemma PoolAttemptsEveryStation<M, D>(mdl: M, domain: D, r: BaseRestrictions, mseedStorage: string,
                                       xmlStorage: string, inv: Inventory, workers: Option<int>,
                                       mode: string, download: Download<M, D>)
    requires WellFormed(r) && SdsGuard(mseedStorage, r).None?
    requires workers.None? || workers.value > 1
    requires mode == "thread" || mode == "process"
    ensures var res := ByStation(mdl, domain, r, mseedStorage, xmlStorage, Some(inv), workers, mode, download);
      var rests := StationKwargs(KwargsOf(Attributes(r)), StationsInfo(inv));
      && res.Ok?
      && |res.value| == StationCount(inv)
      && forall i :: 0 <= i < |rests| ==> res.value[i] == download(mdl, domain, rests[i], mseedStorage, xmlStorage)
  {
    StationsInfoCount(inv);
    AttributesNamed(r);
    PoolsAgree(download, mdl, domain, StationKwargs(KwargsOf(Attributes(r)), StationsInfo(inv)),
               mseedStorage, xmlStorage);
  }

  /** Any mode but the two known ones is an error once the workers have been checked. */
  lemma UnknownModeRejected<M, D>(mdl: M, domain: D, r: BaseRestrictions, mseedStorage: string,
                                  xmlStorage: string, inv: Inventory, workers: Option<int>,
                                  mode: string, download: Download<M, D>)
    requires WellFormed(r) && SdsGuard(mseedStorage, r).None?
    requires workers != Some(0) && workers != Some(1)
    requires mode != "thread" && mode != "process"
    ensures ByStation(mdl, domain, r, mseedStorage, xmlStorage, Some(inv), workers, mode, download)
         == Err(UnknownMode(mode))
  {
  }
}
