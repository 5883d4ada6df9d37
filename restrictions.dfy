/**
 * The restriction records of the downloader: obspy's base `Restrictions`
 * (only the attributes the core reads are typed; the rest are kept as an
 * ordered attribute list), `DownloadRestrictions` and `PreprocRestrictions`,
 * each with a constructor function carrying the source's default arguments.
 */
module Restrictions {
  import opened Common

  /** Instants are whole seconds since 1970-01-01T00:00:00Z. */
  type Time = int

  /** A value held in a restriction attribute (the `__dict__` of the object). */
  datatype Value =
    | StrValue(s: string)
    | IntValue(i: int)
    | TimeValue(t: Time)
    | BoolValue(b: bool)
    | NoneValue
    | OtherValue(repr: string)   // floats, lists and other values the core only copies

  /** Keyword arguments of one obspy Stream method (`decimate`, `detrend`, ...). */
  type Params = map<string, string>

  /**
   * obspy's mass-downloader `Restrictions`. The constructor stores
   * `chunklength_in_sec` as the attribute `chunklength`; `extra` holds every
   * other attribute, private ones included, in `__dict__` order.
   */
  datatype BaseRestrictions = BaseRestrictions(
    network: string,
    station: string,
    location: string,
    channel: string,
    starttime: Time,
    endtime: Time,
    chunklength: Option<int>,
    extra: seq<(string, Value)>)

  /** The typed attributes, in the order the core reads them. */
  const TypedKeys: seq<string> :=
    ["network", "station", "location", "channel", "starttime", "endtime", "chunklength"]

  /** Attribute names are identifiers: non-empty, distinct, and not typed ones. */
  predicate WellFormed(r: BaseRestrictions) {
    && (forall i :: 0 <= i < |r.extra| ==> r.extra[i].0 != "" && r.extra[i].0 !in TypedKeys)
    && (forall i, j :: 0 <= i < j < |r.extra| ==> r.extra[i].0 != r.extra[j].0)
  }

  function OptionalInt(v: Option<int>): Value {
    match v
    case Some(n) => IntValue(n)
    case None => NoneValue
  }

  /** The object's `__dict__` as an ordered list of attribute/value pairs. */
  function Attributes(r: BaseRestrictions): (attrs: seq<(string, Value)>)
    ensures |attrs| == |TypedKeys| + |r.extra|
    ensures forall i :: 0 <= i < |TypedKeys| ==> attrs[i].0 == TypedKeys[i]
    ensures attrs[|TypedKeys|..] == r.extra
  {
    [("network", StrValue(r.network)),
     ("station", StrValue(r.station)),
     ("location", StrValue(r.location)),
     ("channel", StrValue(r.channel)),
     ("starttime", TimeValue(r.starttime)),
     ("endtime", TimeValue(r.endtime)),
     ("chunklength", OptionalInt(r.chunklength))] + r.extra
  }

  /** obspy's `Restrictions(...)` called with exactly the arguments the core passes. */
  function NewBaseRestrictions(network: string, station: string, location: string,
                               channel: string, starttime: Time, endtime: Time,
                               chunklengthInSec: Option<int>): (r: BaseRestrictions)
    ensures WellFormed(r)
    ensures r.network == network && r.station == station
    ensures r.location == location && r.channel == channel
    ensures r.starttime == starttime && r.endtime == endtime
    ensures r.chunklength == chunklengthInSec
  {
    BaseRestrictions(network, station, location, channel, starttime, endtime,
                     chunklengthInSec, [])
  }

  /** `DownloadRestrictions`: the base record plus the overlap and the groupby template. */
  datatype DownloadRestrictions = DownloadRestrictions(
    base: BaseRestrictions,
    overlapInSec: Option<int>,
    groupby: string)

  const DefaultGroupby: string := "{network}.{station}.{channel}"

  /** `DownloadRestrictions.__init__`, with the source's default arguments. */
  function NewDownloadRestrictions(network: string, station: string, location: string,
                                   channel: string, starttime: Time, endtime: Time,
                                   chunklengthInSec: Option<int> := None,
                                   overlapInSec: Option<int> := Some(0),
                                   groupby: string := DefaultGroupby): (r: DownloadRestrictions)
    ensures r.base == NewBaseRestrictions(network, station, location, channel,
                                          starttime, endtime, chunklengthInSec)
    ensures r.overlapInSec == overlapInSec && r.groupby == groupby
  {
    DownloadRestrictions(
      NewBaseRestrictions(network, station, location, channel, starttime, endtime,
                          chunklengthInSec),
      overlapInSec, groupby)
  }

  /** `PreprocRestrictions`: which `NET.STA` ids to process, the step order and each step's kwargs. */
  datatype PreprocRestrictions = PreprocRestrictions(
    seedIds: seq<string>,
    order: seq<string>,
    decimate: Option<Params>,
    detrend: Option<Params>,
    applyfilter: Option<Params>,
    merge: Option<Params>,
    normalize: Option<Params>,
    removeResponse: Option<Params>,
    resample: Option<Params>,
    taper: Option<Params>)

  const DefaultOrder: seq<string> := ["merge", "detrend", "taper", "normalized"]

  /** `PreprocRestrictions.__init__`, with the source's default arguments. */
  function NewPreprocRestrictions(seedIds: seq<string>,
                                  order: seq<string> := DefaultOrder,
                                  decimate: Option<Params> := None,
                                  detrend: Option<Params> := None,
                                  applyfilter: Option<Params> := None,
                                  merge: Option<Params> := None,
                                  normalize: Option<Params> := None,
                                  removeResponse: Option<Params> := None,
                                  resample: Option<Params> := None,
                                  taper: Option<Params> := None): (r: PreprocRestrictions)
    ensures r.seedIds == seedIds && r.order == order
    ensures r.decimate == decimate && r.detrend == detrend && r.applyfilter == applyfilter
    ensures r.merge == merge && r.normalize == normalize
    ensures r.removeResponse == removeResponse && r.resample == resample && r.taper == taper
  {
    PreprocRestrictions(seedIds, order, decimate, detrend, applyfilter, merge, normalize,
                        removeResponse, resample, taper)
  }

  /** Left at their defaults, a `DownloadRestrictions` has no chunking, overlap 0 and groups by channel. */
  lemma DownloadDefaults(network: string, station: string, location: string, channel: string,
                         starttime: Time, endtime: Time)
    ensures var r := NewDownloadRestrictions(network, station, location, channel,
                                             starttime, endtime);
            && r.base.chunklength == None
            && r.overlapInSec == Some(0)
            && r.groupby == "{network}.{station}.{channel}"
  {
  }

  /** Left at their defaults, a `PreprocRestrictions` keeps the four-step order and no step kwargs. */
  lemma PreprocDefaults(seedIds: seq<string>)
    ensures var r := NewPreprocRestrictions(seedIds);
            && r.seedIds == seedIds
            && r.order == ["merge", "detrend", "taper", "normalized"]
            && r.decimate == None && r.detrend == None && r.applyfilter == None
            && r.merge == None && r.normalize == None && r.removeResponse == None
            && r.resample == None && r.taper == None
  {
  }
}
