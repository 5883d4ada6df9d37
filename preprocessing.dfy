/**
 * `preproc_stream` (utils2download.py): the optional processing a stream
 * goes through before it is written. The signal processing itself
 * (obspy's `decimate`, `detrend`, `filter`, ...) is an `Engine` the model
 * takes as a parameter; what is modelled is the dispatch on step names,
 * the `**kwargs` unpacking of each step's parameters, the catch-all error
 * handling that lets later steps run, and the comment that reports each step.
 */
module Preprocessing {
  import opened Common
  import opened Restrictions

  /** The identity part of a trace's `stats`. */
  datatype Stats = Stats(network: string, station: string, location: string, channel: string,
                         starttime: Time, endtime: Time)

  /** A trace: its header and its samples. */
  datatype Trace = Trace(stats: Stats, data: seq<int>)

  /** An obspy `Stream`: a list of traces. */
  type Stream = seq<Trace>

  /** The eight stream methods `preproc_stream` knows by name. */
  datatype StepKind = Decimate | Detrend | ApplyFilter | Merge | Normalize | RemoveResponse | Resample | Taper

  /** The name under which `order` asks for a step. */
  function StepName(k: StepKind): string {
    match k
    case Decimate => "decimate"
    case Detrend => "detrend"
    case ApplyFilter => "applyfilter"
    case Merge => "merge"
    case Normalize => "normalize"
    case RemoveResponse => "remove_response"
    case Resample => "resample"
    case Taper => "taper"
  }

  /** The `if`/`elif` chain on the step name; `None` is the final `else`. */
  function StepOf(name: string): (k: Option<StepKind>)
    ensures k.Some? ==> StepName(k.value) == name
  {
    if name == "decimate" then Some(Decimate)
    else if name == "detrend" then Some(Detrend)
    else if name == "applyfilter" then Some(ApplyFilter)
    else if name == "merge" then Some(Merge)
    else if name == "normalize" then Some(Normalize)
    else if name == "remove_response" then Some(RemoveResponse)
    else if name == "resample" then Some(Resample)
    else if name == "taper" then Some(Taper)
    else None
  }

  /** The keyword arguments the restrictions hold for a step. */
  function ParamsOf(ppc: PreprocRestrictions, k: StepKind): Option<Params> {
    match k
    case Decimate => ppc.decimate
    case Detrend => ppc.detrend
    case ApplyFilter => ppc.applyfilter
    case Merge => ppc.merge
    case Normalize => ppc.normalize
    case RemoveResponse => ppc.removeResponse
    case Resample => ppc.resample
    case Taper => ppc.taper
  }

  /**
   * What a stream method does: it returns normally (`Done`) or raises
   * (`Raised`), in both cases with the stream as it left it, since the
   * methods work in place and may have changed it before raising.
   */
  datatype Outcome = Done(stream: Stream) | Raised(stream: Stream)

  /** The signal-processing library: a step, its keyword arguments and the stream it runs on. */
  type Engine = (StepKind, Params, Stream) -> Outcome

  /**
   * One pass of the loop body inside its `try`. An unknown name raises before
   * touching the stream, and so does `**None` (a `TypeError`) for a step whose
   * parameters were never given.
   */
  function Apply(engine: Engine, ppc: PreprocRestrictions, name: string, st: Stream): (o: Outcome)
    ensures StepOf(name).None? ==> o == Raised(st)
    ensures StepOf(name).Some? && ParamsOf(ppc, StepOf(name).value).None? ==> o == Raised(st)
  {
    match StepOf(name)
    case None => Raised(st)
    case Some(k) =>
      match ParamsOf(ppc, k)
      case None => Raised(st)
      case Some(p) => engine(k, p, st)
  }

  /** What the comment says about one step. */
  datatype Report = Report(name: string, ok: bool)

  function ReportText(r: Report): string {
    "(" + r.name + (if r.ok then ":ok)" else ":Failed)")
  }

  function Texts(rs: seq<Report>): (ts: seq<string>)
    ensures |ts| == |rs|
    ensures forall i :: 0 <= i < |rs| ==> ts[i] == ReportText(rs[i])
  {
    if rs == [] then [] else [ReportText(rs[0])] + Texts(rs[1..])
  }

  /** The texts separated by `->`. */
  function Joined(ts: seq<string>): string {
    if ts == [] then "" else if |ts| == 1 then ts[0] else ts[0] + "->" + Joined(ts[1..])
  }

  /** Every text followed by `->`: the comment while more steps are to come. */
  function Arrowed(ts: seq<string>): string {
    if ts == [] then "" else ts[0] + "->" + Arrowed(ts[1..])
  }

  /** The steps `names` run one after the other; each sees the stream the previous one left. */
  function RunSteps(engine: Engine, ppc: PreprocRestrictions, names: seq<string>, st: Stream): (Stream, seq<Report>)
  {
    if names == [] then (st, [])
    else
      var o := Apply(engine, ppc, names[0], st);
      var rest := RunSteps(engine, ppc, names[1..], o.stream);
      (rest.0, [Report(names[0], o.Done?)] + rest.1)
  }

  /** The comment `preproc_stream` returns after running steps. */
  function Comment(rs: seq<Report>): string {
    "[" + Joined(Texts(rs)) + "]"
  }

  /** The `NET.STA` id that selects a stream for processing. */
  function SeedId(s: Stats): string {
    s.network + "." + s.station
  }

  /**
   * Why `preproc_stream` fails: `st[0]` on an empty stream (`IndexError`), or
   * `processed` never bound because a selected stream met an empty `order`
   * (`UnboundLocalError`).
   */
  datatype PpcError = EmptyStream | UnboundProcessed

  /** What `preproc_stream` returns: the stream, whether it was processed, and the comment. */
  datatype Preprocessed = Preprocessed(stream: Stream, processed: bool, comment: string)

  /** The specification of `preproc_stream`. */
  function Preproc(engine: Engine, ppc: Option<PreprocRestrictions>, st: Stream): Result<Preprocessed, PpcError> {
    match ppc
    case None => Ok(Preprocessed(st, false, ""))
    case Some(p) =>
      if st == [] then Err(EmptyStream)
      else if SeedId(st[0].stats) !in p.seedIds then Ok(Preprocessed(st, false, ""))
      else if p.order == [] then Err(UnboundProcessed)
      else
        var (s, rs) := RunSteps(engine, p, p.order, st);
        Ok(Preprocessed(s, true, Comment(rs)))
  }

  /**
   * `preproc_stream`: the loop over `order` with the comment built the way
   * the source builds it, `->` after every step but the last.
   */
  method PreprocStream(engine: Engine, ppc: Option<PreprocRestrictions>, st: Stream)
    returns (r: Result<Preprocessed, PpcError>)
    ensures r == Preproc(engine, ppc, st)
  {
    if ppc.None? {
      return Ok(Preprocessed(st, false, ""));
    }
    var p := ppc.value;
    if |st| == 0 {
      return Err(EmptyStream);
    }
    var seedId := st[0].stats.network + "." + st[0].stats.station;
    if seedId !in p.seedIds {
      return Ok(Preprocessed(st, false, ""));
    }
    var n := |p.order|;
    if n == 0 {
      return Err(UnboundProcessed);
    }
    var cur := st;
    var comment := "";
    ghost var reports: seq<Report> := [];
    var i := 0;
    RunStepsStart(engine, p, p.order, st);
    while i < n
      invariant 0 <= i <= n
      invariant RunSteps(engine, p, p.order, st).0 == RunSteps(engine, p, p.order[i..], cur).0
      invariant RunSteps(engine, p, p.order, st).1 == reports + RunSteps(engine, p, p.order[i..], cur).1
      invariant |reports| == i
      invariant i < n ==> comment == Arrowed(Texts(reports))
      invariant i == n ==> comment == Joined(Texts(reports))
    {
      var name := p.order[i];
      var o := Apply(engine, p, name, cur);
      var report := Report(name, o.Done?);
      var text := ReportText(report);
      ArrowedThenLast(Texts(reports), text);
      TextsAppend(reports, report);
      if i == n - 1 {
        comment := comment + text;
      } else {
        comment := comment + text + "->";
      }
      RunStepsNext(engine, p, p.order, i, cur);
      AppendAssoc(reports, report, RunSteps(engine, p, p.order[i + 1..], o.stream).1);
      reports := reports + [report];
      cur := o.stream;
      i := i + 1;
    }
    RunStepsEnd(engine, p, p.order, cur, reports);
    return Ok(Preprocessed(cur, true, "[" + comment + "]"));
  }

  lemma RunStepsStart(engine: Engine, p: PreprocRestrictions, names: seq<string>, st: Stream)
    ensures RunSteps(engine, p, names, st).1 == [] + RunSteps(engine, p, names[0..], st).1
    ensures RunSteps(engine, p, names, st).0 == RunSteps(engine, p, names[0..], st).0
  {
    assert names[0..] == names;
  }

  lemma RunStepsNext(engine: Engine, p: PreprocRestrictions, names: seq<string>, i: nat, cur: Stream)
    requires i < |names|
    ensures var o := Apply(engine, p, names[i], cur);
      var rest := RunSteps(engine, p, names[i + 1..], o.stream);
      RunSteps(engine, p, names[i..], cur) == (rest.0, [Report(names[i], o.Done?)] + rest.1)
  {
    assert names[i..][1..] == names[i + 1..];
  }

  lemma AppendAssoc(a: seq<Report>, r: Report, b: seq<Report>)
    ensures a + ([r] + b) == (a + [r]) + b
  {
  }

  lemma RunStepsEnd(engine: Engine, p: PreprocRestrictions, names: seq<string>, cur: Stream, reports: seq<Report>)
    ensures RunSteps(engine, p, names[|names|..], cur) == (cur, [])
    ensures reports + RunSteps(engine, p, names[|names|..], cur).1 == reports
  {
    assert names[|names|..] == [];
    assert reports + [] == reports;
  }

  lemma {:induction false} ArrowedThenLast(ts: seq<string>, t: string)
    ensures Arrowed(ts) + t == Joined(ts + [t])
    ensures Arrowed(ts) + t + "->" == Arrowed(ts + [t])
  {
    if ts == [] {
      assert ts + [t] == [t];
    } else {
      assert (ts + [t])[1..] == ts[1..] + [t];
      ArrowedThenLast(ts[1..], t);
    }
  }

  lemma {:induction false} TextsAppend(rs: seq<Report>, r: Report)
    ensures Texts(rs + [r]) == Texts(rs) + [ReportText(r)]
  {
    if rs == [] {
      assert rs + [r] == [r];
    } else {
      assert (rs + [r])[1..] == rs[1..] + [r];
      TextsAppend(rs[1..], r);
    }
  }

  // ---------------------------------------------------------------------------
  // Properties of preprocessing
  // ---------------------------------------------------------------------------

  /** The dispatch recognises exactly the eight step names. */
  lemma StepOfName(k: StepKind)
    ensures StepOf(StepName(k)) == Some(k)
  {
  }

  /** `normalized`, the last step of the default order, is not one of them. */
  lemma NormalizedUnknown()
    ensures StepOf("normalized") == None
  {
  }

  /** The comment has one report per name of `order`, in that order. */
  lemma {:induction false} ReportsFollowOrder(engine: Engine, p: PreprocRestrictions, names: seq<string>, st: Stream)
    ensures |RunSteps(engine, p, names, st).1| == |names|
    ensures forall i :: 0 <= i < |names| ==> RunSteps(engine, p, names, st).1[i].name == names[i]
  {
    if names != [] {
      var o := Apply(engine, p, names[0], st);
      ReportsFollowOrder(engine, p, names[1..], o.stream);
    }
  }

  /** Running `a` then `b` is running `a + b`: a step sees what the steps before it left. */
  lemma {:induction false} RunStepsAppend(engine: Engine, p: PreprocRestrictions, a: seq<string>, b: seq<string>, st: Stream)
    ensures var ra := RunSteps(engine, p, a, st);
      var rb := RunSteps(engine, p, b, ra.0);
      RunSteps(engine, p, a + b, st) == (rb.0, ra.1 + rb.1)
  {
    if a == [] {
      assert a + b == b;
      assert [] + RunSteps(engine, p, b, st).1 == RunSteps(engine, p, b, st).1;
    } else {
      var o := Apply(engine, p, a[0], st);
      assert (a + b)[0] == a[0];
      assert (a + b)[1..] == a[1..] + b;
      RunStepsAppend(engine, p, a[1..], b, o.stream);
      var ra := RunSteps(engine, p, a[1..], o.stream);
      var rb := RunSteps(engine, p, b, ra.0);
      assert [Report(a[0], o.Done?)] + (ra.1 + rb.1) == ([Report(a[0], o.Done?)] + ra.1) + rb.1;
    }
  }

  /**
   * A step that raises is reported `Failed` and the steps after it still run,
   * on the stream as the raising step left it; an unknown name or a step
   * without parameters leaves the stream as it was.
   */
  lemma FailedStepKeepsGoing(engine: Engine, p: PreprocRestrictions, a: seq<string>, name: string,
                             b: seq<string>, st: Stream)
    requires Apply(engine, p, name, RunSteps(engine, p, a, st).0).Raised?
    ensures var ra := RunSteps(engine, p, a, st);
      var mid := Apply(engine, p, name, ra.0).stream;
      var rb := RunSteps(engine, p, b, mid);
      RunSteps(engine, p, a + [name] + b, st) == (rb.0, ra.1 + [Report(name, false)] + rb.1)
  {
    var ra := RunSteps(engine, p, a, st);
    RunStepsAppend(engine, p, a, [name] + b, st);
    assert a + [name] + b == a + ([name] + b);
    assert ([name] + b)[1..] == b;
    var mid := Apply(engine, p, name, ra.0).stream;
    var rb := RunSteps(engine, p, b, mid);
    assert RunSteps(engine, p, [name] + b, ra.0) == (rb.0, [Report(name, false)] + rb.1);
    assert ra.1 + ([Report(name, false)] + rb.1) == ra.1 + [Report(name, false)] + rb.1;
  }

  /** The reports of steps that all raise before touching the stream. */
  function AllFailed(names: seq<string>): (rs: seq<Report>)
    ensures |rs| == |names|
    ensures forall i :: 0 <= i < |names| ==> rs[i] == Report(names[i], false)
  {
    if names == [] then [] else [Report(names[0], false)] + AllFailed(names[1..])
  }

  /** A step with no parameters is a step that cannot run. */
  predicate Unrunnable(p: PreprocRestrictions, name: string) {
    StepOf(name).None? || ParamsOf(p, StepOf(name).value).None?
  }

  /** When no step can run the stream is left alone and every step is reported `Failed`. */
  lemma {:induction false} UnrunnableStepsLeaveStream(engine: Engine, p: PreprocRestrictions, names: seq<string>, st: Stream)
    requires forall i :: 0 <= i < |names| ==> Unrunnable(p, names[i])
    ensures RunSteps(engine, p, names, st) == (st, AllFailed(names))
  {
    if names != [] {
      assert Unrunnable(p, names[0]);
      assert forall i :: 0 <= i < |names[1..]| ==> names[1..][i] == names[i + 1];
      UnrunnableStepsLeaveStream(engine, p, names[1..], st);
    }
  }

  /**
   * With the default restrictions (the default order and no parameters) a
   * selected stream is marked processed although nothing was done to it.
   */
  lemma DefaultsProcessNothing(engine: Engine, seedIds: seq<string>, st: Stream)
    requires st != [] && SeedId(st[0].stats) in seedIds
    ensures Preproc(engine, Some(NewPreprocRestrictions(seedIds)), st)
         == Ok(Preprocessed(st, true, Comment(AllFailed(DefaultOrder))))
  {
    var p := NewPreprocRestrictions(seedIds);
    forall i | 0 <= i < |DefaultOrder|
      ensures Unrunnable(p, DefaultOrder[i])
    {
    }
    UnrunnableStepsLeaveStream(engine, p, DefaultOrder, st);
  }

  /** `preproc_stream` fails exactly on an empty stream given restrictions, or a selected stream with an empty order. */
  lemma PreprocFails(engine: Engine, ppc: Option<PreprocRestrictions>, st: Stream)
    ensures Preproc(engine, ppc, st).Err? <==>
      ppc.Some? && (st == [] || (SeedId(st[0].stats) in ppc.value.seedIds && ppc.value.order == []))
  {
  }

  /**
   * A stream is marked processed exactly when restrictions are given, its id
   * is selected and there are steps, and it is left alone otherwise.
   */
  lemma ProcessedIff(engine: Engine, ppc: Option<PreprocRestrictions>, st: Stream)
    requires Preproc(engine, ppc, st).Ok?
    ensures var r := Preproc(engine, ppc, st).value;
      && (r.processed <==> ppc.Some? && SeedId(st[0].stats) in ppc.value.seedIds)
      && (!r.processed ==> r.stream == st && r.comment == "")
  {
  }
}
