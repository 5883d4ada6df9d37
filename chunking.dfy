/**
 * `get_chunktimes`: split the request interval [start, end] into windows of
 * `chunklength` seconds whose starts advance by `chunklength - overlap`,
 * closing with one remainder window that ends at `end`.
 */
module Chunking {
  import opened Common
  import opened Restrictions

  datatype Window = Window(start: Time, end: Time)

  datatype ChunkError = ZeroChunkLength   // "chunklength_in_sec must be different than 0"

  /**
   * The loop of the source is left either because the cursor has reached the
   * end, or through the `break` once a full chunk no longer fits; it only
   * advances when the step is positive. `Advances` is exactly the condition
   * under which the loop stops.
   */
  predicate Advances(cursor: Time, end: Time, len: int, step: int) {
    step > 0 || cursor >= end || cursor + len > end
  }

  /** The windows the loop emits from `cursor` on, the remainder window included. */
  function WindowsFrom(cursor: Time, end: Time, len: int, step: int): seq<Window>
    requires Advances(cursor, end, len, step)
    decreases end - cursor
  {
    if cursor >= end then []
    else if cursor + len > end then [Window(cursor, end)]
    else [Window(cursor, cursor + len)] + WindowsFrom(cursor + step, end, len, step)
  }

  /** `overlap_in_sec == None` counts as 0. */
  function OverlapOf(overlap: Option<int>): int {
    overlap.GetOr(0)
  }

  /** When the source's call returns at all (it loops for ever otherwise). */
  predicate Terminates(start: Time, end: Time, chunklength: Option<int>, overlap: Option<int>) {
    match chunklength
    case None => true
    case Some(c) => c == 0 || Advances(start, end, c, c - OverlapOf(overlap))
  }

  /** What `get_chunktimes` returns or raises. */
  function Chunks(start: Time, end: Time, chunklength: Option<int>,
                  overlap: Option<int>): Result<seq<Window>, ChunkError>
    requires Terminates(start, end, chunklength, overlap)
  {
    match chunklength
    case None => Ok([Window(start, end)])
    case Some(c) =>
      if c == 0 then Err(ZeroChunkLength)
      else Ok(WindowsFrom(start, end, c, c - OverlapOf(overlap)))
  }

  /** The cursor loop of `get_chunktimes`. */
  method ChunkTimes(start: Time, end: Time, chunklength: Option<int>,
                    overlap: Option<int>) returns (r: Result<seq<Window>, ChunkError>)
    requires Terminates(start, end, chunklength, overlap)
    ensures r == Chunks(start, end, chunklength, overlap)
  {
    if chunklength == Some(0) {
      return Err(ZeroChunkLength);
    } else if chunklength.None? {
      return Ok([Window(start, end)]);
    }
    var len := chunklength.value;
    var ov := if overlap.None? then 0 else overlap.value;
    var step := len - ov;
    var deltat := start;
    var times: seq<Window> := [];
    while deltat < end
      invariant Advances(deltat, end, len, step)
      invariant times + WindowsFrom(deltat, end, len, step) == WindowsFrom(start, end, len, step)
      decreases end - deltat
    {
      if deltat + len > end {
        break;
      }
      times := times + [Window(deltat, deltat + len)];
      deltat := deltat + step;
    }
    assert WindowsFrom(deltat, end, len, step) == if deltat < end then [Window(deltat, end)] else [];
    if deltat < end {
      times := times + [Window(deltat, end)];
    }
    assert times == WindowsFrom(start, end, len, step);
    assert step == len - OverlapOf(overlap);
    return Ok(times);
  }

  // ---------------------------------------------------------------------------
  // Properties of the windows
  // ---------------------------------------------------------------------------

  /** A zero chunk length raises; no chunk length gives the whole interval; no overlap means 0. */
  lemma InputDefaults(start: Time, end: Time, overlap: Option<int>, c: int)
    requires c != 0 && Terminates(start, end, Some(c), overlap)
    ensures Chunks(start, end, Some(0), overlap) == Err(ZeroChunkLength)
    ensures Chunks(start, end, None, overlap) == Ok([Window(start, end)])
    ensures Terminates(start, end, Some(c), Some(0)) ==> overlap == None ==>
              Chunks(start, end, Some(c), None) == Chunks(start, end, Some(c), Some(0))
  {
  }

  /** With a chunk length set, there are no windows exactly when the interval is empty. */
  lemma EmptyIff(start: Time, end: Time, c: int, overlap: Option<int>)
    requires c != 0 && Terminates(start, end, Some(c), overlap)
    ensures Chunks(start, end, Some(c), overlap) == Ok([]) <==> start >= end
  {
  }

  /**
   * The shape of the windows when they overlap or abut (`step <= len`): the
   * first starts at the cursor, the last ends at `end`, consecutive starts are
   * one step apart, every window but the last is a full chunk, and every
   * window is non-empty, at most a chunk wide and inside [cursor, end].
   */
  lemma WindowsShape(cursor: Time, end: Time, len: int, step: int)
    requires 0 < step <= len && cursor < end
    ensures var ws := WindowsFrom(cursor, end, len, step);
      && |ws| > 0
      && ws[0].start == cursor
      && ws[|ws| - 1].end == end
      && (forall i :: 0 <= i < |ws| - 1 ==> ws[i].end == ws[i].start + len)
      && (forall i :: 0 <= i < |ws| - 1 ==> ws[i + 1].start == ws[i].start + step)
      && (forall i :: 0 <= i < |ws| ==>
            cursor <= ws[i].start < ws[i].end <= end && ws[i].end - ws[i].start <= len)
  {
    WindowsEnds(cursor, end, len, step);
    WindowsSteps(cursor, end, len, step);
    WindowsInside(cursor, end, len, step);
  }

  /** The first window starts at the cursor and the last ends at `end`. */
  lemma {:induction false} WindowsEnds(cursor: Time, end: Time, len: int, step: int)
    requires 0 < step <= len && cursor < end
    ensures var ws := WindowsFrom(cursor, end, len, step);
      |ws| > 0 && ws[0].start == cursor && ws[|ws| - 1].end == end
    decreases end - cursor
  {
    if cursor + len <= end {
      var rest := WindowsFrom(cursor + step, end, len, step);
      assert WindowsFrom(cursor, end, len, step) == [Window(cursor, cursor + len)] + rest;
      if cursor + step < end {
        WindowsEnds(cursor + step, end, len, step);
      } else {
        assert rest == [];
      }
    }
  }

  /** Every window but the last is a full chunk, and the next one starts one step later. */
  lemma {:induction false} WindowsSteps(cursor: Time, end: Time, len: int, step: int)
    requires 0 < step <= len
    ensures var ws := WindowsFrom(cursor, end, len, step);
      forall i :: 0 <= i < |ws| - 1 ==> ws[i].end == ws[i].start + len && ws[i + 1].start == ws[i].start + step
    decreases end - cursor
  {
    if cursor < end && cursor + len <= end {
      var rest := WindowsFrom(cursor + step, end, len, step);
      var ws := WindowsFrom(cursor, end, len, step);
      assert ws == [Window(cursor, cursor + len)] + rest;
      WindowsSteps(cursor + step, end, len, step);
      if cursor + step < end {
        WindowsEnds(cursor + step, end, len, step);
      }
      forall i | 0 <= i < |ws| - 1
        ensures ws[i].end == ws[i].start + len && ws[i + 1].start == ws[i].start + step
      {
        if i > 0 {
          assert ws[i] == rest[i - 1] && ws[i + 1] == rest[i];
        }
      }
    }
  }

  /** Every window is non-empty, at most a chunk wide and inside [cursor, end]. */
  lemma {:induction false} WindowsInside(cursor: Time, end: Time, len: int, step: int)
    requires 0 < step <= len
    ensures forall w :: w in WindowsFrom(cursor, end, len, step) ==>
      cursor <= w.start < w.end <= end && w.end - w.start <= len
    decreases end - cursor
  {
    if cursor < end && cursor + len <= end {
      var rest := WindowsFrom(cursor + step, end, len, step);
      assert WindowsFrom(cursor, end, len, step) == [Window(cursor, cursor + len)] + rest;
      WindowsInside(cursor + step, end, len, step);
    }
  }

  /** Some window of `ws` contains the second `t`. */
  predicate Covers(ws: seq<Window>, t: Time) {
    exists i :: 0 <= i < |ws| && ws[i].start <= t < ws[i].end
  }

  /**
   * No gaps: when the windows overlap or abut (`step <= len`), every second of
   * [cursor, end) lies in some window.
   */
  lemma {:induction false} WindowsCover(cursor: Time, end: Time, len: int, step: int, t: Time)
    requires 0 < step <= len && cursor <= t < end
    ensures Covers(WindowsFrom(cursor, end, len, step), t)
    decreases end - cursor
  {
    var ws := WindowsFrom(cursor, end, len, step);
    if cursor + len > end || t < cursor + len {
      assert ws[0].start <= t < ws[0].end;
    } else {
      var rest := WindowsFrom(cursor + step, end, len, step);
      assert ws == [Window(cursor, cursor + len)] + rest;
      WindowsCover(cursor + step, end, len, step, t);
      var i :| 0 <= i < |rest| && rest[i].start <= t < rest[i].end;
      assert ws[i + 1] == rest[i];
    }
  }

  /**
   * The properties of `get_chunktimes` for a valid configuration
   * (`0 <= overlap < chunklength`) over a non-empty interval.
   */
  lemma ChunksCoverInterval(start: Time, end: Time, c: int, overlap: Option<int>)
    requires start < end && 0 <= OverlapOf(overlap) < c
    ensures Terminates(start, end, Some(c), overlap)
    ensures var ws := Chunks(start, end, Some(c), overlap).value;
      && Chunks(start, end, Some(c), overlap).Ok?
      && |ws| > 0
      && ws[0].start == start
      && ws[|ws| - 1].end == end
      && (forall i :: 0 <= i < |ws| - 1 ==> ws[i].end - ws[i].start == c)
      && (forall i :: 0 <= i < |ws| - 1 ==> ws[i + 1].start == ws[i].start + (c - OverlapOf(overlap)))
      && (forall i :: 0 <= i < |ws| ==> start <= ws[i].start < ws[i].end <= end)
      && (forall i :: 0 <= i < |ws| ==> ws[i].end - ws[i].start <= c)
      && (forall t :: start <= t < end ==> Covers(ws, t))
  {
    var step := c - OverlapOf(overlap);
    WindowsShape(start, end, c, step);
    forall t | start <= t < end
      ensures Covers(WindowsFrom(start, end, c, step), t)
    {
      WindowsCover(start, end, c, step, t);
    }
  }

  /** Without overlap consecutive windows abut: each ends where the next starts. */
  lemma AbutWithoutOverlap(start: Time, end: Time, c: int)
    requires start < end && 0 < c
    ensures Terminates(start, end, Some(c), Some(0))
    ensures var ws := Chunks(start, end, Some(c), Some(0)).value;
      forall i :: 0 <= i < |ws| - 1 ==> ws[i].end == ws[i + 1].start
  {
    WindowsShape(start, end, c, c);
  }

  /** 2019-04-23 00:00:00 UTC. */
  const April23: Time := 1555977600

  /** Two hours in chunks of one hour without overlap: [00:00, 01:00] and [01:00, 02:00]. */
  lemma TwoHoursInHours()
    ensures Terminates(April23, April23 + 7200, Some(3600), None)
    ensures Chunks(April23, April23 + 7200, Some(3600), None)
         == Ok([Window(April23, April23 + 3600), Window(April23 + 3600, April23 + 7200)])
  {
    assert WindowsFrom(April23 + 7200, April23 + 7200, 3600, 3600) == [];
    assert WindowsFrom(April23 + 3600, April23 + 7200, 3600, 3600)
        == [Window(April23 + 3600, April23 + 7200)];
    assert WindowsFrom(April23, April23 + 7200, 3600, 3600)
        == [Window(April23, April23 + 3600), Window(April23 + 3600, April23 + 7200)];
  }

  /** With 900 s of overlap the cursor advances by 2700 s and a short remainder closes the list. */
  lemma TwoHoursWithOverlap()
    ensures Terminates(April23, April23 + 7200, Some(3600), Some(900))
    ensures Chunks(April23, April23 + 7200, Some(3600), Some(900))
         == Ok([Window(April23, April23 + 3600),
                Window(April23 + 2700, April23 + 6300),
                Window(April23 + 5400, April23 + 7200)])
  {
    assert WindowsFrom(April23 + 5400, April23 + 7200, 3600, 2700)
        == [Window(April23 + 5400, April23 + 7200)];
    assert WindowsFrom(April23 + 2700, April23 + 7200, 3600, 2700)
        == [Window(April23 + 2700, April23 + 6300), Window(April23 + 5400, April23 + 7200)];
    assert WindowsFrom(April23, April23 + 7200, 3600, 2700)
        == [Window(April23, April23 + 3600), Window(April23 + 2700, April23 + 6300),
            Window(April23 + 5400, April23 + 7200)];
  }
}
