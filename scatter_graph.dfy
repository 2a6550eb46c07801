/** The latency scatter graph: the scan that picks the segments starting in
    the visible window, and the `dirty` flag that says the graph holds data
    it has not plotted yet. Timestamps are nanoseconds. */
module ScatterGraph {
  import opened JavaArith
  import opened Wrappers

  /** A latency segment: its start time and its length (the plotted duration). */
  datatype Segment = Segment(start: int64, length: int64)

  /** A window range `[start, end]`, in nanoseconds. */
  datatype Range = Range(start: int64, end: int64)

  /** A window range update signal: its source (the object that sent it) and
      its range, which may be absent. */
  datatype RangeSignal = RangeSignal(source: object?, range: Option<Range>)

  predicate InRange(s: Segment, lo: int, hi: int) { lo <= s.start <= hi }

  /** The segments the scan keeps, in the order it visits them: it stops at
      the first segment that starts after `hi` and keeps those that start at
      or after `lo`. */
  function StartingInRange(segs: seq<Segment>, lo: int, hi: int): (r: seq<Segment>)
    ensures |r| <= |segs|
    ensures forall s :: s in r ==> s in segs && InRange(s, lo, hi)
  {
    if segs == [] || segs[0].start > hi then []
    else (if segs[0].start >= lo then [segs[0]] else []) + StartingInRange(segs[1..], lo, hi)
  }

  /** The segments of `segs` that start in `[lo, hi]`, without the early stop. */
  function Filter(segs: seq<Segment>, lo: int, hi: int): seq<Segment>
  {
    if segs == [] then []
    else (if InRange(segs[0], lo, hi) then [segs[0]] else []) + Filter(segs[1..], lo, hi)
  }

  predicate SortedByStart(segs: seq<Segment>)
  {
    forall i, j :: 0 <= i < j < |segs| ==> segs[i].start <= segs[j].start
  }

  /** A segment that starts in range and comes before any segment that starts
      after `hi` is kept. */
  lemma {:induction false} StartingInRangeKeeps(segs: seq<Segment>, lo: int, hi: int, k: int)
    requires 0 <= k < |segs| && InRange(segs[k], lo, hi)
    requires forall j :: 0 <= j < k ==> segs[j].start <= hi
    ensures segs[k] in StartingInRange(segs, lo, hi)
  {
    if k > 0 {
      var tail := segs[1..];
      assert segs[0].start <= hi;
      assert tail[k - 1] == segs[k];
      forall j | 0 <= j < k - 1
        ensures tail[j].start <= hi
      {
        assert tail[j] == segs[j + 1];
      }
      StartingInRangeKeeps(tail, lo, hi, k - 1);
    }
  }

  /** When the segments come in non-decreasing start order the early stop
      loses nothing: the scan returns exactly the segments starting in range,
      in order. */
  lemma {:induction false} SortedScanIsFilter(segs: seq<Segment>, lo: int, hi: int)
    requires SortedByStart(segs)
    ensures StartingInRange(segs, lo, hi) == Filter(segs, lo, hi)
  {
    if segs != [] {
      var tail := segs[1..];
      assert SortedByStart(tail) by {
        forall i, j | 0 <= i < j < |tail|
          ensures tail[i].start <= tail[j].start
        {
          assert tail[i] == segs[i + 1] && tail[j] == segs[j + 1];
        }
      }
      if segs[0].start > hi {
        FilterEmptyAbove(tail, lo, hi, segs[0].start);
      } else {
        SortedScanIsFilter(tail, lo, hi);
      }
    }
  }

  /** No segment starting at or after `from > hi` is in range. */
  lemma {:induction false} FilterEmptyAbove(segs: seq<Segment>, lo: int, hi: int, from: int)
    requires from > hi
    requires forall i :: 0 <= i < |segs| ==> from <= segs[i].start
    ensures Filter(segs, lo, hi) == []
  {
    if segs != [] {
      var tail := segs[1..];
      forall i | 0 <= i < |tail|
        ensures from <= tail[i].start
      {
        assert tail[i] == segs[i + 1];
      }
      FilterEmptyAbove(tail, lo, hi, from);
    }
  }

  /** Without the ordering the early stop can lose a segment in range. */
  lemma UnsortedScanLoses()
    ensures StartingInRange([Segment(50, 1), Segment(10, 1)], 0, 20) == []
    ensures Filter([Segment(50, 1), Segment(10, 1)], 0, 20) == [Segment(10, 1)]
  {
  }

  /** The result of `getElementsStartingInRange`: `None` (Java's null) when
      there is no data or no segment was kept. */
  function ElementsStartingInRange(topData: Option<seq<Segment>>, lo: int, hi: int): Option<seq<Segment>>
  {
    if topData.None? then None
    else
      var m := StartingInRange(topData.value, lo, hi);
      if m == [] then None else Some(m)
  }

  /** The null result and what a non-null result holds. */
  lemma ElementsStartingInRangeProperties(topData: Option<seq<Segment>>, lo: int, hi: int)
    ensures var r := ElementsStartingInRange(topData, lo, hi);
      && (topData.None? ==> r.None?)
      && (r.None? <==> topData.None? || StartingInRange(topData.value, lo, hi) == [])
      && (r.Some? ==> r.value != [] && forall s :: s in r.value ==> s in topData.value && InRange(s, lo, hi))
      && (topData.Some? && SortedByStart(topData.value) ==>
            (r.None? <==> forall s :: s in topData.value ==> !InRange(s, lo, hi)))
  {
    if topData.Some? && SortedByStart(topData.value) {
      var segs := topData.value;
      if exists s :: s in segs && InRange(s, lo, hi) {
        var s :| s in segs && InRange(s, lo, hi);
        var k :| 0 <= k < |segs| && segs[k] == s;
        StartingInRangeKeeps(segs, lo, hi, k);
      } else {
        var m := StartingInRange(segs, lo, hi);
        if m != [] {
          assert m[0] in m;
        }
      }
    }
  }

  /** The values added to the x axis, one per segment: its start relative to
      the window start (a `long` subtraction). */
  function XValues(data: seq<Segment>, start: int): seq<int>
  {
    seq(|data|, i requires 0 <= i < |data| => LSub(data[i].start, start))
  }

  /** The values of the "Latencies" series: each segment's length. */
  function YValues(data: seq<Segment>): seq<int>
  {
    seq(|data|, i requires 0 <= i < |data| => data[i].length)
  }

  function OrEmpty(d: Option<seq<Segment>>): seq<Segment>
  {
    if d.None? then [] else d.value
  }

  /** The loop of `updateData` that fills the two series, one point per segment. */
  method Points(data: seq<Segment>, start: int64) returns (xs: seq<int>, ys: seq<int>)
    ensures |xs| == |data| && |ys| == |data|
    ensures forall i :: 0 <= i < |data| ==> xs[i] == LSub(data[i].start, start) && ys[i] == data[i].length
  {
    xs, ys := [], [];
    for i := 0 to |data|
      invariant |xs| == i && |ys| == i
      invariant forall k :: 0 <= k < i ==> xs[k] == LSub(data[k].start, start) && ys[k] == data[k].length
    {
      var segment := data[i];
      xs := xs + [LSub(segment.start, start)];
      ys := ys + [segment.length];
    }
  }

  /** The viewer: the latency results, the window range, the `dirty` flag,
      the plotted series and the updates queued for the display thread. */
  class ScatterGraphViewer {
    /** `fTopData`: the analysis results, `None` when there are none. */
    var topData: Option<seq<Segment>>
    /** Set when the graph has data it has not plotted yet. */
    var dirty: bool
    /** The window range kept by the base viewer. */
    var window: Range
    /** The x axis values and the "Latencies" series last set on the chart. */
    var xAxis: seq<int>
    var series: seq<int>
    /** The `updateData` calls posted to the display thread, oldest first. */
    var queued: seq<Range>
    /** The range the series were last plotted for. */
    ghost var plotted: Range

    /** A clean graph shows exactly the in-range segments of its data, for
        the range it last plotted. */
    ghost predicate UpToDate()
      reads this`dirty, this`topData, this`plotted, this`xAxis, this`series
    {
      !dirty ==>
        var d := OrEmpty(ElementsStartingInRange(topData, plotted.start, plotted.end));
        xAxis == XValues(d, plotted.start) && series == YValues(d)
    }

    constructor ()
      ensures topData.None? && !dirty && xAxis == [] && series == [] && queued == []
      ensures UpToDate()
    {
      topData := None;
      dirty := false;
      window := Range(0, 0);
      xAxis := [];
      series := [];
      queued := [];
      plotted := Range(0, 0);
    }

    /** `getElementsStartingInRange(rangeStart, rangeEnd)`. */
    method GetElementsStartingInRange(rangeStart: int64, rangeEnd: int64) returns (r: Option<seq<Segment>>)
      ensures r == ElementsStartingInRange(topData, rangeStart, rangeEnd)
    {
      var model: seq<Segment> := [];
      if topData.Some? {
        var data := topData.value;
        var i := 0;
        while i < |data|
          invariant 0 <= i <= |data|
          invariant StartingInRange(data, rangeStart, rangeEnd) == model + StartingInRange(data[i..], rangeStart, rangeEnd)
        {
          var segment := data[i];
          assert data[i..][1..] == data[i + 1..];
          if segment.start > rangeEnd {
            assert data[i..][0] == segment;
            break;
          }
          if segment.start >= rangeStart {
            model := model + [segment];
          }
          i := i + 1;
        }
        assert model == StartingInRange(data, rangeStart, rangeEnd) by {
          if i == |data| {
            assert data[i..] == [];
          }
        }
      }
      if |model| == 0 {
        return None;
      }
      return Some(model);
    }

    /** `setWindowRange`: the base viewer takes the window, the flag is set
        and an `updateData` for that window is posted. */
    method SetWindowRange(windowStartTime: int64, windowEndTime: int64)
      modifies this`window, this`dirty, this`queued
      ensures window == Range(windowStartTime, windowEndTime)
      ensures dirty
      ensures queued == old(queued) + [Range(windowStartTime, windowEndTime)]
    {
      window := Range(windowStartTime, windowEndTime);
      dirty := true;
      queued := queued + [Range(windowStartTime, windowEndTime)];
    }

    /** `updateModel(dataInput)`, the trace manager's current window being
        `current`: no data clears the chart; the flag is set and the window
        updated. */
    method UpdateModel(dataInput: Option<seq<Segment>>, current: Range)
      modifies this`topData, this`xAxis, this`series, this`window, this`dirty, this`queued
      ensures topData == dataInput
      ensures dataInput.None? ==> xAxis == [] && series == []
      ensures dataInput.Some? ==> xAxis == old(xAxis) && series == old(series)
      ensures dirty
      ensures window == current
      ensures queued == old(queued) + [current]
    {
      topData := dataInput;
      if topData.None? {
        xAxis := [];
        series := [];
      }
      SetWindowRange(current.start, current.end);
    }

    /** `updateData(start, end, ...)`, `chartDisposed` telling whether the
        chart was disposed by the time the x axis is set. The flag is cleared
        only when the series was plotted. */
    method UpdateData(start: int64, end: int64, chartDisposed: bool)
      requires UpToDate()
      modifies this`xAxis, this`series, this`dirty, this`plotted
      ensures UpToDate()
      ensures var data := ElementsStartingInRange(topData, start, end);
        && (!old(dirty) || data.None? ==> xAxis == old(xAxis) && series == old(series) && dirty == old(dirty))
        && (old(dirty) && data.Some? ==> xAxis == XValues(data.value, start))
        && (old(dirty) && data.Some? && chartDisposed ==> series == old(series) && dirty)
        && (!dirty <==> !old(dirty) || (data.Some? && !chartDisposed))
        && (old(dirty) && !dirty ==> series == YValues(data.value) && plotted == Range(start, end))
        && (!old(dirty) || dirty ==> plotted == old(plotted))
    {
      if dirty {
        var data := GetElementsStartingInRange(start, end);
        if data.None? {
          return;
        }
        var xSeries, ySeries := Points(data.value, start);
        xAxis := xSeries;
        if chartDisposed {
          return;
        }
        series := ySeries;
        dirty := false;
        plotted := Range(start, end);
      }
    }

    /** The display thread runs the oldest posted `updateData`. */
    method RunQueued(chartDisposed: bool)
      requires UpToDate()
      requires queued != []
      modifies this`xAxis, this`series, this`dirty, this`plotted, this`queued
      ensures queued == old(queued[1..])
      ensures UpToDate()
      ensures var q := old(queued[0]);
        var data := ElementsStartingInRange(topData, q.start, q.end);
        && (!old(dirty) || data.None? ==> xAxis == old(xAxis) && series == old(series) && dirty == old(dirty))
        && (old(dirty) && data.Some? ==> xAxis == XValues(data.value, q.start))
        && (old(dirty) && data.Some? && chartDisposed ==> series == old(series) && dirty)
        && (!dirty <==> !old(dirty) || (data.Some? && !chartDisposed))
        && (old(dirty) && !dirty ==> plotted == q && series == YValues(data.value))
        && (!old(dirty) || dirty ==> plotted == old(plotted))
    {
      var next := queued[0];
      queued := queued[1..];
      UpdateData(next.start, next.end, chartDisposed);
    }

    /** `windowRangeUpdated(signal)`: the window follows a signal with a range
        unless the signal came from this viewer. */
    method WindowRangeUpdated(signal: Option<RangeSignal>)
      modifies this`window, this`dirty, this`queued
      ensures var follows := signal.Some? && signal.value.range.Some? && signal.value.source != this;
        && (follows ==> window == signal.value.range.value && dirty
                        && queued == old(queued) + [signal.value.range.value])
        && (!follows ==> window == old(window) && dirty == old(dirty) && queued == old(queued))
    {
      if signal.None? {
        return;
      }
      var range := signal.value.range;
      if range.None? {
        return;
      }
      if signal.value.source != this {
        SetWindowRange(range.value.start, range.value.end);
      }
    }
  }
}
