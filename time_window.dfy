/** The time-window arithmetic of the time graph viewer, as values: the two
    clamp orders it uses, the minimum-interval rule, the "ensure visible"
    centring and the derivation of the bounds from the user-pinned times.
    Every subtraction and addition is Java `long` arithmetic (it wraps);
    the lemmas say what the operations promise when nothing overflows. */
module TimeWindow {
  import opened JavaArith

  /** `SWT.DEFAULT`, the "not set" value of every time field. */
  const DEFAULT: int := -1

  /** Times of at most this magnitude (3e18, about 95 years of nanoseconds)
      leave room for every intermediate sum of the centring algorithm. */
  const TIME_LIMIT: int := 3_000_000_000_000_000_000

  predicate Moderate(t: int) { -TIME_LIMIT <= t <= TIME_LIMIT }

  /** Where a centred window can reach: twice the moderate range. */
  predicate Reachable(t: int) { -2 * TIME_LIMIT <= t <= 2 * TIME_LIMIT }

  /** A pair of times: the bounds, the visible window or the selection. */
  datatype TimeRange = TimeRange(start: int, end: int)

  predicate IsLongRange(r: TimeRange) { IsLong(r.start) && IsLong(r.end) }

  /** `r` lies inside `b` and is not inverted. */
  predicate Within(r: TimeRange, b: TimeRange) { b.start <= r.start <= r.end <= b.end }

  /** Bounds that can be used without overflow in the lemmas below. */
  predicate ModerateBounds(b: TimeRange)
  {
    b.start <= b.end && Moderate(b.start) && Moderate(b.end)
  }

  /** The clamp of `setStartFinishTimeInt`: first raise to the lower bound,
      then lower to the upper bound. On inverted bounds it yields the upper one. */
  function StepClamp(t: int, b: TimeRange): (r: int)
    ensures b.start <= b.end ==> b.start <= r <= b.end
    ensures b.start <= t <= b.end ==> r == t
    ensures b.start > b.end ==> r == b.end
  {
    var lifted := if t < b.start then b.start else t;
    if lifted > b.end then b.end else lifted
  }

  /** The clamp `Math.max(lo, Math.min(t, hi))` used by `setTimeBounds()` and
      the selection setters. On inverted bounds it yields the lower one. */
  function BoundClamp(t: int, b: TimeRange): (r: int)
    ensures b.start <= b.end ==> b.start <= r <= b.end
    ensures b.start <= t <= b.end ==> r == t
    ensures b.start > b.end ==> r == b.start
  {
    Max(b.start, Min(t, b.end))
  }

  /** The minimum-interval rule: when the window is shorter than
      `minInterval`, its end (never its start) grows to `start + minInterval`,
      capped at `limit`. */
  function ExtendToMinInterval(w: TimeRange, limit: int, minInterval: int): (r: TimeRange)
    ensures r.start == w.start
    ensures LSub(w.end, w.start) >= minInterval ==> r == w
  {
    if LSub(w.end, w.start) < minInterval then
      TimeRange(w.start, Min(limit, LAdd(w.start, minInterval)))
    else
      w
  }

  /** Without overflow, the rule only ever grows the window, keeps it below
      `limit`, and leaves it at least `minInterval` long unless it reached `limit`. */
  lemma ExtendToMinIntervalProperties(w: TimeRange, limit: int, minInterval: int)
    requires w.start <= w.end <= limit && IsLongRange(w) && IsLong(w.end - w.start)
    requires 0 <= minInterval && IsLong(limit + minInterval)
    ensures var r := ExtendToMinInterval(w, limit, minInterval);
      && r.start == w.start && w.end <= r.end <= limit
      && (r.end - r.start >= minInterval || r.end == limit)
      && (w.end - w.start < minInterval ==> r.end == Min(limit, w.start + minInterval))
  {
  }

  /** The new window of `setStartFinishTimeInt(time0, time1)`. */
  function ClampWindow(time0: int, time1: int, b: TimeRange, minInterval: int): TimeRange
  {
    ExtendToMinInterval(TimeRange(StepClamp(time0, b), StepClamp(time1, b)), b.end, minInterval)
  }

  /** The window clamp: whatever the caller passes, even `time0 > time1`, the
      window ends up inside valid bounds, starts at the clamped `time0`, ends at
      the clamped `time1` when that leaves `minInterval`, and is otherwise
      extended to `minInterval` unless that would pass the upper bound. */
  lemma ClampWindowInBounds(time0: int, time1: int, b: TimeRange, minInterval: int)
    requires b.start <= b.end && IsLongRange(b) && IsLong(b.end - b.start)
    requires 0 <= minInterval && IsLong(b.end + minInterval)
    ensures var r := ClampWindow(time0, time1, b, minInterval);
      && Within(r, b)
      && (r.end - r.start >= minInterval || r.end == b.end)
      && r.start == StepClamp(time0, b)
      && (StepClamp(time1, b) - StepClamp(time0, b) >= minInterval ==> r.end == StepClamp(time1, b))
      && (StepClamp(time1, b) - StepClamp(time0, b) < minInterval ==>
            r.end == Min(b.end, r.start + minInterval))
  {
    var t0, t1 := StepClamp(time0, b), StepClamp(time1, b);
    assert IsLong(t1 - t0);
    assert IsLong(t0 + minInterval);
  }

  /** The part of `ClampWindowInBounds` that holds for the stored window. */
  lemma ClampWindowSafe(time0: int, time1: int, b: TimeRange, minInterval: int)
    requires b.start <= b.end && IsLongRange(b) && IsLong(b.end - b.start)
    requires 0 <= minInterval && IsLong(b.end + minInterval)
    ensures var r := ClampWindow(time0, time1, b, minInterval);
      Within(r, b) && (r.end - r.start >= minInterval || r.end == b.end)
  {
    ClampWindowInBounds(time0, time1, b, minInterval);
  }

  /** Asking for the bounds themselves gives the bounds (what
      `resetStartFinishTime` relies on), whatever the minimum interval. */
  lemma ClampWindowOfBounds(b: TimeRange, minInterval: int)
    requires b.start <= b.end && IsLongRange(b) && IsLong(b.end - b.start)
    requires 0 <= minInterval && IsLong(b.end + minInterval)
    ensures ClampWindow(b.start, b.end, b, minInterval) == b
  {
    assert IsLong(b.start + minInterval);
  }

  /** Long arithmetic wraps rather than saturates: a zero-length request at
      `Long.MAX_VALUE` is "extended" to an inverted window. */
  lemma ClampWindowWrapsAtLongMax()
    ensures ClampWindow(LONG_MAX, LONG_MAX, TimeRange(LONG_MAX - 10, LONG_MAX), 1)
         == TimeRange(LONG_MAX, LONG_MIN)
  {
  }

  /** With no data the bounds are both `DEFAULT`; a window request is then not
      ignored but collapses onto `DEFAULT`. */
  lemma ClampWindowOnDefaultBounds()
    ensures ClampWindow(10, 20, TimeRange(DEFAULT, DEFAULT), 1) == TimeRange(DEFAULT, DEFAULT)
  {
  }

  /** The window of `setTimeBounds()`: the bounds themselves unless the range
      was fixed by the user, clamped and then extended to the minimum interval. */
  function RecalculateWindow(w: TimeRange, b: TimeRange, fixed: bool, minInterval: int): TimeRange
  {
    var w0 := if fixed then w else b;
    ExtendToMinInterval(TimeRange(BoundClamp(w0.start, b), BoundClamp(w0.end, b)), b.end, minInterval)
  }

  lemma RecalculateWindowProperties(w: TimeRange, b: TimeRange, fixed: bool, minInterval: int)
    requires b.start <= b.end && IsLongRange(b) && IsLong(b.end - b.start)
    requires 0 <= minInterval && IsLong(b.end + minInterval)
    ensures var r := RecalculateWindow(w, b, fixed, minInterval);
      && Within(r, b)
      && (r.end - r.start >= minInterval || r.end == b.end)
      && (!fixed ==> r == b)
      && (fixed ==> r.start == BoundClamp(w.start, b))
      && (fixed && BoundClamp(w.end, b) - BoundClamp(w.start, b) >= minInterval ==>
            r.end == BoundClamp(w.end, b))
  {
    var w0 := if fixed then w else b;
    var t0, t1 := BoundClamp(w0.start, b), BoundClamp(w0.end, b);
    assert IsLong(t1 - t0);
    assert IsLong(t0 + minInterval);
  }

  /** First step of `ensureVisible`: when `time` lies outside the window, shift
      the window by the distance to the nearer edge plus half its length. */
  function CentreOn(w: TimeRange, time: int): TimeRange
  {
    var timeMid := Quot(LSub(w.end, w.start), 2);
    if time < w.start then
      var dt := LAdd(LSub(w.start, time), timeMid);
      TimeRange(LSub(w.start, dt), LSub(w.end, dt))
    else if time > w.end then
      var dt := LAdd(LSub(time, w.end), timeMid);
      TimeRange(LAdd(w.start, dt), LAdd(w.end, dt))
    else
      w
  }

  /** Second step of `ensureVisible`: a window past the lower bound slides right
      (its end capped at the upper bound); otherwise a window past the upper
      bound slides left (its start capped at the lower bound). */
  function SlideIntoBounds(w: TimeRange, b: TimeRange): TimeRange
  {
    if w.start < b.start then
      TimeRange(b.start, Min(b.end, LAdd(w.end, LSub(b.start, w.start))))
    else if w.end > b.end then
      TimeRange(Max(b.start, LSub(w.start, LSub(w.end, b.end))), b.end)
    else
      w
  }

  /** The window after `ensureVisible(time)`. */
  function EnsureVisible(w: TimeRange, time: int, b: TimeRange, minInterval: int): TimeRange
  {
    ExtendToMinInterval(SlideIntoBounds(CentreOn(w, time), b), b.end, minInterval)
  }

  /** The hypotheses shared by the `ensureVisible` lemmas: moderate bounds, a
      starting window inside them, a moderate time and interval. */
  predicate CentringSafe(w: TimeRange, time: int, b: TimeRange, minInterval: int)
  {
    ModerateBounds(b) && Within(w, b) && Moderate(time) && 0 <= minInterval <= TIME_LIMIT
  }

  /** The centring shift moves the window without changing its length, and
      puts `time` inside it. */
  lemma CentreOnShifts(w: TimeRange, time: int, b: TimeRange, minInterval: int)
    requires CentringSafe(w, time, b, minInterval)
    ensures var c := CentreOn(w, time); var half := (w.end - w.start) / 2;
      && c.end - c.start == w.end - w.start
      && c.start <= time <= c.end
      && (time < w.start ==> c.start == time - half)
      && (time > w.end ==> c.end == time + half)
      && (w.start <= time <= w.end ==> c == w)
      && Reachable(c.start) && Reachable(c.end)
  {
    var len := w.end - w.start;
    assert 0 <= len <= 2 * TIME_LIMIT;
    assert LSub(w.end, w.start) == len;
    assert Quot(len, 2) == len / 2;
  }

  /** Sliding keeps a window that fits the bounds at its length, and brings it
      inside the bounds. */
  lemma SlideIntoBoundsKeepsLength(c: TimeRange, b: TimeRange)
    requires ModerateBounds(b) && c.start <= c.end && c.end - c.start <= b.end - b.start
    requires Reachable(c.start) && Reachable(c.end)
    ensures var s := SlideIntoBounds(c, b);
      && Within(s, b)
      && s.end - s.start == c.end - c.start
      && (b.start <= c.start && c.end <= b.end ==> s == c)
  {
  }

  /** `ensureVisible` keeps the window inside the bounds and obeys the
      minimum-interval rule. */
  lemma EnsureVisibleInBounds(w: TimeRange, time: int, b: TimeRange, minInterval: int)
    requires CentringSafe(w, time, b, minInterval)
    ensures var r := EnsureVisible(w, time, b, minInterval);
      && Within(r, b)
      && (r.end - r.start >= minInterval || r.end == b.end)
  {
    CentreOnShifts(w, time, b, minInterval);
    var s := SlideIntoBounds(CentreOn(w, time), b);
    SlideIntoBoundsKeepsLength(CentreOn(w, time), b);
    ExtendToMinIntervalProperties(s, b.end, minInterval);
  }

  /** Before the minimum-interval step, the window keeps its length (it always
      fits, since it started inside the bounds). */
  lemma EnsureVisibleKeepsLength(w: TimeRange, time: int, b: TimeRange, minInterval: int)
    requires CentringSafe(w, time, b, minInterval)
    ensures var s := SlideIntoBounds(CentreOn(w, time), b);
      s.end - s.start == w.end - w.start
    ensures w.end - w.start >= minInterval ==>
      var r := EnsureVisible(w, time, b, minInterval); r.end - r.start == w.end - w.start
  {
    CentreOnShifts(w, time, b, minInterval);
    SlideIntoBoundsKeepsLength(CentreOn(w, time), b);
  }

  /** A rightward shift that needs no clamping puts the end at `time + L/2`. */
  lemma EnsureVisibleRightShift(w: TimeRange, time: int, b: TimeRange, minInterval: int)
    requires CentringSafe(w, time, b, minInterval)
    requires time > w.end && time + (w.end - w.start) / 2 <= b.end
    requires w.end - w.start >= minInterval
    ensures var half := (w.end - w.start) / 2;
      EnsureVisible(w, time, b, minInterval)
        == TimeRange(time + half - (w.end - w.start), time + half)
  {
    CentreOnShifts(w, time, b, minInterval);
    SlideIntoBoundsKeepsLength(CentreOn(w, time), b);
  }

  /** A leftward shift that needs no clamping puts the start at `time - L/2`. */
  lemma EnsureVisibleLeftShift(w: TimeRange, time: int, b: TimeRange, minInterval: int)
    requires CentringSafe(w, time, b, minInterval)
    requires time < w.start && time - (w.end - w.start) / 2 >= b.start
    requires w.end - w.start >= minInterval
    ensures var half := (w.end - w.start) / 2;
      EnsureVisible(w, time, b, minInterval)
        == TimeRange(time - half, time - half + (w.end - w.start))
  {
    CentreOnShifts(w, time, b, minInterval);
    SlideIntoBoundsKeepsLength(CentreOn(w, time), b);
  }

  /** The point of `ensureVisible`: a time inside the bounds ends up inside the
      window, and a time already visible leaves the window in place apart from
      the minimum-interval step. */
  lemma EnsureVisibleShowsTime(w: TimeRange, time: int, b: TimeRange, minInterval: int)
    requires CentringSafe(w, time, b, minInterval) && b.start <= time <= b.end
    ensures var r := EnsureVisible(w, time, b, minInterval);
      && r.start <= time <= r.end
      && (w.start <= time <= w.end ==> r == ExtendToMinInterval(w, b.end, minInterval))
  {
    CentreOnShifts(w, time, b, minInterval);
    var c := CentreOn(w, time);
    var s := SlideIntoBounds(c, b);
    SlideIntoBoundsKeepsLength(c, b);
    ExtendToMinIntervalProperties(s, b.end, minInterval);
  }

  /** Centring (100, 200) on 900 within [0, 1000] puts 900 at the midpoint:
      the window becomes (850, 950), no edge clamping is involved. */
  lemma EnsureVisibleExample()
    ensures EnsureVisible(TimeRange(100, 200), 900, TimeRange(0, 1000), 1) == TimeRange(850, 950)
  {
  }

  /** The selection of `setSelectionRange[Notify]`: both ends clamped into the
      bounds separately, so `begin > end` is kept. */
  function ClampSelection(begin: int, end: int, b: TimeRange): (r: TimeRange)
    ensures b.start <= b.end ==>
      && b.start <= r.start <= b.end && b.start <= r.end <= b.end
      && (b.start <= begin <= b.end ==> r.start == begin)
      && (b.start <= end <= b.end ==> r.end == end)
  {
    TimeRange(BoundClamp(begin, b), BoundClamp(end, b))
  }

  /** The selection clamp of `refreshAllData`: against the user-pinned times,
      with an if/else-if order. */
  function PinnedClamp(t: int, beginTime: int, endTime: int): (r: int)
    ensures beginTime <= endTime ==> beginTime <= r <= endTime
    ensures beginTime <= t <= endTime ==> r == t
  {
    if t < beginTime then beginTime else if t > endTime then endTime else t
  }

  /** With no pinned times (both `DEFAULT`) every selection collapses to `DEFAULT`. */
  lemma PinnedClampUnpinned(t: int)
    ensures PinnedClamp(t, DEFAULT, DEFAULT) == DEFAULT
  {
  }

  /** The bounds taken from the pinned times: a missing side takes the other
      side's value. */
  function PinnedBounds(beginTime: int, endTime: int): (r: TimeRange)
    ensures beginTime != DEFAULT ==> r.start == beginTime
    ensures endTime != DEFAULT ==> r.end == endTime
    ensures beginTime == DEFAULT ==> r.start == endTime
    ensures endTime == DEFAULT ==> r.end == beginTime
  {
    TimeRange(if beginTime != DEFAULT then beginTime else endTime,
              if endTime != DEFAULT then endTime else beginTime)
  }

  /** The pinned times and bounds after `setTimeBounds(beginTime, endTime)`. */
  datatype BoundsSetting = BoundsSetting(beginTime: int, endTime: int, bounds: TimeRange)

  function PinBounds(beginTime: int, endTime: int): (r: BoundsSetting)
    ensures r.bounds.start <= r.bounds.end
    ensures beginTime != DEFAULT && endTime != DEFAULT ==>
      && r.bounds == TimeRange(Min(beginTime, endTime), Max(beginTime, endTime))
      && r.beginTime == r.bounds.start && r.endTime == r.bounds.end
    ensures beginTime == DEFAULT ==>
      r == BoundsSetting(beginTime, endTime, TimeRange(endTime, endTime))
    ensures endTime == DEFAULT ==>
      r == BoundsSetting(beginTime, endTime, TimeRange(beginTime, beginTime))
  {
    var b := PinnedBounds(beginTime, endTime);
    if b.start > b.end then
      BoundsSetting(endTime, beginTime, TimeRange(endTime, beginTime))
    else
      BoundsSetting(beginTime, endTime, b)
  }
}
