/** The integer arithmetic of the time graph viewer's layout: the values set
    on the horizontal and vertical scrollbars, the mapping from a horizontal
    scrollbar drag back to a window, the clamping of the name column and the
    width available to the time axis. The scrollbar mappings go through
    `double` in Java; here they are exact rational quotients rounded the way
    the Java casts round them. */
module TimeGraphLayout {
  import opened JavaArith
  import opened TimeWindow

  /** `Integer.MAX_VALUE - 1`, the horizontal scrollbar's maximum. */
  const H_SCROLLBAR_MAX: int := 0x7FFF_FFFE

  /** `MIN_NAME_WIDTH`, the smallest name column width. */
  const MIN_NAME_WIDTH: int := 6

  /** The arguments of `Slider.setValues`. */
  datatype ScrollValues = ScrollValues(selection: int, minimum: int, maximum: int,
                                       thumb: int, increment: int, pageIncrement: int)

  /** `(int) x` for the exact quotient `n / d`, `d != 0`: truncated toward
      zero, then saturated. */
  function IntCastQuot(n: int, d: int): (r: int)
    requires d != 0
    ensures IsInt(r)
    ensures d > 0 && n >= 0 ==> r == Min(INT_MAX, n / d)
    ensures d > 0 && INT_MIN < r < INT_MAX ==>
      if n >= 0 then d * r <= n < d * r + d else d * r - d < n <= d * r
    ensures d > 0 && r == INT_MAX ==> n >= d * INT_MAX
    ensures d > 0 && r == INT_MIN ==> n <= d * INT_MIN
  {
    SaturateInt(Quot(n, d))
  }

  /** The values of `adjustHorizontalScrollBar` for window `w` and bounds `b`. */
  function HorizontalScroll(w: TimeRange, b: TimeRange): ScrollValues
  {
    var delta := LSub(b.end, b.start);
    var thumb := if delta == 0 then H_SCROLLBAR_MAX
                 else Max(1, IntCastQuot(H_SCROLLBAR_MAX * LSub(w.end, w.start), delta));
    var pos := if delta == 0 then 0
               else IntCastQuot(H_SCROLLBAR_MAX * LSub(w.start, b.start), delta);
    ScrollValues(pos, 0, H_SCROLLBAR_MAX, thumb, Max(1, thumb / 2), Max(2, thumb))
  }

  /** Empty bounds put the thumb over the whole bar; otherwise the thumb is
      never empty and the increments are at least 1 and 2. */
  lemma HorizontalScrollShape(w: TimeRange, b: TimeRange)
    ensures var v := HorizontalScroll(w, b);
      && (LSub(b.end, b.start) == 0 ==> v.selection == 0 && v.thumb == H_SCROLLBAR_MAX)
      && v.thumb >= 1 && v.increment >= 1 && v.pageIncrement >= 2
      && v.minimum == 0 && v.maximum == H_SCROLLBAR_MAX
  {
  }

  /** `n / d` lies between `lo` and `hi` when `n` lies between their multiples. */
  lemma {:induction false} QuotientBetween(n: int, d: int, lo: int, hi: int)
    requires d > 0 && d * lo <= n <= d * hi
    ensures lo <= n / d <= hi
  {
    var q := n / d;
    assert d * q <= n < d * q + d;
    if q > hi {
      MulMonotone(d, q - hi - 1);
    }
    if q < lo {
      MulMonotone(d, lo - q - 1);
    }
  }

  lemma {:induction false} ScaledFraction(h: int, a: int, d: int)
    requires h >= 0 && 0 <= a <= d && d > 0
    ensures 0 <= h * a / d <= h
  {
    MulMonotone(h, a);
    MulMonotone(h, d - a);
    QuotientBetween(h * a, d, 0, h);
  }

  /** A window inside non-empty bounds maps to a position and a thumb inside
      the bar. */
  lemma HorizontalScrollInRange(w: TimeRange, b: TimeRange)
    requires Within(w, b) && b.start < b.end && IsLongRange(b) && IsLong(b.end - b.start)
    ensures var v := HorizontalScroll(w, b);
      && 0 <= v.selection <= H_SCROLLBAR_MAX
      && 1 <= v.thumb <= H_SCROLLBAR_MAX
  {
    var delta := b.end - b.start;
    assert LSub(b.end, b.start) == delta;
    assert LSub(w.end, w.start) == w.end - w.start;
    assert LSub(w.start, b.start) == w.start - b.start;
    ScaledFraction(H_SCROLLBAR_MAX, w.end - w.start, delta);
    ScaledFraction(H_SCROLLBAR_MAX, w.start - b.start, delta);
    MulMonotone(H_SCROLLBAR_MAX, w.end - w.start);
    MulMonotone(H_SCROLLBAR_MAX, w.start - b.start);
  }

  /** The window that a drag of the horizontal scrollbar to `start` asks for
      (the horizontal scrollbar's selection listener): the bounds' share `start / H_SCROLLBAR_MAX`
      rounded by `Math.round`, and the old window length. */
  function DragWindow(start: int, w: TimeRange, b: TimeRange): TimeRange
  {
    var delta := LSub(b.end, b.start);
    var range := LSub(w.end, w.start);
    var t0 := LAdd(b.start, SaturateLong(RoundQuot(delta * start, H_SCROLLBAR_MAX)));
    TimeRange(t0, LAdd(t0, range))
  }

  lemma {:induction false} RoundedShare(delta: int, start: int)
    requires delta >= 0 && 0 <= start <= H_SCROLLBAR_MAX
    ensures var r := RoundQuot(delta * start, H_SCROLLBAR_MAX); 0 <= r <= delta
  {
    var h := H_SCROLLBAR_MAX;
    var r := RoundQuot(delta * start, h);
    MulMonotone(delta, start);
    MulMonotone(delta, h - start);
    assert 2 * h * r <= 2 * (delta * start) + h < 2 * h * r + 2 * h;
    if r < 0 {
      MulMonotone(2 * h, -r - 1);
    }
    if r > delta {
      MulMonotone(2 * h, r - delta - 1);
    }
  }

  /** A drag keeps the window length, and a drag position on the bar gives a
      start inside the bounds. */
  lemma DragWindowKeepsLength(start: int, w: TimeRange, b: TimeRange)
    requires Within(w, b) && ModerateBounds(b)
    requires 0 <= start <= H_SCROLLBAR_MAX
    ensures var d := DragWindow(start, w, b);
      && b.start <= d.start <= b.end
      && d.end - d.start == w.end - w.start
  {
    var delta := b.end - b.start;
    assert LSub(b.end, b.start) == delta;
    assert LSub(w.end, w.start) == w.end - w.start;
    RoundedShare(delta, start);
    var r := RoundQuot(delta * start, H_SCROLLBAR_MAX);
    assert SaturateLong(r) == r;
    var t0 := b.start + r;
    assert LAdd(b.start, r) == t0;
    assert LAdd(t0, w.end - w.start) == t0 + (w.end - w.start);
  }

  /** Dragging to the position the window is shown at gives back its start,
      up to the resolution of the bar: never later, and earlier by less than
      one bar step `delta / H_SCROLLBAR_MAX` plus one. */
  lemma {:induction false} DragInvertsPosition(w: TimeRange, b: TimeRange)
    requires Within(w, b) && b.start < b.end && IsLongRange(b) && IsLong(b.end - b.start)
    ensures var pos := HorizontalScroll(w, b).selection;
      var t0 := DragWindow(pos, w, b).start;
      && t0 <= w.start
      && H_SCROLLBAR_MAX * (w.start - t0) < (b.end - b.start) + H_SCROLLBAR_MAX
  {
    var h := H_SCROLLBAR_MAX;
    var delta := b.end - b.start;
    var a := w.start - b.start;
    assert LSub(b.end, b.start) == delta;
    assert LSub(w.start, b.start) == a;
    MulMonotone(h, a);
    ScaledFraction(h, a, delta);
    var pos := h * a / delta;
    assert HorizontalScroll(w, b).selection == pos;
    // delta * pos <= h * a < delta * pos + delta
    assert delta * pos <= h * a < delta * pos + delta;
    RoundedShare(delta, pos);
    var r := RoundQuot(delta * pos, h);
    assert 2 * h * r <= 2 * (delta * pos) + h < 2 * h * r + 2 * h;
    assert DragWindow(pos, w, b).start == b.start + r;
    if r > a {
      MulMonotone(2 * h, r - a - 1);
    }
  }

  /** The top index and the values of `adjustVerticalScrollBar`, from the
      control's top index, rows per page and expanded row count. */
  datatype VerticalAdjustment = VerticalAdjustment(topIndex: int, values: ScrollValues)

  function VerticalScroll(topIndex: int, countPerPage: int, count: int): VerticalAdjustment
  {
    var top := if IAdd(topIndex, countPerPage) > count then Max(0, ISub(count, countPerPage)) else topIndex;
    var max := Max(1, ISub(count, 1));
    var thumb := Min(max, Max(1, ISub(countPerPage, 1)));
    VerticalAdjustment(top, ScrollValues(top, 0, max, thumb, 1, Max(1, countPerPage)))
  }

  /** After the adjustment the last page is full or the view starts at the
      top, and the thumb fits the bar. */
  lemma VerticalScrollProperties(topIndex: int, countPerPage: int, count: int)
    requires 0 <= topIndex && 0 <= countPerPage && 0 <= count
    requires IsInt(topIndex) && IsInt(countPerPage) && IsInt(count) && IsInt(topIndex + countPerPage)
    ensures var v := VerticalScroll(topIndex, countPerPage, count);
      && (v.topIndex + countPerPage <= count || v.topIndex == 0)
      && 0 <= v.topIndex
      && (topIndex + countPerPage <= count ==> v.topIndex == topIndex)
      && v.values.selection == v.topIndex
      && v.values.maximum >= 1 && 1 <= v.values.thumb <= v.values.maximum
      && v.values.pageIncrement >= 1
  {
  }

  /** The name column clamp of `resizeControls` and `setNameSpace`: first at
      most `width - minWidth`, then at least `minWidth`. */
  function ClampNameWidth(nameWidth: int, width: int, minWidth: int): (r: int)
    requires IsInt(nameWidth) && IsInt(width) && IsInt(minWidth)
    ensures IsInt(r)
    ensures r >= minWidth
    ensures r == minWidth || r == nameWidth || r == ISub(width, minWidth)
    ensures minWidth <= nameWidth <= ISub(width, minWidth) ==> r == nameWidth
    ensures minWidth <= ISub(width, minWidth) ==> r <= ISub(width, minWidth)
  {
    var capped := if nameWidth > ISub(width, minWidth) then ISub(width, minWidth) else nameWidth;
    if capped < minWidth then minWidth else capped
  }

  /** `getAvailableWidth(requestedOffset)` for a composite `totalWidth` wide. */
  function AvailableWidth(requestedOffset: int, totalWidth: int): (r: int)
    requires IsInt(requestedOffset) && IsInt(totalWidth)
    ensures totalWidth >= 0 ==> 0 <= r <= totalWidth
    ensures 0 <= requestedOffset <= totalWidth ==> r == totalWidth - requestedOffset
    ensures requestedOffset <= 0 && IsInt(totalWidth - requestedOffset) ==> r == totalWidth
    ensures requestedOffset >= totalWidth >= 0 ==> r == 0
  {
    Min(totalWidth, Max(0, ISub(totalWidth, requestedOffset)))
  }
}
