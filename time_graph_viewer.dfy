/** The time graph viewer as a state machine: the bounds, the visible window,
    the selection and the user-pinned times it keeps, the setters that move
    them (some notifying listeners, some not), the debounced notifier that
    later fires the listeners, and the feedback guards against signals the
    viewer sent itself. Listener calls are recorded in the `delivered` log;
    the notifier's background thread is the explicit `Flush` step. */
module TimeGraph {
  import opened JavaArith
  import opened Wrappers
  import opened TimeWindow
  import opened TimeGraphEntries
  import opened TimeGraphLayout

  /** `DEFAULT_NAME_WIDTH`, the initial preferred name column width. */
  const DEFAULT_NAME_WIDTH: int := 200

  /** A time event of an entry, as passed to `setSelectedEvent`. */
  datatype TimeEvent = TimeEvent(entry: Entry, time: int64)

  /** The event a listener receives. */
  datatype Notice =
    | SelectionChanged(selection: Option<Entry>)
    | TimeRangeUpdated(startTime: int, endTime: int)
    | TimeSelected(startTime: int, endTime: int)

  /** One listener call: which listener, with what. */
  datatype Delivery = Delivery(listener: nat, notice: Notice)

  /** The calls of one `fire*` method: every registered listener, in
      registration order, receives the same notice. */
  function Broadcast(listeners: seq<nat>, notice: Notice): (r: seq<Delivery>)
    ensures |r| == |listeners|
    ensures forall i :: 0 <= i < |r| ==> r[i] == Delivery(listeners[i], notice)
  {
    if listeners == [] then [] else [Delivery(listeners[0], notice)] + Broadcast(listeners[1..], notice)
  }

  /** `List.remove(Object)`: drops the first occurrence, if any. */
  function RemoveFirst(ls: seq<nat>, l: nat): (r: seq<nat>)
    ensures l !in ls ==> r == ls
  {
    if ls == [] then []
    else if ls[0] == l then ls[1..]
    else [ls[0]] + RemoveFirst(ls[1..], l)
  }

  /** Removal takes away exactly one occurrence of a registered listener. */
  lemma {:induction false} RemoveFirstCounts(ls: seq<nat>, l: nat)
    ensures multiset(RemoveFirst(ls, l)) == multiset(ls) - multiset{l}
  {
    if ls != [] {
      assert ls == [ls[0]] + ls[1..];
      if ls[0] != l {
        RemoveFirstCounts(ls[1..], l);
      }
    }
  }

  /** It is the first occurrence that goes: the listeners before it and
      after it keep their order. */
  lemma {:induction false} RemoveFirstDropsFirst(ls: seq<nat>, l: nat, i: nat)
    requires i < |ls| && ls[i] == l
    requires forall k :: 0 <= k < i ==> ls[k] != l
    ensures RemoveFirst(ls, l) == ls[..i] + ls[i + 1..]
  {
    if i == 0 {
      assert ls[..i] + ls[i + 1..] == ls[1..];
    } else {
      var tail := ls[1..];
      assert forall k :: 0 <= k < i - 1 ==> tail[k] == ls[k + 1];
      RemoveFirstDropsFirst(tail, l, i - 1);
      assert ls[0] != l;
      assert RemoveFirst(ls, l) == [ls[0]] + RemoveFirst(tail, l);
      assert tail[i..] == ls[i + 1..];
      assert [ls[0]] + tail[..i - 1] == ls[..i];
    }
  }

  /** Which kinds of notification are pending. */
  datatype Pending = Pending(selectionChanged: bool, timeRangeUpdated: bool, timeSelected: bool)

  const NOTHING_PENDING: Pending := Pending(false, false, false)

  function Union(a: Pending, b: Pending): (r: Pending)
    ensures r.selectionChanged == (a.selectionChanged || b.selectionChanged)
    ensures r.timeRangeUpdated == (a.timeRangeUpdated || b.timeRangeUpdated)
    ensures r.timeSelected == (a.timeSelected || b.timeSelected)
  {
    Pending(a.selectionChanged || b.selectionChanged, a.timeRangeUpdated || b.timeRangeUpdated,
            a.timeSelected || b.timeSelected)
  }

  /** The debounced notifier: three flags set by the `notify*` methods, read
      when it flushes. Its last-update timestamp and polling belong to the
      thread, which is not modelled. */
  class ListenerNotifier {
    var selectionChanged: bool
    var timeRangeUpdated: bool
    var timeSelected: bool

    constructor()
      ensures Flags() == NOTHING_PENDING
    {
      selectionChanged, timeRangeUpdated, timeSelected := false, false, false;
    }

    function Flags(): Pending
      reads this
    {
      Pending(selectionChanged, timeRangeUpdated, timeSelected)
    }

    method SelectionChanged()
      modifies this
      ensures Flags() == old(Flags()).(selectionChanged := true)
    {
      selectionChanged := true;
    }

    method TimeRangeUpdated()
      modifies this
      ensures Flags() == old(Flags()).(timeRangeUpdated := true)
    {
      timeRangeUpdated := true;
    }

    method TimeSelected()
      modifies this
      ensures Flags() == old(Flags()).(timeSelected := true)
    {
      timeSelected := true;
    }
  }

  /** The window and bounds the horizontal scrollbar was last set from; the
      values it shows are `HorizontalScroll(window, bounds)`. */
  datatype ScrollSource = ScrollSource(window: TimeRange, bounds: TimeRange)

  lemma ConcatAssociates<T>(d: seq<T>, a: seq<T>, b: seq<T>, c: seq<T>)
    ensures d + a + b + c == d + (a + b + c)
  {
  }

  class TimeGraphViewer {
    var minTimeInterval: int64
    var selectedEntry: Option<Entry>
    /** The user-pinned bounds, `DEFAULT` when not pinned. */
    var beginTime: int64
    var endTime: int64
    /** The visible window. */
    var time0: int64
    var time1: int64
    var selectionBegin: int64
    var selectionEnd: int64
    /** The bounds. */
    var time0Bound: int64
    var time1Bound: int64
    /** The window last announced to, or received from, the outside. */
    var time0ExtSynch: int64
    var time1ExtSynch: int64
    var timeRangeFixed: bool
    var nameWidthPref: int32
    var minNameWidth: int32
    var nameWidth: int32
    /** What the horizontal scrollbar was last set from. */
    var hBar: ScrollSource
    /** The entries the content provider last gave for the input. */
    var input: Option<seq<Entry>>
    var selectionListeners: seq<nat>
    var timeListeners: seq<nat>
    var rangeListeners: seq<nat>
    var notifier: ListenerNotifier?
    /** Every listener call made so far, in order. */
    var delivered: seq<Delivery>

    function Window(): TimeRange reads this`time0, this`time1 { TimeRange(time0, time1) }

    function Bounds(): TimeRange reads this`time0Bound, this`time1Bound { TimeRange(time0Bound, time1Bound) }

    function ExtSynch(): TimeRange reads this`time0ExtSynch, this`time1ExtSynch
    {
      TimeRange(time0ExtSynch, time1ExtSynch)
    }

    /** The values on the horizontal scrollbar. */
    function HorizontalBar(): ScrollValues
      reads this`hBar
    {
      HorizontalScroll(hBar.window, hBar.bounds)
    }

    /** The scrollbar was last set from the current window and bounds. */
    predicate BarFollowsWindow()
      reads this`hBar, this`time0, this`time1, this`time0Bound, this`time1Bound
    {
      hBar == ScrollSource(Window(), Bounds())
    }

    /** The notifications pending on the current notifier. */
    function Flags(): Pending
      reads this`notifier, notifier
    {
      if notifier == null then NOTHING_PENDING else notifier.Flags()
    }

    /** The minimum interval keeps the value the viewer is created with. */
    ghost predicate Valid()
      reads this`minTimeInterval
    {
      minTimeInterval == 1
    }

    /** How the notifier moved from the old state: no request leaves it and
        its flags alone; a request reuses the current notifier, or creates a
        fresh one, and adds the requested flags. */
    twostate predicate Requested(p: Pending)
      reads this`notifier, notifier
    {
      && Flags() == Union(old(Flags()), p)
      && (old(notifier) != null ==> notifier == old(notifier))
      && (old(notifier) == null && p == NOTHING_PENDING ==> notifier == null)
      && (old(notifier) == null && p != NOTHING_PENDING ==> notifier != null && fresh(notifier))
    }

    /** The viewer after `createDataViewer`: every time `DEFAULT`, a minimum
        time interval of 1 and the name width loaded from the preferences. */
    constructor(loadedNameWidth: int32)
      ensures Valid()
      ensures minTimeInterval == 1 && selectedEntry == None
      ensures beginTime == DEFAULT && endTime == DEFAULT
      ensures Window() == TimeRange(DEFAULT, DEFAULT) && Bounds() == TimeRange(DEFAULT, DEFAULT)
      ensures selectionBegin == DEFAULT && selectionEnd == DEFAULT
      ensures ExtSynch() == TimeRange(DEFAULT, DEFAULT) && !timeRangeFixed
      ensures nameWidthPref == DEFAULT_NAME_WIDTH && minNameWidth == MIN_NAME_WIDTH
      ensures nameWidth == loadedNameWidth
      ensures BarFollowsWindow() && input == None
      ensures selectionListeners == [] && timeListeners == [] && rangeListeners == []
      ensures notifier == null && delivered == []
    {
      minTimeInterval := 1;
      selectedEntry := None;
      beginTime, endTime := DEFAULT, DEFAULT;
      time0, time1 := DEFAULT, DEFAULT;
      selectionBegin, selectionEnd := DEFAULT, DEFAULT;
      time0Bound, time1Bound := DEFAULT, DEFAULT;
      time0ExtSynch, time1ExtSynch := DEFAULT, DEFAULT;
      timeRangeFixed := false;
      nameWidthPref, minNameWidth, nameWidth := DEFAULT_NAME_WIDTH, MIN_NAME_WIDTH, loadedNameWidth;
      hBar := ScrollSource(TimeRange(DEFAULT, DEFAULT), TimeRange(DEFAULT, DEFAULT));
      input := None;
      selectionListeners, timeListeners, rangeListeners := [], [], [];
      notifier := null;
      delivered := [];
    }

    // ---------------------------------------------------------------- input

    /** `setInput`: a new input discards the pending notifier (so an
        in-flight flush does nothing), derives the bounds, clears the
        selection and recomputes the window. */
    method SetInput(newInput: Option<seq<Entry>>)
      requires Valid()
      modifies this`input, this`notifier, this`time0Bound, this`time1Bound, this`time0, this`time1,
               this`selectionBegin, this`selectionEnd, this`selectedEntry
      ensures Valid()
      ensures input == newInput && notifier == null && selectedEntry == None
      ensures Bounds() == DeriveBounds(beginTime, endTime, newInput)
      ensures Window() == RecalculateWindow(old(Window()), Bounds(), timeRangeFixed, minTimeInterval)
      ensures selectionBegin == PinnedClamp(DEFAULT, beginTime, endTime)
      ensures selectionEnd == PinnedClamp(DEFAULT, beginTime, endTime)
    {
      input := newInput;
      notifier := null;
      SetTimeRange(newInput);
      selectionBegin, selectionEnd := DEFAULT, DEFAULT;
      selectedEntry := None;
      RefreshAllData();
    }

    /** `refresh`: ask the content provider again for the input's entries
        (its answer being `current`), re-derive the bounds from them, then
        recompute the window and clamp the selection. */
    method Refresh(current: Option<seq<Entry>>)
      requires Valid()
      modifies this`input, this`time0Bound, this`time1Bound, this`time0, this`time1,
               this`selectionBegin, this`selectionEnd
      ensures Valid()
      ensures input == current
      ensures Bounds() == DeriveBounds(beginTime, endTime, current)
      ensures Window() == RecalculateWindow(old(Window()), Bounds(), timeRangeFixed, minTimeInterval)
      ensures selectionBegin == PinnedClamp(old(selectionBegin), beginTime, endTime)
      ensures selectionEnd == PinnedClamp(old(selectionEnd), beginTime, endTime)
    {
      input := current;
      SetTimeRange(input);
      RefreshAllData();
    }

    // --------------------------------------------------------------- bounds

    /** `setTimeRange(ITimeGraphEntry[])`: the bounds become the min/max fold
        over the entries, seeded by the pinned times. */
    method SetTimeRange(entries: Option<seq<Entry>>)
      requires Valid()
      modifies this`time0Bound, this`time1Bound
      ensures Valid()
      ensures Bounds() == DeriveBounds(beginTime, endTime, entries)
    {
      var pinned := PinnedBounds(beginTime, endTime);
      time0Bound, time1Bound := pinned.start, pinned.end;
      if beginTime != DEFAULT && endTime != DEFAULT {
        return;
      }
      if entries.None? || |entries.value| == 0 {
        return;
      }
      if time0Bound == DEFAULT {
        time0Bound := LONG_MAX;
      }
      if time1Bound == DEFAULT {
        time1Bound := LONG_MIN;
      }
      ghost var seed0, seed1 := time0Bound, time1Bound;
      var es := entries.value;
      for i := 0 to |es|
        invariant time0Bound == if beginTime == DEFAULT then MinStartForest(seed0, es[..i]) else seed0
        invariant time1Bound == if endTime == DEFAULT then MaxEndForest(seed1, es[..i]) else seed1
      {
        MinStartForestSnoc(seed0, es[..i], es[i]);
        MaxEndForestSnoc(seed1, es[..i], es[i]);
        assert es[..i + 1] == es[..i] + [es[i]];
        SetTimeRangeOf(es[i]);
      }
      assert es[..|es|] == es;
    }

    /** `setTimeRange(ITimeGraphEntry)`: fold one entry, then its children,
        into the unpinned sides of the bounds. */
    method SetTimeRangeOf(e: Entry)
      modifies this`time0Bound, this`time1Bound
      ensures time0Bound == if beginTime == DEFAULT then MinStartTree(old(time0Bound), e) else old(time0Bound)
      ensures time1Bound == if endTime == DEFAULT then MaxEndTree(old(time1Bound), e) else old(time1Bound)
      decreases e
    {
      if beginTime == DEFAULT && e.hasTimeEvents && e.startTime != DEFAULT {
        time0Bound := Min(e.startTime, time0Bound);
      }
      if endTime == DEFAULT && e.hasTimeEvents && e.endTime != DEFAULT {
        time1Bound := Max(e.endTime, time1Bound);
      }
      ghost var here0, here1 := time0Bound, time1Bound;
      for i := 0 to |e.children|
        invariant time0Bound == if beginTime == DEFAULT then MinStartForest(here0, e.children[..i]) else here0
        invariant time1Bound == if endTime == DEFAULT then MaxEndForest(here1, e.children[..i]) else here1
      {
        MinStartForestSnoc(here0, e.children[..i], e.children[i]);
        MaxEndForestSnoc(here1, e.children[..i], e.children[i]);
        assert e.children[..i + 1] == e.children[..i] + [e.children[i]];
        SetTimeRangeOf(e.children[i]);
      }
      assert e.children[..|e.children|] == e.children;
    }

    /** `setTimeBounds(long, long)`: pin the bounds, swapping a reversed pair,
        and update the horizontal scrollbar. */
    method SetTimeBounds(newBeginTime: int64, newEndTime: int64)
      requires Valid()
      modifies this`beginTime, this`endTime, this`time0Bound, this`time1Bound, this`hBar
      ensures Valid()
      ensures var p := PinBounds(newBeginTime, newEndTime);
        beginTime == p.beginTime && endTime == p.endTime && Bounds() == p.bounds
      ensures BarFollowsWindow() && time0Bound <= time1Bound
    {
      beginTime := newBeginTime;
      endTime := newEndTime;
      time0Bound := if beginTime != DEFAULT then beginTime else endTime;
      time1Bound := if endTime != DEFAULT then endTime else beginTime;
      if time0Bound > time1Bound {
        beginTime := newEndTime;
        endTime := newBeginTime;
        time0Bound := beginTime;
        time1Bound := endTime;
      }
      AdjustHorizontalScrollBar();
    }

    /** `setTimeBounds()`: the window becomes the bounds unless the range is
        fixed, is clamped into them and obeys the minimum interval. */
    method RecalculateTimeWindow()
      requires Valid()
      modifies this`time0, this`time1
      ensures Valid()
      ensures Window() == RecalculateWindow(old(Window()), Bounds(), timeRangeFixed, minTimeInterval)
    {
      if !timeRangeFixed {
        time0 := time0Bound;
        time1 := time1Bound;
      }
      time0 := Max(time0Bound, Min(time0, time1Bound));
      time1 := Max(time0Bound, Min(time1, time1Bound));
      if LSub(time1, time0) < minTimeInterval {
        time1 := Min(time1Bound, LAdd(time0, minTimeInterval));
      }
    }

    /** `refreshAllData`: recompute the window, then clamp the selection
        against the pinned times (not the bounds), lower end first. */
    method RefreshAllData()
      requires Valid()
      modifies this`time0, this`time1, this`selectionBegin, this`selectionEnd
      ensures Valid()
      ensures Window() == RecalculateWindow(old(Window()), Bounds(), timeRangeFixed, minTimeInterval)
      ensures selectionBegin == PinnedClamp(old(selectionBegin), beginTime, endTime)
      ensures selectionEnd == PinnedClamp(old(selectionEnd), beginTime, endTime)
    {
      RecalculateTimeWindow();
      if selectionBegin < beginTime {
        selectionBegin := beginTime;
      } else if selectionBegin > endTime {
        selectionBegin := endTime;
      }
      if selectionEnd < beginTime {
        selectionEnd := beginTime;
      } else if selectionEnd > endTime {
        selectionEnd := endTime;
      }
    }

    // --------------------------------------------------------------- layout

    /** `adjustHorizontalScrollBar`. */
    method AdjustHorizontalScrollBar()
      modifies this`hBar
      ensures BarFollowsWindow()
    {
      hBar := ScrollSource(Window(), Bounds());
    }

    /** `resizeControls` for a client area of the given size: an empty area
        changes nothing; otherwise the name column is clamped. */
    method ResizeControls(clientWidth: int32, clientHeight: int32)
      requires Valid()
      modifies this`nameWidth, this`hBar
      ensures Valid()
      ensures clientWidth <= 0 || clientHeight <= 0 ==> nameWidth == old(nameWidth) && hBar == old(hBar)
      ensures clientWidth > 0 && clientHeight > 0 ==>
        && nameWidth == ClampNameWidth(old(nameWidth), clientWidth, minNameWidth)
        && BarFollowsWindow()
    {
      if clientWidth <= 0 || clientHeight <= 0 {
        return;
      }
      if nameWidth > ISub(clientWidth, minNameWidth) {
        nameWidth := ISub(clientWidth, minNameWidth);
      }
      if nameWidth < minNameWidth {
        nameWidth := minNameWidth;
      }
      AdjustHorizontalScrollBar();
    }

    /** `setNameSpace(width)` in a control `controlWidth` wide: the width,
        clamped against `MIN_NAME_WIDTH`. */
    method SetNameSpace(width: int32, controlWidth: int32)
      requires Valid()
      modifies this`nameWidth
      ensures Valid()
      ensures nameWidth == ClampNameWidth(width, controlWidth, MIN_NAME_WIDTH)
    {
      nameWidth := width;
      if nameWidth > ISub(controlWidth, MIN_NAME_WIDTH) {
        nameWidth := ISub(controlWidth, MIN_NAME_WIDTH);
      }
      if nameWidth < MIN_NAME_WIDTH {
        nameWidth := MIN_NAME_WIDTH;
      }
    }

    /** `setNameWidthPref`: a preference of 0 also hides the name column. */
    method SetNameWidthPref(width: int32)
      requires Valid()
      modifies this`nameWidthPref, this`minNameWidth, this`nameWidth
      ensures Valid()
      ensures nameWidthPref == width
      ensures width == 0 ==> minNameWidth == 0 && nameWidth == 0
      ensures width != 0 ==> minNameWidth == old(minNameWidth) && nameWidth == old(nameWidth)
    {
      nameWidthPref := width;
      if width == 0 {
        minNameWidth := 0;
        nameWidth := 0;
      }
    }

    /** The horizontal scrollbar's selection listener: a drag to `start`
        asks for the window the drag position stands for, with notification. */
    method HorizontalScrollDragged(start: int32)
      requires Valid()
      modifies this`time0, this`time1, this`timeRangeFixed, this`hBar, this`notifier, notifier
      ensures Valid()
      ensures var d := DragWindow(start, old(Window()), Bounds());
        Window() == ClampWindow(d.start, d.end, Bounds(), minTimeInterval)
      ensures timeRangeFixed && BarFollowsWindow()
      ensures Requested(Pending(false, true, false))
    {
      var d := DragWindow(start, Window(), Bounds());
      SetStartFinishTimeNotify(d.start, d.end);
    }

    // --------------------------------------------------------------- window

    /** `setStartFinishTimeInt`: clamp the requested window into the bounds
        (lower bound first), apply the minimum interval and fix the range.
        Even a reversed request `time0 > time1` lands inside valid bounds. */
    method SetStartFinishTimeInt(newTime0: int64, newTime1: int64)
      requires Valid()
      modifies this`time0, this`time1, this`timeRangeFixed, this`hBar
      ensures Valid()
      ensures Window() == ClampWindow(newTime0, newTime1, Bounds(), minTimeInterval)
      ensures timeRangeFixed && BarFollowsWindow()
    {
      time0 := StepClamp(newTime0, Bounds());
      time1 := StepClamp(newTime1, Bounds());
      if LSub(time1, time0) < minTimeInterval {
        time1 := Min(time1Bound, LAdd(time0, minTimeInterval));
      }
      timeRangeFixed := true;
      AdjustHorizontalScrollBar();
    }

    /** `setStartFinishTimeNotify`: set the window and request a range
        notification. */
    method SetStartFinishTimeNotify(newTime0: int64, newTime1: int64)
      requires Valid()
      modifies this`time0, this`time1, this`timeRangeFixed, this`hBar, this`notifier, notifier
      ensures Valid()
      ensures Window() == ClampWindow(newTime0, newTime1, Bounds(), minTimeInterval)
      ensures timeRangeFixed && BarFollowsWindow()
      ensures Requested(Pending(false, true, false))
    {
      SetStartFinishTimeInt(newTime0, newTime1);
      NotifyRangeListeners();
    }

    /** `notifyStartFinishTime`. */
    method NotifyStartFinishTime()
      modifies this`notifier, notifier
      ensures Requested(Pending(false, true, false))
    {
      NotifyRangeListeners();
    }

    /** `setStartFinishTime`: like `setStartFinishTimeInt`, but yields to a
        pending range notification. */
    method SetStartFinishTime(newTime0: int64, newTime1: int64)
      requires Valid()
      modifies this`time0, this`time1, this`timeRangeFixed, this`hBar
      ensures Valid()
      ensures old(Flags()).timeRangeUpdated ==>
        Window() == old(Window()) && timeRangeFixed == old(timeRangeFixed) && hBar == old(hBar)
      ensures !old(Flags()).timeRangeUpdated ==>
        && Window() == ClampWindow(newTime0, newTime1, Bounds(), minTimeInterval)
        && timeRangeFixed && BarFollowsWindow()
    {
      if notifier != null && notifier.timeRangeUpdated {
        return;
      }
      SetStartFinishTimeInt(newTime0, newTime1);
    }

    /** `resetStartFinishTime`: show the whole bounds, notify, and unfix the
        range so that later bound changes move the window again. */
    method ResetStartFinishTime()
      requires Valid()
      modifies this`time0, this`time1, this`timeRangeFixed, this`hBar, this`notifier, notifier
      ensures Valid()
      ensures Window() == ClampWindow(time0Bound, time1Bound, Bounds(), minTimeInterval)
      ensures !timeRangeFixed && BarFollowsWindow()
      ensures Requested(Pending(false, true, false))
    {
      SetStartFinishTimeNotify(time0Bound, time1Bound);
      timeRangeFixed := false;
    }

    /** `ensureVisible(time)`: centre the window on a time outside it, slide
        it back into the bounds, apply the minimum interval. */
    method EnsureVisibleAt(time: int64)
      requires Valid()
      modifies this`time0, this`time1, this`hBar
      ensures Valid()
      ensures Window() == EnsureVisible(old(Window()), time, Bounds(), minTimeInterval)
      ensures BarFollowsWindow()
    {
      var t0, t1 := time0, time1;
      var timeMid := Quot(LSub(t1, t0), 2);
      if time < t0 {
        var dt := LAdd(LSub(t0, time), timeMid);
        t0, t1 := LSub(t0, dt), LSub(t1, dt);
      } else if time > t1 {
        var dt := LAdd(LSub(time, t1), timeMid);
        t0, t1 := LAdd(t0, dt), LAdd(t1, dt);
      }
      var w := SlideIntoBounds(TimeRange(t0, t1), Bounds());
      w := ExtendToMinInterval(w, time1Bound, minTimeInterval);
      time0, time1 := w.start, w.end;
      AdjustHorizontalScrollBar();
    }

    // ------------------------------------------------------------ selection

    /** `setSelectedTimeInt`: the selection becomes the single, unclamped
        `time`; with `doNotify`, a range notification is requested only if
        the window moved and a time notification only if the selection
        differed from `time`. */
    method SetSelectedTimeInt(time: int64, ensureVisible: bool, doNotify: bool)
      requires Valid()
      modifies this`time0, this`time1, this`hBar, this`selectionBegin, this`selectionEnd,
               this`notifier, notifier
      ensures Valid()
      ensures ensureVisible ==>
        Window() == EnsureVisible(old(Window()), time, Bounds(), minTimeInterval) && BarFollowsWindow()
      ensures !ensureVisible ==> Window() == old(Window()) && hBar == old(hBar)
      ensures selectionBegin == time && selectionEnd == time
      ensures Requested(Pending(false, doNotify && Window() != old(Window()),
                                doNotify && (time != old(selectionBegin) || time != old(selectionEnd))))
    {
      var oldTime0, oldTime1 := time0, time1;
      if ensureVisible {
        EnsureVisibleAt(time);
      }
      var notifySelectedTime := time != selectionBegin || time != selectionEnd;
      selectionBegin := time;
      selectionEnd := time;
      NotifyWindowAndSelection(doNotify && (oldTime0 != time0 || oldTime1 != time1), doNotify && notifySelectedTime);
    }

    /** `setSelectedTimeNotify`. */
    method SetSelectedTimeNotify(time: int64, ensureVisible: bool)
      requires Valid()
      modifies this`time0, this`time1, this`hBar, this`selectionBegin, this`selectionEnd,
               this`notifier, notifier
      ensures Valid()
      ensures ensureVisible ==>
        Window() == EnsureVisible(old(Window()), time, Bounds(), minTimeInterval) && BarFollowsWindow()
      ensures !ensureVisible ==> Window() == old(Window()) && hBar == old(hBar)
      ensures selectionBegin == time && selectionEnd == time
      ensures Requested(Pending(false, Window() != old(Window()),
                                time != old(selectionBegin) || time != old(selectionEnd)))
    {
      SetSelectedTimeInt(time, ensureVisible, true);
    }

    /** `setSelectedTime`: yields to a pending time selection, and never
        notifies. */
    method SetSelectedTime(time: int64, ensureVisible: bool)
      requires Valid()
      modifies this`time0, this`time1, this`hBar, this`selectionBegin, this`selectionEnd,
               this`notifier, notifier
      ensures Valid()
      ensures Requested(NOTHING_PENDING)
      ensures old(Flags()).timeSelected ==>
        && Window() == old(Window()) && hBar == old(hBar)
        && selectionBegin == old(selectionBegin) && selectionEnd == old(selectionEnd)
      ensures !old(Flags()).timeSelected ==>
        && (ensureVisible ==>
              Window() == EnsureVisible(old(Window()), time, Bounds(), minTimeInterval) && BarFollowsWindow())
        && (!ensureVisible ==> Window() == old(Window()) && hBar == old(hBar))
        && selectionBegin == time && selectionEnd == time
    {
      if notifier != null && notifier.timeSelected {
        return;
      }
      SetSelectedTimeInt(time, ensureVisible, false);
    }

    /** `setSelectionRangeNotify`: clamp both ends into the bounds, bring the
        end into view, and notify; the "changed" test compares the raw
        arguments with the old selection. */
    method SetSelectionRangeNotify(newBegin: int64, newEnd: int64)
      requires Valid()
      modifies this`time0, this`time1, this`hBar, this`selectionBegin, this`selectionEnd,
               this`notifier, notifier
      ensures Valid()
      ensures TimeRange(selectionBegin, selectionEnd) == ClampSelection(newBegin, newEnd, Bounds())
      ensures Window() == EnsureVisible(old(Window()), selectionEnd, Bounds(), minTimeInterval)
      ensures BarFollowsWindow()
      ensures Requested(Pending(false, Window() != old(Window()),
                                newBegin != old(selectionBegin) || newEnd != old(selectionEnd)))
    {
      var oldTime0, oldTime1 := time0, time1;
      var changed := newBegin != selectionBegin || newEnd != selectionEnd;
      selectionBegin := Max(time0Bound, Min(time1Bound, newBegin));
      selectionEnd := Max(time0Bound, Min(time1Bound, newEnd));
      EnsureVisibleAt(selectionEnd);
      NotifyWindowAndSelection(oldTime0 != time0 || oldTime1 != time1, changed);
    }

    /** `setSelectionRange`: clamp both ends into the bounds, unless a time
        selection is pending; the window does not move. */
    method SetSelectionRange(newBegin: int64, newEnd: int64)
      requires Valid()
      modifies this`selectionBegin, this`selectionEnd
      ensures Valid()
      ensures old(Flags()).timeSelected ==>
        selectionBegin == old(selectionBegin) && selectionEnd == old(selectionEnd)
      ensures !old(Flags()).timeSelected ==>
        TimeRange(selectionBegin, selectionEnd) == ClampSelection(newBegin, newEnd, Bounds())
    {
      if notifier != null && notifier.timeSelected {
        return;
      }
      selectionBegin := Max(time0Bound, Min(time1Bound, newBegin));
      selectionEnd := Max(time0Bound, Min(time1Bound, newEnd));
    }

    /** `widgetSelected` / `widgetDefaultSelected`, `current` being the
        control's selected entry: a change is recorded and notified. */
    method WidgetSelected(current: Option<Entry>)
      modifies this`selectedEntry, this`notifier, notifier
      ensures selectedEntry == current
      ensures Requested(Pending(current != old(selectedEntry), false, false))
    {
      if selectedEntry != current {
        selectedEntry := current;
        NotifySelectionListeners();
      }
    }

    /** `setSelection(trace)`: yields to a pending selection change. */
    method SetSelection(trace: Option<Entry>)
      modifies this`selectedEntry
      ensures selectedEntry == if old(Flags()).selectionChanged then old(selectedEntry) else trace
    {
      if notifier != null && notifier.selectionChanged {
        return;
      }
      selectedEntry := trace;
    }

    /** `setSelectedEvent(event, source)`: ignored for a null event or a
        signal from this viewer; otherwise selects the event's entry and time,
        with notification. */
    method SetSelectedEvent(event: Option<TimeEvent>, source: object?)
      requires Valid()
      modifies this`selectedEntry, this`time0, this`time1, this`hBar, this`selectionBegin, this`selectionEnd,
               this`notifier, notifier
      ensures Valid()
      ensures event.None? || source == this ==>
        && selectedEntry == old(selectedEntry) && Window() == old(Window()) && hBar == old(hBar)
        && selectionBegin == old(selectionBegin) && selectionEnd == old(selectionEnd)
        && Requested(NOTHING_PENDING)
      ensures event.Some? && source != this ==>
        var time := event.value.time;
        && selectedEntry == Some(event.value.entry)
        && Window() == EnsureVisible(old(Window()), time, Bounds(), minTimeInterval) && BarFollowsWindow()
        && selectionBegin == time && selectionEnd == time
        && Requested(Pending(false, Window() != old(Window()), time != old(selectionBegin) || time != old(selectionEnd)))
    {
      if event.None? || source == this {
        return;
      }
      selectedEntry := Some(event.value.entry);
      SetSelectedTimeInt(event.value.time, true, true);
    }

    /** `setSelectedTraceTime(trace, time, source)`: the same guard, for an
        entry and a time given separately. */
    method SetSelectedTraceTime(trace: Option<Entry>, time: int64, source: object?)
      requires Valid()
      modifies this`selectedEntry, this`time0, this`time1, this`hBar, this`selectionBegin, this`selectionEnd,
               this`notifier, notifier
      ensures Valid()
      ensures trace.None? || source == this ==>
        && selectedEntry == old(selectedEntry) && Window() == old(Window()) && hBar == old(hBar)
        && selectionBegin == old(selectionBegin) && selectionEnd == old(selectionEnd)
        && Requested(NOTHING_PENDING)
      ensures trace.Some? && source != this ==>
        && selectedEntry == trace
        && Window() == EnsureVisible(old(Window()), time, Bounds(), minTimeInterval) && BarFollowsWindow()
        && selectionBegin == time && selectionEnd == time
        && Requested(Pending(false, Window() != old(Window()), time != old(selectionBegin) || time != old(selectionEnd)))
    {
      if trace.None? || source == this {
        return;
      }
      selectedEntry := trace;
      SetSelectedTimeInt(time, true, true);
    }

    /** `setSelectVisTimeWindow(time0, time1, source)`: a window from outside
        is applied without notification, and remembered as the synchronised
        one so that it is not echoed back; a window from this viewer is
        ignored. */
    method SetSelectVisTimeWindow(newTime0: int64, newTime1: int64, source: object?)
      requires Valid()
      modifies this`time0, this`time1, this`timeRangeFixed, this`hBar, this`time0ExtSynch, this`time1ExtSynch
      ensures Valid()
      ensures source == this ==>
        && Window() == old(Window()) && timeRangeFixed == old(timeRangeFixed) && hBar == old(hBar)
        && ExtSynch() == old(ExtSynch())
      ensures source != this ==>
        && Window() == ClampWindow(newTime0, newTime1, Bounds(), minTimeInterval)
        && timeRangeFixed && BarFollowsWindow() && ExtSynch() == Window()
    {
      if source == this {
        return;
      }
      SetStartFinishTimeInt(newTime0, newTime1);
      UpdateExtSynchTimers();
    }

    /** `updateExtSynchTimers`. */
    method UpdateExtSynchTimers()
      modifies this`time0ExtSynch, this`time1ExtSynch
      ensures ExtSynch() == Window()
    {
      time0ExtSynch := time0;
      time1ExtSynch := time1;
    }

    // ------------------------------------------------------------ listeners

    method AddSelectionListener(l: nat)
      modifies this`selectionListeners
      ensures selectionListeners == old(selectionListeners) + [l]
    {
      selectionListeners := selectionListeners + [l];
    }

    method RemoveSelectionListener(l: nat)
      modifies this`selectionListeners
      ensures selectionListeners == RemoveFirst(old(selectionListeners), l)
    {
      selectionListeners := RemoveFirst(selectionListeners, l);
    }

    method AddTimeListener(l: nat)
      modifies this`timeListeners
      ensures timeListeners == old(timeListeners) + [l]
    {
      timeListeners := timeListeners + [l];
    }

    method RemoveTimeListener(l: nat)
      modifies this`timeListeners
      ensures timeListeners == RemoveFirst(old(timeListeners), l)
    {
      timeListeners := RemoveFirst(timeListeners, l);
    }

    method AddRangeListener(l: nat)
      modifies this`rangeListeners
      ensures rangeListeners == old(rangeListeners) + [l]
    {
      rangeListeners := rangeListeners + [l];
    }

    method RemoveRangeListener(l: nat)
      modifies this`rangeListeners
      ensures rangeListeners == RemoveFirst(old(rangeListeners), l)
    {
      rangeListeners := RemoveFirst(rangeListeners, l);
    }

    /** `notifySelectionListeners`: flag a selection change on the current
        notifier, creating one if there is none. */
    method NotifySelectionListeners()
      modifies this`notifier, notifier
      ensures Requested(Pending(true, false, false))
    {
      if notifier == null {
        notifier := new ListenerNotifier();
      }
      notifier.SelectionChanged();
    }

    method NotifyTimeListeners()
      modifies this`notifier, notifier
      ensures Requested(Pending(false, false, true))
    {
      if notifier == null {
        notifier := new ListenerNotifier();
      }
      notifier.TimeSelected();
    }

    method NotifyRangeListeners()
      modifies this`notifier, notifier
      ensures Requested(Pending(false, true, false))
    {
      if notifier == null {
        notifier := new ListenerNotifier();
      }
      notifier.TimeRangeUpdated();
    }

    /** The notifications that end `setSelectedTimeInt` and
        `setSelectionRangeNotify`: a range notification if the window moved,
        then a time notification if the selection changed. */
    method NotifyWindowAndSelection(moved: bool, changed: bool)
      modifies this`notifier, notifier
      ensures Requested(Pending(false, moved, changed))
    {
      if moved {
        NotifyRangeListeners();
      }
      if changed {
        NotifyTimeListeners();
      }
    }

    /** Call every listener of `listeners` with `notice`, in order. */
    method Deliver(listeners: seq<nat>, notice: Notice)
      modifies this`delivered
      ensures delivered == old(delivered) + Broadcast(listeners, notice)
    {
      ghost var all := Broadcast(listeners, notice);
      for i := 0 to |listeners|
        invariant delivered == old(delivered) + all[..i]
      {
        assert all[..i + 1] == all[..i] + [all[i]];
        delivered := delivered + [Delivery(listeners[i], notice)];
      }
      assert all[..|listeners|] == all;
    }

    /** `fireSelectionChanged`. */
    method FireSelectionChanged(selection: Option<Entry>)
      modifies this`delivered
      ensures delivered == old(delivered) + Broadcast(selectionListeners, SelectionChanged(selection))
    {
      Deliver(selectionListeners, SelectionChanged(selection));
    }

    /** `fireTimeSelected`. */
    method FireTimeSelected(startTime: int, endTime: int)
      modifies this`delivered
      ensures delivered == old(delivered) + Broadcast(timeListeners, TimeSelected(startTime, endTime))
    {
      Deliver(timeListeners, TimeSelected(startTime, endTime));
    }

    /** `fireTimeRangeUpdated`: a window equal to the synchronised one is not
        announced again; otherwise it is, and the current window becomes the
        synchronised one. */
    method FireTimeRangeUpdated(startTime: int, endTime: int)
      modifies this`delivered, this`time0ExtSynch, this`time1ExtSynch
      ensures TimeRange(startTime, endTime) == old(ExtSynch()) ==>
        ExtSynch() == old(ExtSynch()) && delivered == old(delivered)
      ensures TimeRange(startTime, endTime) != old(ExtSynch()) ==>
        && ExtSynch() == Window()
        && delivered == old(delivered) + Broadcast(rangeListeners, TimeRangeUpdated(startTime, endTime))
    {
      if startTime != time0ExtSynch || endTime != time1ExtSynch {
        Deliver(rangeListeners, TimeRangeUpdated(startTime, endTime));
        UpdateExtSynchTimers();
      }
    }

    /** The selection listeners' calls of a flush with flags `p`. */
    function SelectionPart(p: Pending): seq<Delivery>
      reads this`selectionListeners, this`selectedEntry
    {
      if p.selectionChanged then Broadcast(selectionListeners, SelectionChanged(selectedEntry)) else []
    }

    /** The range listeners' calls: none when the window is the one last
        synchronised. */
    function RangePart(p: Pending): seq<Delivery>
      reads this`rangeListeners, this`time0, this`time1, this`time0ExtSynch, this`time1ExtSynch
    {
      if p.timeRangeUpdated && Window() != ExtSynch()
      then Broadcast(rangeListeners, TimeRangeUpdated(time0, time1)) else []
    }

    /** The time listeners' calls. */
    function TimePart(p: Pending): seq<Delivery>
      reads this`timeListeners, this`selectionBegin, this`selectionEnd
    {
      if p.timeSelected then Broadcast(timeListeners, TimeSelected(selectionBegin, selectionEnd)) else []
    }

    /** The calls a flush with flags `p` makes: the selection listeners,
        then the range listeners, then the time listeners. */
    function FlushDeliveries(p: Pending): (r: seq<Delivery>)
      reads this`selectionListeners, this`selectedEntry, this`rangeListeners, this`time0, this`time1,
            this`time0ExtSynch, this`time1ExtSynch, this`timeListeners, this`selectionBegin, this`selectionEnd
      ensures |r| == (if p.selectionChanged then |selectionListeners| else 0)
                   + (if p.timeRangeUpdated && Window() != ExtSynch() then |rangeListeners| else 0)
                   + (if p.timeSelected then |timeListeners| else 0)
    {
      SelectionPart(p) + RangePart(p) + TimePart(p)
    }

    /** The fires of a flush with flags `p`, in the order selection, range,
        time, with the values the fields have now. */
    method FireFlagged(p: Pending)
      modifies this`delivered, this`time0ExtSynch, this`time1ExtSynch
      ensures delivered == old(delivered) + old(FlushDeliveries(p))
      ensures ExtSynch() == if p.timeRangeUpdated && Window() != old(ExtSynch()) then Window() else old(ExtSynch())
    {
      ghost var d0 := delivered;
      ghost var a, b, c := SelectionPart(p), RangePart(p), TimePart(p);
      if p.selectionChanged {
        FireSelectionChanged(selectedEntry);
      }
      assert delivered == d0 + a;
      if p.timeRangeUpdated {
        FireTimeRangeUpdated(time0, time1);
      }
      assert delivered == d0 + a + b;
      if p.timeSelected {
        FireTimeSelected(selectionBegin, selectionEnd);
      }
      assert delivered == d0 + a + b + c;
      ConcatAssociates(d0, a, b, c);
    }

    /** The notifier thread's final step, run on the UI thread: a notifier
        that is no longer current does nothing; the current one is cleared
        and, unless its thread was interrupted or the viewer disposed, fires
        the flagged kinds. */
    method Flush(n: ListenerNotifier, interrupted: bool, disposed: bool)
      modifies this`notifier, this`delivered, this`time0ExtSynch, this`time1ExtSynch
      ensures old(notifier) != n ==>
        notifier == old(notifier) && delivered == old(delivered) && ExtSynch() == old(ExtSynch())
      ensures old(notifier) == n ==> notifier == null
      ensures old(notifier) == n && (interrupted || disposed) ==>
        delivered == old(delivered) && ExtSynch() == old(ExtSynch())
      ensures old(notifier) == n && !interrupted && !disposed ==>
        && delivered == old(delivered) + old(FlushDeliveries(n.Flags()))
        && ExtSynch() == if n.timeRangeUpdated && Window() != old(ExtSynch()) then Window() else old(ExtSynch())
    {
      if notifier != n {
        return;
      }
      notifier := null;
      if interrupted || disposed {
        return;
      }
      FireFlagged(n.Flags());
    }
  }
}
