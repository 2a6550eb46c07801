# Trace Compass time-axis core, modelled in Dafny

This project models three pieces of the Trace Compass trace viewer and proves what they promise.

- **The time-window controller of `TimeGraphViewer`.** It keeps three ranges of Java `long` times:
  - the bounds, derived from an entry forest or pinned by the user;
  - the visible window;
  - the selection.

  It also models:
  - the setters that move these ranges, some notifying and some not;
  - the debounced `ListenerNotifier`, which coalesces notifications and later fires the listeners;
  - the feedback guards against signals the viewer sent itself;
  - the integer arithmetic of the scrollbars and the name column.

- **The latency `ScatterGraphViewer`.** It models the range scan with an early `break` and the `dirty` flag protocol.

- **`TmfExperimentContext`.** It models:
  - the rank aggregated over the sub-contexts;
  - the last-trace index;
  - the copy constructor, which aliases the events array;
  - `hashCode` and `equals`.

## Layout

- `java_arith.dfy` (`JavaArith`): Java arithmetic written out over unbounded integers.
  - It covers `long`/`int` two's-complement wrap-around, truncating division, the saturating `(int)` cast and `Math.round`.
  - The subset types `int64`/`int32` give the Java field types.
- `wrappers.dfy` (`Wrappers`): `Option` (Java's null) and `Result` for code paths where Java throws.
- `time_window.dfy` (`TimeWindow`): the window arithmetic as functions, with the lemmas proved about it. It covers:
  - the two clamp orders;
  - the minimum-interval rule;
  - the `ensureVisible` centring;
  - the pinned bounds.
- `time_graph_entries.dfy` (`TimeGraphEntries`): the entry forest and the recursive min/max fold over it that derives the bounds.
- `time_graph_layout.dfy` (`TimeGraphLayout`): the horizontal and vertical scrollbar values, the scrollbar drag, the name-column clamp and the available width.
- `time_graph_viewer.dfy` (`TimeGraph`): the viewer as a class.
  - Its fields are the Java fields, updated in place by methods with field-level `modifies` frames.
  - `ListenerNotifier` is a class with identity.
  - A `delivered` log records every listener call in order.
- `scatter_graph.dfy` (`ScatterGraph`): the scan, as a method with a `while`/`break` loop proved against a recursive function, and the viewer's `dirty` protocol as a class.
- `experiment_context.dfy` (`ExperimentContext`): the context as a class over arrays.
  - The constructor's rank loop, `hashCode` and `equals` are loops, each proved against a specification function.

### Behaviour of the code worth knowing

- **Overflow wraps.** The interval and midpoint arithmetic is plain `long` arithmetic, so it wraps rather than saturating.
  - `ClampWindowWrapsAtLongMax` shows a zero-length request at `Long.MAX_VALUE`. It is "extended" to the inverted window `(Long.MAX_VALUE, Long.MIN_VALUE)`.
  - The other window properties are proved under hypotheses that rule out overflow.
- **Centring.** `ensureVisible` centres the window on a time outside it, up to integer halving of the length, and then slides the window back inside the bounds.
  - `EnsureVisibleExample` shows that `(100, 200)` with the time 900 in `[0, 1000]` becomes `(850, 950)`.
- **Undefined bounds `(-1, -1)` are not a no-op.**
  - `ClampWindowOnDefaultBounds` shows that a window request collapses onto `(-1, -1)`.
  - `PinnedClampUnpinned` shows that with no pinned times the selection collapses to `-1`.

## Model

In the table, `TimeGraphViewer.java` means `tmf/org.eclipse.tracecompass.tmf.ui/src/org/eclipse/tracecompass/tmf/ui/widgets/timegraph/TimeGraphViewer.java`. The other two files are cited by their full paths.

| member | source | states |
|---|---|---|
| TimeWindow.StepClamp | tmf/org.eclipse.tracecompass.tmf.ui/src/org/eclipse/tracecompass/tmf/ui/widgets/timegraph/TimeGraphViewer.java:761-774 | The clamp raises to the lower bound first, then lowers to the upper one. On valid bounds the result lies inside them, and a time already inside is kept. On inverted bounds it yields the upper bound. |
| TimeWindow.BoundClamp | tmf/org.eclipse.tracecompass.tmf.ui/src/org/eclipse/tracecompass/tmf/ui/widgets/timegraph/TimeGraphViewer.java:607-608 | This is `max(lo, min(t, hi))`. On valid bounds the result lies inside them, and a time already inside is kept. On inverted bounds it yields the lower bound. |
| TimeWindow.ExtendToMinInterval | tmf/org.eclipse.tracecompass.tmf.ui/src/org/eclipse/tracecompass/tmf/ui/widgets/timegraph/TimeGraphViewer.java:609-611 | The minimum-interval rule never moves the start. A window already long enough is left unchanged. |
| TimeWindow.ExtendToMinIntervalProperties | tmf/org.eclipse.tracecompass.tmf.ui/src/org/eclipse/tracecompass/tmf/ui/widgets/timegraph/TimeGraphViewer.java:775-777 | Without overflow the rule only grows the end and never passes the upper bound. The window ends at least `minInterval` long, unless it reached the upper bound. A short window ends at `min(bound1, start + minInterval)`. |
| TimeWindow.ClampWindowInBounds | tmf/org.eclipse.tracecompass.tmf.ui/src/org/eclipse/tracecompass/tmf/ui/widgets/timegraph/TimeGraphViewer.java:760-782 | Take valid bounds whose span and `bound1 + minInterval` fit in a long, and `minInterval >= 0`. For any request, reversed ones included, `bound0 <= time0 <= time1 <= bound1`. The window is at least `minInterval` long or ends at `bound1`. The start is the clamped `time0`. The end is the clamped `time1` when that leaves `minInterval`, and `min(bound1, start + minInterval)` otherwise. |
| TimeWindow.ClampWindowSafe | tmf/org.eclipse.tracecompass.tmf.ui/src/org/eclipse/tracecompass/tmf/ui/widgets/timegraph/TimeGraphViewer.java:760-777 | This is the invariant part of the clamp: the window lies inside the bounds, and it is at least `minInterval` long or ends at `bound1`. |
| TimeWindow.ClampWindowOfBounds | tmf/org.eclipse.tracecompass.tmf.ui/src/org/eclipse/tracecompass/tmf/ui/widgets/timegraph/TimeGraphViewer.java:785-788 | Requesting the bounds as the window gives exactly the bounds, whatever the minimum interval. `resetStartFinishTime` therefore shows the whole bounds. |
| TimeWindow.ClampWindowWrapsAtLongMax | tmf/org.eclipse.tracecompass.tmf.ui/src/org/eclipse/tracecompass/tmf/ui/widgets/timegraph/TimeGraphViewer.java:775-776 | A zero-length request at `Long.MAX_VALUE` wraps to the inverted window `(Long.MAX_VALUE, Long.MIN_VALUE)`. |
| TimeWindow.ClampWindowOnDefaultBounds | tmf/org.eclipse.tracecompass.tmf.ui/src/org/eclipse/tracecompass/tmf/ui/widgets/timegraph/TimeGraphViewer.java:760-777 | On the undefined bounds `(-1, -1)` a request collapses onto `(-1, -1)` rather than being ignored. |
| TimeWindow.RecalculateWindowProperties | tmf/org.eclipse.tracecompass.tmf.ui/src/org/eclipse/tracecompass/tmf/ui/widgets/timegraph/TimeGraphViewer.java:602-612 | `setTimeBounds()` leaves the window inside the bounds and obeys the minimum interval. An unfixed range shows exactly the bounds. A fixed range keeps its clamped start, and its clamped end when that is long enough. |
| TimeWindow.CentreOnShifts | tmf/org.eclipse.tracecompass.tmf.ui/src/org/eclipse/tracecompass/tmf/ui/widgets/timegraph/TimeGraphViewer.java:857-866 | The centring shift keeps the window length and puts the time inside the window. For a time to the left, the start becomes `time - L/2`. For a time to the right, the end becomes `time + L/2`. A visible time leaves the window alone. |
| TimeWindow.SlideIntoBoundsKeepsLength | tmf/org.eclipse.tracecompass.tmf.ui/src/org/eclipse/tracecompass/tmf/ui/widgets/timegraph/TimeGraphViewer.java:867-873 | Edge sliding brings a window no longer than the bounds inside them at the same length. A window already inside is unchanged. |
| TimeWindow.EnsureVisibleInBounds | tmf/org.eclipse.tracecompass.tmf.ui/src/org/eclipse/tracecompass/tmf/ui/widgets/timegraph/TimeGraphViewer.java:856-878 | Take moderate valid bounds and a starting window inside them. After `ensureVisible` the window stays within the bounds and obeys the minimum-interval rule. |
| TimeWindow.EnsureVisibleKeepsLength | tmf/org.eclipse.tracecompass.tmf.ui/src/org/eclipse/tracecompass/tmf/ui/widgets/timegraph/TimeGraphViewer.java:856-876 | Before the minimum-interval step the window length is preserved. It is preserved after the step too, when it was at least `minInterval`. |
| TimeWindow.EnsureVisibleRightShift | tmf/org.eclipse.tracecompass.tmf.ui/src/org/eclipse/tracecompass/tmf/ui/widgets/timegraph/TimeGraphViewer.java:862-866 | A rightward shift that needs no clamping ends the window at `time + L/2`, where `L/2` is the integer half of the old length. |
| TimeWindow.EnsureVisibleLeftShift | tmf/org.eclipse.tracecompass.tmf.ui/src/org/eclipse/tracecompass/tmf/ui/widgets/timegraph/TimeGraphViewer.java:858-861 | A leftward shift that needs no clamping starts the window at `time - L/2`. |
| TimeWindow.EnsureVisibleShowsTime | tmf/org.eclipse.tracecompass.tmf.ui/src/org/eclipse/tracecompass/tmf/ui/widgets/timegraph/TimeGraphViewer.java:856-878 | A time inside the bounds ends up inside the window. A time already visible changes the window only through the minimum-interval rule. |
| TimeWindow.EnsureVisibleExample | tmf/org.eclipse.tracecompass.tmf.ui/src/org/eclipse/tracecompass/tmf/ui/widgets/timegraph/TimeGraphViewer.java:856-876 | Centring `(100, 200)` on 900 within `[0, 1000]` gives `(850, 950)`. |
| TimeWindow.ClampSelection | tmf/org.eclipse.tracecompass.tmf.ui/src/org/eclipse/tracecompass/tmf/ui/widgets/timegraph/TimeGraphViewer.java:809-810 | On valid bounds, both selection ends are clamped into the bounds separately. An end already inside is kept, so `begin > end` survives. |
| TimeWindow.PinnedClamp | tmf/org.eclipse.tracecompass.tmf.ui/src/org/eclipse/tracecompass/tmf/ui/widgets/timegraph/TimeGraphViewer.java:619-628 | This is the if/else-if clamp against the user-pinned times. When those are ordered the result lies between them, and a value between them is kept. |
| TimeWindow.PinnedClampUnpinned | tmf/org.eclipse.tracecompass.tmf.ui/src/org/eclipse/tracecompass/tmf/ui/widgets/timegraph/TimeGraphViewer.java:619-628 | With no pinned times, any selection collapses to `DEFAULT`. |
| TimeWindow.PinnedBounds | tmf/org.eclipse.tracecompass.tmf.ui/src/org/eclipse/tracecompass/tmf/ui/widgets/timegraph/TimeGraphViewer.java:543-544 | A pinned side is taken as is. A `DEFAULT` side takes the other side's value. |
| TimeWindow.PinBounds | tmf/org.eclipse.tracecompass.tmf.ui/src/org/eclipse/tracecompass/tmf/ui/widgets/timegraph/TimeGraphViewer.java:584-595 | After `setTimeBounds(b, e)`, always `bound0 <= bound1`. Two given values are ordered, swapped when reversed, and the pinned times are swapped too. A single given value is used for both sides and the pinned times are kept. |
| TimeGraphEntries.MinStartTreeIsMinimum | tmf/org.eclipse.tracecompass.tmf.ui/src/org/eclipse/tracecompass/tmf/ui/widgets/timegraph/TimeGraphViewer.java:562-574 | The lower-bound fold over one entry is the minimum of the seed and of the start of every entry below it (at any depth) that has events and a known start. It is the seed itself or one of those starts. |
| TimeGraphEntries.MinStartForestIsMinimum | tmf/org.eclipse.tracecompass.tmf.ui/src/org/eclipse/tracecompass/tmf/ui/widgets/timegraph/TimeGraphViewer.java:557-574 | The same holds for a forest of entries visited in order. |
| TimeGraphEntries.MaxEndTreeIsMaximum | tmf/org.eclipse.tracecompass.tmf.ui/src/org/eclipse/tracecompass/tmf/ui/widgets/timegraph/TimeGraphViewer.java:562-574 | The upper-bound fold over one entry is the maximum of the seed and of every known end below it, and it is attained. |
| TimeGraphEntries.MaxEndForestIsMaximum | tmf/org.eclipse.tracecompass.tmf.ui/src/org/eclipse/tracecompass/tmf/ui/widgets/timegraph/TimeGraphViewer.java:557-574 | The same holds for a forest. |
| TimeGraphEntries.MinStartForestSnoc | tmf/org.eclipse.tracecompass.tmf.ui/src/org/eclipse/tracecompass/tmf/ui/widgets/timegraph/TimeGraphViewer.java:557-559 | Visiting one more root continues the lower-bound fold from where it stopped. |
| TimeGraphEntries.MaxEndForestSnoc | tmf/org.eclipse.tracecompass.tmf.ui/src/org/eclipse/tracecompass/tmf/ui/widgets/timegraph/TimeGraphViewer.java:557-559 | Visiting one more root continues the upper-bound fold from where it stopped. |
| TimeGraphEntries.DeriveBoundsProperties | tmf/org.eclipse.tracecompass.tmf.ui/src/org/eclipse/tracecompass/tmf/ui/widgets/timegraph/TimeGraphViewer.java:542-560 | When both times are pinned, the bounds are the pinned times. A null or empty input leaves the pinned seeds. A pinned side never changes. On non-empty input, an unpinned side is the min (max) over its seed and every qualifying entry at any depth, and the value is attained. The seed is the other side's pinned time when that side is pinned, and `Long.MAX_VALUE` (`Long.MIN_VALUE`) otherwise. |
| TimeGraphEntries.DeriveBoundsWithoutEvents | tmf/org.eclipse.tracecompass.tmf.ui/src/org/eclipse/tracecompass/tmf/ui/widgets/timegraph/TimeGraphViewer.java:551-559 | With no entry that has events, the bounds stay on their seeds, inverted. |
| TimeGraphEntries.DeriveBoundsVisitsChildren | tmf/org.eclipse.tracecompass.tmf.ui/src/org/eclipse/tracecompass/tmf/ui/widgets/timegraph/TimeGraphViewer.java:563-573 | The children of an entry without events of its own still set the bounds. |
| TimeGraphLayout.IntCastQuot | tmf/org.eclipse.tracecompass.tmf.ui/src/org/eclipse/tracecompass/tmf/ui/widgets/timegraph/TimeGraphViewer.java:1800-1802 | The `(int)` cast of a scrollbar quotient is the quotient truncated toward zero, saturated to the `int` range. For a non-negative numerator it is `min(Integer.MAX_VALUE, n / d)`. An unsaturated result `r` satisfies `d*r <= n < d*r + d` (or the mirror for negative `n`). A saturated result occurs only when the exact quotient lies beyond that end of the range. |
| TimeGraphLayout.HorizontalScrollShape | tmf/org.eclipse.tracecompass.tmf.ui/src/org/eclipse/tracecompass/tmf/ui/widgets/timegraph/TimeGraphViewer.java:1790-1805 | When `delta == 0`, the position is 0 and the thumb is `H_SCROLLBAR_MAX`. Otherwise the thumb is at least 1. The increments are at least 1 and 2, and the range is `[0, H_SCROLLBAR_MAX]`. |
| TimeGraphLayout.HorizontalScrollInRange | tmf/org.eclipse.tracecompass.tmf.ui/src/org/eclipse/tracecompass/tmf/ui/widgets/timegraph/TimeGraphViewer.java:1795-1802 | A window inside non-empty bounds maps to a position and a thumb inside the bar. |
| TimeGraphLayout.DragWindowKeepsLength | tmf/org.eclipse.tracecompass.tmf.ui/src/org/eclipse/tracecompass/tmf/ui/widgets/timegraph/TimeGraphViewer.java:456-468 | A scrollbar drag keeps the window length before clamping. For a position on the bar, the start lies inside the bounds. |
| TimeGraphLayout.DragInvertsPosition | tmf/org.eclipse.tracecompass.tmf.ui/src/org/eclipse/tracecompass/tmf/ui/widgets/timegraph/TimeGraphViewer.java:460-466 | Dragging to the position the window is shown at gives back its start to within the bar's resolution. The start is never later, and it is earlier by less than `delta / H_SCROLLBAR_MAX + 1`. |
| TimeGraphLayout.VerticalScrollProperties | tmf/org.eclipse.tracecompass.tmf.ui/src/org/eclipse/tracecompass/tmf/ui/widgets/timegraph/TimeGraphViewer.java:1807-1822 | After the adjustment, `topIndex + countPerPage <= count` or `topIndex == 0`. A top index whose last page is full is kept. The selection is the top index, and `1 <= thumb <= max` with `max >= 1`. |
| TimeGraphLayout.ClampNameWidth | tmf/org.eclipse.tracecompass.tmf.ui/src/org/eclipse/tracecompass/tmf/ui/widgets/timegraph/TimeGraphViewer.java:525-530 | The name width ends at least the minimum width. It is the requested width when that fits, and never more than `width - min` when that is at least `min`. |
| TimeGraphLayout.AvailableWidth | tmf/org.eclipse.tracecompass.tmf.ui/src/org/eclipse/tracecompass/tmf/ui/widgets/timegraph/TimeGraphViewer.java:1902-1905 | The available width lies in `[0, total]` when `total >= 0`. It is `total - offset` for an offset inside, `total` for a non-positive offset, and 0 past the end. |
| TimeGraph.Broadcast | tmf/org.eclipse.tracecompass.tmf.ui/src/org/eclipse/tracecompass/tmf/ui/widgets/timegraph/TimeGraphViewer.java:996-998 | One fire makes one call per registered listener, in registration order, all with the same event. |
| TimeGraph.RemoveFirst | tmf/org.eclipse.tracecompass.tmf.ui/src/org/eclipse/tracecompass/tmf/ui/widgets/timegraph/TimeGraphViewer.java:981-983 | Removing a listener that is not registered leaves the list unchanged. |
| TimeGraph.RemoveFirstCounts | tmf/org.eclipse.tracecompass.tmf.ui/src/org/eclipse/tracecompass/tmf/ui/widgets/timegraph/TimeGraphViewer.java:981-983 | Removal takes away exactly one occurrence (as a multiset). |
| TimeGraph.RemoveFirstDropsFirst | tmf/org.eclipse.tracecompass.tmf.ui/src/org/eclipse/tracecompass/tmf/ui/widgets/timegraph/TimeGraphViewer.java:981-983 | It is the first occurrence that goes. The listeners before and after it keep their order. |
| TimeGraph.ListenerNotifier.constructor | tmf/org.eclipse.tracecompass.tmf.ui/src/org/eclipse/tracecompass/tmf/ui/widgets/timegraph/TimeGraphViewer.java:146-148 | A new notifier has no flag set. |
| TimeGraph.ListenerNotifier.SelectionChanged | tmf/org.eclipse.tracecompass.tmf.ui/src/org/eclipse/tracecompass/tmf/ui/widgets/timegraph/TimeGraphViewer.java:182-185 | Sets the selection flag and leaves the others unchanged. |
| TimeGraph.ListenerNotifier.TimeRangeUpdated | tmf/org.eclipse.tracecompass.tmf.ui/src/org/eclipse/tracecompass/tmf/ui/widgets/timegraph/TimeGraphViewer.java:187-190 | Sets the range flag and leaves the others unchanged. |
| TimeGraph.ListenerNotifier.TimeSelected | tmf/org.eclipse.tracecompass.tmf.ui/src/org/eclipse/tracecompass/tmf/ui/widgets/timegraph/TimeGraphViewer.java:192-195 | Sets the time flag and leaves the others unchanged. |
| TimeGraph.TimeGraphViewer.constructor | tmf/org.eclipse.tracecompass.tmf.ui/src/org/eclipse/tracecompass/tmf/ui/widgets/timegraph/TimeGraphViewer.java:85-100 | Every time field starts at `DEFAULT`, the range is unfixed and nothing is selected. `loadOptions` sets the minimum interval to 1 and the name width to the loaded preference. No notifier and no listeners exist. |
| TimeGraph.TimeGraphViewer.SetInput | tmf/org.eclipse.tracecompass.tmf.ui/src/org/eclipse/tracecompass/tmf/ui/widgets/timegraph/TimeGraphViewer.java:264-276 | A new input discards the notifier, so an in-flight flush does nothing. It derives the bounds from the input, clears the entry selection, resets the selection to `DEFAULT` clamped against the pinned times, and recomputes the window. |
| TimeGraph.TimeGraphViewer.Refresh | tmf/org.eclipse.tracecompass.tmf.ui/src/org/eclipse/tracecompass/tmf/ui/widgets/timegraph/TimeGraphViewer.java:302-306 | The content provider's current answer for the input becomes the input. The bounds are re-derived from it, the window is recomputed, and the selection is clamped against the pinned times. |
| TimeGraph.TimeGraphViewer.SetTimeRange | tmf/org.eclipse.tracecompass.tmf.ui/src/org/eclipse/tracecompass/tmf/ui/widgets/timegraph/TimeGraphViewer.java:542-560 | The bounds become the fold `DeriveBounds` over the entries, seeded by the pinned times. Its properties are in `DeriveBoundsProperties`. |
| TimeGraph.TimeGraphViewer.SetTimeRangeOf | tmf/org.eclipse.tracecompass.tmf.ui/src/org/eclipse/tracecompass/tmf/ui/widgets/timegraph/TimeGraphViewer.java:562-574 | An unpinned side of the bounds becomes the tree fold of the entry from the old bound. A pinned side is unchanged. |
| TimeGraph.TimeGraphViewer.SetTimeBounds | tmf/org.eclipse.tracecompass.tmf.ui/src/org/eclipse/tracecompass/tmf/ui/widgets/timegraph/TimeGraphViewer.java:584-597 | The pinned times and bounds are those of `PinBounds`. The bounds end ordered and the scrollbar follows the window. |
| TimeGraph.TimeGraphViewer.RecalculateTimeWindow | tmf/org.eclipse.tracecompass.tmf.ui/src/org/eclipse/tracecompass/tmf/ui/widgets/timegraph/TimeGraphViewer.java:602-612 | The window becomes `RecalculateWindow` of the old window and the bounds. Its properties are in `RecalculateWindowProperties`. |
| TimeGraph.TimeGraphViewer.RefreshAllData | tmf/org.eclipse.tracecompass.tmf.ui/src/org/eclipse/tracecompass/tmf/ui/widgets/timegraph/TimeGraphViewer.java:617-628 | Recomputes the window, then clamps each selection end against the pinned times (not the bounds), in if/else-if order. |
| TimeGraph.TimeGraphViewer.AdjustHorizontalScrollBar | tmf/org.eclipse.tracecompass.tmf.ui/src/org/eclipse/tracecompass/tmf/ui/widgets/timegraph/TimeGraphViewer.java:1790-1805 | The horizontal scrollbar now shows the current window in the current bounds. |
| TimeGraph.TimeGraphViewer.ResizeControls | tmf/org.eclipse.tracecompass.tmf.ui/src/org/eclipse/tracecompass/tmf/ui/widgets/timegraph/TimeGraphViewer.java:518-531 | An empty client area changes nothing. Otherwise the name width is clamped against the client width and the minimum width, and the scrollbar follows the window. |
| TimeGraph.TimeGraphViewer.SetNameSpace | tmf/org.eclipse.tracecompass.tmf.ui/src/org/eclipse/tracecompass/tmf/ui/widgets/timegraph/TimeGraphViewer.java:691-699 | The requested width is first capped at the client width minus `MIN_NAME_WIDTH`, then raised to `MIN_NAME_WIDTH`, so the name width ends at least `MIN_NAME_WIDTH`. |
| TimeGraph.TimeGraphViewer.SetNameWidthPref | tmf/org.eclipse.tracecompass.tmf.ui/src/org/eclipse/tracecompass/tmf/ui/widgets/timegraph/TimeGraphViewer.java:1293-1299 | Records the preference. A preference of 0 also zeroes the minimum and current name widths. |
| TimeGraph.TimeGraphViewer.HorizontalScrollDragged | tmf/org.eclipse.tracecompass.tmf.ui/src/org/eclipse/tracecompass/tmf/ui/widgets/timegraph/TimeGraphViewer.java:454-470 | A drag sets the window to the clamp of the dragged window, fixes the range and requests a range notification. |
| TimeGraph.TimeGraphViewer.SetStartFinishTimeInt | tmf/org.eclipse.tracecompass.tmf.ui/src/org/eclipse/tracecompass/tmf/ui/widgets/timegraph/TimeGraphViewer.java:760-782 | The window becomes `ClampWindow` of the request, whose guarantees are in `ClampWindowInBounds`. The range is fixed (`fTimeRangeFixed == true`) and the scrollbar follows. |
| TimeGraph.TimeGraphViewer.SetStartFinishTimeNotify | tmf/org.eclipse.tracecompass.tmf.ui/src/org/eclipse/tracecompass/tmf/ui/widgets/timegraph/TimeGraphViewer.java:741-744 | Sets the clamped window and adds a range notification to the current or a fresh notifier. |
| TimeGraph.TimeGraphViewer.NotifyStartFinishTime | tmf/org.eclipse.tracecompass.tmf.ui/src/org/eclipse/tracecompass/tmf/ui/widgets/timegraph/TimeGraphViewer.java:747-749 | Requests a range notification. |
| TimeGraph.TimeGraphViewer.SetStartFinishTime | tmf/org.eclipse.tracecompass.tmf.ui/src/org/eclipse/tracecompass/tmf/ui/widgets/timegraph/TimeGraphViewer.java:752-758 | While a range update is pending, the window, the fixed flag and the scrollbar are unchanged. Otherwise it behaves as `setStartFinishTimeInt`. |
| TimeGraph.TimeGraphViewer.ResetStartFinishTime | tmf/org.eclipse.tracecompass.tmf.ui/src/org/eclipse/tracecompass/tmf/ui/widgets/timegraph/TimeGraphViewer.java:785-788 | The window becomes the clamp of the bounds (the bounds themselves, by `ClampWindowOfBounds`). The range ends unfixed and a range notification is requested. |
| TimeGraph.TimeGraphViewer.EnsureVisibleAt | tmf/org.eclipse.tracecompass.tmf.ui/src/org/eclipse/tracecompass/tmf/ui/widgets/timegraph/TimeGraphViewer.java:856-878 | The window becomes `EnsureVisible` of the old window, whose guarantees are the `EnsureVisible*` lemmas. The scrollbar follows. |
| TimeGraph.TimeGraphViewer.SetSelectedTimeInt | tmf/org.eclipse.tracecompass.tmf.ui/src/org/eclipse/tracecompass/tmf/ui/widgets/timegraph/TimeGraphViewer.java:834-854 | The selection becomes exactly `time`, unclamped. The window moves only when `ensureVisible` is set. With `doNotify`, a range notification is requested only if the window moved, and a time notification only if the old selection differed from `time`. Without `doNotify`, nothing is requested. |
| TimeGraph.TimeGraphViewer.SetSelectedTimeNotify | tmf/org.eclipse.tracecompass.tmf.ui/src/org/eclipse/tracecompass/tmf/ui/widgets/timegraph/TimeGraphViewer.java:791-793 | This is `setSelectedTimeInt` with notification. |
| TimeGraph.TimeGraphViewer.SetSelectedTime | tmf/org.eclipse.tracecompass.tmf.ui/src/org/eclipse/tracecompass/tmf/ui/widgets/timegraph/TimeGraphViewer.java:796-802 | While a time selection is pending, the window and selection are unchanged. Otherwise it behaves as `setSelectedTimeInt`. It never requests a notification. |
| TimeGraph.TimeGraphViewer.SetSelectionRangeNotify | tmf/org.eclipse.tracecompass.tmf.ui/src/org/eclipse/tracecompass/tmf/ui/widgets/timegraph/TimeGraphViewer.java:805-820 | Both ends are clamped into the bounds, and the window is made to show the clamped end. A range notification is requested if the window moved. A time notification is requested if the raw arguments differ from the old selection. |
| TimeGraph.TimeGraphViewer.SetSelectionRange | tmf/org.eclipse.tracecompass.tmf.ui/src/org/eclipse/tracecompass/tmf/ui/widgets/timegraph/TimeGraphViewer.java:823-832 | While a time selection is pending, the selection is unchanged. Otherwise both ends are clamped into the bounds. The window never moves. |
| TimeGraph.TimeGraphViewer.WidgetSelected | tmf/org.eclipse.tracecompass.tmf.ui/src/org/eclipse/tracecompass/tmf/ui/widgets/timegraph/TimeGraphViewer.java:889-894 | The entry selection takes the control's. A selection change is requested exactly when it differed. |
| TimeGraph.TimeGraphViewer.SetSelection | tmf/org.eclipse.tracecompass.tmf.ui/src/org/eclipse/tracecompass/tmf/ui/widgets/timegraph/TimeGraphViewer.java:1125-1133 | While a selection change is pending, the entry selection is unchanged. Otherwise it takes `trace`. |
| TimeGraph.TimeGraphViewer.SetSelectedEvent | tmf/org.eclipse.tracecompass.tmf.ui/src/org/eclipse/tracecompass/tmf/ui/widgets/timegraph/TimeGraphViewer.java:1088-1097 | A null event or `source == this` changes nothing and requests nothing. Otherwise the event's entry and time are selected, the window shows the time, and notifications follow the `setSelectedTimeInt` rule. |
| TimeGraph.TimeGraphViewer.SetSelectedTraceTime | tmf/org.eclipse.tracecompass.tmf.ui/src/org/eclipse/tracecompass/tmf/ui/widgets/timegraph/TimeGraphViewer.java:1109-1117 | This is the same guard and effect for an entry and a time given separately. |
| TimeGraph.TimeGraphViewer.SetSelectVisTimeWindow | tmf/org.eclipse.tracecompass.tmf.ui/src/org/eclipse/tracecompass/tmf/ui/widgets/timegraph/TimeGraphViewer.java:1145-1155 | `source == this` changes nothing. Otherwise the window is clamped in, without any notification, and becomes the synchronised window. |
| TimeGraph.TimeGraphViewer.UpdateExtSynchTimers | tmf/org.eclipse.tracecompass.tmf.ui/src/org/eclipse/tracecompass/tmf/ui/widgets/timegraph/TimeGraphViewer.java:1161-1165 | The synchronised window becomes the current window. |
| TimeGraph.TimeGraphViewer.AddSelectionListener | tmf/org.eclipse.tracecompass.tmf.ui/src/org/eclipse/tracecompass/tmf/ui/widgets/timegraph/TimeGraphViewer.java:971-973 | Appends the listener. |
| TimeGraph.TimeGraphViewer.RemoveSelectionListener | tmf/org.eclipse.tracecompass.tmf.ui/src/org/eclipse/tracecompass/tmf/ui/widgets/timegraph/TimeGraphViewer.java:981-983 | Removes its first occurrence. |
| TimeGraph.TimeGraphViewer.AddTimeListener | tmf/org.eclipse.tracecompass.tmf.ui/src/org/eclipse/tracecompass/tmf/ui/widgets/timegraph/TimeGraphViewer.java:1007-1009 | Appends the listener. |
| TimeGraph.TimeGraphViewer.RemoveTimeListener | tmf/org.eclipse.tracecompass.tmf.ui/src/org/eclipse/tracecompass/tmf/ui/widgets/timegraph/TimeGraphViewer.java:1017-1019 | Removes its first occurrence. |
| TimeGraph.TimeGraphViewer.AddRangeListener | tmf/org.eclipse.tracecompass.tmf.ui/src/org/eclipse/tracecompass/tmf/ui/widgets/timegraph/TimeGraphViewer.java:1043-1045 | Appends the listener. |
| TimeGraph.TimeGraphViewer.RemoveRangeListener | tmf/org.eclipse.tracecompass.tmf.ui/src/org/eclipse/tracecompass/tmf/ui/widgets/timegraph/TimeGraphViewer.java:1053-1055 | Removes its first occurrence. |
| TimeGraph.TimeGraphViewer.NotifySelectionListeners | tmf/org.eclipse.tracecompass.tmf.ui/src/org/eclipse/tracecompass/tmf/ui/widgets/timegraph/TimeGraphViewer.java:985-991 | Flags a selection change on the current notifier, or on a fresh one when there is none. The other flags are kept. |
| TimeGraph.TimeGraphViewer.NotifyTimeListeners | tmf/org.eclipse.tracecompass.tmf.ui/src/org/eclipse/tracecompass/tmf/ui/widgets/timegraph/TimeGraphViewer.java:1021-1027 | Does the same for a time selection. |
| TimeGraph.TimeGraphViewer.NotifyRangeListeners | tmf/org.eclipse.tracecompass.tmf.ui/src/org/eclipse/tracecompass/tmf/ui/widgets/timegraph/TimeGraphViewer.java:1057-1063 | Does the same for a range update. |
| TimeGraph.TimeGraphViewer.NotifyWindowAndSelection | tmf/org.eclipse.tracecompass.tmf.ui/src/org/eclipse/tracecompass/tmf/ui/widgets/timegraph/TimeGraphViewer.java:847-853 | Requests a range notification exactly when the window moved, and a time notification exactly when the selection changed. |
| TimeGraph.TimeGraphViewer.Deliver | tmf/org.eclipse.tracecompass.tmf.ui/src/org/eclipse/tracecompass/tmf/ui/widgets/timegraph/TimeGraphViewer.java:996-998 | The loop over the listeners appends their `Broadcast` calls to the log. |
| TimeGraph.TimeGraphViewer.FireSelectionChanged | tmf/org.eclipse.tracecompass.tmf.ui/src/org/eclipse/tracecompass/tmf/ui/widgets/timegraph/TimeGraphViewer.java:993-999 | Every selection listener, in order, receives the selection. |
| TimeGraph.TimeGraphViewer.FireTimeSelected | tmf/org.eclipse.tracecompass.tmf.ui/src/org/eclipse/tracecompass/tmf/ui/widgets/timegraph/TimeGraphViewer.java:1029-1035 | Every time listener, in order, receives the times. |
| TimeGraph.TimeGraphViewer.FireTimeRangeUpdated | tmf/org.eclipse.tracecompass.tmf.ui/src/org/eclipse/tracecompass/tmf/ui/widgets/timegraph/TimeGraphViewer.java:1065-1078 | A range equal to the synchronised one reaches no listener and changes nothing. Otherwise every range listener receives it and the synchronised window becomes the current window. |
| TimeGraph.TimeGraphViewer.FlushDeliveries | tmf/org.eclipse.tracecompass.tmf.ui/src/org/eclipse/tracecompass/tmf/ui/widgets/timegraph/TimeGraphViewer.java:169-177 | A flush makes one call per listener of each flagged kind. No range call is made when the window is the synchronised one. |
| TimeGraph.TimeGraphViewer.FireFlagged | tmf/org.eclipse.tracecompass.tmf.ui/src/org/eclipse/tracecompass/tmf/ui/widgets/timegraph/TimeGraphViewer.java:169-177 | Fires only the flagged kinds, in the order selection, range, time, with the field values at flush time. The synchronised window follows a range fire that was not suppressed. |
| TimeGraph.TimeGraphViewer.Flush | tmf/org.eclipse.tracecompass.tmf.ui/src/org/eclipse/tracecompass/tmf/ui/widgets/timegraph/TimeGraphViewer.java:159-179 | A notifier that is no longer current does nothing. The current one is cleared. It then fires nothing if its thread was interrupted or the viewer disposed, and otherwise fires the flagged kinds as `FireFlagged` says. |
| ScatterGraph.StartingInRange | analysis/org.eclipse.tracecompass.analysis.os.linux.ui/src/org/eclipse/tracecompass/internal/analysis/os/linux/ui/views/latency/ScatterGraphViewer.java:192-199 | Every kept segment comes from the data and starts in `[rangeStart, rangeEnd]`, and no more segments are kept than there are. |
| ScatterGraph.StartingInRangeKeeps | analysis/org.eclipse.tracecompass.analysis.os.linux.ui/src/org/eclipse/tracecompass/internal/analysis/os/linux/ui/views/latency/ScatterGraphViewer.java:192-199 | A segment in range that comes before any segment starting after `rangeEnd` is kept. |
| ScatterGraph.SortedScanIsFilter | analysis/org.eclipse.tracecompass.analysis.os.linux.ui/src/org/eclipse/tracecompass/internal/analysis/os/linux/ui/views/latency/ScatterGraphViewer.java:192-199 | If the data iterates in non-decreasing start order, the early `break` loses nothing. The result is exactly the in-range segments, in order. |
| ScatterGraph.UnsortedScanLoses | analysis/org.eclipse.tracecompass.analysis.os.linux.ui/src/org/eclipse/tracecompass/internal/analysis/os/linux/ui/views/latency/ScatterGraphViewer.java:193-195 | Without that order, the `break` can lose an in-range segment. |
| ScatterGraph.ElementsStartingInRangeProperties | analysis/org.eclipse.tracecompass.analysis.os.linux.ui/src/org/eclipse/tracecompass/internal/analysis/os/linux/ui/views/latency/ScatterGraphViewer.java:189-205 | The result is null exactly when there is no data or nothing was kept. A non-null result is non-empty and holds only in-range segments of the data. For sorted data it is null exactly when no segment starts in range. |
| ScatterGraph.Points | analysis/org.eclipse.tracecompass.analysis.os.linux.ui/src/org/eclipse/tracecompass/internal/analysis/os/linux/ui/views/latency/ScatterGraphViewer.java:156-167 | One point per segment: x is the segment's start minus the window start, y is its length. |
| ScatterGraph.ScatterGraphViewer.constructor | analysis/org.eclipse.tracecompass.analysis.os.linux.ui/src/org/eclipse/tracecompass/internal/analysis/os/linux/ui/views/latency/ScatterGraphViewer.java:74-84 | The viewer starts with no data, not dirty, and an empty chart. |
| ScatterGraph.ScatterGraphViewer.GetElementsStartingInRange | analysis/org.eclipse.tracecompass.analysis.os.linux.ui/src/org/eclipse/tracecompass/internal/analysis/os/linux/ui/views/latency/ScatterGraphViewer.java:189-205 | The loop with `break` returns `ElementsStartingInRange` of the data, whose properties are the three lemmas above. |
| ScatterGraph.ScatterGraphViewer.SetWindowRange | analysis/org.eclipse.tracecompass.analysis.os.linux.ui/src/org/eclipse/tracecompass/internal/analysis/os/linux/ui/views/latency/ScatterGraphViewer.java:208-217 | Sets the window and the `dirty` flag, and posts one `updateData` for that window. |
| ScatterGraph.ScatterGraphViewer.UpdateModel | analysis/org.eclipse.tracecompass.analysis.os.linux.ui/src/org/eclipse/tracecompass/internal/analysis/os/linux/ui/views/latency/ScatterGraphViewer.java:126-145 | Stores the new data and clears the chart when the data is null. It sets `dirty` and moves the window to the trace manager's current window. |
| ScatterGraph.ScatterGraphViewer.UpdateData | analysis/org.eclipse.tracecompass.analysis.os.linux.ui/src/org/eclipse/tracecompass/internal/analysis/os/linux/ui/views/latency/ScatterGraphViewer.java:148-177 | When `dirty` is false it does nothing. With nothing in range it returns early and `dirty` stays set. A disposed chart gets the x axis only, and `dirty` stays set. `dirty` is cleared exactly when both series were set from the in-range segments. It keeps the invariant that a clean graph shows its data's in-range segments. |
| ScatterGraph.ScatterGraphViewer.RunQueued | analysis/org.eclipse.tracecompass.analysis.os.linux.ui/src/org/eclipse/tracecompass/internal/analysis/os/linux/ui/views/latency/ScatterGraphViewer.java:211-216 | The display thread runs the oldest posted update, and the queue loses its head. A clean graph, or a window with nothing in range, leaves the axis, series and flag unchanged. Otherwise the x axis is set from the in-range segments. With the chart disposed, the series stays and `dirty` stays set. Otherwise the series is set, `dirty` is cleared and the plotted window becomes the posted one. The up-to-date invariant is kept. |
| ScatterGraph.ScatterGraphViewer.WindowRangeUpdated | analysis/org.eclipse.tracecompass.analysis.os.linux.ui/src/org/eclipse/tracecompass/internal/analysis/os/linux/ui/views/latency/ScatterGraphViewer.java:312-325 | The window changes exactly when the signal and its range are non-null and its source is not this viewer. Otherwise the window, `dirty` and the posted updates are unchanged. |
| ExperimentContext.RankSumConcat | org.eclipse.linuxtools.tmf.core/src/org/eclipse/linuxtools/internal/tmf/core/trace/TmfExperimentContext.java:66-72 | The aggregated rank splits over a concatenation of sub-context arrays. |
| ExperimentContext.RankSumSkipsNull | org.eclipse.linuxtools.tmf.core/src/org/eclipse/linuxtools/internal/tmf/core/trace/TmfExperimentContext.java:67-72 | A null sub-context, wherever it is, adds nothing to the rank. |
| ExperimentContext.RankSumBounds | org.eclipse.linuxtools.tmf.core/src/org/eclipse/linuxtools/internal/tmf/core/trace/TmfExperimentContext.java:66-72 | With non-negative ranks, the aggregate is at least each sub-context's rank. |
| ExperimentContext.RankSumNonNegative | org.eclipse.linuxtools.tmf.core/src/org/eclipse/linuxtools/internal/tmf/core/trace/TmfExperimentContext.java:66-72 | With non-negative ranks, the aggregate is non-negative. |
| ExperimentContext.HashFoldDefined | org.eclipse.linuxtools.tmf.core/src/org/eclipse/linuxtools/internal/tmf/core/trace/TmfExperimentContext.java:145-152 | The hash fold is defined exactly when no sub-context is null. |
| ExperimentContext.HashFoldOfHashes | org.eclipse.linuxtools.tmf.core/src/org/eclipse/linuxtools/internal/tmf/core/trace/TmfExperimentContext.java:145-152 | The hash depends only on the sub-contexts' hash codes, slot by slot. |
| ExperimentContext.PairwiseTrue | org.eclipse.linuxtools.tmf.core/src/org/eclipse/linuxtools/internal/tmf/core/trace/TmfExperimentContext.java:163-170 | The element-wise comparison is true exactly when every slot of this context holds a sub-context equal to the other's at the same index. |
| ExperimentContext.PairwiseStopsAtMismatch | org.eclipse.linuxtools.tmf.core/src/org/eclipse/linuxtools/internal/tmf/core/trace/TmfExperimentContext.java:163-170 | The loop stops at the first mismatch. After equal slots, a false slot makes the result false whatever follows, nulls and missing slots included. |
| ExperimentContext.PairwiseIgnoresExtra | org.eclipse.linuxtools.tmf.core/src/org/eclipse/linuxtools/internal/tmf/core/trace/TmfExperimentContext.java:165-169 | Only the indexes of this context's array are compared. Extra slots of the other are never looked at. |
| ExperimentContext.EqualContextsHashAlike | org.eclipse.linuxtools.tmf.core/src/org/eclipse/linuxtools/internal/tmf/core/trace/TmfExperimentContext.java:144-171 | Suppose equal sub-contexts have equal hash codes. Then two contexts of one length whose sub-contexts compare equal have equal hash codes. |
| ExperimentContext.ExperimentContext.constructor | org.eclipse.linuxtools.tmf.core/src/org/eclipse/linuxtools/internal/tmf/core/trace/TmfExperimentContext.java:59-77 | The contexts array is kept, not copied. The events array is new, as long as the contexts and all null. The rank is the `long` sum of the non-null sub-contexts' ranks. The last trace is `NO_TRACE` (-1). |
| ExperimentContext.ExperimentContext.CloneContexts | org.eclipse.linuxtools.tmf.core/src/org/eclipse/linuxtools/internal/tmf/core/trace/TmfExperimentContext.java:92-97 | It succeeds exactly when no sub-context is null, and then gives a new array of equal sub-contexts. |
| ExperimentContext.ExperimentContext.CopyOf | org.eclipse.linuxtools.tmf.core/src/org/eclipse/linuxtools/internal/tmf/core/trace/TmfExperimentContext.java:79-86 | The copy succeeds exactly when no sub-context is null. It then has a new contexts array with equal contents and the original's rank and last trace. It shares, not copies, the original's events array. |
| ExperimentContext.ExperimentContext.GetLastTrace | org.eclipse.linuxtools.tmf.core/src/org/eclipse/linuxtools/internal/tmf/core/trace/TmfExperimentContext.java:132-134 | Returns the stored last trace. |
| ExperimentContext.ExperimentContext.SetLastTrace | org.eclipse.linuxtools.tmf.core/src/org/eclipse/linuxtools/internal/tmf/core/trace/TmfExperimentContext.java:136-138 | Stores the new index. `GetLastTrace` then returns it. |
| ExperimentContext.ExperimentContext.HashCode | org.eclipse.linuxtools.tmf.core/src/org/eclipse/linuxtools/internal/tmf/core/trace/TmfExperimentContext.java:144-152 | The loop yields the fold `h = 37 * h + hash` from 17, wrapped to 32 bits. It fails with a null-pointer error exactly when a sub-context is null. |
| ExperimentContext.ExperimentContext.Equals | org.eclipse.linuxtools.tmf.core/src/org/eclipse/linuxtools/internal/tmf/core/trace/TmfExperimentContext.java:154-171 | It is reflexive. It is false unless the base `equals` holds and the other is an experiment context. It is then the element-wise comparison, which stops at the first mismatch. |

## Left out

- **Widget toolkit code.** This covers control creation, redraws, mouse and key listeners, actions, menus, the legend, tooltips, and time-format and clock-frequency switching. These are UI toolkit calls that change no modelled state.
- **The notifier thread's timing.** The polling loop (`Thread.sleep`, `System.currentTimeMillis`, the 400 ms delay) is not modelled. Neither is `Display.asyncExec`, in either viewer. The thread's final step is the explicit `Flush` method, and the posted scatter-graph updates are the explicit `RunQueued` step. Interleavings beyond these steps are not modelled.
- **Floating point in the scrollbars.** The `double` arithmetic of the scrollbar mapping is idealised:
  - an exact quotient, truncated toward zero and saturated, stands for `(int)` of a `double`;
  - the nearest integer, halves up, stands for `Math.round`.

  This is not bit-exact for spans beyond 2^53. The scatter graph's `double[]` series are modelled as integers for the same reason.
- **Zoom, pan and x-to-time conversion.** They only delegate to `TimeGraphControl`, which is not part of this model.
- **Foreign services of the scatter graph.** The trace manager, the analysis-module lookup and analysis scheduling are external:
  - `updateModel` receives the current window as a parameter;
  - `setData` and the trace signal handlers are not modelled;
  - timestamps are already in nanoseconds, so `normalize` is the identity.
- **The base chart viewer.** `super.setWindowRange` is modelled as storing the window only; any update the base viewer schedules on its own is not modelled. `clearContent` is modelled as emptying both series.
- **The segment store.** `TreeMapStore` is modelled as the sequence of segments added, in insertion order. Its re-sorting and its merging of identical segments are not modelled.
- **Experiment locations and `TmfContext` internals.** `TmfExperimentLocation`/`TmfLocationArray` construction, location cloning, and `TmfContext`'s own `equals` and `clone` are foreign types:
  - the base `equals` is the boolean parameter `superEquals`;
  - a sub-context's `equals` is the function parameter `eq`;
  - `clone` gives an equal value.
- **Null entries.** A null element in the entries array, or among an entry's children, cannot be represented. Java would throw a null pointer exception at `entry.hasTimeEvents()` there.
- **Null arrays.** A null `contexts` array passed to the `TmfExperimentContext` constructor is not modelled; the model's array parameter is non-null.
- **Entry identity.** Entries are values, so a selected entry is compared by value where Java compares references (`widgetSelected`). Listeners are modelled as numbers, and their calls as entries of the `delivered` log. A listener that re-enters the viewer during a fire is not modelled.
- **A control that does not exist yet.** `setInput` before the control exists (`fTimeGraphCtrl == null`) is not modelled; the viewer model starts after `createDataViewer`. The vertical scrollbar and the top index are modelled only as the pure function `VerticalScroll`, because the control that holds the top index is not shown.
- TimeGraph.TimeGraphViewer.SetStartFinishTimeInt: the window is tied to `ClampWindow`. The "inside the bounds, minimum interval or upper bound" promise is proved about `ClampWindow` in `ClampWindowInBounds`. It assumes valid bounds whose span and `bound1 + minTimeInterval` fit in a long; wider bounds wrap, as `ClampWindowWrapsAtLongMax` shows.
- TimeGraph.TimeGraphViewer.EnsureVisibleAt: the bounds and length properties of `ensureVisible` are proved about `EnsureVisible`. They need bounds and times of magnitude at most 3e18 so that the centring sums do not wrap.
