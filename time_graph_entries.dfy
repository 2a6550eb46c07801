/** The entry forest that drives a time graph, and the min/max fold over it
    that derives the time bounds (`setTimeRange(ITimeGraphEntry[])`). */
module TimeGraphEntries {
  import opened JavaArith
  import opened TimeWindow
  import opened Wrappers

  /** A time graph entry: whether it has time events of its own, its start and
      end times (`DEFAULT` when unknown) and its children. */
  datatype Entry = Entry(hasTimeEvents: bool, startTime: int64, endTime: int64, children: seq<Entry>)

  /** The entry contributes its start time to the lower bound. */
  predicate HasStart(e: Entry) { e.hasTimeEvents && e.startTime != DEFAULT }

  /** The entry contributes its end time to the upper bound. */
  predicate HasEnd(e: Entry) { e.hasTimeEvents && e.endTime != DEFAULT }

  /** `x` occurs in the forest `es`, at any depth. */
  ghost predicate InForest(x: Entry, es: seq<Entry>)
    decreases es
  {
    exists i :: 0 <= i < |es| && InTree(x, es[i])
  }

  /** `x` is `e` or occurs below it. */
  ghost predicate InTree(x: Entry, e: Entry)
    decreases e
  {
    x == e || InForest(x, e.children)
  }

  /** The lower bound after visiting `e` and its descendants, from `acc`. */
  function MinStartTree(acc: int64, e: Entry): int64
    decreases e
  {
    var here := if HasStart(e) then Min(e.startTime, acc) else acc;
    MinStartForest(here, e.children)
  }

  /** The lower bound after visiting the forest `es` in order, from `acc`. */
  function MinStartForest(acc: int64, es: seq<Entry>): int64
    decreases es
  {
    if es == [] then acc else MinStartForest(MinStartTree(acc, es[0]), es[1..])
  }

  /** The upper bound after visiting `e` and its descendants, from `acc`. */
  function MaxEndTree(acc: int64, e: Entry): int64
    decreases e
  {
    var here := if HasEnd(e) then Max(e.endTime, acc) else acc;
    MaxEndForest(here, e.children)
  }

  function MaxEndForest(acc: int64, es: seq<Entry>): int64
    decreases es
  {
    if es == [] then acc else MaxEndForest(MaxEndTree(acc, es[0]), es[1..])
  }

  lemma {:induction false} InForestCons(x: Entry, es: seq<Entry>)
    requires es != []
    ensures InForest(x, es) <==> InTree(x, es[0]) || InForest(x, es[1..])
  {
    if InForest(x, es) {
      var i :| 0 <= i < |es| && InTree(x, es[i]);
      if i > 0 {
        assert es[1..][i - 1] == es[i];
      }
    }
    if InForest(x, es[1..]) {
      var j :| 0 <= j < |es[1..]| && InTree(x, es[1..][j]);
      assert es[j + 1] == es[1..][j];
    }
    if InTree(x, es[0]) {
      assert 0 < |es| && InTree(x, es[0]);
    }
  }

  /** The lower-bound fold is the minimum of the seed and of the start time of
      every entry at any depth that has time events and a known start, whether
      or not its ancestors have events. */
  lemma {:induction false} MinStartTreeIsMinimum(acc: int64, e: Entry)
    ensures var r := MinStartTree(acc, e);
      && r <= acc
      && (forall x :: InTree(x, e) && HasStart(x) ==> r <= x.startTime)
      && (r == acc || exists x :: InTree(x, e) && HasStart(x) && r == x.startTime)
    decreases e, 1
  {
    var here := if HasStart(e) then Min(e.startTime, acc) else acc;
    MinStartForestIsMinimum(here, e.children);
  }

  lemma {:induction false} MinStartForestIsMinimum(acc: int64, es: seq<Entry>)
    ensures var r := MinStartForest(acc, es);
      && r <= acc
      && (forall x :: InForest(x, es) && HasStart(x) ==> r <= x.startTime)
      && (r == acc || exists x :: InForest(x, es) && HasStart(x) && r == x.startTime)
    decreases es, 0
  {
    if es != [] {
      var mid := MinStartTree(acc, es[0]);
      MinStartTreeIsMinimum(acc, es[0]);
      MinStartForestIsMinimum(mid, es[1..]);
      forall x | InTree(x, es[0]) || InForest(x, es[1..])
        ensures InForest(x, es)
      {
        InForestCons(x, es);
      }
      forall x | InForest(x, es)
        ensures InTree(x, es[0]) || InForest(x, es[1..])
      {
        InForestCons(x, es);
      }
    }
  }

  /** The upper-bound fold is the maximum of the seed and of every known end
      time at any depth. */
  lemma {:induction false} MaxEndTreeIsMaximum(acc: int64, e: Entry)
    ensures var r := MaxEndTree(acc, e);
      && r >= acc
      && (forall x :: InTree(x, e) && HasEnd(x) ==> r >= x.endTime)
      && (r == acc || exists x :: InTree(x, e) && HasEnd(x) && r == x.endTime)
    decreases e, 1
  {
    var here := if HasEnd(e) then Max(e.endTime, acc) else acc;
    MaxEndForestIsMaximum(here, e.children);
  }

  lemma {:induction false} MaxEndForestIsMaximum(acc: int64, es: seq<Entry>)
    ensures var r := MaxEndForest(acc, es);
      && r >= acc
      && (forall x :: InForest(x, es) && HasEnd(x) ==> r >= x.endTime)
      && (r == acc || exists x :: InForest(x, es) && HasEnd(x) && r == x.endTime)
    decreases es, 0
  {
    if es != [] {
      var mid := MaxEndTree(acc, es[0]);
      MaxEndTreeIsMaximum(acc, es[0]);
      MaxEndForestIsMaximum(mid, es[1..]);
      forall x | InTree(x, es[0]) || InForest(x, es[1..])
        ensures InForest(x, es)
      {
        InForestCons(x, es);
      }
      forall x | InForest(x, es)
        ensures InTree(x, es[0]) || InForest(x, es[1..])
      {
        InForestCons(x, es);
      }
    }
  }

  /** Visiting one more root continues the fold from where it stopped; this
      is how the loop over the roots (and over each entry's children)
      accumulates it. */
  lemma {:induction false} MinStartForestSnoc(acc: int64, es: seq<Entry>, e: Entry)
    ensures MinStartForest(acc, es + [e]) == MinStartTree(MinStartForest(acc, es), e)
    decreases es
  {
    if es == [] {
      assert es + [e] == [e];
    } else {
      assert (es + [e])[0] == es[0];
      assert (es + [e])[1..] == es[1..] + [e];
      MinStartForestSnoc(MinStartTree(acc, es[0]), es[1..], e);
    }
  }

  lemma {:induction false} MaxEndForestSnoc(acc: int64, es: seq<Entry>, e: Entry)
    ensures MaxEndForest(acc, es + [e]) == MaxEndTree(MaxEndForest(acc, es), e)
    decreases es
  {
    if es == [] {
      assert es + [e] == [e];
    } else {
      assert (es + [e])[0] == es[0];
      assert (es + [e])[1..] == es[1..] + [e];
      MaxEndForestSnoc(MaxEndTree(acc, es[0]), es[1..], e);
    }
  }

  /** The bounds that `setTimeRange(entries)` computes from the pinned times
      `beginTime`/`endTime`, the entries being absent (`None`, Java's null) or
      a forest. */
  function DeriveBounds(beginTime: int64, endTime: int64, entries: Option<seq<Entry>>): TimeRange
  {
    var pinned := PinnedBounds(beginTime, endTime);
    if beginTime != DEFAULT && endTime != DEFAULT then pinned
    else if entries.None? || entries.value == [] then pinned
    else
      var seed0: int64 := if pinned.start == DEFAULT then LONG_MAX else pinned.start;
      var seed1: int64 := if pinned.end == DEFAULT then LONG_MIN else pinned.end;
      TimeRange(if beginTime == DEFAULT then MinStartForest(seed0, entries.value) else seed0,
                if endTime == DEFAULT then MaxEndForest(seed1, entries.value) else seed1)
  }

  /** What the bounds fold promises. An unpinned side folds over every
      qualifying entry at any depth, seeded by the other side's pinned time
      when there is one and by `Long.MAX_VALUE` (`Long.MIN_VALUE`) otherwise. */
  lemma DeriveBoundsProperties(beginTime: int64, endTime: int64, entries: Option<seq<Entry>>)
    ensures var r := DeriveBounds(beginTime, endTime, entries);
      var pinned := PinnedBounds(beginTime, endTime);
      var seed0 := if endTime == DEFAULT then LONG_MAX else endTime;
      var seed1 := if beginTime == DEFAULT then LONG_MIN else beginTime;
      && (beginTime != DEFAULT && endTime != DEFAULT ==> r == TimeRange(beginTime, endTime))
      && (entries.None? || entries == Some([]) ==> r == pinned)
      && (beginTime != DEFAULT ==> r.start == beginTime)
      && (endTime != DEFAULT ==> r.end == endTime)
      && (beginTime == DEFAULT && entries.Some? && entries.value != [] ==>
            && r.start <= seed0
            && (forall x :: InForest(x, entries.value) && HasStart(x) ==> r.start <= x.startTime)
            && (r.start == seed0 || exists x :: InForest(x, entries.value) && HasStart(x) && r.start == x.startTime))
      && (endTime == DEFAULT && entries.Some? && entries.value != [] ==>
            && r.end >= seed1
            && (forall x :: InForest(x, entries.value) && HasEnd(x) ==> r.end >= x.endTime)
            && (r.end == seed1 || exists x :: InForest(x, entries.value) && HasEnd(x) && r.end == x.endTime))
  {
    if entries.Some? && entries.value != [] {
      var pinned := PinnedBounds(beginTime, endTime);
      var seed0: int64 := if pinned.start == DEFAULT then LONG_MAX else pinned.start;
      var seed1: int64 := if pinned.end == DEFAULT then LONG_MIN else pinned.end;
      MinStartForestIsMinimum(seed0, entries.value);
      MaxEndForestIsMaximum(seed1, entries.value);
    }
  }

  /** With no entry that has events, the bounds stay on their seeds, inverted. */
  lemma DeriveBoundsWithoutEvents()
    ensures DeriveBounds(DEFAULT, DEFAULT, Some([Entry(false, 5, 9, [])])) == TimeRange(LONG_MAX, LONG_MIN)
  {
  }

  /** Children of an entry that has no events of its own are still visited. */
  lemma DeriveBoundsVisitsChildren()
    ensures DeriveBounds(DEFAULT, DEFAULT, Some([Entry(false, 1, 100, [Entry(true, 5, 9, [])])]))
         == TimeRange(5, 9)
  {
  }
}
