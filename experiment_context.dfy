/** The experiment context: one sub-context per trace of an experiment, the
    next event read from each trace, the index of the trace the last event
    was consumed from, and the aggregate rank. Sub-contexts are abstracted to
    their rank and hash code; their `equals` is a parameter. */
module ExperimentContext {
  import opened JavaArith
  import opened Wrappers

  /** `NO_TRACE`: no event consumed yet. */
  const NO_TRACE: int := -1

  /** A trace's context, as far as the experiment uses it. */
  datatype SubContext = SubContext(rank: int64, hash: int32)

  /** A trace event; only whether a slot holds one matters here. */
  datatype Event = Event(timestamp: int64)

  /** The rank a slot contributes: its context's rank, nothing for null. */
  function RankOf(c: Option<SubContext>): int
  {
    if c.None? then 0 else c.value.rank
  }

  /** The exact sum of the ranks of the non-null sub-contexts. */
  function RankSum(cs: seq<Option<SubContext>>): int
  {
    if cs == [] then 0 else RankSum(cs[..|cs| - 1]) + RankOf(cs[|cs| - 1])
  }

  /** `RankSum` splits over a concatenation. */
  lemma {:induction false} RankSumConcat(a: seq<Option<SubContext>>, b: seq<Option<SubContext>>)
    ensures RankSum(a + b) == RankSum(a) + RankSum(b)
    decreases |b|
  {
    if b == [] {
      assert a + b == a;
    } else {
      var b' := b[..|b| - 1];
      assert (a + b)[..|a + b| - 1] == a + b';
      assert (a + b)[|a + b| - 1] == b[|b| - 1];
      RankSumConcat(a, b');
    }
  }

  /** Null slots, wherever they are, add nothing to the rank. */
  lemma RankSumSkipsNull(a: seq<Option<SubContext>>, b: seq<Option<SubContext>>)
    ensures RankSum(a + [None] + b) == RankSum(a + b)
  {
    RankSumConcat(a + [None], b);
    RankSumConcat(a, b);
  }

  /** With non-negative ranks the aggregate is at least each sub-context's. */
  lemma {:induction false} RankSumBounds(cs: seq<Option<SubContext>>, i: int)
    requires forall k :: 0 <= k < |cs| ==> RankOf(cs[k]) >= 0
    requires 0 <= i < |cs|
    ensures RankOf(cs[i]) <= RankSum(cs)
  {
    var a, b := cs[..i], cs[i + 1..];
    assert cs == a + [cs[i]] + b;
    RankSumConcat(a + [cs[i]], b);
    RankSumConcat(a, [cs[i]]);
    assert [cs[i]][..0] == [];
    RankSumNonNegative(a);
    RankSumNonNegative(b);
  }

  lemma {:induction false} RankSumNonNegative(cs: seq<Option<SubContext>>)
    requires forall k :: 0 <= k < |cs| ==> RankOf(cs[k]) >= 0
    ensures RankSum(cs) >= 0
    decreases |cs|
  {
    if cs != [] {
      RankSumNonNegative(cs[..|cs| - 1]);
    }
  }

  predicate NoNull(cs: seq<Option<SubContext>>)
  {
    forall k :: 0 <= k < |cs| ==> cs[k].Some?
  }

  /** The exact value of the 17/37 hash fold over the sub-contexts' hash
      codes; `None` when a sub-context is null (Java throws). */
  function HashFold(cs: seq<Option<SubContext>>): Option<int>
  {
    if cs == [] then Some(17)
    else
      var h := HashFold(cs[..|cs| - 1]);
      if h.None? || cs[|cs| - 1].None? then None
      else Some(37 * h.value + cs[|cs| - 1].value.hash)
  }

  /** The fold fails exactly when some sub-context is null. */
  lemma {:induction false} HashFoldDefined(cs: seq<Option<SubContext>>)
    ensures HashFold(cs).Some? <==> NoNull(cs)
    decreases |cs|
  {
    if cs != [] {
      var init := cs[..|cs| - 1];
      HashFoldDefined(init);
      assert NoNull(cs) <==> NoNull(init) && cs[|cs| - 1].Some? by {
        if NoNull(init) && cs[|cs| - 1].Some? {
          forall k | 0 <= k < |cs|
            ensures cs[k].Some?
          {
            if k < |cs| - 1 {
              assert cs[k] == init[k];
            }
          }
        }
      }
    }
  }

  /** The hash code depends only on the sub-contexts' hash codes: contexts
      whose hash codes agree slot by slot hash alike. */
  lemma {:induction false} HashFoldOfHashes(a: seq<Option<SubContext>>, b: seq<Option<SubContext>>)
    requires |a| == |b|
    requires forall k :: 0 <= k < |a| ==> a[k].Some? && b[k].Some? && a[k].value.hash == b[k].value.hash
    ensures HashFold(a) == HashFold(b) && HashFold(a).Some?
    decreases |a|
  {
    if a != [] {
      var a', b' := a[..|a| - 1], b[..|b| - 1];
      forall k | 0 <= k < |a'|
        ensures a'[k].Some? && b'[k].Some? && a'[k].value.hash == b'[k].value.hash
      {
        assert a'[k] == a[k] && b'[k] == b[k];
      }
      HashFoldOfHashes(a', b');
    }
  }

  /** The element-wise comparison of `equals`, from slot `i` on: it stops at
      the first slot whose comparison is false. When the loop reaches a slot
      past the end of the other's array it throws an index exception, and at
      a null slot of this context a null pointer exception; the index test
      comes first, since Java evaluates the argument `o.fContexts[i]` before
      it calls `equals` on the (null) target. */
  function PairwiseFrom(a: seq<Option<SubContext>>, b: seq<Option<SubContext>>,
                        eq: (SubContext, Option<SubContext>) -> bool, i: nat): Result<bool>
    requires i <= |a|
    decreases |a| - i
  {
    if i == |a| then Success(true)
    else if i >= |b| then Failure(IndexOutOfBounds)
    else if a[i].None? then Failure(NullPointer)
    else if !eq(a[i].value, b[i]) then Success(false)
    else PairwiseFrom(a, b, eq, i + 1)
  }

  predicate SlotEqual(a: seq<Option<SubContext>>, b: seq<Option<SubContext>>,
                      eq: (SubContext, Option<SubContext>) -> bool, k: int)
    requires 0 <= k < |a|
  {
    a[k].Some? && k < |b| && eq(a[k].value, b[k])
  }

  /** The comparison is true exactly when every slot of this context holds a
      sub-context equal to the other's at the same index. */
  lemma {:induction false} PairwiseTrue(a: seq<Option<SubContext>>, b: seq<Option<SubContext>>,
                                       eq: (SubContext, Option<SubContext>) -> bool, i: nat)
    requires i <= |a|
    ensures PairwiseFrom(a, b, eq, i) == Success(true) <==> forall k :: i <= k < |a| ==> SlotEqual(a, b, eq, k)
    decreases |a| - i
  {
    if i < |a| {
      PairwiseTrue(a, b, eq, i + 1);
      assert (forall k :: i <= k < |a| ==> SlotEqual(a, b, eq, k))
         <==> SlotEqual(a, b, eq, i) && forall k :: i + 1 <= k < |a| ==> SlotEqual(a, b, eq, k);
    }
  }

  /** Stopping at the first mismatch: once slot `m` compares false after
      equal slots, the result is false whatever the later slots hold (nulls
      and missing slots included). */
  lemma {:induction false} PairwiseStopsAtMismatch(a: seq<Option<SubContext>>, b: seq<Option<SubContext>>,
                                                  eq: (SubContext, Option<SubContext>) -> bool, i: nat, m: nat)
    requires i <= m < |a|
    requires forall k :: i <= k < m ==> SlotEqual(a, b, eq, k)
    requires a[m].Some? && m < |b| && !eq(a[m].value, b[m])
    ensures PairwiseFrom(a, b, eq, i) == Success(false)
    decreases m - i
  {
    if i < m {
      assert SlotEqual(a, b, eq, i);
      PairwiseStopsAtMismatch(a, b, eq, i + 1, m);
    }
  }

  /** The slots past the other's end are reached only when the shared prefix
      compares equal; the extra slots of a longer other are never looked at. */
  lemma {:induction false} PairwiseIgnoresExtra(a: seq<Option<SubContext>>, b: seq<Option<SubContext>>,
                                               extra: seq<Option<SubContext>>,
                                               eq: (SubContext, Option<SubContext>) -> bool, i: nat)
    requires i <= |a| <= |b|
    ensures PairwiseFrom(a, b + extra, eq, i) == PairwiseFrom(a, b, eq, i)
    decreases |a| - i
  {
    if i < |a| {
      assert (b + extra)[i] == b[i];
      PairwiseIgnoresExtra(a, b, extra, eq, i + 1);
    }
  }

  /** `equals` agrees with `hashCode`: when equal sub-contexts have equal
      hash codes, two contexts with arrays of one length that compare equal
      hash alike. */
  lemma EqualContextsHashAlike(a: seq<Option<SubContext>>, b: seq<Option<SubContext>>,
                               eq: (SubContext, Option<SubContext>) -> bool)
    requires forall x, y :: eq(x, y) ==> y.Some? && x.hash == y.value.hash
    requires |a| == |b| && PairwiseFrom(a, b, eq, 0) == Success(true)
    ensures HashFold(a).Some? && HashFold(a) == HashFold(b)
  {
    PairwiseTrue(a, b, eq, 0);
    forall k | 0 <= k < |a|
      ensures a[k].Some? && b[k].Some? && a[k].value.hash == b[k].value.hash
    {
      assert SlotEqual(a, b, eq, k);
    }
    HashFoldOfHashes(a, b);
  }

  /** A `TmfExperimentContext`. */
  class ExperimentContext {
    /** `fContexts`: the array passed at construction, not a copy. */
    const contexts: array<Option<SubContext>>
    /** `fEvents`: the next event of each trace, null until read. */
    var events: array<Option<Event>>
    /** The context's rank, kept by the base context. */
    var rank: int64
    /** `lastTraceRead`. */
    var lastTraceRead: int32

    /** `TmfExperimentContext(contexts)`: the rank is the `long` sum of the
        non-null sub-contexts' ranks; the events array is new, as long as the
        contexts and empty. */
    constructor (contexts: array<Option<SubContext>>)
      ensures this.contexts == contexts
      ensures fresh(events) && events.Length == contexts.Length
      ensures forall i :: 0 <= i < events.Length ==> events[i].None?
      ensures rank == WrapLong(RankSum(contexts[..]))
      ensures lastTraceRead == NO_TRACE
    {
      var r: int64 := 0;
      for i := 0 to contexts.Length
        invariant r == WrapLong(RankSum(contexts[..i]))
      {
        assert contexts[..i + 1][..i] == contexts[..i];
        WrapLongAdd(RankSum(contexts[..i]), RankOf(contexts[i]));
        if contexts[i].Some? {
          r := LAdd(r, contexts[i].value.rank);
        }
      }
      assert contexts[..contexts.Length] == contexts[..];
      this.contexts := contexts;
      events := new Option<Event>[contexts.Length](_ => None);
      rank := r;
      lastTraceRead := NO_TRACE;
    }

    /** `cloneContexts()`: a new array holding a clone of every sub-context;
        a null sub-context makes it throw. */
    method CloneContexts() returns (r: Result<array<Option<SubContext>>>)
      ensures r.Success? <==> NoNull(contexts[..])
      ensures r.Success? ==> fresh(r.value) && r.value[..] == contexts[..]
    {
      var cloned := new Option<SubContext>[contexts.Length](_ => None);
      for i := 0 to contexts.Length
        invariant forall k :: 0 <= k < i ==> contexts[k].Some? && cloned[k] == contexts[k]
      {
        if contexts[i].None? {
          return Failure(NullPointer);
        }
        cloned[i] := contexts[i];
      }
      return Success(cloned);
    }

    /** `TmfExperimentContext(other)`: a context over clones of the other's
        sub-contexts that shares its events array and takes its rank and
        last trace. */
    static method CopyOf(other: ExperimentContext) returns (r: Result<ExperimentContext>)
      ensures r.Success? <==> NoNull(other.contexts[..])
      ensures r.Success? ==>
        var c := r.value;
        && fresh(c) && fresh(c.contexts)
        && c.contexts[..] == other.contexts[..]
        && c.events == other.events
        && c.rank == other.rank
        && c.lastTraceRead == other.lastTraceRead
    {
      var cloned := other.CloneContexts();
      if cloned.Failure? {
        return Failure(cloned.error);
      }
      var c := new ExperimentContext(cloned.value);
      c.events := other.events;
      c.rank := other.rank;
      c.SetLastTrace(other.lastTraceRead);
      return Success(c);
    }

    /** `getLastTrace()`. */
    method GetLastTrace() returns (r: int32)
      ensures r == lastTraceRead
    {
      return lastTraceRead;
    }

    /** `setLastTrace(newIndex)`. */
    method SetLastTrace(newIndex: int32)
      modifies this`lastTraceRead
      ensures lastTraceRead == newIndex
    {
      lastTraceRead := newIndex;
    }

    /** `hashCode()`: the fold `h = 37 * h + hash` from 17 over the
        sub-contexts, on Java ints; a null sub-context makes it throw. */
    method HashCode() returns (r: Result<int32>)
      ensures r.Success? <==> NoNull(contexts[..])
      ensures r.Success? ==> HashFold(contexts[..]).Some? && r.value == WrapInt(HashFold(contexts[..]).value)
      ensures r.Failure? ==> r.error == NullPointer
    {
      HashFoldDefined(contexts[..]);
      var result: int32 := 17;
      for i := 0 to contexts.Length
        invariant HashFold(contexts[..i]).Some?
        invariant result == WrapInt(HashFold(contexts[..i]).value)
      {
        assert contexts[..i + 1][..i] == contexts[..i];
        if contexts[i].None? {
          assert !NoNull(contexts[..]) by {
            assert contexts[..][i].None?;
          }
          return Failure(NullPointer);
        }
        WrapIntStep(HashFold(contexts[..i]).value, contexts[i].value.hash);
        result := IAdd(IMul(37, result), contexts[i].value.hash);
      }
      assert contexts[..contexts.Length] == contexts[..];
      return Success(result);
    }

    /** `equals(other)`: true for this very context; otherwise false unless
        the base context's `equals` (`superEquals`) holds and the other is an
        experiment context, and then the element-wise comparison. */
    method Equals(other: object?, superEquals: bool, eq: (SubContext, Option<SubContext>) -> bool)
      returns (r: Result<bool>)
      ensures other == this ==> r == Success(true)
      ensures other != this && (!superEquals || !(other is ExperimentContext)) ==> r == Success(false)
      ensures other != this && superEquals && other is ExperimentContext ==>
        r == PairwiseFrom(contexts[..], (other as ExperimentContext).contexts[..], eq, 0)
    {
      if this == other {
        return Success(true);
      }
      if !superEquals {
        return Success(false);
      }
      if !(other is ExperimentContext) {
        return Success(false);
      }
      var o := other as ExperimentContext;
      ghost var a, b := contexts[..], o.contexts[..];
      var isEqual := true;
      var i := 0;
      while isEqual && i < contexts.Length
        invariant 0 <= i <= contexts.Length
        invariant isEqual ==> PairwiseFrom(a, b, eq, 0) == PairwiseFrom(a, b, eq, i)
        invariant !isEqual ==> PairwiseFrom(a, b, eq, 0) == Success(false)
      {
        if i >= o.contexts.Length {
          return Failure(IndexOutOfBounds);
        }
        if contexts[i].None? {
          return Failure(NullPointer);
        }
        isEqual := isEqual && eq(contexts[i].value, o.contexts[i]);
        i := i + 1;
      }
      return Success(isEqual);
    }
  }
}
