/** Ranking a suite's cycle events by throughput, fastest first. */
module Ranking {

  /** One cycle event as the harness keeps it: the candidate's name and the
      operations per second the timing engine measured for it. Only `<` is
      ever applied to `hz`. */
  datatype CycleEvent = CycleEvent(name: string, hz: real)

  /** The comparator handed to the array sort: a positive answer puts `b`
      before `a`. It never answers 0, so two events with equal throughput
      each claim to go first. */
  function Compare(a: CycleEvent, b: CycleEvent): int
  {
    if a.hz < b.hz then 1 else -1
  }

  /** Throughput never increases from left to right. */
  ghost predicate SortedDesc(s: seq<CycleEvent>)
  {
    forall p, q :: 0 <= p < q < |s| ==> s[p].hz >= s[q].hz
  }

  /** `ranked` holds exactly the events of `events`, fastest first. */
  ghost predicate IsRanking(ranked: seq<CycleEvent>, events: seq<CycleEvent>)
  {
    SortedDesc(ranked) && multiset(ranked) == multiset(events)
  }

  /** The first `n` events of `a` are in descending throughput order. */
  ghost predicate PrefixSorted(a: array<CycleEvent>, n: int)
    reads a
  {
    forall p, q :: 0 <= p < q < n && q < a.Length ==> a[p].hz >= a[q].hz
  }

  /** Sorts the events in place, by descending throughput, and hands back
      the same array. Ties keep no promised order: the comparator answers -1
      for equal `hz` both ways, which leaves the order of ties to the engine.
      This body happens to keep ties in input order; that stability is not
      part of the model, and the contract does not state it. */
  method SortDescResults(a: array<CycleEvent>) returns (r: array<CycleEvent>)
    modifies a
    ensures r == a
    ensures IsRanking(a[..], old(a[..]))
  {
    var i := 0;
    while i < a.Length
      invariant 0 <= i <= a.Length
      invariant PrefixSorted(a, i)
      invariant multiset(a[..]) == multiset(old(a[..]))
    {
      InsertLast(a, i);
      i := i + 1;
    }
    r := a;
  }

  /** One insertion-sort step: moves `a[i]` left past every event the
      comparator puts after it, so that the first `i + 1` events are ranked. */
  method InsertLast(a: array<CycleEvent>, i: int)
    requires 0 <= i < a.Length
    requires PrefixSorted(a, i)
    modifies a
    ensures PrefixSorted(a, i + 1)
    ensures multiset(a[..]) == multiset(old(a[..]))
  {
    var j := i;
    while j > 0 && Compare(a[j - 1], a[j]) > 0
      invariant 0 <= j <= i
      invariant forall p, q :: 0 <= p < q <= i && p != j && q != j ==> a[p].hz >= a[q].hz
      invariant forall q :: j < q <= i ==> a[j].hz > a[q].hz
      invariant multiset(a[..]) == multiset(old(a[..]))
    {
      SwapLeft(a, j);
      j := j - 1;
    }
  }

  /** Exchanges `a[j - 1]` and `a[j]`. */
  method SwapLeft(a: array<CycleEvent>, j: int)
    requires 0 < j < a.Length
    modifies a
    ensures a[j - 1] == old(a[j]) && a[j] == old(a[j - 1])
    ensures forall k :: 0 <= k < a.Length && k != j - 1 && k != j ==> a[k] == old(a[k])
    ensures multiset(a[..]) == multiset(old(a[..]))
  {
    a[j - 1], a[j] := a[j], a[j - 1];
  }
}
