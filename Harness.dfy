/** The harness's results lifecycle: one collection of cycle events, reset
    when a suite starts, grown by one event per cycle and ranked when the
    suite completes; and the chain that runs the suites one after another. */
module Harness {
  import opened Ranking
  import opened Suites

  /** What the harness hands to its output: a suite's start message, and a
      completed suite's ranked results. */
  datatype Report = Started(message: string) | Reported(ranking: seq<CycleEvent>)

  /** The timing engine, as the harness relies on it: one cycle event per
      registered candidate, in registration order; `hz(k)` is the throughput
      the engine measured for the `k`-th candidate. */
  function Cycles(s: Suite, hz: nat -> real): seq<CycleEvent>
  {
    seq(|s.candidates|, k requires 0 <= k < |s.candidates| => CycleEvent(s.candidates[k], hz(k)))
  }

  /** A ranking of a suite's cycles reports every candidate once. */
  lemma RankingReportsEveryCandidate(ranked: seq<CycleEvent>, s: Suite, hz: nat -> real)
    requires IsRanking(ranked, Cycles(s, hz))
    ensures |ranked| == |s.candidates|
    ensures forall e :: e in ranked <==> exists k :: 0 <= k < |s.candidates| && e == CycleEvent(s.candidates[k], hz(k))
  {
    var events := Cycles(s, hz);
    assert |events| == |s.candidates|;
    assert |multiset(ranked)| == |multiset(events)|;
    forall e
      ensures e in ranked <==> exists k :: 0 <= k < |s.candidates| && e == CycleEvent(s.candidates[k], hz(k))
    {
      assert e in ranked <==> e in multiset(ranked);
      assert e in events <==> e in multiset(events);
      if e in events {
        var k :| 0 <= k < |events| && events[k] == e;
      }
      if k :| 0 <= k < |s.candidates| && e == CycleEvent(s.candidates[k], hz(k)) {
        assert events[k] == e;
      }
    }
  }

  /** The harness state: the module-level `results` collection and what has
      been reported so far. */
  class Benchmark {
    var results: seq<CycleEvent>
    var log: seq<Report>

    /** `results` starts out empty and nothing has been reported. */
    constructor ()
      ensures results == [] && log == []
    {
      results := [];
      log := [];
    }

    /** A suite's start handler: prints the suite's message and resets the
        collection. */
    method Start(message: string)
      modifies this
      ensures results == []
      ensures log == old(log) + [Started(message)]
    {
      log := log + [Started(message)];
      results := [];
    }

    /** The cycle handler: appends the event at the end, leaving every
        earlier event where it was. */
    method Cycle(e: CycleEvent)
      modifies this
      ensures results == old(results) + [e]
      ensures log == old(log)
    {
      results := results + [e];
    }

    /** The complete handler: ranks the collection in place, neither adding
        nor removing an event, and reports the ranking. */
    method Complete()
      modifies this
      ensures IsRanking(results, old(results))
      ensures |results| == |old(results)|
      ensures log == old(log) + [Reported(results)]
    {
      var events := results;
      var buffer := new CycleEvent[|events|](k requires 0 <= k < |events| => events[k]);
      assert buffer[..] == events;
      var ranked := SortDescResults(buffer);
      results := ranked[..];
      assert |multiset(results)| == |multiset(events)|;
      log := log + [Reported(results)];
    }

    /** One suite, start to completion: a start, one cycle per candidate in
        registration order, then the ranking. */
    method RunSuite(s: Suite, hz: nat -> real)
      modifies this
      ensures IsRanking(results, Cycles(s, hz))
      ensures |results| == |s.candidates|
      ensures log == old(log) + [Started(s.startMessage), Reported(results)]
    {
      Start(s.startMessage);
      var events := Cycles(s, hz);
      var k := 0;
      while k < |s.candidates|
        invariant 0 <= k <= |s.candidates|
        invariant results == events[..k]
        invariant log == old(log) + [Started(s.startMessage)]
      {
        Cycle(CycleEvent(s.candidates[k], hz(k)));
        k := k + 1;
      }
      assert results == events;
      Complete();
    }

    /** The five suites chained one after another: each suite's start comes
        only after the previous suite's ranking has been reported.
        `hz(i)(k)` is the throughput of the `k`-th candidate of suite `i`. */
    method RunChain(hz: nat -> nat -> real)
      modifies this
      ensures |log| == |old(log)| + 2 * |ChainedSuites|
      ensures log[..|old(log)|] == old(log)
      ensures forall i :: 0 <= i < |ChainedSuites| ==>
        && log[|old(log)| + 2 * i] == Started(ChainedSuites[i].startMessage)
        && log[|old(log)| + 2 * i + 1].Reported?
        && IsRanking(log[|old(log)| + 2 * i + 1].ranking, Cycles(ChainedSuites[i], hz(i)))
        && |log[|old(log)| + 2 * i + 1].ranking| == |ChainedSuites[i].candidates|
      ensures IsRanking(results, Cycles(ChainedSuites[4], hz(4)))
    {
      ghost var before := log;
      RunSuite(ChainedSuites[0], hz(0));
      ghost var r0 := results;
      RunSuite(ChainedSuites[1], hz(1));
      ghost var r1 := results;
      RunSuite(ChainedSuites[2], hz(2));
      ghost var r2 := results;
      RunSuite(ChainedSuites[3], hz(3));
      ghost var r3 := results;
      RunSuite(ChainedSuites[4], hz(4));
      ghost var r4 := results;
      ghost var rankings := [r0, r1, r2, r3, r4];
      assert log == before
        + [Started(ChainedSuites[0].startMessage), Reported(r0)]
        + [Started(ChainedSuites[1].startMessage), Reported(r1)]
        + [Started(ChainedSuites[2].startMessage), Reported(r2)]
        + [Started(ChainedSuites[3].startMessage), Reported(r3)]
        + [Started(ChainedSuites[4].startMessage), Reported(r4)];
      forall i | 0 <= i < |ChainedSuites|
        ensures log[|before| + 2 * i] == Started(ChainedSuites[i].startMessage)
        ensures log[|before| + 2 * i + 1] == Reported(rankings[i])
      {
      }
    }
  }
}
