/** The five benchmark suites: what each one registers and what every one
    of its candidates is asked to compute. */
module Suites {
  import opened Workloads

  /** The workload a suite memoizes, applied to the suite's fixed input. */
  datatype Workload =
    | SinglePrimitive(number: int)
    | MultiplePrimitive(number: int, isComplete: bool)
    | MultipleObject(number: int, check: Check)
    | DeepEqual(arg: NumberArg)

  /** The value an uncached call of the workload returns; a correct cache
      returns the same value on every hit. */
  function Evaluate(w: Workload): int
  {
    match w
    case SinglePrimitive(n) => Fibonacci(n)
    case MultiplePrimitive(n, b) => FibonacciMultiplePrimitive(n, b)
    case MultipleObject(n, c) => FibonacciMultipleObject(n, c)
    case DeepEqual(a) => FibonacciMultipleDeepEqual(a)
  }

  /** A suite: the message its start handler prints, the candidate names in
      registration order and the workload every candidate is called with. */
  datatype Suite = Suite(startMessage: string, candidates: seq<string>, workload: Workload)

  /** The fixed Fibonacci depth every suite uses. */
  const FibonacciNumber: int := 35

  /** Candidates of the two single-parameter suites. */
  const SingleCandidates: seq<string> :=
    ["addy-osmani", "lodash", "lru-memoize", "memoizee", "memoizerific", "ramda",
     "underscore", "iMemoized", "micro-memoize", "moize", "fast-memoize", "namomemoize"]

  function SingleParameterSuite(n: int): Suite
  {
    Suite("Starting cycles for functions with a single primitive parameter...",
          SingleCandidates, SinglePrimitive(n))
  }

  /** Announced as an object-parameter suite, but its input is `Number(35)`,
      a primitive, passed to the single-primitive workload. */
  function SingleParameterObjectSuite(n: int): Suite
  {
    Suite("Starting cycles for functions with a single object parameter...",
          SingleCandidates, SinglePrimitive(n))
  }

  function MultiplePrimitiveSuite(n: int): Suite
  {
    Suite("Starting cycles for functions with multiple parameters that contain only primitives...",
          ["addy-osmani", "lru-memoize", "memoizee", "iMemoized", "memoizerific",
           "fast-memoize", "micro-memoize", "moize", "nanomemoize"],
          MultiplePrimitive(n, false))
  }

  function MultipleObjectSuite(n: int): Suite
  {
    Suite("Starting cycles for functions with multiple parameters that contain objects...",
          ["addy-osmani", "lru-memoize", "memoizee", "memoizerific", "fast-memoize",
           "micro-memoize", "moize", "nanomemoize"],
          MultipleObject(n, Check(false)))
  }

  function AlternativeOptionsSuite(n: int): Suite
  {
    Suite("Starting cycles for alternative cache types...",
          ["micro-memoize deep equals (lodash isEqual)",
           "micro-memoize deep equals (fast-equals deepEqual)",
           "micro-memoize deep equals (hash-it isEqual)",
           "nanomemoize deep equals (lodash isEqual)",
           "nanomemoize deep equals (fast-equals deepEqual)"],
          DeepEqual(NumberArg(n)))
  }

  /** The suites in the order they are chained, the custom-equality suite
      last, each given the Fibonacci depth `n`. */
  function Chain(n: int): seq<Suite>
  {
    [SingleParameterSuite(n), SingleParameterObjectSuite(n), MultiplePrimitiveSuite(n),
     MultipleObjectSuite(n), AlternativeOptionsSuite(n)]
  }

  /** The chain as the harness runs it. */
  const ChainedSuites: seq<Suite> := Chain(FibonacciNumber)

  /** No name occurs twice. */
  ghost predicate Distinct(names: seq<string>)
  {
    forall p, q :: 0 <= p < q < |names| ==> names[p] != names[q]
  }

  lemma SingleCandidatesDistinct()
    ensures |SingleCandidates| == 12 && Distinct(SingleCandidates)
  {
  }

  /** The chain registers 12, 12, 9, 8 and 5 candidates, no suite under the
      same name twice. */
  lemma ChainCandidates(n: int)
    ensures |Chain(n)| == 5
    ensures |Chain(n)[0].candidates| == 12 && |Chain(n)[1].candidates| == 12
    ensures |Chain(n)[2].candidates| == 9 && |Chain(n)[3].candidates| == 8
    ensures |Chain(n)[4].candidates| == 5
    ensures forall k :: 0 <= k < |Chain(n)| ==> Distinct(Chain(n)[k].candidates)
  {
    SingleCandidatesDistinct();
  }

  /** The four calling shapes, each given the number `n` the way its suite
      passes it, compute the same value. */
  lemma {:induction false} ShapesComputeTheSameValue(n: int)
    requires n >= 2
    ensures Evaluate(MultiplePrimitive(n, false)) == Fibonacci(n)
    ensures Evaluate(MultipleObject(n, Check(false))) == Fibonacci(n)
    ensures Evaluate(DeepEqual(NumberArg(n))) == Fibonacci(n)
  {
    MultiplePrimitiveMeaning(n, false);
    MultipleObjectAgreesWithPrimitive(n, false);
    DeepEqualAgreesWithFibonacci(n);
  }

  /** Whatever their calling shape, all suites of the chain ask their
      candidates for the same number, the `n`-th Fibonacci number. */
  lemma ChainComputesTheSameValue(n: int)
    requires n >= 2
    ensures forall k :: 0 <= k < |Chain(n)| ==> Evaluate(Chain(n)[k].workload) == Fibonacci(n)
  {
    ShapesComputeTheSameValue(n);
  }

  /** The chain as run, at depth 35, computes the 35th Fibonacci number in
      every suite. */
  lemma ChainedSuitesComputeTheSameValue()
    ensures forall k :: 0 <= k < |ChainedSuites| ==>
      Evaluate(ChainedSuites[k].workload) == Fibonacci(FibonacciNumber)
  {
    ChainComputesTheSameValue(FibonacciNumber);
  }
}
