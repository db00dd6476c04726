# nano-memoize benchmark harness, modelled in Dafny

The benchmark harness of nano-memoize runs five suites of memoizer
candidates one after another. Each suite wraps a recursive Fibonacci
workload with every candidate library, times each candidate, collects one
cycle event per candidate in a module-level `results` array, and prints the
events ranked by throughput (`hz`), fastest first.

This project models the parts of `benchmark/index.js` that carry logic:

- `Workloads.dfy`: the four Fibonacci workloads in their calling shapes
  (one number; two primitives; a number and an `{isComplete}` record; a
  `{number}` record). Dafny proves that each one terminates for every
  integer input and every flag, including an inconsistent top-level flag
  such as `(1, false)`. The lemmas prove that the shapes compute the same
  value.
- `Ranking.dfy`: `sortDescResults`, an in-place insertion sort over an
  `array` of cycle events. It swaps neighbours exactly when the source's
  comparator (`a.hz < b.hz ? 1 : -1`) puts the right one first. It is proved
  to leave the events in non-increasing `hz` order, to keep the same events
  (a permutation), and to hand back the same array.
- `Suites.dfy`: the five suites as data. Each one has a start message,
  its candidate names in registration order, and the workload it calls
  with depth 35. The lemmas state the candidate counts (12, 12, 9, 8
  and 5, all distinct within a suite) and that every suite computes the
  35th Fibonacci number.
- `Harness.dfy`: the `results` lifecycle as a class. `Start` resets the
  collection, `Cycle` appends one event and `Complete` ranks the collection
  and reports it. `RunSuite` runs one suite, and `RunChain` runs the five
  suites in the order chained at the end of the file.

The output the harness prints (start messages and the ranked table) is
modelled as a `log` of `Report`s. The timing engine's measurements are a
parameter `hz`: `hz(k)` is the throughput of the `k`-th registered
candidate.

Three behaviours of the code that are easy to misread:

- The ranking is not promised to be stable. The comparator answers `-1`
  for equal `hz` in both argument orders, so ties keep no defined order.
  The sort contract says only "non-increasing `hz`, same events".
- The custom-equality ("alternative options") suite is part of the default
  sequence. The standalone call at `benchmark/index.js:465` is commented
  out, but line 471 chains the suite after the other four.
- The suite announced as "single object parameter" (lines 206-278) passes
  `Number(35)`, which is a primitive. It calls the single-primitive
  workload, so it is modelled exactly like the first suite.

## Model

| member | source | states |
|---|---|---|
| `Workloads.Fibonacci` | benchmark/index.js:91-93 | the workload terminates for every integer and is non-negative for every non-negative input |
| `Workloads.FibonacciMultiplePrimitive` | benchmark/index.js:95-106 | no contract of its own; Dafny proves it terminates for every number and flag (measure `FlagMeasure`), and its meaning is stated by `MultiplePrimitiveMeaning` and `MultiplePrimitiveAgreesWithFibonacci` |
| `Workloads.FibonacciMultipleObject` | benchmark/index.js:108-124 | no contract of its own; Dafny proves it terminates for every number and flag, and `MultipleObjectAgreesWithPrimitive` states its meaning |
| `Workloads.FibonacciMultipleDeepEqual` | benchmark/index.js:126-130 | no contract of its own; Dafny proves it terminates for every integer, and `DeepEqualAgreesWithFibonacci` states its meaning |
| `Workloads.FibonacciKnownValues` | benchmark/index.js:91-93 | fibonacci(0) = 0, fibonacci(1) = 1, fibonacci(10) = 55 |
| `Workloads.MultiplePrimitiveAgreesWithFibonacci` | benchmark/index.js:95-106 | with the consistent flag `number < 2`, the two-primitive workload equals fibonacci(number) for every integer |
| `Workloads.MultiplePrimitiveMeaning` | benchmark/index.js:95-106 | for every number and flag: a set flag returns the number, a clear flag returns fibonacci(n-1) + fibonacci(n-2), even below 2 |
| `Workloads.MultipleObjectAgreesWithPrimitive` | benchmark/index.js:108-124 | boxing the flag in an `{isComplete}` record gives the same value as the primitive workload for every number and flag |
| `Workloads.DeepEqualAgreesWithFibonacci` | benchmark/index.js:126-130 | the `{number}`-record workload equals fibonacci(number) for every integer |
| `Suites.Evaluate` | benchmark/index.js:132-463 | no contract of its own: the value an uncached call of a suite's workload returns; `ShapesComputeTheSameValue` and `ChainComputesTheSameValue` state it |
| `Suites.SingleParameterSuite` | benchmark/index.js:132-204 | no contract of its own: start message, the 12 candidates in registration order, `fibonacci` at depth n; `ChainCandidates` states the count |
| `Suites.SingleParameterObjectSuite` | benchmark/index.js:206-278 | no contract of its own: same candidates and workload as the first suite (its input `Number(35)` is a primitive), with the object-parameter message |
| `Suites.MultiplePrimitiveSuite` | benchmark/index.js:280-341 | no contract of its own: the 9 candidates in registration order, `fibonacciMultiplePrimitive(n, false)` |
| `Suites.MultipleObjectSuite` | benchmark/index.js:343-402 | no contract of its own: the 8 candidates in registration order, `fibonacciMultipleObject(n, {isComplete: false})` |
| `Suites.AlternativeOptionsSuite` | benchmark/index.js:404-463 | no contract of its own: the 5 custom-equality candidates, `fibonacciMultipleDeepEqual({number: n})` |
| `Suites.Chain` | benchmark/index.js:467-471 | no contract of its own: the five suites in chained order; `ChainedSuites` is `Chain(35)`, and `ChainCandidates`, `ChainComputesTheSameValue` and `Harness.Benchmark.RunChain` state what it promises |
| `Suites.ShapesComputeTheSameValue` | benchmark/index.js:95-130 | given a depth n >= 2 as the suites pass it (`(n, false)`, `(n, {isComplete: false})`, `{number: n}`), every shape computes fibonacci(n) |
| `Suites.ChainComputesTheSameValue` | benchmark/index.js:467-471 | every suite of the chain asks its candidates for fibonacci(n) |
| `Suites.ChainedSuitesComputeTheSameValue` | benchmark/index.js:132-463 | at the harness's depth 35, all five suites compute fibonacci(35) |
| `Suites.SingleCandidatesDistinct` | benchmark/index.js:151-186 | the single-parameter suites register 12 candidates under distinct names |
| `Suites.ChainCandidates` | benchmark/index.js:132-471 | the chain has five suites registering 12, 12, 9, 8 and 5 candidates, with no name registered twice in a suite |
| `Ranking.Compare` | benchmark/index.js:69-71 | no contract of its own: the comparator, 1 when `a.hz < b.hz` and -1 otherwise (also on ties); `SortDescResults` swaps exactly when it is positive |
| `Ranking.SortDescResults` | benchmark/index.js:68-72 | sorts in place and returns the same array; afterwards `hz` never increases left to right and the array holds the same events (a permutation) |
| `Harness.RankingReportsEveryCandidate` | benchmark/index.js:83-89 | a ranking of a suite's cycles has one entry per candidate, and its events are exactly the suite's cycle events |
| `Harness.Benchmark.constructor` | benchmark/index.js:76 | `results` starts empty and nothing is reported |
| `Harness.Benchmark.Start` | benchmark/index.js:187-194 | a start handler resets `results` to empty and announces the suite |
| `Harness.Benchmark.Cycle` | benchmark/index.js:78-81 | a cycle appends exactly one event at the end and leaves earlier events unchanged |
| `Harness.Benchmark.Complete` | benchmark/index.js:83-89 | completion reorders `results` by descending `hz`, adds and removes nothing, and reports the ranking |
| `Harness.Benchmark.RunSuite` | benchmark/index.js:150-203 | after a suite, `results` ranks exactly that suite's cycle events, `|results|` equals the number of candidates, and the log gained the start and then the ranking |
| `Harness.Benchmark.RunChain` | benchmark/index.js:467-471 | the five suites run in chain order, each start after the previous ranking; each suite reports a ranking of its own cycles with one entry per candidate |

## Left out

- The memoizer libraries and the local `addy-osmani` module (lines 31-42, 136-147 and the like): their caches are external code. The model states only what an uncached call computes (`Suites.Evaluate`).
- The custom equality functions `deepEquals`, `fastDeepEqual` and `hashItEquals` (lines 45-47, 410-427): external code.
- The timing engine's event order is an assumption, not a property of the harness: `Harness.Cycles` assumes that Benchmark.js emits one suite `cycle` event per added benchmark, in the order added, even when a benchmark errors.
- Numbers are Dafny `int`, where JavaScript uses IEEE doubles. The harness only passes 35, and every value up to fibonacci(35) = 9227465 is exact. Outside that domain the JavaScript differs: `fibonacci(NaN)` and `fibonacci(Infinity)` never reach the base case and recurse until the stack overflows, and non-integer inputs give other values.
- The `Benchmark.Suite` titles (for example 'Single parameter', used twice): the harness never reads or prints them.
- The Benchmark.js timing engine: sampling, `hz`, `stats.rme` and `stats.sample` are floating-point statistics it produces. `hz` is kept as an abstract `real` key that is only compared, and the other statistics are dropped from `CycleEvent`.
- `showResults` (lines 49-66): locale and fixed-point formatting and table rendering. Reporting is modelled as appending the ranking to `log`.
- The ora spinner and its `start`, `stop` and `succeed` calls (lines 74, 80, 84 and in each start handler): console UI.
- `run({async: true})`, the Promises and the `.then` chaining: only their sequential order is modelled.
- Harness.Benchmark.Complete: JavaScript sorts the same `results` array object in place. The model copies the sequence field into a fresh array, sorts that array in place, and stores the result back, so aliasing of the array object is not modelled. Nothing else in the harness holds the array.
