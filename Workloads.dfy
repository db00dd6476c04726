/** The benchmark's workloads: naive recursive Fibonacci in four calling
    shapes. Each suite memoizes one of them, so what the candidates cache is
    the value these functions compute. */
module Workloads {

  /** The `{isComplete}` record passed to the multiple-object workload. */
  datatype Check = Check(isComplete: bool)

  /** The `{number}` record passed to the custom-equality workload. */
  datatype NumberArg = NumberArg(number: int)

  /** Single primitive parameter: `number < 2 ? number : fib(n-1) + fib(n-2)`.
      Negative inputs take the base case and are returned unchanged. */
  function Fibonacci(number: int): (r: int)
    ensures number >= 0 ==> r >= 0
  {
    if number < 2 then number else Fibonacci(number - 1) + Fibonacci(number - 2)
  }

  /** The recursion measure shared by the two flag-carrying workloads: a call
      whose flag is set stops at once; otherwise every recursive call either
      carries a set flag or a strictly smaller number that is at least 2. */
  function FlagMeasure(number: int, isComplete: bool): nat
  {
    if isComplete then 0 else (if number < 0 then 0 else number) + 1
  }

  /** Multiple primitive parameters: the caller decides, through the flag,
      whether `number` is already a base case. Terminates for every number
      and every flag, including an inconsistent one such as `(1, false)`. */
  function FibonacciMultiplePrimitive(number: int, isComplete: bool): int
    decreases FlagMeasure(number, isComplete)
  {
    if isComplete then number
    else
      var firstValue := number - 1;
      var secondValue := number - 2;
      FibonacciMultiplePrimitive(firstValue, firstValue < 2)
        + FibonacciMultiplePrimitive(secondValue, secondValue < 2)
  }

  /** Multiple parameters with an object: the same recursion with the flag
      boxed in a fresh `{isComplete}` record at every call. */
  function FibonacciMultipleObject(number: int, check: Check): int
    decreases FlagMeasure(number, check.isComplete)
  {
    if check.isComplete then number
    else
      var firstValue := number - 1;
      var secondValue := number - 2;
      FibonacciMultipleObject(firstValue, Check(firstValue < 2))
        + FibonacciMultipleObject(secondValue, Check(secondValue < 2))
  }

  /** Custom-equality workload: the single-parameter recursion with the
      number destructured from a `{number}` record. */
  function FibonacciMultipleDeepEqual(arg: NumberArg): int
    decreases arg.number
  {
    if arg.number < 2 then arg.number
    else
      FibonacciMultipleDeepEqual(NumberArg(arg.number - 1))
        + FibonacciMultipleDeepEqual(NumberArg(arg.number - 2))
  }

  /** The workload's documented values. */
  lemma FibonacciKnownValues()
    ensures Fibonacci(0) == 0 && Fibonacci(1) == 1 && Fibonacci(10) == 55
  {
  }

  /** Called with the consistent flag `number < 2`, the multiple-primitive
      workload computes the single-parameter Fibonacci. */
  lemma {:induction false} MultiplePrimitiveAgreesWithFibonacci(number: int)
    ensures FibonacciMultiplePrimitive(number, number < 2) == Fibonacci(number)
    decreases if number < 0 then 0 else number
  {
    if number >= 2 {
      MultiplePrimitiveAgreesWithFibonacci(number - 1);
      MultiplePrimitiveAgreesWithFibonacci(number - 2);
    }
  }

  /** The multiple-primitive workload for every number and every flag: a set
      flag returns the number itself, a clear flag adds the Fibonacci numbers
      of the two predecessors (even when the number is below 2). */
  lemma {:induction false} MultiplePrimitiveMeaning(number: int, isComplete: bool)
    ensures FibonacciMultiplePrimitive(number, isComplete)
         == if isComplete then number
            else Fibonacci(number - 1) + Fibonacci(number - 2)
  {
    if !isComplete {
      MultiplePrimitiveAgreesWithFibonacci(number - 1);
      MultiplePrimitiveAgreesWithFibonacci(number - 2);
    }
  }

  /** Boxing the flag in a record changes nothing: the object workload agrees
      with the primitive one for every number and flag. */
  lemma {:induction false} MultipleObjectAgreesWithPrimitive(number: int, isComplete: bool)
    ensures FibonacciMultipleObject(number, Check(isComplete))
         == FibonacciMultiplePrimitive(number, isComplete)
    decreases FlagMeasure(number, isComplete)
  {
    if !isComplete {
      MultipleObjectAgreesWithPrimitive(number - 1, number - 1 < 2);
      MultipleObjectAgreesWithPrimitive(number - 2, number - 2 < 2);
    }
  }

  /** Destructuring the number from a record changes nothing: the
      custom-equality workload computes the single-parameter Fibonacci. */
  lemma {:induction false} DeepEqualAgreesWithFibonacci(number: int)
    ensures FibonacciMultipleDeepEqual(NumberArg(number)) == Fibonacci(number)
    decreases if number < 0 then 0 else number
  {
    if number >= 2 {
      DeepEqualAgreesWithFibonacci(number - 1);
      DeepEqualAgreesWithFibonacci(number - 2);
    }
  }
}
