/**
  The factorial evaluator of the calculator server (calculateFactorial).

  The input is a JavaScript number, modelled as a `real` so that the
  "not an integer" branch of the domain guard is expressible. The
  accumulator is an unbounded `int`: the double-precision accumulator of the
  original (exact up to 22!, rounded from 23! on, finite up to 170!) is not
  modelled, only the threshold 170 that guards it.
 */
module FactorialEvaluator {

  /** What calculateFactorial does: returns a number or throws an Error with a message. */
  datatype FactResult = Ok(value: int) | Err(message: string)

  const NotNonNegativeIntegerMessage := "Factorial is only defined for non-negative integers."
  const TooLargeMessage := "Input too large for factorial calculation."

  /** The largest accepted input; 171! would overflow a double. */
  const MaxInput := 170

  /** Number.isInteger on a finite number. */
  predicate IsInteger(n: real) {
    n.Floor as real == n
  }

  /** The mathematical factorial, the reference the loop is proved against. */
  function Fact(n: nat): (r: nat)
    ensures 1 <= r
    ensures n <= r
  {
    if n == 0 then 1 else n * Fact(n - 1)
  }

  /** The product lo * (lo + 1) * ... * hi, written in ascending order; empty products are 1. */
  function ProductRange(lo: int, hi: int): int
    decreases hi - lo
  {
    if lo > hi then 1 else lo * ProductRange(lo + 1, hi)
  }

  /** Extending an ascending product by one factor on the right. */
  lemma {:induction false} ProductRangeSnoc(lo: int, hi: int)
    requires lo <= hi + 1
    ensures ProductRange(lo, hi + 1) == ProductRange(lo, hi) * (hi + 1)
    decreases hi - lo
  {
    if lo <= hi {
      ProductRangeSnoc(lo + 1, hi);
      calc {
        ProductRange(lo, hi + 1);
        lo * ProductRange(lo + 1, hi + 1);
        lo * (ProductRange(lo + 1, hi) * (hi + 1));
        (lo * ProductRange(lo + 1, hi)) * (hi + 1);
        ProductRange(lo, hi) * (hi + 1);
      }
    }
  }

  /** n! is the product 1 * 2 * ... * n. */
  lemma {:induction false} FactIsProduct(n: nat)
    ensures Fact(n) == ProductRange(1, n)
  {
    if n > 0 {
      FactIsProduct(n - 1);
      ProductRangeSnoc(1, n - 1);
    }
  }

  /** Factorial never decreases: each loop step multiplies by a factor of at least 1. */
  lemma {:induction false} FactMonotone(m: nat, n: nat)
    requires m <= n
    ensures Fact(m) <= Fact(n)
    decreases n - m
  {
    if m < n {
      FactMonotone(m, n - 1);
      ScaleUp(n, Fact(n - 1));
    }
  }

  /** Multiplying a non-negative number by a factor of at least 1 does not make it smaller. */
  lemma ScaleUp(k: int, x: int)
    requires 1 <= k && 0 <= x
    ensures x <= k * x
  {
  }

  /**
    The observable behaviour of calculateFactorial: the domain guard first,
    then the range guard, then n!.
   */
  function FactorialOf(n: real): (r: FactResult)
    ensures r.Ok? ==> 1 <= r.value
  {
    if n < 0.0 || !IsInteger(n) then Err(NotNonNegativeIntegerMessage)
    else if n > MaxInput as real then Err(TooLargeMessage)
    else Ok(Fact(n.Floor))
  }

  /**
    The three outcomes of FactorialOf, each characterised by its inputs, and
    the value of a success as the product 1 * 2 * ... * n.
   */
  lemma FactorialOfOutcomes(n: real)
    ensures FactorialOf(n) == Err(NotNonNegativeIntegerMessage) <==> n < 0.0 || !IsInteger(n)
    ensures FactorialOf(n) == Err(TooLargeMessage) <==> IsInteger(n) && n > 170.0
    ensures FactorialOf(n).Ok? <==> IsInteger(n) && 0.0 <= n <= 170.0
    ensures FactorialOf(n).Ok? ==> 0 <= n.Floor <= 170 && FactorialOf(n).value == ProductRange(1, n.Floor)
  {
    if FactorialOf(n).Ok? {
      FactIsProduct(n.Floor);
    }
  }

  /** The guards are checked in order: 171.5 fails the domain guard, not the range guard. */
  lemma DomainGuardPrecedesRangeGuard()
    ensures FactorialOf(171.5) == Err(NotNonNegativeIntegerMessage)
    ensures FactorialOf(171.0) == Err(TooLargeMessage)
    ensures FactorialOf(170.0).Ok?
  {
  }

  /** The documented values: 0! = 1! = 1, 5! = 120, 10! = 3628800; -1 and 3.5 are refused. */
  lemma FactorialDocumentedValues()
    ensures FactorialOf(0.0) == Ok(1)
    ensures FactorialOf(1.0) == Ok(1)
    ensures FactorialOf(5.0) == Ok(120)
    ensures FactorialOf(10.0) == Ok(3628800)
    ensures FactorialOf(-1.0) == Err(NotNonNegativeIntegerMessage)
    ensures FactorialOf(3.5) == Err(NotNonNegativeIntegerMessage)
  {
    assert 5.0.Floor == 5;
    assert 10.0.Floor == 10;
  }

  /**
    calculateFactorial: the guards, the fast path for 0 and 1, and the loop
    `for (i = 2; i <= n; i++) result *= i`. `steps` counts the loop iterations.
   */
  method CalculateFactorial(n: real) returns (r: FactResult, ghost steps: nat)
    ensures r == FactorialOf(n)
    ensures r.Ok? && n >= 2.0 ==> steps == n.Floor - 1
    ensures r.Ok? && n < 2.0 ==> steps == 0
  {
    steps := 0;
    if n < 0.0 || !IsInteger(n) {
      return Err(NotNonNegativeIntegerMessage), steps;
    }
    if n > MaxInput as real {
      return Err(TooLargeMessage), steps;
    }
    if n == 0.0 || n == 1.0 {
      return Ok(1), steps;
    }
    var k := n.Floor;
    var result := 1;
    var i := 2;
    while i <= k
      invariant 2 <= i <= k + 1
      invariant result == Fact(i - 1)
      invariant 1 <= result
      invariant steps == i - 2
      decreases k + 1 - i
    {
      ghost var prev := result;
      FactMonotone(i - 1, i);
      result := result * i;
      assert result == Fact(i) && prev <= result;
      i := i + 1;
      steps := steps + 1;
    }
    return Ok(result), steps;
  }
}
