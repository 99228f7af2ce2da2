/**
  The calculator's tools: each registered handler as a pure function from its
  arguments to a response envelope, the dispatch from a call to its handler,
  and the guard table that says which calls fail.

  Math.pow, Math.sqrt, Math.sin, Math.cos, Math.tan, Math.log, Math.log10,
  Math.PI and Math.E are not modelled; they are supplied as a `MathLib`
  parameter, so the proofs speak of which inputs are guarded, which message
  comes out and whether the error flag is set, not of numeric accuracy.
  Addition, subtraction, multiplication, division and percentage are exact
  real arithmetic.
 */
module CalculatorTools {
  import FE = FactorialEvaluator

  /** The one text segment of an envelope: a number's text, or a prose message. */
  datatype Text = Number(value: real) | Prose(message: string)

  /** The response envelope `{ content: [text], isError? }`; an absent isError is false. */
  datatype Envelope = Envelope(text: Text, isError: bool)

  /** The library functions and constants the handlers call. */
  datatype MathLib = MathLib(
    pow: (real, real) -> real,
    sqrt: real -> real,
    sin: real -> real,
    cos: real -> real,
    tan: real -> real,
    log: real -> real,
    log10: real -> real,
    pi: real,
    e: real)

  const ErrorPrefix := "Error: "
  const DivisionByZeroMessage := ErrorPrefix + "Division by zero."
  const NegativeSqrtMessage := ErrorPrefix + "Cannot calculate square root of a negative number."
  const NonPositiveLogMessage := ErrorPrefix + "Logarithm is only defined for positive numbers."

  function Success(x: real): Envelope {
    Envelope(Number(x), false)
  }

  function Failure(message: string): Envelope {
    Envelope(Prose(message), true)
  }

  /**
    A success carries a number and no error flag; a failure carries a
    message beginning with "Error: " and the error flag.
   */
  predicate WellFormed(e: Envelope) {
    && (e.isError <==> e.text.Prose?)
    && (e.text.Prose? ==> ErrorPrefix <= e.text.message)
  }

  /** Every message built as "Error: " + detail begins with "Error: ". */
  lemma PrefixedMessage(detail: string)
    ensures ErrorPrefix <= ErrorPrefix + detail
  {
  }

  // --- Basic arithmetic ---

  function CalculateAdd(a: real, b: real): (e: Envelope)
    ensures !e.isError && e.text.Number?
    ensures e.text.value - b == a
  {
    Success(a + b)
  }

  function CalculateSubtract(a: real, b: real): (e: Envelope)
    ensures !e.isError && e.text.Number?
    ensures e.text.value + b == a
  {
    Success(a - b)
  }

  function CalculateMultiply(a: real, b: real): (e: Envelope)
    ensures !e.isError && e.text.Number?
    ensures b != 0.0 ==> e.text.value / b == a
    ensures a == 0.0 || b == 0.0 ==> e.text.value == 0.0
  {
    Success(a * b)
  }

  /** Fails exactly on a zero divisor; otherwise the quotient q with q * b == a. */
  function CalculateDivide(a: real, b: real): (e: Envelope)
    ensures e.isError <==> b == 0.0
    ensures e.isError ==> e.text == Prose(DivisionByZeroMessage)
    ensures !e.isError ==> e.text.Number? && e.text.value * b == a
  {
    if b == 0.0 then Failure(DivisionByZeroMessage) else Success(a / b)
  }

  // --- Exponents and roots ---

  function CalculatePower(m: MathLib, base: real, exponent: real): (e: Envelope)
    ensures !e.isError && e.text == Number(m.pow(base, exponent))
  {
    Success(m.pow(base, exponent))
  }

  /** Fails exactly on a negative argument, so 0 is accepted. */
  function CalculateSqrt(m: MathLib, number: real): (e: Envelope)
    ensures e.isError <==> number < 0.0
    ensures e.isError ==> e.text == Prose(NegativeSqrtMessage)
    ensures !e.isError ==> e.text == Number(m.sqrt(number))
  {
    if number < 0.0 then Failure(NegativeSqrtMessage) else Success(m.sqrt(number))
  }

  // --- Trigonometry, in radians ---

  function CalculateSine(m: MathLib, angleRadians: real): (e: Envelope)
    ensures !e.isError && e.text == Number(m.sin(angleRadians))
  {
    Success(m.sin(angleRadians))
  }

  function CalculateCosine(m: MathLib, angleRadians: real): (e: Envelope)
    ensures !e.isError && e.text == Number(m.cos(angleRadians))
  {
    Success(m.cos(angleRadians))
  }

  function CalculateTangent(m: MathLib, angleRadians: real): (e: Envelope)
    ensures !e.isError && e.text == Number(m.tan(angleRadians))
  {
    Success(m.tan(angleRadians))
  }

  // --- Logarithms ---

  /** Fails exactly on a non-positive argument, so 0 is refused. */
  function CalculateNaturalLog(m: MathLib, number: real): (e: Envelope)
    ensures e.isError <==> number <= 0.0
    ensures e.isError ==> e.text == Prose(NonPositiveLogMessage)
    ensures !e.isError ==> e.text == Number(m.log(number))
  {
    if number <= 0.0 then Failure(NonPositiveLogMessage) else Success(m.log(number))
  }

  /** Same guard and same message as the natural logarithm. */
  function CalculateLog10(m: MathLib, number: real): (e: Envelope)
    ensures e.isError <==> number <= 0.0
    ensures e.isError ==> e.text == Prose(NonPositiveLogMessage)
    ensures !e.isError ==> e.text == Number(m.log10(number))
  {
    if number <= 0.0 then Failure(NonPositiveLogMessage) else Success(m.log10(number))
  }

  // --- Constants ---

  function GetPi(m: MathLib): (e: Envelope)
    ensures !e.isError && e.text == Number(m.pi)
  {
    Success(m.pi)
  }

  function GetE(m: MathLib): (e: Envelope)
    ensures !e.isError && e.text == Number(m.e)
  {
    Success(m.e)
  }

  // --- Factorial ---

  /**
    The factorial tool: a thrown error becomes a failure whose text is
    "Error: " followed by the error's message; nothing escapes the handler.
   */
  function CalculateFactorial(number: real): (e: Envelope)
    ensures e.isError <==> !(FE.IsInteger(number) && 0.0 <= number <= 170.0)
    ensures number < 0.0 || !FE.IsInteger(number) ==>
      e.text == Prose(ErrorPrefix + FE.NotNonNegativeIntegerMessage)
    ensures FE.IsInteger(number) && number > 170.0 ==>
      e.text == Prose(ErrorPrefix + FE.TooLargeMessage)
    ensures FE.IsInteger(number) && 0.0 <= number <= 170.0 ==>
      0 <= number.Floor && e == Success(FE.Fact(number.Floor) as real)
  {
    match FE.FactorialOf(number)
    case Ok(v) => Success(v as real)
    case Err(message) => Failure(ErrorPrefix + message)
  }

  /**
    For the inputs the tool's schema admits (non-negative integers) only the
    range error remains, and 170 is the largest accepted input.
   */
  lemma SchemaValidFactorial(number: real)
    requires FE.IsInteger(number) && number >= 0.0
    ensures CalculateFactorial(number).isError <==> number > 170.0
    ensures CalculateFactorial(number).isError ==>
      CalculateFactorial(number).text == Prose("Error: Input too large for factorial calculation.")
  {
    assert ErrorPrefix + FE.TooLargeMessage == "Error: Input too large for factorial calculation.";
  }

  // --- Percentage ---

  /** (percentage / 100) * number: the result r satisfies 100 * r == percentage * number. */
  function CalculatePercentageOf(percentage: real, number: real): (e: Envelope)
    ensures !e.isError && e.text.Number?
    ensures 100.0 * e.text.value == percentage * number
  {
    Success((percentage / 100.0) * number)
  }

  /** The documented percentages: 50% of 200, 25% of 80, 150% of 50, 0% of 100. */
  lemma PercentageDocumentedValues()
    ensures CalculatePercentageOf(50.0, 200.0) == Success(100.0)
    ensures CalculatePercentageOf(25.0, 80.0) == Success(20.0)
    ensures CalculatePercentageOf(150.0, 50.0) == Success(75.0)
    ensures CalculatePercentageOf(0.0, 100.0) == Success(0.0)
  {
  }

  // --- Round trips between the arithmetic tools ---

  /** Subtracting b undoes adding b, and dividing by a non-zero b undoes multiplying by it. */
  lemma ArithmeticRoundTrips(a: real, b: real)
    ensures CalculateSubtract(CalculateAdd(a, b).text.value, b) == Success(a)
    ensures b != 0.0 ==> CalculateDivide(CalculateMultiply(a, b).text.value, b) == Success(a)
  {
  }

  // --- Square root with an exact library ---

  function Square(y: real): real {
    y * y
  }

  /** A square root that undoes squaring on the non-negative reals: the exact, non-negative root. */
  ghost predicate ExactSqrt(m: MathLib) {
    forall y :: y >= 0.0 ==> m.sqrt(Square(y)) == y
  }

  /**
    9 and 0 pass the tool's guard, so the tool returns whatever the library's
    square root gives; if that square root is assumed exact, the answers are
    3 and 0. This says nothing about the accuracy of the real Math.sqrt.
   */
  lemma SqrtDocumentedValues(m: MathLib)
    requires ExactSqrt(m)
    ensures CalculateSqrt(m, 9.0) == Success(3.0)
    ensures CalculateSqrt(m, 0.0) == Success(0.0)
  {
    assert Square(3.0) == 9.0;
    assert Square(0.0) == 0.0;
  }

  // --- The registry and the dispatcher ---

  /** A tool invocation: the tool and its arguments, already checked against its schema's types. */
  datatype Call =
    | Add(a: real, b: real)
    | Subtract(a: real, b: real)
    | Multiply(a: real, b: real)
    | Divide(a: real, b: real)
    | Power(base: real, exponent: real)
    | Sqrt(number: real)
    | Sine(angleRadians: real)
    | Cosine(angleRadians: real)
    | Tangent(angleRadians: real)
    | NaturalLog(number: real)
    | Log10(number: real)
    | Pi
    | E
    | Factorial(number: real)
    | PercentageOf(percentage: real, number: real)

  /** The names the tools are registered under, in registration order. */
  const ToolNames: seq<string> := [
    "calculate_add", "calculate_subtract", "calculate_multiply", "calculate_divide",
    "calculate_power", "calculate_sqrt", "calculate_sine", "calculate_cosine",
    "calculate_tangent", "calculate_natural_log", "calculate_log10", "get_pi",
    "get_e", "calculate_factorial", "calculate_percentage_of"]

  /** The position of a call's tool in the registry. */
  function ToolIndex(c: Call): (i: nat)
    ensures i < |ToolNames|
  {
    match c
    case Add(_, _) => 0
    case Subtract(_, _) => 1
    case Multiply(_, _) => 2
    case Divide(_, _) => 3
    case Power(_, _) => 4
    case Sqrt(_) => 5
    case Sine(_) => 6
    case Cosine(_) => 7
    case Tangent(_) => 8
    case NaturalLog(_) => 9
    case Log10(_) => 10
    case Pi => 11
    case E => 12
    case Factorial(_) => 13
    case PercentageOf(_, _) => 14
  }

  /** The registered name of a call's tool. */
  function Name(c: Call): string {
    ToolNames[ToolIndex(c)]
  }

  /** Every registered name is unique, so a name selects exactly one tool. */
  lemma NamesAreUnique(c1: Call, c2: Call)
    ensures Name(c1) == Name(c2) <==> ToolIndex(c1) == ToolIndex(c2)
  {
  }

  /** Runs the one handler that a call names. */
  function Dispatch(m: MathLib, c: Call): (e: Envelope)
    ensures WellFormed(e)
  {
    PrefixedMessage("Division by zero.");
    PrefixedMessage("Cannot calculate square root of a negative number.");
    PrefixedMessage("Logarithm is only defined for positive numbers.");
    PrefixedMessage(FE.NotNonNegativeIntegerMessage);
    PrefixedMessage(FE.TooLargeMessage);
    match c
    case Add(a, b) => CalculateAdd(a, b)
    case Subtract(a, b) => CalculateSubtract(a, b)
    case Multiply(a, b) => CalculateMultiply(a, b)
    case Divide(a, b) => CalculateDivide(a, b)
    case Power(base, exponent) => CalculatePower(m, base, exponent)
    case Sqrt(number) => CalculateSqrt(m, number)
    case Sine(angle) => CalculateSine(m, angle)
    case Cosine(angle) => CalculateCosine(m, angle)
    case Tangent(angle) => CalculateTangent(m, angle)
    case NaturalLog(number) => CalculateNaturalLog(m, number)
    case Log10(number) => CalculateLog10(m, number)
    case Pi => GetPi(m)
    case E => GetE(m)
    case Factorial(number) => CalculateFactorial(number)
    case PercentageOf(percentage, number) => CalculatePercentageOf(percentage, number)
  }

  /** The domain and range guards, tool by tool; a tool not listed has no guard. */
  predicate GuardViolated(c: Call) {
    match c
    case Divide(_, b) => b == 0.0
    case Sqrt(number) => number < 0.0
    case NaturalLog(number) => number <= 0.0
    case Log10(number) => number <= 0.0
    case Factorial(number) => number < 0.0 || !FE.IsInteger(number) || number > 170.0
    case _ => false
  }

  /** The message each violated guard produces. */
  function GuardMessage(c: Call): string
    requires GuardViolated(c)
  {
    match c
    case Divide(_, _) => DivisionByZeroMessage
    case Sqrt(_) => NegativeSqrtMessage
    case NaturalLog(_) => NonPositiveLogMessage
    case Log10(_) => NonPositiveLogMessage
    case Factorial(number) =>
      if number < 0.0 || !FE.IsInteger(number) then ErrorPrefix + FE.NotNonNegativeIntegerMessage
      else ErrorPrefix + FE.TooLargeMessage
  }

  /**
    A call fails exactly when its guard is violated, with that guard's
    message; whatever the library returns, every other call succeeds.
   */
  lemma DispatchFailsExactlyOnGuards(m: MathLib, c: Call)
    ensures Dispatch(m, c).isError <==> GuardViolated(c)
    ensures GuardViolated(c) ==> Dispatch(m, c) == Failure(GuardMessage(c))
  {
  }

  /** The tools without a guard never set the error flag. */
  lemma UnguardedToolsNeverFail(m: MathLib, c: Call)
    requires !(c.Divide? || c.Sqrt? || c.NaturalLog? || c.Log10? || c.Factorial?)
    ensures !Dispatch(m, c).isError && Dispatch(m, c).text.Number?
  {
  }
}
