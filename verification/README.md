# Basic calculator tool server, modelled in Dafny

The system is a small server that offers fifteen arithmetic operations as
independently invokable tools. Examples are `calculate_add`, `calculate_divide`,
`calculate_sqrt`, `calculate_factorial` and `get_pi`. Every tool answers with a
response envelope: one text segment, plus an `isError` flag that is set on
failure. A domain violation never escapes a tool as an exception. It becomes an
error envelope whose text starts with `"Error: "`.

The model has two modules.

- `FactorialEvaluator` (`factorial.dfy`) models `calculateFactorial`. The guards
  run in source order: the domain guard (negative or non-integer), then the range
  guard (`n > 170`), then the fast path for 0 and 1, then the iterative product
  loop. The loop is a method whose invariant is `result == Fact(i - 1)`. It is
  proved equal to the specification function `FactorialOf`. `FactorialOf` is
  characterised outcome by outcome, and its success value is proved to be the
  product 1 · 2 · … · n. A thrown `Error` becomes the `Err(message)` case of
  `FactResult`.
- `CalculatorTools` (`tools.dfy`) models the fifteen handlers as pure functions
  that return an `Envelope`. A `Call` datatype names one invocation, and
  `Dispatch` runs the handler it names. A separate guard table, `GuardViolated`
  with `GuardMessage`, lists the guard of each tool. A lemma proves that dispatch
  fails exactly when the table says so, and with the message the table gives.
  `Math.pow`, `Math.sqrt`, `Math.sin`, `Math.cos`, `Math.tan`, `Math.log`,
  `Math.log10`, `Math.PI` and `Math.E` are fields of a `MathLib` parameter. The
  model does not interpret them. Add, subtract, multiply, divide and percentage
  use exact `real` arithmetic.

A JavaScript number is a `real`, so the "not an integer" branch of the factorial
guard can be expressed. `IsInteger(n)` stands for `Number.isInteger(n)` on a
finite number. A success envelope omits `isError` in the source, and the model
gives it `isError == false`.

## Model

| member | source | states |
|---|---|---|
| `FactorialEvaluator.Fact` | src/index.ts:25-32 | n! is at least 1 and at least n; it is the reference value the loop must compute |
| `FactorialEvaluator.FactIsProduct` | src/index.ts:28-31 | n! equals the ascending product 1 · 2 · … · n that the loop multiplies out |
| `FactorialEvaluator.FactMonotone` | src/index.ts:28-31 | factorial never decreases as its argument grows; the loop of `CalculateFactorial` uses it to show the accumulator never decreases from one iteration to the next |
| `FactorialEvaluator.FactorialOf` | src/index.ts:17-33 | every successful factorial is at least 1 |
| `FactorialEvaluator.FactorialOfOutcomes` | src/index.ts:17-33 | the domain error occurs exactly for negative or non-integer n, the range error exactly for integer n > 170, and success exactly for integer 0 ≤ n ≤ 170, with the value 1 · 2 · … · n |
| `FactorialEvaluator.DomainGuardPrecedesRangeGuard` | src/index.ts:18-24 | the domain guard is checked first, so 171.5 gets the domain error; 171 gets the range error; 170 is accepted |
| `FactorialEvaluator.FactorialDocumentedValues` | __tests__/calculator.test.ts:150-167 | 0! = 1! = 1, 5! = 120 and 10! = 3628800; -1 and 3.5 get the domain error |
| `FactorialEvaluator.CalculateFactorial` | src/index.ts:17-33 | the guarded loop returns exactly `FactorialOf(n)`, with invariant `result == (i-1)!`; for an accepted n ≥ 2 the loop runs n - 1 times, and for 0 or 1 it does not run |
| `CalculatorTools.CalculateAdd` | src/index.ts:45-47 | never an error; the number r it carries satisfies r - b == a |
| `CalculatorTools.CalculateSubtract` | src/index.ts:57-59 | never an error; the number r it carries satisfies r + b == a |
| `CalculatorTools.CalculateMultiply` | src/index.ts:69-71 | never an error; dividing the product by a non-zero b gives back a; a zero factor gives 0 |
| `CalculatorTools.CalculateDivide` | src/index.ts:83-93 | an error exactly when b == 0, with text "Error: Division by zero."; otherwise a quotient q with q · b == a |
| `CalculatorTools.CalculatePower` | src/index.ts:104-106 | never an error, with no guard on the arguments; carries the library's pow(base, exponent) |
| `CalculatorTools.CalculateSqrt` | src/index.ts:119-134 | an error exactly when number < 0 (so 0 is accepted), with the negative-square-root message; otherwise carries sqrt(number) |
| `CalculatorTools.CalculateSine` | src/index.ts:144-146 | never an error; carries sin(angle) |
| `CalculatorTools.CalculateCosine` | src/index.ts:155-157 | never an error; carries cos(angle) |
| `CalculatorTools.CalculateTangent` | src/index.ts:166-168 | never an error; carries tan(angle) |
| `CalculatorTools.CalculateNaturalLog` | src/index.ts:182-197 | an error exactly when number ≤ 0 (so 0 is refused), with "Error: Logarithm is only defined for positive numbers."; otherwise carries log(number) |
| `CalculatorTools.CalculateLog10` | src/index.ts:210-225 | the same guard and the same message as the natural logarithm; otherwise carries log10(number) |
| `CalculatorTools.GetPi` | src/index.ts:233-235 | never an error; carries the library's π |
| `CalculatorTools.GetE` | src/index.ts:242-244 | never an error; carries the library's e |
| `CalculatorTools.CalculateFactorial` | src/index.ts:260-276 | an error exactly when calculateFactorial throws, with text "Error: " followed by the thrown message (domain message for negative or non-integer input, range message for integers above 170); otherwise carries n! |
| `CalculatorTools.SchemaValidFactorial` | src/index.ts:252-276 | for the non-negative integers the tool's schema admits, the only failure is the range error, and it happens exactly above 170 |
| `CalculatorTools.CalculatePercentageOf` | src/index.ts:291-293 | never an error; the number r it carries satisfies 100 · r == percentage · number |
| `CalculatorTools.PercentageDocumentedValues` | __tests__/calculator.test.ts:176-179 | 50% of 200 is 100, 25% of 80 is 20, 150% of 50 is 75, and 0% of 100 is 0 |
| `CalculatorTools.ArithmeticRoundTrips` | src/index.ts:45-93 | subtracting b undoes the add tool, and dividing by a non-zero b undoes the multiply tool |
| `CalculatorTools.SqrtDocumentedValues` | __tests__/calculator.test.ts:73-75 | 9 and 0 pass the sqrt tool's guard; if the library's square root is assumed exact, the tool answers 3 and 0 (this says nothing about the accuracy of Math.sqrt) |
| `CalculatorTools.NamesAreUnique` | src/index.ts:38-281 | the fifteen registered tool names are pairwise distinct, so a name selects exactly one tool |
| `CalculatorTools.Dispatch` | src/index.ts:38-294 | every envelope is well formed: the error flag is set exactly when the text is a message, and every message begins with "Error: " |
| `CalculatorTools.DispatchFailsExactlyOnGuards` | src/index.ts:83-276 | a call fails exactly when its tool's guard (zero divisor, negative square root, non-positive logarithm, factorial domain or range) is violated, and then with that guard's message |
| `CalculatorTools.UnguardedToolsNeverFail` | src/index.ts:45-293 | add, subtract, multiply, power, sine, cosine, tangent, get_pi, get_e and percentage_of never set the error flag and always carry a number |

## Left out

- Server construction, capability declaration and start-up logging to stderr (src/index.ts:1-14) belong to the protocol SDK and to I/O.
- The zod input schemas and their descriptions are not modelled. The transport checks them before a handler runs. `SchemaValidFactorial` states the consequence of the factorial schema (`int().nonnegative()`) as a precondition of a lemma, not of the handler. The handler itself accepts every number.
- `main`, the stdio transport and the SIGINT/SIGTERM handlers (src/index.ts:296-322) are process lifecycle and asynchronous I/O.
- Tool lookup by name for an unregistered name is left out, because the SDK handles it.
- The values that `Math.pow`, `Math.sqrt`, `Math.sin`, `Math.cos`, `Math.tan`, `Math.log` and `Math.log10` return, and the values of `Math.PI` and `Math.E`, are not modelled. They are parameters. The NaN and Infinity results of unguarded inputs are IEEE-754 behaviour and are left out for the same reason.
- `String(number)` is not modelled. A success carries the number itself, not its shortest round-trip decimal text.
- Floating-point rounding of add, subtract, multiply, divide and percentage is not modelled. These use exact real arithmetic.
- `CalculatorTools.ArithmeticRoundTrips`, and the inverse-style ensures of `CalculatorTools.CalculateAdd`, `CalculatorTools.CalculateSubtract`, `CalculatorTools.CalculateMultiply`, `CalculatorTools.CalculateDivide` and `CalculatorTools.CalculatePercentageOf`: these identities hold in the exact-arithmetic model, not in the program. In doubles, adding 1e17 to 0.1 and then subtracting 1e17 gives 0, and 1e308 · 10 overflows to Infinity, so dividing by 10 does not give 1e308 back.
- `FactorialEvaluator.CalculateFactorial`: the accumulator is an unbounded integer. The source's double-precision accumulator is exact up to 22!, rounded from 23! on, and finite up to 170!. The model does not capture the rounding; it keeps only the threshold of 170.
- `CalculatorTools.CalculateFactorial`: the catch's fallback text "An unknown error occurred during factorial calculation." is not modelled. It applies only when the thrown value is not an `Error`, and calculateFactorial throws nothing else.
- Idempotence and the absence of shared state across invocations are not stated as lemmas. Each handler is a Dafny function, so both follow from its being a function.
