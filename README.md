# Verified model of a multi-platform scientific, graphing and financial calculator

The calculator exists three times: as an iOS app in Swift, as an Android app in
Kotlin and as a desktop app in Java/Swing. Each platform has its own
recursive-descent expression parser, its own scientific function library, its
own HP 12C-style financial engine and its own screen state (view models). The
three implementations disagree in places. Each source file is therefore
modelled as its own Dafny module, and no module reconciles it with the others.

| module | models |
|---|---|
| `Common` | result wrappers; the platform math library as an uninterpreted record `Lib`; exact powers, factorials and binomials; Java/Swift rounding and integer casts; character classes |
| `JvmLexing` | the number and name scanners that the Java and Kotlin parsers share |
| `JavaExpressionParser`, `KotlinExpressionParser`, `SwiftExpressionParser` | the three parsers. Each rule is a function over (text, position) that returns the value and the position after it. Each parser also has a cursor-moving `Parser` class whose methods are proved equal to the functions |
| `JavaScientificEngine`, `KotlinScientificEngine`, `SwiftScientificEngine`, `CalculatorEngine` | guarded scientific operations, angle conversion, and factorial/nPr/nCr loops |
| `FinanceMath` | the exact mathematics shared by the financial engines: discounted sums, the loan balance, bond coupons, sum-of-years'-digits |
| `JavaFinancialEngine`, `KotlinFinancialEngine`, `SwiftFinancialEngine` | time value of money, NPV/IRR solvers, amortization tables, depreciation, bonds, percentages, statistics |
| `SwiftScientificViewModel`, `KotlinScientificViewModel` | the iOS keypad accumulator and the Android expression builder |
| `KotlinGraphingViewModel`, `SwiftGraphingViewModel`, `JavaGraphPanel` | function lists, the plane window (zoom, wheel, drag) and curve tracing |
| `KotlinFinancialViewModel`, `SwiftFinancialViewModel` | the financial screens: text fields, results and the log |

## Modelling conventions

- **Numbers** are Dafny `real`; integers are unbounded.
  - Where a result depends on a 32- or 64-bit integer conversion, the model spells out the wrap-around, saturation or truncation. Examples are Java's `(int)` cast, `Math.round` and Kotlin's `roundToInt`. The integer overflows the model does not capture are listed under "Left out".
- **Floating-point library.** Transcendental functions, `pow` with a real exponent, and the constants π and e are fields of `Common.Lib`.
  - Every property proved holds for every library.
  - A `pow` whose exponent is a whole number of periods is the exact power.
- **Text.** Parsing text into numbers and formatting numbers as text (`toDouble`, `Double(String)`, `String.format`, `NumberFormatter`) are function-valued parameters of an `Env` record.
- **Failures.**
  - A thrown exception is `Err(message)`.
  - A Swift `nil` is `None`.
  - A Swift trap is `None` in the state functions. On the class methods it becomes a `requires` that the trap does not happen.
- **View models.** Each view model is written twice:
  - as a datatype of its fields, with one pure step function per operation;
  - as a class with the same fields, whose methods update them in place and are proved to produce exactly the step function's result.
  
  Invariants are proved over every sequence of actions.

Where the implementations depart from the behaviour the project's documentation describes, the model follows the code:

- The Java and Kotlin `interestRate` Newton iterations stop at a step below 1e-12. When the iteration cap is reached, or the derivative vanishes, they return the last guess instead of failing. The Swift version uses 1e-10 and answers `nil`.
- The Java and Kotlin `irr` use bisection on [-0.999, 10], not Newton's method.
- `CalculatorEngine.factorial` has no upper bound of 170; it rejects only negative arguments.
- Java's `fact` range check runs on the argument after it has been cast to `int`, which keeps the low 32 bits. The parser follows this code, so `fact(4294967296)` is 1 (see Findings).

## Model

| member | source | states |
|---|---|---|
| CalculatorEngine.Divide | scientific-calculator/src/main/java/com/vibecoding/calculator/CalculatorEngine.java:17-20 | fails with "Division by zero" exactly when the divisor is 0; otherwise the quotient times the divisor gives back the dividend |
| CalculatorEngine.Ln | scientific-calculator/src/main/java/com/vibecoding/calculator/CalculatorEngine.java:24-27 | fails with "ln domain error" exactly for arguments ≤ 0; otherwise the natural logarithm |
| CalculatorEngine.Log10 | scientific-calculator/src/main/java/com/vibecoding/calculator/CalculatorEngine.java:28-31 | fails with "log10 domain error" exactly for arguments ≤ 0; otherwise the decimal logarithm |
| CalculatorEngine.Sqrt | scientific-calculator/src/main/java/com/vibecoding/calculator/CalculatorEngine.java:33-36 | fails with "sqrt domain error" exactly for negative arguments; otherwise the square root |
| CalculatorEngine.FactorialLoop | scientific-calculator/src/main/java/com/vibecoding/calculator/CalculatorEngine.java:38-45 | the accumulator loop over 2..n gives the factorial, and the domain error for negative n |
| CalculatorEngine.FactorialRecurrence | scientific-calculator/src/main/java/com/vibecoding/calculator/CalculatorEngine.java:38-45 | 0! = 1! = 1, n! = n·(n−1)!, and every factorial of n ≥ 1 is accepted and at least 1 |
| CalculatorEngine.DegreeTrig | scientific-calculator/src/main/java/com/vibecoding/calculator/CalculatorEngine.java:47-53 | 180 degrees is π radians, and the conversion by π/180 turns a shift by 360 degrees (180 for tan) into a shift by 2π (π) and a change of sign into a change of sign, so the degree functions keep the period and symmetry of the radian ones |
| JavaScientificEngine.Divide | scientific-calculator/src/main/java/com/vibecoding/calculator/engine/ScientificEngine.java:14-17 | fails with "Divisão por zero" exactly when the divisor is 0; otherwise the quotient times the divisor is the dividend |
| JavaScientificEngine.Mod | scientific-calculator/src/main/java/com/vibecoding/calculator/engine/ScientificEngine.java:18-21 | fails with "Módulo por zero" exactly for divisor 0; otherwise the remainder is smaller in magnitude than the divisor, is 0 or has the dividend's sign, and the dividend is the quotient cut toward zero times the divisor plus the remainder |
| JavaScientificEngine.Sqrt | scientific-calculator/src/main/java/com/vibecoding/calculator/engine/ScientificEngine.java:27-30 | fails exactly for negative arguments; otherwise the square root |
| JavaScientificEngine.NthRoot | scientific-calculator/src/main/java/com/vibecoding/calculator/engine/ScientificEngine.java:32-37 | fails for index 0 ("Raiz de índice zero") and for an even index under a negative radicand ("Raiz par de número negativo"), and only then; a negative radicand otherwise gives the negated root of its magnitude |
| JavaScientificEngine.NthRootOdd | scientific-calculator/src/main/java/com/vibecoding/calculator/engine/ScientificEngine.java:32-37 | an odd or fractional root of −a is the negation of the root of a |
| JavaScientificEngine.Reciprocal | scientific-calculator/src/main/java/com/vibecoding/calculator/engine/ScientificEngine.java:42-45 | fails exactly at 0; otherwise the result times the argument is 1 |
| JavaScientificEngine.Ln | scientific-calculator/src/main/java/com/vibecoding/calculator/engine/ScientificEngine.java:48-51 | fails exactly for arguments ≤ 0; otherwise the natural logarithm |
| JavaScientificEngine.Log10 | scientific-calculator/src/main/java/com/vibecoding/calculator/engine/ScientificEngine.java:52-55 | fails exactly for arguments ≤ 0; otherwise the decimal logarithm |
| JavaScientificEngine.Log2 | scientific-calculator/src/main/java/com/vibecoding/calculator/engine/ScientificEngine.java:56-59 | fails exactly for arguments ≤ 0; otherwise the result times ln 2 is ln a |
| JavaScientificEngine.LogBase | scientific-calculator/src/main/java/com/vibecoding/calculator/engine/ScientificEngine.java:60-63 | fails with "Logaritmo inválido" exactly for a ≤ 0, base ≤ 0 or base 1; otherwise the result times ln base is ln a |
| JavaScientificEngine.LogBaseTwo | scientific-calculator/src/main/java/com/vibecoding/calculator/engine/ScientificEngine.java:56-63 | the general logarithm in base 2 accepts the same arguments as log2 and gives the same value |
| JavaScientificEngine.Asin | scientific-calculator/src/main/java/com/vibecoding/calculator/engine/ScientificEngine.java:69-72 | fails exactly outside [−1, 1]; otherwise the library's arcsine |
| JavaScientificEngine.Acos | scientific-calculator/src/main/java/com/vibecoding/calculator/engine/ScientificEngine.java:73-76 | fails exactly outside [−1, 1]; otherwise the library's arccosine |
| JavaScientificEngine.AsinDeg | scientific-calculator/src/main/java/com/vibecoding/calculator/engine/ScientificEngine.java:84 | fails exactly when asin does, with its message; otherwise the arcsine converted to degrees |
| JavaScientificEngine.AcosDeg | scientific-calculator/src/main/java/com/vibecoding/calculator/engine/ScientificEngine.java:85 | fails exactly when acos does, with its message; otherwise the arccosine converted to degrees |
| JavaScientificEngine.InverseTrigDegrees | scientific-calculator/src/main/java/com/vibecoding/calculator/engine/ScientificEngine.java:84-86 | converting the degree results of asinDeg, acosDeg and atanDeg back to radians gives the library's angles |
| JavaScientificEngine.Acosh | scientific-calculator/src/main/java/com/vibecoding/calculator/engine/ScientificEngine.java:93-96 | fails exactly below 1; otherwise ln(a + √(a²−1)) |
| JavaScientificEngine.Atanh | scientific-calculator/src/main/java/com/vibecoding/calculator/engine/ScientificEngine.java:97-100 | fails exactly outside (−1, 1); otherwise ½·ln((1+a)/(1−a)) with a positive denominator |
| JavaScientificEngine.FactorialLoop | scientific-calculator/src/main/java/com/vibecoding/calculator/engine/ScientificEngine.java:103-111 | the loop over 2..n gives the factorial, the negative-argument error and the overflow error above 170 |
| JavaScientificEngine.FactorialRecurrence | scientific-calculator/src/main/java/com/vibecoding/calculator/engine/ScientificEngine.java:103-111 | 0! = 1! = 1 and n! = n·(n−1)! for 1 ≤ n ≤ 170 |
| JavaScientificEngine.PermutationLoop | scientific-calculator/src/main/java/com/vibecoding/calculator/engine/ScientificEngine.java:113-120 | the loop from n down past n−r gives nPr, and the "nPr inválido" error outside 0 ≤ r ≤ n |
| JavaScientificEngine.PermutationFactorial | scientific-calculator/src/main/java/com/vibecoding/calculator/engine/ScientificEngine.java:113-120 | nP0 = 1, nPn = n!, and nPr·(n−r)! = n! |
| JavaScientificEngine.CombinationLoop | scientific-calculator/src/main/java/com/vibecoding/calculator/engine/ScientificEngine.java:122-131 | the loop over the smaller of r and n−r, multiplying by n−i and dividing by i+1, gives nCr, and the "nCr inválido" error outside 0 ≤ r ≤ n |
| JavaScientificEngine.CombinationFactorials | scientific-calculator/src/main/java/com/vibecoding/calculator/engine/ScientificEngine.java:122-131 | C(n,r) = C(n,n−r) and C(n,r)·r!·(n−r)! = n! |
| JavaScientificEngine.Floor | scientific-calculator/src/main/java/com/vibecoding/calculator/engine/ScientificEngine.java:143 | a whole number r with r ≤ a < r + 1, that is the greatest whole number at most a |
| JavaScientificEngine.Ceiling | scientific-calculator/src/main/java/com/vibecoding/calculator/engine/ScientificEngine.java:144 | a whole number r with r − 1 < a ≤ r, that is the least whole number at least a |
| JavaScientificEngine.Round | scientific-calculator/src/main/java/com/vibecoding/calculator/engine/ScientificEngine.java:145 | a whole number in the range of a long: the one within ½ of a (ties upwards) while a + ½ is in that range, and the nearer bound of the range otherwise |
| KotlinScientificEngine.Divide | android-app/app/src/main/java/com/vibecoding/calculator/engine/ScientificEngine.kt:15-18 | fails with "Divisão por zero" exactly when the divisor is 0; otherwise the quotient times the divisor is the dividend |
| KotlinScientificEngine.Mod | android-app/app/src/main/java/com/vibecoding/calculator/engine/ScientificEngine.kt:19-22 | fails with "Módulo por zero" exactly for divisor 0; otherwise the remainder is smaller in magnitude than the divisor, is 0 or has the dividend's sign, and the dividend is the quotient cut toward zero times the divisor plus the remainder |
| KotlinScientificEngine.Sqrt | android-app/app/src/main/java/com/vibecoding/calculator/engine/ScientificEngine.kt:28-31 | fails exactly for negative arguments; otherwise the square root |
| KotlinScientificEngine.NthRoot | android-app/app/src/main/java/com/vibecoding/calculator/engine/ScientificEngine.kt:33-38 | fails for index 0 ("Raiz de índice zero") and for an even index under a negative radicand ("Raiz par de número negativo"), and only then; a negative radicand otherwise gives the negated root of its magnitude |
| KotlinScientificEngine.NthRootOdd | android-app/app/src/main/java/com/vibecoding/calculator/engine/ScientificEngine.kt:33-38 | an odd or fractional root of −a is the negation of the root of a |
| KotlinScientificEngine.Reciprocal | android-app/app/src/main/java/com/vibecoding/calculator/engine/ScientificEngine.kt:43-46 | fails exactly at 0; otherwise the result times the argument is 1 |
| KotlinScientificEngine.Ln | android-app/app/src/main/java/com/vibecoding/calculator/engine/ScientificEngine.kt:49-52 | fails exactly for arguments ≤ 0; otherwise the natural logarithm |
| KotlinScientificEngine.Log10 | android-app/app/src/main/java/com/vibecoding/calculator/engine/ScientificEngine.kt:53-56 | fails exactly for arguments ≤ 0; otherwise the decimal logarithm |
| KotlinScientificEngine.Log2 | android-app/app/src/main/java/com/vibecoding/calculator/engine/ScientificEngine.kt:57-60 | fails exactly for arguments ≤ 0; otherwise the library's binary logarithm |
| KotlinScientificEngine.LogBase | android-app/app/src/main/java/com/vibecoding/calculator/engine/ScientificEngine.kt:61-64 | fails with "Logaritmo inválido" exactly for a ≤ 0, base ≤ 0 or base 1; otherwise the result times ln base is ln a |
| KotlinScientificEngine.LogBaseQuotient | android-app/app/src/main/java/com/vibecoding/calculator/engine/ScientificEngine.kt:61-64 | every admissible pair gets a logarithm, the result times ln base is ln a, and log_b b = 1 |
| KotlinScientificEngine.Asin | android-app/app/src/main/java/com/vibecoding/calculator/engine/ScientificEngine.kt:70-73 | fails exactly outside [−1, 1]; otherwise the library's arcsine |
| KotlinScientificEngine.Acos | android-app/app/src/main/java/com/vibecoding/calculator/engine/ScientificEngine.kt:74-77 | fails exactly outside [−1, 1]; otherwise the library's arccosine |
| KotlinScientificEngine.AsinDeg | android-app/app/src/main/java/com/vibecoding/calculator/engine/ScientificEngine.kt:85 | fails exactly when asin does, with its message; otherwise the arcsine converted to degrees |
| KotlinScientificEngine.AcosDeg | android-app/app/src/main/java/com/vibecoding/calculator/engine/ScientificEngine.kt:86 | fails exactly when acos does, with its message; otherwise the arccosine converted to degrees |
| KotlinScientificEngine.InverseTrigDegrees | android-app/app/src/main/java/com/vibecoding/calculator/engine/ScientificEngine.kt:85-87 | converting the degree results of asinDeg, acosDeg and atanDeg back to radians gives the library's angles |
| KotlinScientificEngine.Acosh | android-app/app/src/main/java/com/vibecoding/calculator/engine/ScientificEngine.kt:94-97 | fails exactly below 1; otherwise ln(a + √(a²−1)) |
| KotlinScientificEngine.Atanh | android-app/app/src/main/java/com/vibecoding/calculator/engine/ScientificEngine.kt:98-101 | fails exactly outside (−1, 1); otherwise ½·ln((1+a)/(1−a)) with a positive denominator |
| KotlinScientificEngine.FactorialLoop | android-app/app/src/main/java/com/vibecoding/calculator/engine/ScientificEngine.kt:104-112 | the loop over 2..n gives the factorial, the negative-argument error and the overflow error above 170 |
| KotlinScientificEngine.FactorialRecurrence | android-app/app/src/main/java/com/vibecoding/calculator/engine/ScientificEngine.kt:104-112 | 0! = 1! = 1 and n! = n·(n−1)! for 1 ≤ n ≤ 170 |
| KotlinScientificEngine.PermutationLoop | android-app/app/src/main/java/com/vibecoding/calculator/engine/ScientificEngine.kt:114-121 | the loop from n down to n−r+1 gives nPr, and the "nPr inválido" error outside 0 ≤ r ≤ n |
| KotlinScientificEngine.PermutationFactorial | android-app/app/src/main/java/com/vibecoding/calculator/engine/ScientificEngine.kt:114-121 | nP0 = 1, nPn = n!, and nPr·(n−r)! = n! |
| KotlinScientificEngine.CombinationLoop | android-app/app/src/main/java/com/vibecoding/calculator/engine/ScientificEngine.kt:123-133 | the loop over the smaller of r and n−r, multiplying by n−i and dividing by i+1, gives nCr, and the "nCr inválido" error outside 0 ≤ r ≤ n |
| KotlinScientificEngine.CombinationFactorials | android-app/app/src/main/java/com/vibecoding/calculator/engine/ScientificEngine.kt:123-133 | C(n,r) = C(n,n−r) and C(n,r)·r!·(n−r)! = n! |
| SwiftScientificEngine.RadiansRoundTrip | Sources/ScientificCalculator/Models/ScientificEngine.swift:16-28 | converting to radians and back, or back and then to radians, gives the angle again in either mode |
| SwiftScientificEngine.Divide | Sources/ScientificCalculator/Models/ScientificEngine.swift:36-39 | nil exactly when the divisor is 0; otherwise the quotient times the divisor is the dividend |
| SwiftScientificEngine.SquareRoot | Sources/ScientificCalculator/Models/ScientificEngine.swift:47-50 | nil exactly for negative values; otherwise the square root |
| SwiftScientificEngine.NthRoot | Sources/ScientificCalculator/Models/ScientificEngine.swift:56-63 | nil exactly for index 0; a negative value under an odd or fractional index gives the negated root of its magnitude, anything else the plain power 1/n |
| SwiftScientificEngine.EvenIsIntegral | Sources/ScientificCalculator/Models/ScientificEngine.swift:58-61 | a number whose truncating remainder by 2 is 0 is whole, so the second guard of nthRoot never rejects |
| SwiftScientificEngine.NaturalLog | Sources/ScientificCalculator/Models/ScientificEngine.swift:70-73 | nil exactly for values ≤ 0; otherwise the natural logarithm |
| SwiftScientificEngine.Log10 | Sources/ScientificCalculator/Models/ScientificEngine.swift:75-78 | nil exactly for values ≤ 0; otherwise the decimal logarithm |
| SwiftScientificEngine.Log2 | Sources/ScientificCalculator/Models/ScientificEngine.swift:80-83 | nil exactly for values ≤ 0; otherwise the binary logarithm |
| SwiftScientificEngine.Tan | Sources/ScientificCalculator/Models/ScientificEngine.swift:103-108 | nil exactly when the cosine of the angle is within 1e-15 of 0; otherwise the tangent of the angle in radians |
| SwiftScientificEngine.Asin | Sources/ScientificCalculator/Models/ScientificEngine.swift:112-115 | nil exactly outside [−1, 1]; otherwise the arcsine in the chosen angle mode |
| SwiftScientificEngine.Acos | Sources/ScientificCalculator/Models/ScientificEngine.swift:117-120 | nil exactly outside [−1, 1]; otherwise the arccosine in the chosen angle mode |
| SwiftScientificEngine.Acosh | Sources/ScientificCalculator/Models/ScientificEngine.swift:133-136 | nil exactly below 1; otherwise the library's acosh |
| SwiftScientificEngine.Atanh | Sources/ScientificCalculator/Models/ScientificEngine.swift:137-140 | nil exactly outside (−1, 1); otherwise the library's atanh |
| SwiftScientificEngine.Factorial | Sources/ScientificCalculator/Models/ScientificEngine.swift:144-152 | defined exactly for 0 ≤ n ≤ 170, and then n! |
| SwiftScientificEngine.FactorialLoop | Sources/ScientificCalculator/Models/ScientificEngine.swift:144-152 | the loop multiplying 2…n into an accumulator gives the factorial, and nil outside 0…170 |
| SwiftScientificEngine.Permutation | Sources/ScientificCalculator/Models/ScientificEngine.swift:154-158 | defined exactly for 0 ≤ r ≤ n ≤ 170, and then n(n−1)…(n−r+1) |
| SwiftScientificEngine.Combination | Sources/ScientificCalculator/Models/ScientificEngine.swift:160-164 | defined exactly for 0 ≤ r ≤ n ≤ 170, and then the binomial coefficient |
| SwiftScientificEngine.PermutationQuotient | Sources/ScientificCalculator/Models/ScientificEngine.swift:154-158 | n!/(n−r)! is the falling product of r factors from n |
| SwiftScientificEngine.CombinationQuotient | Sources/ScientificCalculator/Models/ScientificEngine.swift:160-164 | the falling product divided by r! is the binomial coefficient |
| SwiftScientificEngine.CombinationSymmetric | Sources/ScientificCalculator/Models/ScientificEngine.swift:160-164 | C(n,r) = C(n,n−r) |
| SwiftScientificEngine.Reciprocal | Sources/ScientificCalculator/Models/ScientificEngine.swift:174-177 | nil exactly at 0; otherwise the result times the value is 1 |
| JvmLexing.StripWhitespace | scientific-calculator/src/main/java/com/vibecoding/calculator/parser/ExpressionParser.java:16 | the stored input holds no whitespace and keeps every other character of the text |
| JvmLexing.NumberScan | scientific-calculator/src/main/java/com/vibecoding/calculator/parser/ExpressionParser.java:172-186 | the number scan never moves back, stays inside the text, and takes at least one character when it starts on a digit or a first '.' |
| JvmLexing.NumberEnd | scientific-calculator/src/main/java/com/vibecoding/calculator/parser/ExpressionParser.java:172-187 | the end of the number text lies between its start and the end of the input |
| JvmLexing.NumberScanDots | scientific-calculator/src/main/java/com/vibecoding/calculator/parser/ExpressionParser.java:176-179 | the number text holds at most one '.', and none once one has been seen |
| JvmLexing.NumberScanExponents | scientific-calculator/src/main/java/com/vibecoding/calculator/parser/ExpressionParser.java:180-184 | the number text holds at most one exponent marker, never as its first character, and none once one has been seen |
| JvmLexing.NameEnd | scientific-calculator/src/main/java/com/vibecoding/calculator/parser/ExpressionParser.java:195-201 | the name is the longest run of letters and underscores from the cursor |
| JvmLexing.NamesHaveNoDigits | scientific-calculator/src/main/java/com/vibecoding/calculator/parser/ExpressionParser.java:151-152 | names never hold digits, so the table entries log10 and log2 can never be looked up |
| JavaExpressionParser.FactorialAsWritten | scientific-calculator/src/main/java/com/vibecoding/calculator/parser/ExpressionParser.java:161-167 | fact as written: accepted exactly when the rounded argument, cast to int by keeping its low 32 bits, lies in 0…170, and then the factorial of that int; otherwise "Fatorial fora do domínio" |
| JavaExpressionParser.FactorialWrapsAround | scientific-calculator/src/main/java/com/vibecoding/calculator/parser/ExpressionParser.java:161-167 | as written, the int cast of Math.round wraps, so fact(4294967296) passes the range check as 0 and gives 1, and fact(4294967298) gives 2 |
| JavaExpressionParser.Factorial | scientific-calculator/src/main/java/com/vibecoding/calculator/parser/ExpressionParser.java:161-167 | fact as intended: accepted exactly when the rounded argument lies in 0…170, then its factorial; otherwise "Fatorial fora do domínio" |
| JavaExpressionParser.FactorialAgreesInIntRange | scientific-calculator/src/main/java/com/vibecoding/calculator/parser/ExpressionParser.java:161-167 | wherever the rounded argument fits in an int, the code as written and the intended fact agree |
| JavaExpressionParser.FactorialLoop | scientific-calculator/src/main/java/com/vibecoding/calculator/parser/ExpressionParser.java:161-167 | the accumulator loop over the int-cast argument gives fact as written, with its range error |
| JavaExpressionParser.Apply | scientific-calculator/src/main/java/com/vibecoding/calculator/parser/ExpressionParser.java:127-170 | of all the known functions only fact can fail, and it fails exactly when the int-cast rounded argument lies outside 0…170 |
| JavaExpressionParser.FunctionValue | scientific-calculator/src/main/java/com/vibecoding/calculator/parser/ExpressionParser.java:127-170 | a name outside the table is an unknown function; a name in it is applied as the table says |
| JavaExpressionParser.ExpectAt | scientific-calculator/src/main/java/com/vibecoding/calculator/parser/ExpressionParser.java:203-208 | succeeds exactly when the expected character is next, and then steps over it; otherwise reports the character and position |
| JavaExpressionParser.Expression | scientific-calculator/src/main/java/com/vibecoding/calculator/parser/ExpressionParser.java:34-43 | a parsed expression ends after where it started, and within the text |
| JavaExpressionParser.ExpressionTail | scientific-calculator/src/main/java/com/vibecoding/calculator/parser/ExpressionParser.java:36-41 | the '+'/'−' loop never moves the cursor back |
| JavaExpressionParser.Term | scientific-calculator/src/main/java/com/vibecoding/calculator/parser/ExpressionParser.java:46-60 | a parsed term ends after where it started, and within the text |
| JavaExpressionParser.TermTail | scientific-calculator/src/main/java/com/vibecoding/calculator/parser/ExpressionParser.java:48-58 | the '*'/'/' loop never moves the cursor back |
| JavaExpressionParser.Exponentiation | scientific-calculator/src/main/java/com/vibecoding/calculator/parser/ExpressionParser.java:63-71 | a parsed power ends after where it started, and within the text |
| JavaExpressionParser.Unary | scientific-calculator/src/main/java/com/vibecoding/calculator/parser/ExpressionParser.java:74-80 | a parsed unary ends after where it started, and within the text |
| JavaExpressionParser.Atom | scientific-calculator/src/main/java/com/vibecoding/calculator/parser/ExpressionParser.java:83-125 | a parsed atom ends after where it started, and within the text |
| JavaExpressionParser.Number | scientific-calculator/src/main/java/com/vibecoding/calculator/parser/ExpressionParser.java:172-193 | a number ends where the number scan ends; a text parseDouble refuses is reported as an invalid number with that text |
| JavaExpressionParser.NamedAtom | scientific-calculator/src/main/java/com/vibecoding/calculator/parser/ExpressionParser.java:102-125 | a name's atom ends after where the name started |
| JavaExpressionParser.CallAtom | scientific-calculator/src/main/java/com/vibecoding/calculator/parser/ExpressionParser.java:115-124 | a call's argument ends after the name |
| JavaExpressionParser.ParseText | scientific-calculator/src/main/java/com/vibecoding/calculator/parser/ExpressionParser.java:25-31 | the text is accepted exactly when one expression spans all of it, with that value; otherwise the first character left over is reported with its position, or the expression's error |
| JavaExpressionParser.ConstantsFirst | scientific-calculator/src/main/java/com/vibecoding/calculator/parser/ExpressionParser.java:107-113 | ans is 0, e is Euler's number and pi or π is π, whatever follows the name |
| JavaExpressionParser.NumeralUnary | scientific-calculator/src/main/java/com/vibecoding/calculator/parser/ExpressionParser.java:74-80 | a numeral in the text is read as the number parseDouble makes of it |
| JavaExpressionParser.NumeralOperand | scientific-calculator/src/main/java/com/vibecoding/calculator/parser/ExpressionParser.java:63-71 | a numeral not followed by '^' is a whole operand of the term loop |
| JavaExpressionParser.TermTailTimes | scientific-calculator/src/main/java/com/vibecoding/calculator/parser/ExpressionParser.java:50 | a '*' multiplies the product so far by the next operand and the loop goes on |
| JavaExpressionParser.TermTailStop | scientific-calculator/src/main/java/com/vibecoding/calculator/parser/ExpressionParser.java:57 | any other character ends the term loop with the product so far |
| JavaExpressionParser.TermTailDivideByZero | scientific-calculator/src/main/java/com/vibecoding/calculator/parser/ExpressionParser.java:51-55 | dividing by an operand that is 0 stops with "Divisão por zero" |
| JavaExpressionParser.ExpressionTailStep | scientific-calculator/src/main/java/com/vibecoding/calculator/parser/ExpressionParser.java:38-39 | a '+' or '−' adds or subtracts the next term and the loop goes on |
| JavaExpressionParser.ExpressionTailStop | scientific-calculator/src/main/java/com/vibecoding/calculator/parser/ExpressionParser.java:40 | any other character ends the sum with the value so far |
| JavaExpressionParser.TermFrom | scientific-calculator/src/main/java/com/vibecoding/calculator/parser/ExpressionParser.java:46-47 | a term whose first operand is known continues in the '*'/'/' loop from there |
| JavaExpressionParser.ExpressionFrom | scientific-calculator/src/main/java/com/vibecoding/calculator/parser/ExpressionParser.java:34-35 | an expression whose first term is known continues in the '+'/'−' loop from there |
| JavaExpressionParser.FailureRises | scientific-calculator/src/main/java/com/vibecoding/calculator/parser/ExpressionParser.java:34-80 | an error in a rule is the error of every rule that encloses it |
| JavaExpressionParser.WholeText | scientific-calculator/src/main/java/com/vibecoding/calculator/parser/ExpressionParser.java:25-31 | an expression spanning the whole text is its value |
| JavaExpressionParser.TextLeftOver | scientific-calculator/src/main/java/com/vibecoding/calculator/parser/ExpressionParser.java:27-28 | a parse that stops short of the end reports the character it stopped at, with its position |
| JavaExpressionParser.TextFails | scientific-calculator/src/main/java/com/vibecoding/calculator/parser/ExpressionParser.java:25-26 | a failing expression is the result of the whole parse |
| JavaExpressionParser.PowerFromUnary | scientific-calculator/src/main/java/com/vibecoding/calculator/parser/ExpressionParser.java:63-71 | a unary not followed by '^' is a whole power |
| JavaExpressionParser.PowerOf | scientific-calculator/src/main/java/com/vibecoding/calculator/parser/ExpressionParser.java:63-69 | b^x of two unaries is pow(b, x) |
| JavaExpressionParser.WholeUnary | scientific-calculator/src/main/java/com/vibecoding/calculator/parser/ExpressionParser.java:25-31 | a unary that spans the whole text is its value |
| JavaExpressionParser.UnaryText | scientific-calculator/src/main/java/com/vibecoding/calculator/parser/ExpressionParser.java:25-31 | a unary that, on success, spans the whole text decides the result of the parse |
| JavaExpressionParser.UnaryLeftOver | scientific-calculator/src/main/java/com/vibecoding/calculator/parser/ExpressionParser.java:25-31 | a unary followed by a character no operator loop takes leaves that character over, reported with its position |
| JavaExpressionParser.NamedAtomAt | scientific-calculator/src/main/java/com/vibecoding/calculator/parser/ExpressionParser.java:101-105 | a letter starts a name, and the atom there is the name's atom |
| JavaExpressionParser.ImplicitCall | scientific-calculator/src/main/java/com/vibecoding/calculator/parser/ExpressionParser.java:123-124 | a name that is not a constant and not followed by '(' is applied to the unary after it |
| JavaExpressionParser.NumeralTerm | scientific-calculator/src/main/java/com/vibecoding/calculator/parser/ExpressionParser.java:46-60 | a numeral not followed by '^', '*' or '/' is a whole term |
| JavaExpressionParser.ProductToEnd | scientific-calculator/src/main/java/com/vibecoding/calculator/parser/ExpressionParser.java:46-60 | the term b*c of two numerals is their product |
| JavaExpressionParser.ProductBindsTighter | scientific-calculator/src/main/java/com/vibecoding/calculator/parser/ExpressionParser.java:33-60 | a+b*c and a−b*c take the product first: a ± (b·c) |
| JavaExpressionParser.ProductBindsTighterAt | scientific-calculator/src/main/java/com/vibecoding/calculator/parser/ExpressionParser.java:33-60 | the same, for a text laid out as a, '+' or '−', b, '*', c |
| JavaExpressionParser.DivisionByZeroFails | scientific-calculator/src/main/java/com/vibecoding/calculator/parser/ExpressionParser.java:51-55 | a/z with z parsing to 0 fails with "Divisão por zero" |
| JavaExpressionParser.DivisionByZeroAt | scientific-calculator/src/main/java/com/vibecoding/calculator/parser/ExpressionParser.java:51-55 | the same, for a text laid out as a, '/', z |
| JavaExpressionParser.SingleExponent | scientific-calculator/src/main/java/com/vibecoding/calculator/parser/ExpressionParser.java:63-71 | only one '^' is taken: in a^b^c the second '^' is left over and reported at its position |
| JavaExpressionParser.SingleExponentAt | scientific-calculator/src/main/java/com/vibecoding/calculator/parser/ExpressionParser.java:63-71 | the same, for a text laid out as a, '^', b, '^', … |
| JavaExpressionParser.ImplicitPrefix | scientific-calculator/src/main/java/com/vibecoding/calculator/parser/ExpressionParser.java:123-124 | a name of letters directly followed by a numeral is a call on that numeral |
| JavaExpressionParser.ImplicitArgument | scientific-calculator/src/main/java/com/vibecoding/calculator/parser/ExpressionParser.java:123-124 | a name directly followed by a numeral takes it as its argument: sin30 is sin(30) |
| JavaExpressionParser.ImplicitWhole | scientific-calculator/src/main/java/com/vibecoding/calculator/parser/ExpressionParser.java:123-124 | such a name and numeral making up the whole text give the function's value |
| JavaExpressionParser.ImplicitSineExample | scientific-calculator/src/main/java/com/vibecoding/calculator/parser/ExpressionParser.java:123-129 | "sin30" in radians is sin(30) |
| JavaExpressionParser.SinLookup | scientific-calculator/src/main/java/com/vibecoding/calculator/parser/ExpressionParser.java:129 | sin applies the sine to the argument, in radians or converted from degrees |
| JavaExpressionParser.Log10Example | scientific-calculator/src/main/java/com/vibecoding/calculator/parser/ExpressionParser.java:151 | "log10(100)" reads log(10) and then reports the stray '(' at position 5 |
| JavaExpressionParser.LogLookup | scientific-calculator/src/main/java/com/vibecoding/calculator/parser/ExpressionParser.java:151 | log is the decimal logarithm |
| JavaExpressionParser.Parser.constructor | scientific-calculator/src/main/java/com/vibecoding/calculator/parser/ExpressionParser.java:15-19 | the input is the text without whitespace and the cursor starts at 0 |
| JavaExpressionParser.Parser.Evaluate | scientific-calculator/src/main/java/com/vibecoding/calculator/parser/ExpressionParser.java:15-31 | parsing a text gives the value or error of the functional model |
| JavaExpressionParser.Parser.Parse | scientific-calculator/src/main/java/com/vibecoding/calculator/parser/ExpressionParser.java:25-31 | from the start, parse gives the value or error of the functional model |
| JavaExpressionParser.Parser.Expect | scientific-calculator/src/main/java/com/vibecoding/calculator/parser/ExpressionParser.java:203-208 | steps over the expected character or reports it, as the functional model says |
| JavaExpressionParser.Parser.ParseExpression | scientific-calculator/src/main/java/com/vibecoding/calculator/parser/ExpressionParser.java:34-43 | agrees with the functional model of an expression, value and cursor |
| JavaExpressionParser.Parser.ParseTerm | scientific-calculator/src/main/java/com/vibecoding/calculator/parser/ExpressionParser.java:46-60 | agrees with the functional model of a term, value and cursor |
| JavaExpressionParser.Parser.ParseFactor | scientific-calculator/src/main/java/com/vibecoding/calculator/parser/ExpressionParser.java:50-56 | one '*' or '/' step of the term loop, agreeing with the functional model |
| JavaExpressionParser.Parser.ParsePower | scientific-calculator/src/main/java/com/vibecoding/calculator/parser/ExpressionParser.java:63-71 | agrees with the functional model of a power, value and cursor |
| JavaExpressionParser.Parser.ParseUnary | scientific-calculator/src/main/java/com/vibecoding/calculator/parser/ExpressionParser.java:74-80 | agrees with the functional model of a unary, value and cursor |
| JavaExpressionParser.Parser.ParseAtom | scientific-calculator/src/main/java/com/vibecoding/calculator/parser/ExpressionParser.java:83-125 | agrees with the functional model of an atom, value and cursor |
| JavaExpressionParser.Parser.ParseCall | scientific-calculator/src/main/java/com/vibecoding/calculator/parser/ExpressionParser.java:115-124 | agrees with the functional model of a call after a name |
| JavaExpressionParser.Parser.ApplyFunction | scientific-calculator/src/main/java/com/vibecoding/calculator/parser/ExpressionParser.java:127-170 | gives the table's value, with fact computed by its loop over the int-cast argument |
| JavaExpressionParser.Parser.ParseNumber | scientific-calculator/src/main/java/com/vibecoding/calculator/parser/ExpressionParser.java:172-193 | agrees with the functional model of a number, value and cursor |
| JavaExpressionParser.Parser.ParseName | scientific-calculator/src/main/java/com/vibecoding/calculator/parser/ExpressionParser.java:195-201 | reads the name up to where the name scan ends |
| KotlinExpressionParser.RoundToInt | android-app/app/src/main/java/com/vibecoding/calculator/engine/ExpressionParser.kt:227 | the result is a 32-bit int: the argument rounded half to even when that fits, otherwise the nearest bound |
| KotlinExpressionParser.Factorial | android-app/app/src/main/java/com/vibecoding/calculator/engine/ExpressionParser.kt:162-168 | fact is accepted exactly when the argument rounded half to even lies in 0…170, and is then its factorial; otherwise "Fatorial fora do domínio" |
| KotlinExpressionParser.FactorialLoop | android-app/app/src/main/java/com/vibecoding/calculator/engine/ExpressionParser.kt:162-168 | the accumulator loop of fact gives the factorial and its range error |
| KotlinExpressionParser.FactorialSaturates | android-app/app/src/main/java/com/vibecoding/calculator/engine/ExpressionParser.kt:162-168 | the int conversion saturates rather than wraps: fact is accepted exactly when the converted argument is in 0…170, and an argument above the int range is refused |
| KotlinExpressionParser.Apply | android-app/app/src/main/java/com/vibecoding/calculator/engine/ExpressionParser.kt:129-170 | of the one-argument functions only fact can fail, and it fails exactly outside its range |
| KotlinExpressionParser.FunctionValue | android-app/app/src/main/java/com/vibecoding/calculator/engine/ExpressionParser.kt:129-170 | a name outside the one-argument table is an unknown function; a name in it is applied as the table says |
| KotlinExpressionParser.Apply2 | android-app/app/src/main/java/com/vibecoding/calculator/engine/ExpressionParser.kt:172-189 | nCr and nPr fail exactly when a rounded argument is negative or r > n, and otherwise give the binomial coefficient and the falling product; log(a, b) times ln b is ln a |
| KotlinExpressionParser.FunctionValue2 | android-app/app/src/main/java/com/vibecoding/calculator/engine/ExpressionParser.kt:172-189 | a name outside the two-argument table is an unknown function; a name in it is applied as the table says |
| KotlinExpressionParser.ExpectAt | android-app/app/src/main/java/com/vibecoding/calculator/engine/ExpressionParser.kt:219-224 | succeeds exactly when the expected character is next, and then steps over it; otherwise reports the character and position |
| KotlinExpressionParser.Expression | android-app/app/src/main/java/com/vibecoding/calculator/engine/ExpressionParser.kt:22-32 | a parsed expression ends after where it started, and within the text |
| KotlinExpressionParser.ExpressionTail | android-app/app/src/main/java/com/vibecoding/calculator/engine/ExpressionParser.kt:24-30 | the '+'/'−' loop never moves the cursor back |
| KotlinExpressionParser.Term | android-app/app/src/main/java/com/vibecoding/calculator/engine/ExpressionParser.kt:35-50 | a parsed term ends after where it started, and within the text |
| KotlinExpressionParser.TermTail | android-app/app/src/main/java/com/vibecoding/calculator/engine/ExpressionParser.kt:37-48 | the '*'/'/' loop never moves the cursor back |
| KotlinExpressionParser.Exponentiation | android-app/app/src/main/java/com/vibecoding/calculator/engine/ExpressionParser.kt:53-61 | a parsed power ends after where it started, and within the text |
| KotlinExpressionParser.Unary | android-app/app/src/main/java/com/vibecoding/calculator/engine/ExpressionParser.kt:64-70 | a parsed unary ends after where it started, and within the text |
| KotlinExpressionParser.Atom | android-app/app/src/main/java/com/vibecoding/calculator/engine/ExpressionParser.kt:73-127 | a parsed atom ends after where it started, and within the text |
| KotlinExpressionParser.Number | android-app/app/src/main/java/com/vibecoding/calculator/engine/ExpressionParser.kt:191-209 | a number ends where the number scan ends; a text toDoubleOrNull refuses is reported as an invalid number with that text |
| KotlinExpressionParser.NamedAtom | android-app/app/src/main/java/com/vibecoding/calculator/engine/ExpressionParser.kt:92-127 | a name's atom ends after where the name started |
| KotlinExpressionParser.CallAtom | android-app/app/src/main/java/com/vibecoding/calculator/engine/ExpressionParser.kt:110-126 | a call's arguments end after the name |
| KotlinExpressionParser.SecondArgument | android-app/app/src/main/java/com/vibecoding/calculator/engine/ExpressionParser.kt:115-120 | the second argument of a call ends after the ',' |
| KotlinExpressionParser.ParseText | android-app/app/src/main/java/com/vibecoding/calculator/engine/ExpressionParser.kt:13-19 | the text is accepted exactly when one expression spans all of it, with that value; otherwise the first character left over is reported with its position, or the expression's error |
| KotlinExpressionParser.VariableBinding | android-app/app/src/main/java/com/vibecoding/calculator/engine/ExpressionParser.kt:97-100 | a bound x is its value; an unbound x falls through to the function table and fails |
| KotlinExpressionParser.UnknownNameFails | android-app/app/src/main/java/com/vibecoding/calculator/engine/ExpressionParser.kt:169-188 | a name in neither table cannot be called, whatever follows it |
| KotlinExpressionParser.NumeralUnary | android-app/app/src/main/java/com/vibecoding/calculator/engine/ExpressionParser.kt:64-70 | a numeral in the text is read as the number toDoubleOrNull makes of it |
| KotlinExpressionParser.NumeralOperand | android-app/app/src/main/java/com/vibecoding/calculator/engine/ExpressionParser.kt:53-61 | a numeral not followed by '^' is a whole operand of the term loop |
| KotlinExpressionParser.WholeAtom | android-app/app/src/main/java/com/vibecoding/calculator/engine/ExpressionParser.kt:13-19 | an atom without a sign that spans the whole text is the result of the parse, and so is its error |
| KotlinExpressionParser.TermTailTimes | android-app/app/src/main/java/com/vibecoding/calculator/engine/ExpressionParser.kt:39 | a '*' multiplies the product so far by the next operand and the loop goes on |
| KotlinExpressionParser.TermTailStop | android-app/app/src/main/java/com/vibecoding/calculator/engine/ExpressionParser.kt:46 | any other character ends the term loop with the product so far |
| KotlinExpressionParser.ExpressionTailStep | android-app/app/src/main/java/com/vibecoding/calculator/engine/ExpressionParser.kt:26-27 | a '+' or '−' adds or subtracts the next term and the loop goes on |
| KotlinExpressionParser.ExpressionTailStop | android-app/app/src/main/java/com/vibecoding/calculator/engine/ExpressionParser.kt:28 | any other character ends the sum with the value so far |
| KotlinExpressionParser.TermFrom | android-app/app/src/main/java/com/vibecoding/calculator/engine/ExpressionParser.kt:35-36 | a term whose first operand is known continues in the '*'/'/' loop from there |
| KotlinExpressionParser.ExpressionFrom | android-app/app/src/main/java/com/vibecoding/calculator/engine/ExpressionParser.kt:22-23 | an expression whose first term is known continues in the '+'/'−' loop from there |
| KotlinExpressionParser.PowerFromUnary | android-app/app/src/main/java/com/vibecoding/calculator/engine/ExpressionParser.kt:53-61 | a unary not followed by '^' is a whole power |
| KotlinExpressionParser.WholeText | android-app/app/src/main/java/com/vibecoding/calculator/engine/ExpressionParser.kt:13-19 | an expression spanning the whole text is its value |
| KotlinExpressionParser.NamedAtomAt | android-app/app/src/main/java/com/vibecoding/calculator/engine/ExpressionParser.kt:91-95 | a letter starts a name, and the atom there is the name's atom |
| KotlinExpressionParser.NumeralExpression | android-app/app/src/main/java/com/vibecoding/calculator/engine/ExpressionParser.kt:22-32 | a numeral followed by none of '^', '*', '/', '+', '−' is a whole expression |
| KotlinExpressionParser.NumeralTerm | android-app/app/src/main/java/com/vibecoding/calculator/engine/ExpressionParser.kt:35-50 | a numeral not followed by '^', '*' or '/' is a whole term |
| KotlinExpressionParser.ProductToEnd | android-app/app/src/main/java/com/vibecoding/calculator/engine/ExpressionParser.kt:35-50 | the term b*c of two numerals is their product |
| KotlinExpressionParser.ProductBindsTighter | android-app/app/src/main/java/com/vibecoding/calculator/engine/ExpressionParser.kt:21-50 | a+b*c and a−b*c take the product first: a ± (b·c) |
| KotlinExpressionParser.ProductBindsTighterAt | android-app/app/src/main/java/com/vibecoding/calculator/engine/ExpressionParser.kt:21-50 | the same, for a text laid out as a, '+' or '−', b, '*', c |
| KotlinExpressionParser.SecondArgumentAt | android-app/app/src/main/java/com/vibecoding/calculator/engine/ExpressionParser.kt:115-120 | after the ',' and a second argument reaching the closing ')', the call applies applyFunction2 |
| KotlinExpressionParser.TwoArgumentAtom | android-app/app/src/main/java/com/vibecoding/calculator/engine/ExpressionParser.kt:110-120 | name(a,b) with both arguments parsed applies applyFunction2 to them |
| KotlinExpressionParser.TwoArgumentCall | android-app/app/src/main/java/com/vibecoding/calculator/engine/ExpressionParser.kt:110-120 | name(a,b) of two numerals gives applyFunction2 of their values |
| KotlinExpressionParser.TwoArgumentText | android-app/app/src/main/java/com/vibecoding/calculator/engine/ExpressionParser.kt:110-120 | the same, for a text laid out as name, '(', a, ',', b, ')' |
| KotlinExpressionParser.NcrLayout | android-app/app/src/main/java/com/vibecoding/calculator/engine/ExpressionParser.kt:110-120 | where the parts of "nCr(5,2)" lie |
| KotlinExpressionParser.NcrLookup | android-app/app/src/main/java/com/vibecoding/calculator/engine/ExpressionParser.kt:175-180 | nCr of 5 and 2 is 10 |
| KotlinExpressionParser.CombinationExample | android-app/app/src/main/java/com/vibecoding/calculator/engine/ExpressionParser.kt:175-180 | "nCr(5,2)" evaluates to 10 through the scientific engine |
| KotlinExpressionParser.Parser.constructor | android-app/app/src/main/java/com/vibecoding/calculator/engine/ExpressionParser.kt:5-11 | the input is the text without whitespace, the cursor starts at 0 |
| KotlinExpressionParser.Parser.Evaluate | android-app/app/src/main/java/com/vibecoding/calculator/engine/ExpressionParser.kt:5-19 | parsing a text gives the value or error of the functional model |
| KotlinExpressionParser.Parser.Parse | android-app/app/src/main/java/com/vibecoding/calculator/engine/ExpressionParser.kt:13-19 | from the start, parse gives the value or error of the functional model |
| KotlinExpressionParser.Parser.Expect | android-app/app/src/main/java/com/vibecoding/calculator/engine/ExpressionParser.kt:219-224 | steps over the expected character or reports it, as the functional model says |
| KotlinExpressionParser.Parser.ParseExpression | android-app/app/src/main/java/com/vibecoding/calculator/engine/ExpressionParser.kt:22-32 | agrees with the functional model of an expression, value and cursor |
| KotlinExpressionParser.Parser.ParseTerm | android-app/app/src/main/java/com/vibecoding/calculator/engine/ExpressionParser.kt:35-50 | agrees with the functional model of a term, value and cursor |
| KotlinExpressionParser.Parser.ParseFactor | android-app/app/src/main/java/com/vibecoding/calculator/engine/ExpressionParser.kt:39-45 | one '*' or '/' step of the term loop, agreeing with the functional model |
| KotlinExpressionParser.Parser.ParsePower | android-app/app/src/main/java/com/vibecoding/calculator/engine/ExpressionParser.kt:53-61 | agrees with the functional model of a power, value and cursor |
| KotlinExpressionParser.Parser.ParseUnary | android-app/app/src/main/java/com/vibecoding/calculator/engine/ExpressionParser.kt:64-70 | agrees with the functional model of a unary, value and cursor |
| KotlinExpressionParser.Parser.ParseAtom | android-app/app/src/main/java/com/vibecoding/calculator/engine/ExpressionParser.kt:73-127 | agrees with the functional model of an atom, value and cursor |
| KotlinExpressionParser.Parser.ParseCall | android-app/app/src/main/java/com/vibecoding/calculator/engine/ExpressionParser.kt:110-126 | agrees with the functional model of a call after a name |
| KotlinExpressionParser.Parser.ParseSecondArgument | android-app/app/src/main/java/com/vibecoding/calculator/engine/ExpressionParser.kt:115-120 | agrees with the functional model of the second argument and the closing ')' |
| KotlinExpressionParser.Parser.ApplyFunction | android-app/app/src/main/java/com/vibecoding/calculator/engine/ExpressionParser.kt:129-170 | gives the table's value, with fact computed by its loop |
| KotlinExpressionParser.Parser.ApplyFunction2 | android-app/app/src/main/java/com/vibecoding/calculator/engine/ExpressionParser.kt:172-189 | gives the two-argument table's value, with nCr and nPr computed by the scientific engine's loops |
| KotlinExpressionParser.Parser.ParseNumber | android-app/app/src/main/java/com/vibecoding/calculator/engine/ExpressionParser.kt:191-209 | agrees with the functional model of a number, value and cursor |
| KotlinExpressionParser.Parser.ParseName | android-app/app/src/main/java/com/vibecoding/calculator/engine/ExpressionParser.kt:211-217 | reads the name up to where the name scan ends |
| SwiftExpressionParser.StripSpaces | Sources/ScientificCalculator/Models/ExpressionParser.swift:10-14 | the parser's text keeps every character of the input except spaces, and has no space left |
| SwiftExpressionParser.StripSpacesIdempotent | Sources/ScientificCalculator/Models/ExpressionParser.swift:10-14 | text without spaces is kept as it is, so stripping twice is stripping once |
| SwiftExpressionParser.NumberRunEnd | Sources/ScientificCalculator/Models/ExpressionParser.swift:177-180 | the number loop stops at the first character that is neither a digit nor '.', having read only digits and dots |
| SwiftExpressionParser.DigitRunEnd | Sources/ScientificCalculator/Models/ExpressionParser.swift:190-193 | the exponent loop stops at the first non-digit, having read only digits |
| SwiftExpressionParser.NumberEnd | Sources/ScientificCalculator/Models/ExpressionParser.swift:175-194 | a number's text reaches at least past its digits and dots, and never past the end |
| SwiftExpressionParser.NameEnd | Sources/ScientificCalculator/Models/ExpressionParser.swift:204-211 | the name loop stops at the first character that is neither a letter nor a digit, having read only letters and digits |
| SwiftExpressionParser.ApplyOneArg | Sources/ScientificCalculator/Models/ExpressionParser.swift:245-315 | a one-argument function fails exactly outside its domain (tan, asin, acos, acosh, atanh, ln, log, log2, sqrt), and only with a domain error |
| SwiftExpressionParser.OneArgFunction | Sources/ScientificCalculator/Models/ExpressionParser.swift:245-318 | a name outside the one-argument table is an unknown function; a name in it fails exactly outside its domain |
| SwiftExpressionParser.ApplyTwoArg | Sources/ScientificCalculator/Models/ExpressionParser.swift:323-340 | pow is pow; root fails exactly for a zero index; nPr and nCr truncate both arguments and are accepted exactly when 0 ≤ r ≤ n ≤ 170, giving the falling product and the binomial coefficient |
| SwiftExpressionParser.TwoArgFunction | Sources/ScientificCalculator/Models/ExpressionParser.swift:323-343 | a name outside the two-argument table is an unknown function; otherwise only domain errors |
| SwiftExpressionParser.ConsumeAt | Sources/ScientificCalculator/Models/ExpressionParser.swift:72-78 | succeeds exactly when the expected character is next, and steps over it; otherwise the end or the character found is reported |
| SwiftExpressionParser.Expression | Sources/ScientificCalculator/Models/ExpressionParser.swift:82-96 | a parsed expression ends after where it started, and within the text |
| SwiftExpressionParser.ExpressionTail | Sources/ScientificCalculator/Models/ExpressionParser.swift:84-94 | the '+'/'-' loop never moves the cursor back |
| SwiftExpressionParser.Term | Sources/ScientificCalculator/Models/ExpressionParser.swift:100-118 | a parsed term ends after where it started, and within the text |
| SwiftExpressionParser.TermTail | Sources/ScientificCalculator/Models/ExpressionParser.swift:102-116 | the '*'/'×'/'/'/'÷' loop never moves the cursor back |
| SwiftExpressionParser.Exponentiation | Sources/ScientificCalculator/Models/ExpressionParser.swift:122-130 | a parsed power ends after where it started, and within the text |
| SwiftExpressionParser.Unary | Sources/ScientificCalculator/Models/ExpressionParser.swift:134-144 | a parsed unary ends after where it started, and within the text |
| SwiftExpressionParser.Primary | Sources/ScientificCalculator/Models/ExpressionParser.swift:148-171 | a parsed primary ends after where it started, and within the text |
| SwiftExpressionParser.Number | Sources/ScientificCalculator/Models/ExpressionParser.swift:175-200 | a number ends where the number text ends |
| SwiftExpressionParser.NamedToken | Sources/ScientificCalculator/Models/ExpressionParser.swift:215-241 | a named token never moves the cursor back |
| SwiftExpressionParser.CallToken | Sources/ScientificCalculator/Models/ExpressionParser.swift:225-240 | a call never moves the cursor back |
| SwiftExpressionParser.SecondArgument | Sources/ScientificCalculator/Models/ExpressionParser.swift:232-237 | the second argument of a call never moves the cursor back |
| SwiftExpressionParser.ParseText | Sources/ScientificCalculator/Models/ExpressionParser.swift:18-24 | the text is accepted exactly when one expression spans all of it, with that value; no parse error is the unknown error |
| SwiftExpressionParser.EvaluateText | Sources/ScientificCalculator/Models/ExpressionParser.swift:26-36 | evaluating a text never reports the unknown error |
| SwiftExpressionParser.NumeralUnary | Sources/ScientificCalculator/Models/ExpressionParser.swift:134-144 | a numeral in the text is read as the number Double() makes of it, and the cursor stops right after it |
| SwiftExpressionParser.NumeralOperand | Sources/ScientificCalculator/Models/ExpressionParser.swift:122-130 | a numeral not followed by '^' is a whole operand of the term loop |
| SwiftExpressionParser.TermTailTimes | Sources/ScientificCalculator/Models/ExpressionParser.swift:103-105 | a '*' or '×' multiplies the product so far by the next operand and the loop goes on |
| SwiftExpressionParser.TermTailStop | Sources/ScientificCalculator/Models/ExpressionParser.swift:113-114 | any character other than the four multiplication and division signs ends the term loop with the product so far |
| SwiftExpressionParser.ExpressionTailStep | Sources/ScientificCalculator/Models/ExpressionParser.swift:85-90 | a '+' or '-' adds or subtracts the next term and the loop goes on |
| SwiftExpressionParser.ExpressionTailStop | Sources/ScientificCalculator/Models/ExpressionParser.swift:91-92 | any other character ends the sum with the value so far |
| SwiftExpressionParser.TermFrom | Sources/ScientificCalculator/Models/ExpressionParser.swift:100-101 | a term whose first operand is known continues in the loop from there |
| SwiftExpressionParser.ExpressionFrom | Sources/ScientificCalculator/Models/ExpressionParser.swift:82-83 | an expression whose first term is known continues in the loop from there |
| SwiftExpressionParser.FailureRises | Sources/ScientificCalculator/Models/ExpressionParser.swift:82-144 | an error in a unary, a power or a term is the error of the term and the expression around it |
| SwiftExpressionParser.WholeText | Sources/ScientificCalculator/Models/ExpressionParser.swift:18-24 | an expression spanning the whole text is the result |
| SwiftExpressionParser.TextLeftOver | Sources/ScientificCalculator/Models/ExpressionParser.swift:20-21 | a parse that stops short of the end reports the character it stopped at |
| SwiftExpressionParser.TextFails | Sources/ScientificCalculator/Models/ExpressionParser.swift:19 | a failing expression is the result of the whole parse |
| SwiftExpressionParser.UnaryMinus | Sources/ScientificCalculator/Models/ExpressionParser.swift:135-138 | a '-' negates the unary after it |
| SwiftExpressionParser.TermTailDivideByZero | Sources/ScientificCalculator/Models/ExpressionParser.swift:106-111 | a divisor that evaluates to zero is the domain error "Divisão por zero" |
| SwiftExpressionParser.PrimaryOperand | Sources/ScientificCalculator/Models/ExpressionParser.swift:134-144 | a primary that is not signed is the unary there, and its error rises to the power |
| SwiftExpressionParser.RejectedNumber | Sources/ScientificCalculator/Models/ExpressionParser.swift:196-198 | number text Double() rejects at the start of the text fails the parse, reporting its first character |
| SwiftExpressionParser.PrimaryFails | Sources/ScientificCalculator/Models/ExpressionParser.swift:143-171 | a failing primary at the start of an unsigned text fails the whole parse |
| SwiftExpressionParser.PowerFromUnary | Sources/ScientificCalculator/Models/ExpressionParser.swift:122-130 | a unary not followed by '^' is a whole power |
| SwiftExpressionParser.PowerOf | Sources/ScientificCalculator/Models/ExpressionParser.swift:122-128 | b^x of two unaries is pow(b, x) |
| SwiftExpressionParser.ProductToEnd | Sources/ScientificCalculator/Models/ExpressionParser.swift:100-118 | the term b*c of two numerals is their product |
| SwiftExpressionParser.NumeralTerm | Sources/ScientificCalculator/Models/ExpressionParser.swift:100-118 | a numeral followed by no '^' and no multiplication or division sign is a whole term |
| SwiftExpressionParser.ProductBindsTighter | Sources/ScientificCalculator/Models/ExpressionParser.swift:82-118 | a+b*c and a-b*c take the product first: a ± (b·c) |
| SwiftExpressionParser.ProductBindsTighterAt | Sources/ScientificCalculator/Models/ExpressionParser.swift:82-118 | the same, for a text laid out as a, '+' or '-', b, '*', c |
| SwiftExpressionParser.GroupedSum | Sources/ScientificCalculator/Models/ExpressionParser.swift:152-157 | (a+b) of two numerals is a primary worth a+b |
| SwiftExpressionParser.ParenthesesGroup | Sources/ScientificCalculator/Models/ExpressionParser.swift:152-157 | parentheses override precedence: (a+b)*c is (a+b)·c |
| SwiftExpressionParser.ParenthesesGroupAt | Sources/ScientificCalculator/Models/ExpressionParser.swift:152-157 | the same, for a text laid out as '(', a, '+', b, ')', '*', c |
| SwiftExpressionParser.DivisionByZero | Sources/ScientificCalculator/Models/ExpressionParser.swift:106-111 | a/z with z a numeral worth zero is the domain error "Divisão por zero" |
| SwiftExpressionParser.DivisionByZeroAt | Sources/ScientificCalculator/Models/ExpressionParser.swift:106-111 | the same, for a text laid out as a, '/', z |
| SwiftExpressionParser.SignedExponent | Sources/ScientificCalculator/Models/ExpressionParser.swift:122-128 | the exponent is a unary, so a^-b is pow(a, −b) |
| SwiftExpressionParser.SignedExponentAt | Sources/ScientificCalculator/Models/ExpressionParser.swift:122-128 | the same, for a text laid out as a, '^', '-', b |
| SwiftExpressionParser.SingleExponent | Sources/ScientificCalculator/Models/ExpressionParser.swift:122-130 | only one '^' is taken: in a^b^c the second '^' is left over and the parse fails on it |
| SwiftExpressionParser.SingleExponentAt | Sources/ScientificCalculator/Models/ExpressionParser.swift:122-130 | the same, for a text laid out as a, '^', b, '^', … |
| SwiftExpressionParser.NameResolution | Sources/ScientificCalculator/Models/ExpressionParser.swift:215-227 | pi/π, e and phi/φ are constants whatever follows; any other name not followed by '(' is an unknown function |
| SwiftExpressionParser.CallOneArgument | Sources/ScientificCalculator/Models/ExpressionParser.swift:228-240 | name(a) with one argument applies the one-argument table, and a name missing from it is an unknown function |
| SwiftExpressionParser.CallOneArgumentAt | Sources/ScientificCalculator/Models/ExpressionParser.swift:228-240 | the same, for a call laid out from a given position |
| SwiftExpressionParser.NumeralExpression | Sources/ScientificCalculator/Models/ExpressionParser.swift:82-96 | a numeral followed by ')' is a whole expression |
| SwiftExpressionParser.OneArgumentCall | Sources/ScientificCalculator/Models/ExpressionParser.swift:228-240 | a call whose argument reaches the closing ')' applies the one-argument table to it |
| SwiftExpressionParser.PrecedenceExample | Sources/ScientificCalculator/Models/ExpressionParser.swift:82-118 | "2+3*4" evaluates to 14 |
| SwiftExpressionParser.GroupingExample | Sources/ScientificCalculator/Models/ExpressionParser.swift:152-157 | "(2+3)*4" evaluates to 20 |
| SwiftExpressionParser.DifferenceExample | Sources/ScientificCalculator/Models/ExpressionParser.swift:82-118 | "10-2*3" evaluates to 4 |
| SwiftExpressionParser.DivisionByZeroExample | Sources/ScientificCalculator/Models/ExpressionParser.swift:106-111 | "1/0" is the domain error "Divisão por zero" |
| SwiftExpressionParser.RepeatedPowerExample | Sources/ScientificCalculator/Models/ExpressionParser.swift:122-130 | "2^3^2" fails on the second '^' |
| SwiftExpressionParser.BracketExamples | Sources/ScientificCalculator/Models/ExpressionParser.swift:148-170 | a stray ')' is an unexpected character and an unclosed '(' an unexpected end |
| SwiftExpressionParser.MalformedNumberExample | Sources/ScientificCalculator/Models/ExpressionParser.swift:175-198 | "1.2.3" is read as one number text that Double() rejects, so '1' is reported |
| SwiftExpressionParser.TabExample | Sources/ScientificCalculator/Models/ExpressionParser.swift:11-21 | only spaces are stripped: "1\t" fails on the tab |
| SwiftExpressionParser.UnknownFunctionExample | Sources/ScientificCalculator/Models/ExpressionParser.swift:316-317 | "foo(1)" is an unknown function "foo" |
| SwiftExpressionParser.BareFunctionNameExample | Sources/ScientificCalculator/Models/ExpressionParser.swift:225-227 | "sin" without '(' is an unknown function |
| SwiftExpressionParser.Parser.constructor | Sources/ScientificCalculator/Models/ExpressionParser.swift:10-14 | the parser holds the text without spaces, with the cursor at its start |
| SwiftExpressionParser.Parser.Evaluate | Sources/ScientificCalculator/Models/ExpressionParser.swift:26-36 | gives the value or error of the functional model |
| SwiftExpressionParser.Parser.Parse | Sources/ScientificCalculator/Models/ExpressionParser.swift:18-24 | from the start, gives the value or error of the functional model |
| SwiftExpressionParser.Parser.Consume | Sources/ScientificCalculator/Models/ExpressionParser.swift:72-78 | steps over the expected character or reports the error of the functional model |
| SwiftExpressionParser.Parser.ParseExpression | Sources/ScientificCalculator/Models/ExpressionParser.swift:82-96 | agrees with the functional model of an expression, value and cursor |
| SwiftExpressionParser.Parser.ParseTerm | Sources/ScientificCalculator/Models/ExpressionParser.swift:100-118 | agrees with the functional model of a term, value and cursor |
| SwiftExpressionParser.Parser.ParseFactor | Sources/ScientificCalculator/Models/ExpressionParser.swift:103-112 | one multiplication or division step of the term loop, agreeing with the functional model |
| SwiftExpressionParser.Parser.ParsePower | Sources/ScientificCalculator/Models/ExpressionParser.swift:122-130 | agrees with the functional model of a power, value and cursor |
| SwiftExpressionParser.Parser.ParseUnary | Sources/ScientificCalculator/Models/ExpressionParser.swift:134-144 | agrees with the functional model of a unary, value and cursor |
| SwiftExpressionParser.Parser.ParsePrimary | Sources/ScientificCalculator/Models/ExpressionParser.swift:148-171 | agrees with the functional model of a primary, value and cursor |
| SwiftExpressionParser.Parser.ParseNumber | Sources/ScientificCalculator/Models/ExpressionParser.swift:175-200 | agrees with the functional model of a number, value and cursor |
| SwiftExpressionParser.Parser.ScanExponent | Sources/ScientificCalculator/Models/ExpressionParser.swift:183-194 | reads an 'e' or 'E', an optional sign and digits, exactly the text it steps over |
| SwiftExpressionParser.Parser.ParseName | Sources/ScientificCalculator/Models/ExpressionParser.swift:204-211 | reads the name up to where the name scan ends, lower-cased |
| SwiftExpressionParser.Parser.EvaluateNamedToken | Sources/ScientificCalculator/Models/ExpressionParser.swift:215-241 | agrees with the functional model of a named token |
| SwiftExpressionParser.Parser.ParseCall | Sources/ScientificCalculator/Models/ExpressionParser.swift:225-240 | agrees with the functional model of a call |
| SwiftExpressionParser.Parser.ParseSecondArgument | Sources/ScientificCalculator/Models/ExpressionParser.swift:232-237 | agrees with the functional model of a second argument and the closing ')' |
| JavaFinancialEngine.PresentValueOfFutureValue | scientific-calculator/src/main/java/com/vibecoding/calculator/engine/FinancialEngine.java:19-36 | presentValue undoes futureValue: for the same periods, rate, payment and mode, the present value of the computed future value is the original pv |
| JavaFinancialEngine.FutureValueOfPayment | scientific-calculator/src/main/java/com/vibecoding/calculator/engine/FinancialEngine.java:19-47 | payment solves futureValue: paying the computed payment brings pv to the target fv |
| JavaFinancialEngine.Periods | scientific-calculator/src/main/java/com/vibecoding/calculator/engine/FinancialEngine.java:52-64 | periods fails exactly when the rate is 0 and the payment is 0 ("Impossível calcular N"), or when the rate is not 0 and the ratio (pmtAdj − fv·i)/(pmtAdj + pv·i) is not positive ("Valores TVM inconsistentes") |
| JavaFinancialEngine.PeriodsReachFutureValue | scientific-calculator/src/main/java/com/vibecoding/calculator/engine/FinancialEngine.java:52-64 | the period count periods finds is one at which futureValue reaches fv, given that pow undoes log |
| JavaFinancialEngine.RateResidualMeasuresFutureValue | scientific-calculator/src/main/java/com/vibecoding/calculator/engine/FinancialEngine.java:72-75 | the function whose root interestRate seeks is fv minus futureValue at that rate |
| JavaFinancialEngine.NewtonRateKeepsRoot | scientific-calculator/src/main/java/com/vibecoding/calculator/engine/FinancialEngine.java:69-88 | a trial rate at which futureValue already reaches fv is reported as it is, provided the slope there is usable |
| JavaFinancialEngine.InterestRate | scientific-calculator/src/main/java/com/vibecoding/calculator/engine/FinancialEngine.java:69-88 | the loop gives the Newton iteration from 0.1 with at most 1000 steps, times 100 |
| JavaFinancialEngine.RateIteration | scientific-calculator/src/main/java/com/vibecoding/calculator/engine/FinancialEngine.java:72-85 | one pass of the loop either ends the method with its answer or continues the iteration from the next guess |
| JavaFinancialEngine.DiscountAt | scientific-calculator/src/main/java/com/vibecoding/calculator/engine/FinancialEngine.java:98-114 | the loop sums each flow discounted by (1+x)^t |
| JavaFinancialEngine.Npv | scientific-calculator/src/main/java/com/vibecoding/calculator/engine/FinancialEngine.java:95-102 | npv is the discounted sum of the flows at rate/100 |
| JavaFinancialEngine.NetPresentValueBasics | scientific-calculator/src/main/java/com/vibecoding/calculator/engine/FinancialEngine.java:95-102 | no flows are worth 0, a single flow counts at face value, and at rate 0 the value is the plain sum |
| JavaFinancialEngine.BisectionHalves | scientific-calculator/src/main/java/com/vibecoding/calculator/engine/FinancialEngine.java:107-123 | the rate bisection reports lies strictly inside its starting bracket, whether it stops early or runs out of iterations |
| JavaFinancialEngine.Irr | scientific-calculator/src/main/java/com/vibecoding/calculator/engine/FinancialEngine.java:107-123 | irr is the bisection on [−0.999, 10] with 1000 iterations, and lies strictly between −99.9 and 1000 percent |
| JavaFinancialEngine.SnapBounds | scientific-calculator/src/main/java/com/vibecoding/calculator/engine/FinancialEngine.java:161 | a snapped balance is 0 or at least a cent from it, moves by less than a cent, and is kept when already a cent or more from 0 |
| JavaFinancialEngine.ScheduleRows | scientific-calculator/src/main/java/com/vibecoding/calculator/engine/FinancialEngine.java:157-163 | the table has one row per period |
| JavaFinancialEngine.AmortizationSchedule | scientific-calculator/src/main/java/com/vibecoding/calculator/engine/FinancialEngine.java:146-165 | the loop builds exactly the schedule of the functional model |
| JavaFinancialEngine.NextRow | scientific-calculator/src/main/java/com/vibecoding/calculator/engine/FinancialEngine.java:158-162 | one pass of the loop gives the row of that period and the next balance |
| JavaFinancialEngine.ScheduleShape | scientific-calculator/src/main/java/com/vibecoding/calculator/engine/FinancialEngine.java:146-165 | one row per period (none when totalPeriods < 1), numbered from 1, all with the same instalment |
| JavaFinancialEngine.RowsChain | scientific-calculator/src/main/java/com/vibecoding/calculator/engine/FinancialEngine.java:157-163 | every row splits the payment into interest and principal; the interest is charged on the balance the row before left, and each balance is the previous one less the principal, snapped within a cent |
| JavaFinancialEngine.InstalmentRepaysLoan | scientific-calculator/src/main/java/com/vibecoding/calculator/engine/FinancialEngine.java:149-153 | before snapping, the French-system instalment pays the loan off exactly in totalPeriods payments |
| JavaFinancialEngine.ZeroRateInstalment | scientific-calculator/src/main/java/com/vibecoding/calculator/engine/FinancialEngine.java:150 | at a zero rate the payments add up to the principal |
| JavaFinancialEngine.DepreciationSL | scientific-calculator/src/main/java/com/vibecoding/calculator/engine/FinancialEngine.java:170-173 | fails exactly when life ≤ 0 ("Vida útil inválida"); otherwise life charges make up cost − salvage |
| JavaFinancialEngine.DbChargeBounds | scientific-calculator/src/main/java/com/vibecoding/calculator/engine/FinancialEngine.java:185-187 | a declining-balance charge is never negative, never more than the rate's share of the book value, and a positive one leaves at least salvage |
| JavaFinancialEngine.DecliningBalance | scientific-calculator/src/main/java/com/vibecoding/calculator/engine/FinancialEngine.java:176-188 | fails exactly when life ≤ 0 or year ≤ 0 ("Parâmetros inválidos"); otherwise the charge is not negative |
| JavaFinancialEngine.DepreciationDB | scientific-calculator/src/main/java/com/vibecoding/calculator/engine/FinancialEngine.java:176-188 | the loop gives the declining-balance charge of the functional model |
| JavaFinancialEngine.DbBookValueDeclines | scientific-calculator/src/main/java/com/vibecoding/calculator/engine/FinancialEngine.java:180-184 | the book value never rises year to year and never falls below salvage (when 0 ≤ salvage ≤ cost and the rate is not negative) |
| JavaFinancialEngine.DecliningBalanceKeepsSalvage | scientific-calculator/src/main/java/com/vibecoding/calculator/engine/FinancialEngine.java:185-187 | a charge leaves the book value at or above salvage |
| JavaFinancialEngine.DepreciationSYD | scientific-calculator/src/main/java/com/vibecoding/calculator/engine/FinancialEngine.java:191-196 | fails exactly when life ≤ 0 or year ≤ 0; otherwise the charge is (cost − salvage)·(life − year + 1)/(life(life+1)/2) |
| JavaFinancialEngine.DepreciationSYDSchedule | scientific-calculator/src/main/java/com/vibecoding/calculator/engine/FinancialEngine.java:191-196 | over years 1…life the charges add up to cost − salvage, and a year past life + 1 gives a negative charge (year is not bounded by life) |
| JavaFinancialEngine.BondPriceDiscountsCoupons | scientific-calculator/src/main/java/com/vibecoding/calculator/engine/FinancialEngine.java:203-210 | for a whole number of periods the price is the coupons and the face value each discounted period by period |
| JavaFinancialEngine.BondAtPar | scientific-calculator/src/main/java/com/vibecoding/calculator/engine/FinancialEngine.java:203-210 | a bond whose coupon rate equals its yield is priced at face value |
| JavaFinancialEngine.PercentChange | scientific-calculator/src/main/java/com/vibecoding/calculator/engine/FinancialEngine.java:218-221 | fails exactly for a zero base ("Valor base zero"); otherwise new = old + result% of abs(old) |
| JavaFinancialEngine.PercentChangeOfPercentOf | scientific-calculator/src/main/java/com/vibecoding/calculator/engine/FinancialEngine.java:214-221 | adding p percent of abs(old) is a change of p percent |
| JavaFinancialEngine.PercentTotal | scientific-calculator/src/main/java/com/vibecoding/calculator/engine/FinancialEngine.java:223-226 | fails exactly for a zero total ("Total zero"); otherwise the result percent of the total is the part |
| JavaFinancialEngine.Markup | scientific-calculator/src/main/java/com/vibecoding/calculator/engine/FinancialEngine.java:228-231 | fails exactly for a zero cost ("Custo zero"); otherwise price = cost + result% of cost |
| JavaFinancialEngine.Margin | scientific-calculator/src/main/java/com/vibecoding/calculator/engine/FinancialEngine.java:233-236 | fails exactly for a zero price ("Preço zero"); otherwise cost = price − result% of price |
| JavaFinancialEngine.MeanOf | scientific-calculator/src/main/java/com/vibecoding/calculator/engine/FinancialEngine.java:240-245 | fails exactly for no data ("Sem dados"); otherwise the mean times the count is the sum |
| JavaFinancialEngine.Mean | scientific-calculator/src/main/java/com/vibecoding/calculator/engine/FinancialEngine.java:240-245 | the loop gives the mean of the functional model |
| JavaFinancialEngine.StandardDeviation | scientific-calculator/src/main/java/com/vibecoding/calculator/engine/FinancialEngine.java:247-253 | fails exactly for fewer than two values ("Dados insuficientes") |
| JavaFinancialEngine.StdDev | scientific-calculator/src/main/java/com/vibecoding/calculator/engine/FinancialEngine.java:247-253 | the loop gives the sample standard deviation of the functional model |
| JavaFinancialEngine.VarianceZero | scientific-calculator/src/main/java/com/vibecoding/calculator/engine/FinancialEngine.java:247-253 | the sample variance is never negative and is 0 exactly when all values are equal |
| JavaFinancialEngine.Regression | scientific-calculator/src/main/java/com/vibecoding/calculator/engine/FinancialEngine.java:255-276 | fails with "Dados insuficientes" exactly when the lengths differ or fewer than two points, and with "Regressão indefinida" when the x values give a zero denominator |
| JavaFinancialEngine.LinearRegression | scientific-calculator/src/main/java/com/vibecoding/calculator/engine/FinancialEngine.java:255-276 | the loops give the least-squares fit of the functional model |
| JavaFinancialEngine.RegressionThroughMeans | scientific-calculator/src/main/java/com/vibecoding/calculator/engine/FinancialEngine.java:264-265 | the fitted line passes through the point of means |
| JavaFinancialEngine.RegressionR2AtMostOne | scientific-calculator/src/main/java/com/vibecoding/calculator/engine/FinancialEngine.java:267-274 | r² is at most 1 |
| KotlinFinancialEngine.PresentValueOfFutureValue | android-app/app/src/main/java/com/vibecoding/calculator/engine/FinancialEngine.kt:9-23 | presentValue undoes futureValue: for the same periods, rate, payment and mode, the present value of the computed future value is the original pv |
| KotlinFinancialEngine.FutureValueOfPayment | android-app/app/src/main/java/com/vibecoding/calculator/engine/FinancialEngine.kt:9-31 | payment solves futureValue: paying the computed payment brings pv to the target fv |
| KotlinFinancialEngine.Periods | android-app/app/src/main/java/com/vibecoding/calculator/engine/FinancialEngine.kt:33-45 | periods fails exactly when the rate is 0 and the payment is 0 ("Impossível calcular N"), or when the rate is not 0 and the ratio (pmtAdj − fv·i)/(pmtAdj + pv·i) is not positive ("Valores TVM inconsistentes") |
| KotlinFinancialEngine.PeriodsReachFutureValue | android-app/app/src/main/java/com/vibecoding/calculator/engine/FinancialEngine.kt:9-45 | the period count periods finds is one at which futureValue reaches fv, given that pow undoes log |
| KotlinFinancialEngine.RateResidualMeasuresFutureValue | android-app/app/src/main/java/com/vibecoding/calculator/engine/FinancialEngine.kt:50-53 | the function whose root interestRate seeks is fv minus futureValue at that rate |
| KotlinFinancialEngine.NewtonRateKeepsRoot | android-app/app/src/main/java/com/vibecoding/calculator/engine/FinancialEngine.kt:47-65 | a trial rate at which futureValue already reaches fv is reported as it is, provided the slope there is usable |
| KotlinFinancialEngine.InterestRate | android-app/app/src/main/java/com/vibecoding/calculator/engine/FinancialEngine.kt:47-65 | the loop gives the Newton iteration from 0.1 with at most 1000 steps, times 100 |
| KotlinFinancialEngine.RateIteration | android-app/app/src/main/java/com/vibecoding/calculator/engine/FinancialEngine.kt:50-62 | one pass of the loop either ends the method with its answer or continues the iteration from the next guess |
| KotlinFinancialEngine.DiscountAt | android-app/app/src/main/java/com/vibecoding/calculator/engine/FinancialEngine.kt:72-86 | the loop sums each flow discounted by (1+x)^t |
| KotlinFinancialEngine.Npv | android-app/app/src/main/java/com/vibecoding/calculator/engine/FinancialEngine.kt:69-76 | npv is the discounted sum of the flows at rate/100 |
| KotlinFinancialEngine.NetPresentValueBasics | android-app/app/src/main/java/com/vibecoding/calculator/engine/FinancialEngine.kt:69-76 | no flows are worth 0, a single flow counts at face value, and at rate 0 the value is the plain sum |
| KotlinFinancialEngine.BisectionHalves | android-app/app/src/main/java/com/vibecoding/calculator/engine/FinancialEngine.kt:78-95 | the rate bisection reports lies strictly inside its starting bracket, whether it stops early or runs out of iterations |
| KotlinFinancialEngine.Irr | android-app/app/src/main/java/com/vibecoding/calculator/engine/FinancialEngine.kt:78-95 | irr is the bisection on [−0.999, 10] with 1000 iterations, and lies strictly between −99.9 and 1000 percent |
| KotlinFinancialEngine.SnapBounds | android-app/app/src/main/java/com/vibecoding/calculator/engine/FinancialEngine.kt:121 | a snapped balance is 0 or at least a cent from it, moves by less than a cent, and is kept when already a cent or more from 0 |
| KotlinFinancialEngine.ScheduleRows | android-app/app/src/main/java/com/vibecoding/calculator/engine/FinancialEngine.kt:117-123 | the table has one row per period |
| KotlinFinancialEngine.AmortizationSchedule | android-app/app/src/main/java/com/vibecoding/calculator/engine/FinancialEngine.kt:107-125 | the loop builds exactly the schedule of the functional model |
| KotlinFinancialEngine.NextRow | android-app/app/src/main/java/com/vibecoding/calculator/engine/FinancialEngine.kt:118-122 | one pass of the loop gives the row of that period and the next balance |
| KotlinFinancialEngine.ScheduleShape | android-app/app/src/main/java/com/vibecoding/calculator/engine/FinancialEngine.kt:107-125 | one row per period (none when totalPeriods < 1), numbered from 1, all with the same instalment |
| KotlinFinancialEngine.RowsChain | android-app/app/src/main/java/com/vibecoding/calculator/engine/FinancialEngine.kt:117-123 | every row splits the payment into interest and principal; the interest is charged on the balance the row before left, and each balance is the previous one less the principal, snapped within a cent |
| KotlinFinancialEngine.InstalmentRepaysLoan | android-app/app/src/main/java/com/vibecoding/calculator/engine/FinancialEngine.kt:109-113 | before snapping, the French-system instalment pays the loan off exactly in totalPeriods payments |
| KotlinFinancialEngine.ZeroRateInstalment | android-app/app/src/main/java/com/vibecoding/calculator/engine/FinancialEngine.kt:110 | at a zero rate the payments add up to the principal |
| KotlinFinancialEngine.DepreciationSL | android-app/app/src/main/java/com/vibecoding/calculator/engine/FinancialEngine.kt:129-132 | fails exactly when life ≤ 0 ("Vida útil inválida"); otherwise life charges make up cost − salvage |
| KotlinFinancialEngine.DbChargeBounds | android-app/app/src/main/java/com/vibecoding/calculator/engine/FinancialEngine.kt:143-145 | a declining-balance charge is never negative, never more than the rate's share of the book value, and a positive one leaves at least salvage |
| KotlinFinancialEngine.DecliningBalance | android-app/app/src/main/java/com/vibecoding/calculator/engine/FinancialEngine.kt:134-146 | fails exactly when life ≤ 0 or year ≤ 0 ("Parâmetros inválidos"); otherwise the charge is not negative |
| KotlinFinancialEngine.DepreciationDB | android-app/app/src/main/java/com/vibecoding/calculator/engine/FinancialEngine.kt:134-146 | the loop gives the declining-balance charge of the functional model |
| KotlinFinancialEngine.DbBookValueDeclines | android-app/app/src/main/java/com/vibecoding/calculator/engine/FinancialEngine.kt:138-142 | the book value never rises year to year and never falls below salvage (when 0 ≤ salvage ≤ cost and the rate is not negative) |
| KotlinFinancialEngine.DecliningBalanceKeepsSalvage | android-app/app/src/main/java/com/vibecoding/calculator/engine/FinancialEngine.kt:143-145 | a charge leaves the book value at or above salvage |
| KotlinFinancialEngine.DepreciationSYD | android-app/app/src/main/java/com/vibecoding/calculator/engine/FinancialEngine.kt:148-153 | fails exactly when life ≤ 0 or year ≤ 0; otherwise the charge is (cost − salvage)·(life − year + 1)/(life(life+1)/2) |
| KotlinFinancialEngine.DepreciationSYDSchedule | android-app/app/src/main/java/com/vibecoding/calculator/engine/FinancialEngine.kt:148-153 | over years 1…life the charges add up to cost − salvage, and a year past life + 1 gives a negative charge (year is not bounded by life) |
| KotlinFinancialEngine.BondPriceDiscountsCoupons | android-app/app/src/main/java/com/vibecoding/calculator/engine/FinancialEngine.kt:157-164 | for a whole number of periods the price is the coupons and the face value each discounted period by period |
| KotlinFinancialEngine.BondAtPar | android-app/app/src/main/java/com/vibecoding/calculator/engine/FinancialEngine.kt:157-164 | a bond whose coupon rate equals its yield is priced at face value |
| KotlinFinancialEngine.PercentChange | android-app/app/src/main/java/com/vibecoding/calculator/engine/FinancialEngine.kt:170-173 | fails exactly for a zero base ("Valor base zero"); otherwise new = old + result% of abs(old) |
| KotlinFinancialEngine.PercentChangeOfPercentOf | android-app/app/src/main/java/com/vibecoding/calculator/engine/FinancialEngine.kt:168-173 | adding p percent of abs(old) is a change of p percent |
| KotlinFinancialEngine.Markup | android-app/app/src/main/java/com/vibecoding/calculator/engine/FinancialEngine.kt:175-178 | fails exactly for a zero cost ("Custo zero"); otherwise price = cost + result% of cost |
| KotlinFinancialEngine.Margin | android-app/app/src/main/java/com/vibecoding/calculator/engine/FinancialEngine.kt:180-183 | fails exactly for a zero price ("Preço zero"); otherwise cost = price − result% of price |
| SwiftFinancialEngine.ZeroRateFormulas | Sources/ScientificCalculator/Models/FinancialEngine.swift:10-43 | below the 1e-15 threshold futureValue, presentValue and payment are the interest-free formulas |
| SwiftFinancialEngine.PresentValueOfFutureValue | Sources/ScientificCalculator/Models/FinancialEngine.swift:10-31 | presentValue undoes futureValue for the same periods, rate, payment and mode |
| SwiftFinancialEngine.FutureValueOfPayment | Sources/ScientificCalculator/Models/FinancialEngine.swift:10-43 | payment solves futureValue: paying the computed payment brings pv to the target fv |
| SwiftFinancialEngine.NumberOfPeriods | Sources/ScientificCalculator/Models/FinancialEngine.swift:46-57 | at a negligible rate there is no answer exactly when nothing is paid |
| SwiftFinancialEngine.NumberOfPeriodsSolves | Sources/ScientificCalculator/Models/FinancialEngine.swift:46-57 | the period count numberOfPeriods finds is one at which futureValue reaches fv, given that pow undoes log |
| SwiftFinancialEngine.RateResidualMeasuresFutureValue | Sources/ScientificCalculator/Models/FinancialEngine.swift:71-75 | the function whose root interestRate seeks is fv minus futureValue at that rate |
| SwiftFinancialEngine.NewtonRateConverged | Sources/ScientificCalculator/Models/FinancialEngine.swift:60-94 | any rate interestRate reports comes from a usable Newton step that moved less than 1e-10 |
| SwiftFinancialEngine.NewtonRateStep | Sources/ScientificCalculator/Models/FinancialEngine.swift:71-91 | one usable Newton step that has not converged continues from g − f(g)/f'(g) |
| SwiftFinancialEngine.NewtonRateKeepsRoot | Sources/ScientificCalculator/Models/FinancialEngine.swift:60-94 | a trial rate at which futureValue already reaches fv is reported as it is, provided the slope there is usable |
| SwiftFinancialEngine.InterestRate | Sources/ScientificCalculator/Models/FinancialEngine.swift:60-94 | the loop gives the Newton iteration from 0.1, with a negligible guess replaced by 0.01, at most 1000 steps, and no answer on a flat slope or without convergence |
| SwiftFinancialEngine.RateIteration | Sources/ScientificCalculator/Models/FinancialEngine.swift:66-91 | one pass of the loop either ends the method with its answer or continues the iteration from the next guess |
| SwiftFinancialEngine.Npv | Sources/ScientificCalculator/Models/FinancialEngine.swift:98-105 | npv is the flows discounted at rate/100, the first one undiscounted |
| SwiftFinancialEngine.NewtonIrrConverged | Sources/ScientificCalculator/Models/FinancialEngine.swift:107-133 | any rate irr reports comes from a usable Newton step that moved less than 1e-10 |
| SwiftFinancialEngine.NewtonIrrStep | Sources/ScientificCalculator/Models/FinancialEngine.swift:124-130 | one usable Newton step on the net present value continues from r − f(r)/f'(r) |
| SwiftFinancialEngine.IrrOfSingleFlow | Sources/ScientificCalculator/Models/FinancialEngine.swift:113-124 | a single flow has a zero derivative, so irr finds no rate |
| SwiftFinancialEngine.ValueAndSlope | Sources/ScientificCalculator/Models/FinancialEngine.swift:113-122 | the inner loop gives the discounted sum of the flows and its derivative |
| SwiftFinancialEngine.Irr | Sources/ScientificCalculator/Models/FinancialEngine.swift:107-133 | the loop gives the Newton iteration on the net present value from guess/100, at most 1000 steps |
| SwiftFinancialEngine.RateRows | Sources/ScientificCalculator/Models/FinancialEngine.swift:170-181 | a schedule at a rate has one row per period |
| SwiftFinancialEngine.AmortizationSchedule | Sources/ScientificCalculator/Models/FinancialEngine.swift:145-183 | the schedule built is the one of the functional model, with the zero-rate branch below 1e-15 |
| SwiftFinancialEngine.NextRow | Sources/ScientificCalculator/Models/FinancialEngine.swift:171-180 | one pass of the loop gives the row of that period, its balance clamped at 0, and the next unclamped balance |
| SwiftFinancialEngine.ScheduleRows | Sources/ScientificCalculator/Models/FinancialEngine.swift:145-183 | one row per period, numbered from 1, all with the same payment split into interest and principal |
| SwiftFinancialEngine.ScheduleBalancesNonNegative | Sources/ScientificCalculator/Models/FinancialEngine.swift:160-179 | the balances shown are never negative: clamped at 0 with interest, falling in equal steps from a non-negative principal without |
| SwiftFinancialEngine.ScheduleEndsAtZero | Sources/ScientificCalculator/Models/FinancialEngine.swift:153-180 | in exact arithmetic the last row leaves nothing owing |
| SwiftFinancialEngine.StraightLine | Sources/ScientificCalculator/Models/FinancialEngine.swift:188-191 | 0 for a life ≤ 0; otherwise life charges make up cost − salvage |
| SwiftFinancialEngine.BookValueClosedForm | Sources/ScientificCalculator/Models/FinancialEngine.swift:197-200 | the book value after k years at rate r is cost·(1 − r)^k |
| SwiftFinancialEngine.DecliningBalanceLoop | Sources/ScientificCalculator/Models/FinancialEngine.swift:194-206 | the loop gives the declining-balance charge of the functional model: 0 outside years 1…life |
| SwiftFinancialEngine.DecliningBalanceClosedForm | Sources/ScientificCalculator/Models/FinancialEngine.swift:194-206 | the charge for year y is cost·(1 − 1/life)^(y−1)/life, and salvage plays no part |
| SwiftFinancialEngine.DecliningBalanceTelescopes | Sources/ScientificCalculator/Models/FinancialEngine.swift:197-200 | the charges so far and the remaining book value add up to the cost |
| SwiftFinancialEngine.SumOfYearsDigitsSchedule | Sources/ScientificCalculator/Models/FinancialEngine.swift:209-214 | over years 1…life the charges add up to cost − salvage; for 10000, 1000 and five years the first charge is 3000 |
| SwiftFinancialEngine.PercentChange | Sources/ScientificCalculator/Models/FinancialEngine.swift:222-225 | no answer exactly for a zero base; otherwise new = old + result% of abs(old) |
| SwiftFinancialEngine.PercentChangeOfPercentOf | Sources/ScientificCalculator/Models/FinancialEngine.swift:218-225 | adding p percent of abs(old) is a change of p percent |
| SwiftFinancialEngine.BondPrice | Sources/ScientificCalculator/Models/FinancialEngine.swift:229-240 | the loop gives the semiannual coupons over 2·periods dates plus the face value, discounted at half the yield |
| SwiftFinancialEngine.BondAtPar | Sources/ScientificCalculator/Models/FinancialEngine.swift:229-240 | a bond whose coupon rate equals its yield is priced at its face value |
| FinanceMath.IntPow | scientific-calculator/src/main/java/com/vibecoding/calculator/engine/FinancialEngine.java:207-208 | (1+y)^k with an integer exponent: the exact power for k ≥ 0, the reciprocal of the exact power for k < 0 |
| FinanceMath.DiscountedSumStart | scientific-calculator/src/main/java/com/vibecoding/calculator/engine/FinancialEngine.java:95-102 | a discounted sum of no flows is 0 and the first flow is not discounted |
| FinanceMath.DiscountedSumAtZero | scientific-calculator/src/main/java/com/vibecoding/calculator/engine/FinancialEngine.java:95-102 | at a zero rate the discounted sum is the plain sum of the flows |
| FinanceMath.DiscountedSumAdditive | Sources/ScientificCalculator/Models/FinancialEngine.swift:98-105 | discounting is additive: the flows f + g are worth the value of f plus the value of g |
| FinanceMath.BalanceClosedForm | scientific-calculator/src/main/java/com/vibecoding/calculator/engine/FinancialEngine.java:157-160 | the unsnapped balance after p payments, times i, is P·i·(1+i)^p − pmt·((1+i)^p − 1) |
| FinanceMath.PaidOff | scientific-calculator/src/main/java/com/vibecoding/calculator/engine/FinancialEngine.java:149-163 | the French-system instalment brings the unsnapped balance to 0 after n payments |
| FinanceMath.AtPar | Sources/ScientificCalculator/Models/FinancialEngine.swift:229-240 | coupons of face·y discounted at y, plus the discounted face value, make up the face value |
| FinanceMath.CouponsClosedForm | Sources/ScientificCalculator/Models/FinancialEngine.swift:234-237 | the coupon loop's sum times y·(1+y)^t is c·((1+y)^t − 1), the annuity formula multiplied out |
| FinanceMath.DigitsSum | scientific-calculator/src/main/java/com/vibecoding/calculator/engine/FinancialEngine.java:191-196 | the sum-of-years'-digits charges of years 1…k, times the digit sum, are the depreciable amount times k·life − k(k−1)/2 |
| FinanceMath.SydFullLife | scientific-calculator/src/main/java/com/vibecoding/calculator/engine/FinancialEngine.java:191-196 | the sum-of-years'-digits charges over the whole life add up to the depreciable amount |
| SwiftScientificViewModel.Initial | Sources/ScientificCalculator/ViewModels/ScientificViewModel.swift:8-18 | the keypad starts showing "0" in degrees, with nothing pending and the next digit replacing the display |
| SwiftScientificViewModel.StepKeepsDisplay | Sources/ScientificCalculator/ViewModels/ScientificViewModel.swift:22-247 | no key ever leaves the display empty |
| SwiftScientificViewModel.DisplayNeverEmpty | Sources/ScientificCalculator/ViewModels/ScientificViewModel.swift:22-247 | after any sequence of keys the display is not empty |
| SwiftScientificViewModel.TypedDigits | Sources/ScientificCalculator/ViewModels/ScientificViewModel.swift:22-34 | digits typed after a result or a clear spell the number on the display, when the first is not 0 |
| SwiftScientificViewModel.DecimalKeepsOnePoint | Sources/ScientificCalculator/ViewModels/ScientificViewModel.swift:36-44 | the '.' key never puts a second point on the display |
| SwiftScientificViewModel.OperatorIgnoredOnError | Sources/ScientificCalculator/ViewModels/ScientificViewModel.swift:46-47 | in the error state an operator key does nothing |
| SwiftScientificViewModel.OperatorStoresOperand | Sources/ScientificCalculator/ViewModels/ScientificViewModel.swift:46-53 | without a pending operation, an operator stores the shown value (0 if it is not a number) as the left operand, echoes it with the operator and waits for the next number |
| SwiftScientificViewModel.OperatorChains | Sources/ScientificCalculator/ViewModels/ScientificViewModel.swift:236-240 | a second operator first completes the pending one, whose result becomes the new left operand |
| SwiftScientificViewModel.EqualsNeedsPending | Sources/ScientificCalculator/ViewModels/ScientificViewModel.swift:56 | '=' does nothing unless an operator and its left operand are pending |
| SwiftScientificViewModel.EqualsShowsResult | Sources/ScientificCalculator/ViewModels/ScientificViewModel.swift:55-88 | a completed operation shows its result and clears the pending operation |
| SwiftScientificViewModel.DivisionByZeroShowsError | Sources/ScientificCalculator/ViewModels/ScientificViewModel.swift:242-247 | dividing by zero shows "Erro" with "Divisão por zero" and leaves the operation pending |
| SwiftScientificViewModel.OperationErrors | Sources/ScientificCalculator/ViewModels/ScientificViewModel.swift:61-79 | only ÷, ʸ√x, nPr and nCr can fail; ÷ fails exactly for a zero divisor, and its quotient times the divisor is the dividend |
| SwiftScientificViewModel.ChainAfterDivisionByZero | Sources/ScientificCalculator/ViewModels/ScientificViewModel.swift:46-67 | an operator pressed on a pending division by zero leaves "Erro" shown and replaces the reason with the echo of "Erro" read as 0 |
| SwiftScientificViewModel.SquareRootOfNegative | Sources/ScientificCalculator/ViewModels/ScientificViewModel.swift:144-164 | √x of a negative display shows "Erro" with "Requer valor ≥ 0" |
| SwiftScientificViewModel.FunctionNeedsNumber | Sources/ScientificCalculator/ViewModels/ScientificViewModel.swift:159-160 | a display that is not a number, or a function name the keypad does not know, leaves everything as it was |
| SwiftScientificViewModel.ClearKeepsMemory | Sources/ScientificCalculator/ViewModels/ScientificViewModel.swift:201-209 | clear resets the calculation but keeps memory, angle mode and the second-function toggle |
| SwiftScientificViewModel.TogglesAreInvolutions | Sources/ScientificCalculator/ViewModels/ScientificViewModel.swift:217-223 | pressing the angle or the second-function toggle twice restores the keypad |
| SwiftScientificViewModel.MemorySubtractUndoesAdd | Sources/ScientificCalculator/ViewModels/ScientificViewModel.swift:192-197 | M− undoes M+, also when the display is not a number |
| SwiftScientificViewModel.BackspaceUndoesDigit | Sources/ScientificCalculator/ViewModels/ScientificViewModel.swift:225-232 | backspace removes the digit just typed |
| SwiftScientificViewModel.SignTwice | Sources/ScientificCalculator/ViewModels/ScientificViewModel.swift:211-215 | changing the sign twice shows the number again, when its formatted text reads back as itself |
| SwiftScientificViewModel.ScientificViewModel.constructor | Sources/ScientificCalculator/ViewModels/ScientificViewModel.swift:8-18 | the view model starts in the initial keypad state |
| SwiftScientificViewModel.ScientificViewModel.InputDigit | Sources/ScientificCalculator/ViewModels/ScientificViewModel.swift:22-34 | the new state is the digit step of the old one |
| SwiftScientificViewModel.ScientificViewModel.InputDecimal | Sources/ScientificCalculator/ViewModels/ScientificViewModel.swift:36-44 | the new state is the decimal step of the old one |
| SwiftScientificViewModel.ScientificViewModel.InputOperator | Sources/ScientificCalculator/ViewModels/ScientificViewModel.swift:46-53 | the new state is the operator step of the old one |
| SwiftScientificViewModel.ScientificViewModel.Calculate | Sources/ScientificCalculator/ViewModels/ScientificViewModel.swift:55-88 | the new state is the '=' step of the old one |
| SwiftScientificViewModel.ScientificViewModel.ApplyFunction | Sources/ScientificCalculator/ViewModels/ScientificViewModel.swift:92-171 | the new state is the function step of the old one |
| SwiftScientificViewModel.ScientificViewModel.InsertConstant | Sources/ScientificCalculator/ViewModels/ScientificViewModel.swift:175-183 | the new state is the constant step of the old one |
| SwiftScientificViewModel.ScientificViewModel.MemoryClear | Sources/ScientificCalculator/ViewModels/ScientificViewModel.swift:187 | only the memory changes, to 0 |
| SwiftScientificViewModel.ScientificViewModel.MemoryRecall | Sources/ScientificCalculator/ViewModels/ScientificViewModel.swift:188-191 | the new state is the memory-recall step of the old one |
| SwiftScientificViewModel.ScientificViewModel.MemoryAdd | Sources/ScientificCalculator/ViewModels/ScientificViewModel.swift:192-194 | the new state is the M+ step of the old one |
| SwiftScientificViewModel.ScientificViewModel.MemorySubtract | Sources/ScientificCalculator/ViewModels/ScientificViewModel.swift:195-197 | the new state is the M− step of the old one |
| SwiftScientificViewModel.ScientificViewModel.Clear | Sources/ScientificCalculator/ViewModels/ScientificViewModel.swift:201-209 | the new state is the clear step of the old one |
| SwiftScientificViewModel.ScientificViewModel.ToggleSign | Sources/ScientificCalculator/ViewModels/ScientificViewModel.swift:211-215 | the new state is the sign step of the old one |
| SwiftScientificViewModel.ScientificViewModel.ToggleAngleMode | Sources/ScientificCalculator/ViewModels/ScientificViewModel.swift:217-219 | the new state is the angle-mode step of the old one |
| SwiftScientificViewModel.ScientificViewModel.ToggleSecondFunction | Sources/ScientificCalculator/ViewModels/ScientificViewModel.swift:221-223 | the new state is the second-function step of the old one |
| SwiftScientificViewModel.ScientificViewModel.Backspace | Sources/ScientificCalculator/ViewModels/ScientificViewModel.swift:225-232 | the new state is the backspace step of the old one |
| SwiftScientificViewModel.ScientificViewModel.ShowError | Sources/ScientificCalculator/ViewModels/ScientificViewModel.swift:242-247 | the new state is the error step of the old one |
| KotlinScientificViewModel.EntryReplacesOrExtends | android-app/app/src/main/java/com/vibecoding/calculator/viewmodel/ScientificViewModel.kt:37-103 | an entry key appends its text, or replaces the expression right after a result (a '.' then starts "0."), changes nothing else and clears the just-evaluated flag |
| KotlinScientificViewModel.TypedEntries | android-app/app/src/main/java/com/vibecoding/calculator/viewmodel/ScientificViewModel.kt:37-96 | a sequence of entry keys appends what they spell, leaving result and memory alone |
| KotlinScientificViewModel.OperatorsExtend | android-app/app/src/main/java/com/vibecoding/calculator/viewmodel/ScientificViewModel.kt:170-173 | operators, '^' and ')' always append, even right after a result |
| KotlinScientificViewModel.FunctionWrapsResult | android-app/app/src/main/java/com/vibecoding/calculator/viewmodel/ScientificViewModel.kt:51-58 | a function key right after a result wraps the result shown, "f(result)"; otherwise it appends "f(" |
| KotlinScientificViewModel.BackspaceDropsLast | android-app/app/src/main/java/com/vibecoding/calculator/viewmodel/ScientificViewModel.kt:98-103 | backspace drops exactly the last character, and leaves an empty expression empty |
| KotlinScientificViewModel.BackspaceUndoesDigit | android-app/app/src/main/java/com/vibecoding/calculator/viewmodel/ScientificViewModel.kt:98-103 | backspace removes the digit just typed, when no result was being shown |
| KotlinScientificViewModel.NegateTwice | android-app/app/src/main/java/com/vibecoding/calculator/viewmodel/ScientificViewModel.kt:135-143 | changing the sign twice restores the expression when it does not start with "--" and is not "-" |
| KotlinScientificViewModel.NegateStripsOneMinus | android-app/app/src/main/java/com/vibecoding/calculator/viewmodel/ScientificViewModel.kt:135-143 | on "-" or a text starting with "--" each press strips one '-', so pressing twice loses two |
| KotlinScientificViewModel.EqualsOutcomes | android-app/app/src/main/java/com/vibecoding/calculator/viewmodel/ScientificViewModel.kt:111-121 | '=' on an empty expression does nothing; a parse failure shows "Erro" and keeps everything else; a success shows the formatted value and keeps the expression |
| KotlinScientificViewModel.EqualsIdempotent | android-app/app/src/main/java/com/vibecoding/calculator/viewmodel/ScientificViewModel.kt:111-121 | pressing '=' again changes nothing |
| KotlinScientificViewModel.MemoryKeys | android-app/app/src/main/java/com/vibecoding/calculator/viewmodel/ScientificViewModel.kt:176-204 | M+ and M− change nothing when the expression does not parse; M− undoes M+ when it does; MC resets memory and its flag |
| KotlinScientificViewModel.ClearKeepsSettings | android-app/app/src/main/java/com/vibecoding/calculator/viewmodel/ScientificViewModel.kt:105-109 | clear empties the expression, shows "0" and keeps memory, angle mode and second mode |
| KotlinScientificViewModel.ReciprocalOfZero | android-app/app/src/main/java/com/vibecoding/calculator/viewmodel/ScientificViewModel.kt:206-217 | 1/x of an expression worth 0 shows "Erro" and keeps the expression |
| KotlinScientificViewModel.FactorialOutcomes | android-app/app/src/main/java/com/vibecoding/calculator/viewmodel/ScientificViewModel.kt:145-156 | x! of a value truncating below 0 or above 170 shows "Erro"; otherwise the result is n! and the expression becomes "n!" |
| KotlinScientificViewModel.ScientificViewModel.constructor | android-app/app/src/main/java/com/vibecoding/calculator/viewmodel/ScientificViewModel.kt:10-27 | the view model starts with an empty expression, "0" shown, degrees, no memory |
| KotlinScientificViewModel.ScientificViewModel.ToggleAngleMode | android-app/app/src/main/java/com/vibecoding/calculator/viewmodel/ScientificViewModel.kt:29-31 | the new state is the angle key's step |
| KotlinScientificViewModel.ScientificViewModel.ToggleSecondMode | android-app/app/src/main/java/com/vibecoding/calculator/viewmodel/ScientificViewModel.kt:33-35 | the new state is the second-mode key's step |
| KotlinScientificViewModel.ScientificViewModel.OnDigit | android-app/app/src/main/java/com/vibecoding/calculator/viewmodel/ScientificViewModel.kt:37-44 | the new state is the digit key's step |
| KotlinScientificViewModel.ScientificViewModel.OnOperator | android-app/app/src/main/java/com/vibecoding/calculator/viewmodel/ScientificViewModel.kt:46-49 | the new state is the operator key's step |
| KotlinScientificViewModel.ScientificViewModel.OnFunction | android-app/app/src/main/java/com/vibecoding/calculator/viewmodel/ScientificViewModel.kt:51-58 | the new state is the function key's step |
| KotlinScientificViewModel.ScientificViewModel.OnConstant | android-app/app/src/main/java/com/vibecoding/calculator/viewmodel/ScientificViewModel.kt:60-73 | the new state is the constant key's step, π, e and φ spelled pi, e and phi |
| KotlinScientificViewModel.ScientificViewModel.OnParenOpen | android-app/app/src/main/java/com/vibecoding/calculator/viewmodel/ScientificViewModel.kt:75-82 | the new state is the '(' key's step |
| KotlinScientificViewModel.ScientificViewModel.OnParenClose | android-app/app/src/main/java/com/vibecoding/calculator/viewmodel/ScientificViewModel.kt:84-87 | the new state is the ')' key's step |
| KotlinScientificViewModel.ScientificViewModel.OnDecimal | android-app/app/src/main/java/com/vibecoding/calculator/viewmodel/ScientificViewModel.kt:89-96 | the new state is the '.' key's step |
| KotlinScientificViewModel.ScientificViewModel.OnBackspace | android-app/app/src/main/java/com/vibecoding/calculator/viewmodel/ScientificViewModel.kt:98-103 | the new state is the backspace key's step |
| KotlinScientificViewModel.ScientificViewModel.OnClear | android-app/app/src/main/java/com/vibecoding/calculator/viewmodel/ScientificViewModel.kt:105-109 | the new state is the clear key's step |
| KotlinScientificViewModel.ScientificViewModel.OnEquals | android-app/app/src/main/java/com/vibecoding/calculator/viewmodel/ScientificViewModel.kt:111-121 | the new state is the '=' key's step |
| KotlinScientificViewModel.ScientificViewModel.ApplyUnary | android-app/app/src/main/java/com/vibecoding/calculator/viewmodel/ScientificViewModel.kt:206-217 | the new state is the shared step of %, x², x³ and 1/x for the given operation |
| KotlinScientificViewModel.ScientificViewModel.OnPercent | android-app/app/src/main/java/com/vibecoding/calculator/viewmodel/ScientificViewModel.kt:123-133 | the new state is the '%' key's step |
| KotlinScientificViewModel.ScientificViewModel.OnNegate | android-app/app/src/main/java/com/vibecoding/calculator/viewmodel/ScientificViewModel.kt:135-143 | the new state is the sign key's step |
| KotlinScientificViewModel.ScientificViewModel.OnFactorial | android-app/app/src/main/java/com/vibecoding/calculator/viewmodel/ScientificViewModel.kt:145-156 | the new state is the x! key's step |
| KotlinScientificViewModel.ScientificViewModel.OnSquare | android-app/app/src/main/java/com/vibecoding/calculator/viewmodel/ScientificViewModel.kt:158-160 | the new state is the x² key's step |
| KotlinScientificViewModel.ScientificViewModel.OnCube | android-app/app/src/main/java/com/vibecoding/calculator/viewmodel/ScientificViewModel.kt:162-164 | the new state is the x³ key's step |
| KotlinScientificViewModel.ScientificViewModel.OnReciprocal | android-app/app/src/main/java/com/vibecoding/calculator/viewmodel/ScientificViewModel.kt:166-168 | the new state is the 1/x key's step |
| KotlinScientificViewModel.ScientificViewModel.OnPower | android-app/app/src/main/java/com/vibecoding/calculator/viewmodel/ScientificViewModel.kt:170-173 | the new state is the '^' key's step |
| KotlinScientificViewModel.ScientificViewModel.OnMemoryClear | android-app/app/src/main/java/com/vibecoding/calculator/viewmodel/ScientificViewModel.kt:176-179 | the new state is the MC key's step |
| KotlinScientificViewModel.ScientificViewModel.OnMemoryRecall | android-app/app/src/main/java/com/vibecoding/calculator/viewmodel/ScientificViewModel.kt:181-188 | the new state is the MR key's step |
| KotlinScientificViewModel.ScientificViewModel.OnMemoryAdd | android-app/app/src/main/java/com/vibecoding/calculator/viewmodel/ScientificViewModel.kt:190-196 | the new state is the M+ key's step |
| KotlinScientificViewModel.ScientificViewModel.OnMemorySubtract | android-app/app/src/main/java/com/vibecoding/calculator/viewmodel/ScientificViewModel.kt:198-204 | the new state is the M− key's step |
| KotlinGraphingViewModel.RescaleKeepsCentre | android-app/app/src/main/java/com/vibecoding/calculator/viewmodel/GraphingViewModel.kt:74-94 | rescaling keeps the centre of the window and multiplies width and height by twice the factor |
| KotlinGraphingViewModel.ZoomFactors | android-app/app/src/main/java/com/vibecoding/calculator/viewmodel/GraphingViewModel.kt:74-94 | zoom in shows 0.8 of the window and zoom out 1.2 of it, both about the same centre |
| KotlinGraphingViewModel.ZoomOutAfterZoomIn | android-app/app/src/main/java/com/vibecoding/calculator/viewmodel/GraphingViewModel.kt:74-94 | zoom out does not undo zoom in: the window ends up 0.96 of its size, about the same centre |
| KotlinGraphingViewModel.FirstBlank | android-app/app/src/main/java/com/vibecoding/calculator/viewmodel/GraphingViewModel.kt:129 | the index of the first blank function text, or −1 when none is blank |
| KotlinGraphingViewModel.ValueAt | android-app/app/src/main/java/com/vibecoding/calculator/viewmodel/GraphingViewModel.kt:118-126 | a blank text has no value; otherwise the value is the parser's, with x bound, and none when the parser fails |
| KotlinGraphingViewModel.StepKeepsValid | android-app/app/src/main/java/com/vibecoding/calculator/viewmodel/GraphingViewModel.kt:42-135 | every action keeps between one and six functions |
| KotlinGraphingViewModel.AlwaysValid | android-app/app/src/main/java/com/vibecoding/calculator/viewmodel/GraphingViewModel.kt:15-135 | from the initial screen no sequence of actions empties the list or grows it beyond six |
| KotlinGraphingViewModel.AddAppends | android-app/app/src/main/java/com/vibecoding/calculator/viewmodel/GraphingViewModel.kt:54-58 | add appends one blank enabled function while there are fewer than six, and otherwise does nothing |
| KotlinGraphingViewModel.RemoveDropsOne | android-app/app/src/main/java/com/vibecoding/calculator/viewmodel/GraphingViewModel.kt:60-64 | remove drops exactly the entry at the index, keeping the others in order, unless it is the last one or the index is out of range |
| KotlinGraphingViewModel.UpdateAndToggleAreLocal | android-app/app/src/main/java/com/vibecoding/calculator/viewmodel/GraphingViewModel.kt:42-52 | update and toggle change only the entry at the index, and only the field they name; an index out of range changes nothing |
| KotlinGraphingViewModel.ToggleTwice | android-app/app/src/main/java/com/vibecoding/calculator/viewmodel/GraphingViewModel.kt:48-52 | toggling an entry twice restores it |
| KotlinGraphingViewModel.PresetFillsFirstBlank | android-app/app/src/main/java/com/vibecoding/calculator/viewmodel/GraphingViewModel.kt:128-131 | a preset replaces the first blank entry |
| KotlinGraphingViewModel.PresetWithoutBlank | android-app/app/src/main/java/com/vibecoding/calculator/viewmodel/GraphingViewModel.kt:132-134 | with no blank entry a preset is appended while there are fewer than six, and otherwise ignored |
| KotlinGraphingViewModel.ResetRestores | android-app/app/src/main/java/com/vibecoding/calculator/viewmodel/GraphingViewModel.kt:96-101 | reset restores the window x in [−10, 10], y in [−6, 6] whatever came before |
| KotlinGraphingViewModel.EvaluateOutcomes | android-app/app/src/main/java/com/vibecoding/calculator/viewmodel/GraphingViewModel.kt:107-116 | the quick evaluator does nothing on an empty text, shows "Erro" when the parser fails, and never touches the functions or the window |
| KotlinGraphingViewModel.GraphingViewModel.constructor | android-app/app/src/main/java/com/vibecoding/calculator/viewmodel/GraphingViewModel.kt:15-40 | the screen starts with "sin(x)" and a blank entry, radians, grid shown, the default window |
| KotlinGraphingViewModel.GraphingViewModel.UpdateFunction | android-app/app/src/main/java/com/vibecoding/calculator/viewmodel/GraphingViewModel.kt:42-46 | the new state is the update step of the old one, and stays valid |
| KotlinGraphingViewModel.GraphingViewModel.ToggleFunction | android-app/app/src/main/java/com/vibecoding/calculator/viewmodel/GraphingViewModel.kt:48-52 | the new state is the toggle step of the old one, and stays valid |
| KotlinGraphingViewModel.GraphingViewModel.AddFunction | android-app/app/src/main/java/com/vibecoding/calculator/viewmodel/GraphingViewModel.kt:54-58 | the new state is the add step of the old one, and stays valid |
| KotlinGraphingViewModel.GraphingViewModel.RemoveFunction | android-app/app/src/main/java/com/vibecoding/calculator/viewmodel/GraphingViewModel.kt:60-64 | the new state is the remove step of the old one, and stays valid |
| KotlinGraphingViewModel.GraphingViewModel.ToggleAngleMode | android-app/app/src/main/java/com/vibecoding/calculator/viewmodel/GraphingViewModel.kt:66-68 | the new state is the angle-mode step of the old one |
| KotlinGraphingViewModel.GraphingViewModel.ToggleGrid | android-app/app/src/main/java/com/vibecoding/calculator/viewmodel/GraphingViewModel.kt:70-72 | the new state is the grid step of the old one |
| KotlinGraphingViewModel.GraphingViewModel.ZoomIn | android-app/app/src/main/java/com/vibecoding/calculator/viewmodel/GraphingViewModel.kt:74-83 | the new state is the zoom-in step of the old one |
| KotlinGraphingViewModel.GraphingViewModel.ZoomOut | android-app/app/src/main/java/com/vibecoding/calculator/viewmodel/GraphingViewModel.kt:85-94 | the new state is the zoom-out step of the old one |
| KotlinGraphingViewModel.GraphingViewModel.ResetViewport | android-app/app/src/main/java/com/vibecoding/calculator/viewmodel/GraphingViewModel.kt:96-101 | the new state is the reset step of the old one |
| KotlinGraphingViewModel.GraphingViewModel.UpdateEvalExpression | android-app/app/src/main/java/com/vibecoding/calculator/viewmodel/GraphingViewModel.kt:103-105 | the new state is the old one with the new evaluator text |
| KotlinGraphingViewModel.GraphingViewModel.Evaluate | android-app/app/src/main/java/com/vibecoding/calculator/viewmodel/GraphingViewModel.kt:107-116 | the new state is the evaluate step of the old one |
| KotlinGraphingViewModel.GraphingViewModel.EvaluateAt | android-app/app/src/main/java/com/vibecoding/calculator/viewmodel/GraphingViewModel.kt:118-126 | gives the value of the text at x, changing nothing |
| KotlinGraphingViewModel.GraphingViewModel.LoadPreset | android-app/app/src/main/java/com/vibecoding/calculator/viewmodel/GraphingViewModel.kt:128-135 | the new state is the preset step of the old one, and stays valid |
| SwiftGraphingViewModel.ZoomFactors | Sources/ScientificCalculator/ViewModels/GraphingViewModel.swift:90-110 | zoom in shows 0.8 of the window and zoom out 1.5 of it, both about the same centre |
| SwiftGraphingViewModel.ZoomOutAfterZoomIn | Sources/ScientificCalculator/ViewModels/GraphingViewModel.swift:90-110 | zoom out does not undo zoom in: the window ends up 1.2 of its size |
| SwiftGraphingViewModel.FunctionValue | Sources/ScientificCalculator/ViewModels/GraphingViewModel.swift:59-72 | a value exists exactly when the index is in range, the entry is enabled and not empty, and the text with every 'x' replaced by "(x)" parses; it is then the parser's value |
| SwiftGraphingViewModel.AddAppends | Sources/ScientificCalculator/ViewModels/GraphingViewModel.swift:46-50 | add appends one empty enabled entry coloured by the list's length while there are fewer than six, and otherwise does nothing |
| SwiftGraphingViewModel.ListStaysValid | Sources/ScientificCalculator/ViewModels/GraphingViewModel.swift:119-122 | add, remove and load preset keep between one and six entries |
| SwiftGraphingViewModel.AddedColours | Sources/ScientificCalculator/ViewModels/GraphingViewModel.swift:17-50 | entries added one by one from none take the palette colours in order |
| SwiftGraphingViewModel.ColourRepeatsAfterRemove | Sources/ScientificCalculator/ViewModels/GraphingViewModel.swift:46-55 | the colour comes from the length, not from the colours in use: after the first of two entries is removed, the next one added repeats the colour of the one left |
| SwiftGraphingViewModel.RemoveDropsOne | Sources/ScientificCalculator/ViewModels/GraphingViewModel.swift:52-55 | remove drops exactly the entry at the index, keeping the rest in order |
| SwiftGraphingViewModel.PresetReplacesFirst | Sources/ScientificCalculator/ViewModels/GraphingViewModel.swift:119-122 | a preset replaces only the first entry, keeping its colour and enabling it |
| SwiftGraphingViewModel.SubstitutionIsTextual | Sources/ScientificCalculator/ViewModels/GraphingViewModel.swift:64 | substitution is textual: the 'x' inside "exp" is replaced too |
| SwiftGraphingViewModel.NoValueWithoutEntry | Sources/ScientificCalculator/ViewModels/GraphingViewModel.swift:60-62 | an entry switched off or empty, or an index past the end, has no value anywhere |
| SwiftGraphingViewModel.QuickOutcomes | Sources/ScientificCalculator/ViewModels/GraphingViewModel.swift:74-86 | the quick evaluator clears its result on an empty text and shows the parser's message on a failure |
| SwiftGraphingViewModel.GraphingViewModel.constructor | Sources/ScientificCalculator/ViewModels/GraphingViewModel.swift:26-42 | the screen starts with one empty entry in the first colour, radians, grid and axes shown, the window [−10, 10] × [−10, 10] |
| SwiftGraphingViewModel.GraphingViewModel.AddFunction | Sources/ScientificCalculator/ViewModels/GraphingViewModel.swift:46-50 | the new state is the add step of the old one, and stays valid |
| SwiftGraphingViewModel.GraphingViewModel.RemoveFunction | Sources/ScientificCalculator/ViewModels/GraphingViewModel.swift:52-55 | the new state is the remove step of the old one, and stays valid |
| SwiftGraphingViewModel.GraphingViewModel.EvaluateFunction | Sources/ScientificCalculator/ViewModels/GraphingViewModel.swift:59-72 | gives the entry's value at x, changing nothing |
| SwiftGraphingViewModel.GraphingViewModel.EvaluateQuick | Sources/ScientificCalculator/ViewModels/GraphingViewModel.swift:74-86 | the new state is the quick-evaluate step of the old one |
| SwiftGraphingViewModel.GraphingViewModel.ZoomIn | Sources/ScientificCalculator/ViewModels/GraphingViewModel.swift:90-99 | only the window changes, to the zoomed-in one |
| SwiftGraphingViewModel.GraphingViewModel.ZoomOut | Sources/ScientificCalculator/ViewModels/GraphingViewModel.swift:101-110 | only the window changes, to the zoomed-out one |
| SwiftGraphingViewModel.GraphingViewModel.ResetViewport | Sources/ScientificCalculator/ViewModels/GraphingViewModel.swift:112-117 | only the window changes, back to [−10, 10] × [−10, 10] |
| SwiftGraphingViewModel.GraphingViewModel.LoadPreset | Sources/ScientificCalculator/ViewModels/GraphingViewModel.swift:119-122 | the new state is the preset step of the old one |
| JavaGraphPanel.TraceKeepsInvariant | scientific-calculator/src/main/java/com/vibecoding/calculator/graph/GraphPanel.java:220-254 | after any number of columns the tracer's path keeps every promise of the loop (starts with a move, columns strictly increasing and in range, each point the function's own value inside the band, lines only between neighbouring columns no more than two window-heights apart, every drawable column drawn) and a sub-path is open exactly when a previous value is kept |
| JavaGraphPanel.TraceStepTo | scientific-calculator/src/main/java/com/vibecoding/calculator/graph/GraphPanel.java:224-254 | one pass of the column loop keeps that invariant |
| JavaGraphPanel.PlotIsTraced | scientific-calculator/src/main/java/com/vibecoding/calculator/graph/GraphPanel.java:216-256 | the path drawn across the whole panel width keeps all those promises and misses no column whose value exists and lies within ten window-heights of the window |
| JavaGraphPanel.DrawnEntries | scientific-calculator/src/main/java/com/vibecoding/calculator/graph/GraphPanel.java:148-152 | an entry is traced exactly when it is in the list, visible and its text is not blank |
| JavaGraphPanel.CurvesFollowEntries | scientific-calculator/src/main/java/com/vibecoding/calculator/graph/GraphPanel.java:148-152 | each traced entry yields one curve, in the entry's colour, following the path `drawFunction` computes for it |
| JavaGraphPanel.DrawnSnoc | scientific-calculator/src/main/java/com/vibecoding/calculator/graph/GraphPanel.java:148-152 | adding an entry at the end of the list adds it to the traced entries exactly when it is visible and not blank |
| JavaGraphPanel.CurvesSnoc | scientific-calculator/src/main/java/com/vibecoding/calculator/graph/GraphPanel.java:148-152 | the curves of a list with one more entry are the old curves followed by that entry's curve |
| JavaGraphPanel.PaintStep | scientific-calculator/src/main/java/com/vibecoding/calculator/graph/GraphPanel.java:148-152 | one pass of the painting loop adds the entry's curve when it is traced and nothing otherwise |
| JavaGraphPanel.ZoomFactors | scientific-calculator/src/main/java/com/vibecoding/calculator/graph/GraphPanel.java:118-130 | zoom in keeps the centre and shows 0.8 of each range; zoom out keeps the centre and shows 1.25 of each range |
| JavaGraphPanel.ZoomsAreInverse | scientific-calculator/src/main/java/com/vibecoding/calculator/graph/GraphPanel.java:118-130 | in exact arithmetic zoom out undoes zoom in and zoom in undoes zoom out |
| JavaGraphPanel.WheelKeepsCursorPoint | scientific-calculator/src/main/java/com/vibecoding/calculator/graph/GraphPanel.java:43-54 | a wheel turn scales both ranges by 1.2 (rotation positive) or 1/1.2 (otherwise) and keeps the plane point under the cursor under the cursor |
| JavaGraphPanel.WheelZeroZoomsIn | scientific-calculator/src/main/java/com/vibecoding/calculator/graph/GraphPanel.java:44 | a zero rotation narrows the window, like a turn toward the user |
| JavaGraphPanel.StepKeepsValid | scientific-calculator/src/main/java/com/vibecoding/calculator/graph/GraphPanel.java:43-130 | every event keeps the window non-empty along both axes |
| JavaGraphPanel.AlwaysValid | scientific-calculator/src/main/java/com/vibecoding/calculator/graph/GraphPanel.java:39-130 | after any sequence of events from the starting panel the window is non-empty along both axes |
| JavaGraphPanel.DragFollowsCursor | scientific-calculator/src/main/java/com/vibecoding/calculator/graph/GraphPanel.java:63-75 | a drag with the button down moves the window without resizing it, brings the plane point that was under the previous mouse position under the new one, and records the new position |
| JavaGraphPanel.DragThereAndBack | scientific-calculator/src/main/java/com/vibecoding/calculator/graph/GraphPanel.java:63-75 | dragging to a point and back to where the drag started restores the window |
| JavaGraphPanel.DragNeedsPress | scientific-calculator/src/main/java/com/vibecoding/calculator/graph/GraphPanel.java:56-75 | a drag after release changes nothing, and a drag to the point just pressed does not move the window |
| JavaGraphPanel.AddAppends | scientific-calculator/src/main/java/com/vibecoding/calculator/graph/GraphPanel.java:80-85 | adding appends a visible entry with the given text, coloured by the list's old length modulo the six palette colours |
| JavaGraphPanel.AddedColours | scientific-calculator/src/main/java/com/vibecoding/calculator/graph/GraphPanel.java:80-85 | entries added one after another to an empty list take the palette's colours in turn, cycling every six |
| JavaGraphPanel.ColourRepeatsAfterRemove | scientific-calculator/src/main/java/com/vibecoding/calculator/graph/GraphPanel.java:80-99 | after adding two entries and removing the first, a third entry takes the same colour as the one left |
| JavaGraphPanel.IndexGuards | scientific-calculator/src/main/java/com/vibecoding/calculator/graph/GraphPanel.java:87-111 | update, remove and toggle do nothing for an index outside the list; inside it, update changes only that entry's text and remove shifts later entries down by one, keeping the rest |
| JavaGraphPanel.ToggleTwice | scientific-calculator/src/main/java/com/vibecoding/calculator/graph/GraphPanel.java:106-111 | toggling the same entry twice restores the list |
| JavaGraphPanel.ClearAndReset | scientific-calculator/src/main/java/com/vibecoding/calculator/graph/GraphPanel.java:101-116 | clearing empties the list and keeps the window; reset restores the starting window and keeps the list |
| JavaGraphPanel.ScreenRoundTrip | scientific-calculator/src/main/java/com/vibecoding/calculator/graph/GraphPanel.java:258-259 | a sampled column maps back to itself through `toScreenX`, and the window's corners map to the panel's edges |
| JavaGraphPanel.SubstitutionClearsX | scientific-calculator/src/main/java/com/vibecoding/calculator/graph/GraphPanel.java:228 | when the number's text contains no x of either case, the substituted text has none left for the parser |
| JavaGraphPanel.GraphPanel.constructor | scientific-calculator/src/main/java/com/vibecoding/calculator/graph/GraphPanel.java:15-41 | a new panel shows the window from −10 to 10 on both axes, with grid and axes on, no entries, no drag and radians |
| JavaGraphPanel.GraphPanel.SetUseDegrees | scientific-calculator/src/main/java/com/vibecoding/calculator/graph/GraphPanel.java:78 | only the angle mode changes |
| JavaGraphPanel.GraphPanel.AddFunction | scientific-calculator/src/main/java/com/vibecoding/calculator/graph/GraphPanel.java:80-85 | the list gains the new entry as `AddAppends` states and the index returned is the old length, where the new text now sits |
| JavaGraphPanel.GraphPanel.UpdateFunction | scientific-calculator/src/main/java/com/vibecoding/calculator/graph/GraphPanel.java:87-92 | the new state is the guarded update of one entry's text |
| JavaGraphPanel.GraphPanel.RemoveFunction | scientific-calculator/src/main/java/com/vibecoding/calculator/graph/GraphPanel.java:94-99 | the new state is the guarded removal of one entry |
| JavaGraphPanel.GraphPanel.ClearFunctions | scientific-calculator/src/main/java/com/vibecoding/calculator/graph/GraphPanel.java:101-104 | the new state has an empty list and nothing else changed |
| JavaGraphPanel.GraphPanel.ToggleFunction | scientific-calculator/src/main/java/com/vibecoding/calculator/graph/GraphPanel.java:106-111 | the new state is the guarded flip of one entry's visibility |
| JavaGraphPanel.GraphPanel.ResetView | scientific-calculator/src/main/java/com/vibecoding/calculator/graph/GraphPanel.java:113-116 | only the window changes, back to −10…10 on both axes |
| JavaGraphPanel.GraphPanel.ZoomIn | scientific-calculator/src/main/java/com/vibecoding/calculator/graph/GraphPanel.java:118-123 | only the window changes, to the zoomed-in window |
| JavaGraphPanel.GraphPanel.ZoomOut | scientific-calculator/src/main/java/com/vibecoding/calculator/graph/GraphPanel.java:125-130 | only the window changes, to the zoomed-out window |
| JavaGraphPanel.GraphPanel.SetShowGrid | scientific-calculator/src/main/java/com/vibecoding/calculator/graph/GraphPanel.java:132 | only the grid flag changes |
| JavaGraphPanel.GraphPanel.SetShowAxes | scientific-calculator/src/main/java/com/vibecoding/calculator/graph/GraphPanel.java:133 | only the axes flag changes |
| JavaGraphPanel.GraphPanel.MouseWheel | scientific-calculator/src/main/java/com/vibecoding/calculator/graph/GraphPanel.java:43-54 | the new state is the wheel step for the given rotation, cursor and panel size |
| JavaGraphPanel.GraphPanel.MousePressed | scientific-calculator/src/main/java/com/vibecoding/calculator/graph/GraphPanel.java:58 | the drag start becomes the point pressed |
| JavaGraphPanel.GraphPanel.MouseReleased | scientific-calculator/src/main/java/com/vibecoding/calculator/graph/GraphPanel.java:60 | the drag start is cleared |
| JavaGraphPanel.GraphPanel.MouseDragged | scientific-calculator/src/main/java/com/vibecoding/calculator/graph/GraphPanel.java:65-74 | the new state is the drag step: nothing without a press, otherwise the window moves with the mouse |
| JavaGraphPanel.GraphPanel.SampleAt | scientific-calculator/src/main/java/com/vibecoding/calculator/graph/GraphPanel.java:225-233 | the value at a column is the parser's value of the text with x substituted, and none where it throws |
| JavaGraphPanel.GraphPanel.DrawFunction | scientific-calculator/src/main/java/com/vibecoding/calculator/graph/GraphPanel.java:216-256 | the path returned is the traced path `PlotIsTraced` describes |
| JavaGraphPanel.GraphPanel.Paint | scientific-calculator/src/main/java/com/vibecoding/calculator/graph/GraphPanel.java:138-155 | the curves returned are those of the visible, non-blank entries, in list order, as `CurvesFollowEntries` describes |
| KotlinFinancialViewModel.ParseReals | android-app/app/src/main/java/com/vibecoding/calculator/viewmodel/FinancialViewModel.kt:163 | the texts parse exactly when each one does; then the values are the parsed values in order; otherwise the error is the message of the first text that does not parse |
| KotlinFinancialViewModel.SetFieldIsLocal | android-app/app/src/main/java/com/vibecoding/calculator/viewmodel/FinancialViewModel.kt:80-92 | each field setter writes its own field and leaves every other field and the rest of the state as they were |
| KotlinFinancialViewModel.StepKeepsValid | android-app/app/src/main/java/com/vibecoding/calculator/viewmodel/FinancialViewModel.kt:66-232 | every action keeps at least one cash-flow row |
| KotlinFinancialViewModel.AlwaysValid | android-app/app/src/main/java/com/vibecoding/calculator/viewmodel/FinancialViewModel.kt:66-232 | from the starting state with one empty row, any sequence of actions keeps at least one cash-flow row |
| KotlinFinancialViewModel.CashFlowEdits | android-app/app/src/main/java/com/vibecoding/calculator/viewmodel/FinancialViewModel.kt:94-106 | editing a row in range replaces it and an index beyond the list changes nothing; adding appends an empty row; removing drops the row at the index only when another row is left, keeping the others in order |
| KotlinFinancialViewModel.LogGrowsByOneLine | android-app/app/src/main/java/com/vibecoding/calculator/viewmodel/FinancialViewModel.kt:129-232 | clearing empties the log; any other action leaves it as it was or puts exactly one new line at the top |
| KotlinFinancialViewModel.TvmOutcomes | android-app/app/src/main/java/com/vibecoding/calculator/viewmodel/FinancialViewModel.kt:129-139 | a time-value calculation always sets its caption; on success the result is the formatted value and the log gains "caption = result" at the top; on failure the result is "Erro: " and the message and the log is kept; nothing else changes |
| KotlinFinancialViewModel.TvmFailures | android-app/app/src/main/java/com/vibecoding/calculator/viewmodel/FinancialViewModel.kt:109-127 | once its fields parse, only the number-of-periods calculation can fail, and then exactly as the engine's periods does |
| KotlinFinancialViewModel.PeriodsWithoutPayment | android-app/app/src/main/java/com/vibecoding/calculator/viewmodel/FinancialViewModel.kt:121-123 | with rate 0 and no payment the number of periods shows the engine's error message and logs nothing |
| KotlinFinancialViewModel.FirstBadFieldReported | android-app/app/src/main/java/com/vibecoding/calculator/viewmodel/FinancialViewModel.kt:109-127 | when the number of periods does not parse, future value and interest rate report that field's message |
| KotlinFinancialViewModel.AmortizationOutcomes | android-app/app/src/main/java/com/vibecoding/calculator/viewmodel/FinancialViewModel.kt:142-158 | the caption is always AMORT; a field that does not parse keeps the old schedule and log; otherwise the schedule is the engine's, an empty one (periods below 1) shows the empty-list error and logs nothing, and a non-empty one has one row per period, shows the first payment and logs one line |
| KotlinFinancialViewModel.BlankFlowFails | android-app/app/src/main/java/com/vibecoding/calculator/viewmodel/FinancialViewModel.kt:161-185 | a blank cash-flow row makes both net present value and internal rate of return fail without logging, as they do on the starting state |
| KotlinFinancialViewModel.IrrOutcome | android-app/app/src/main/java/com/vibecoding/calculator/viewmodel/FinancialViewModel.kt:174-185 | with every flow parsed, the internal rate shown and logged is the engine's bisection result as a percentage |
| KotlinFinancialViewModel.DepreciationOutcomes | android-app/app/src/main/java/com/vibecoding/calculator/viewmodel/FinancialViewModel.kt:188-228 | a failing depreciation is captioned DEP and logs nothing; a successful one takes its method's caption and logs one line; a straight line with a life of 0 or less fails with the engine's message |
| KotlinFinancialViewModel.SetTabClearsResult | android-app/app/src/main/java/com/vibecoding/calculator/viewmodel/FinancialViewModel.kt:70-74 | switching tabs clears the result and its caption and changes only the tab |
| KotlinFinancialViewModel.FinancialViewModel.constructor | android-app/app/src/main/java/com/vibecoding/calculator/viewmodel/FinancialViewModel.kt:14-68 | a new view model starts on the first tab, end-of-period payments, blank fields, one empty cash-flow row, no schedule, result or log |
| KotlinFinancialViewModel.FinancialViewModel.SetActiveTab | android-app/app/src/main/java/com/vibecoding/calculator/viewmodel/FinancialViewModel.kt:70-74 | the new state is the tab switch |
| KotlinFinancialViewModel.FinancialViewModel.ToggleBeginMode | android-app/app/src/main/java/com/vibecoding/calculator/viewmodel/FinancialViewModel.kt:76-78 | only the payment-timing flag flips |
| KotlinFinancialViewModel.FinancialViewModel.UpdateN | android-app/app/src/main/java/com/vibecoding/calculator/viewmodel/FinancialViewModel.kt:80 | only that field changes, to the given text |
| KotlinFinancialViewModel.FinancialViewModel.UpdateRate | android-app/app/src/main/java/com/vibecoding/calculator/viewmodel/FinancialViewModel.kt:81 | only that field changes, to the given text |
| KotlinFinancialViewModel.FinancialViewModel.UpdatePV | android-app/app/src/main/java/com/vibecoding/calculator/viewmodel/FinancialViewModel.kt:82 | only that field changes, to the given text |
| KotlinFinancialViewModel.FinancialViewModel.UpdatePMT | android-app/app/src/main/java/com/vibecoding/calculator/viewmodel/FinancialViewModel.kt:83 | only that field changes, to the given text |
| KotlinFinancialViewModel.FinancialViewModel.UpdateFV | android-app/app/src/main/java/com/vibecoding/calculator/viewmodel/FinancialViewModel.kt:84 | only that field changes, to the given text |
| KotlinFinancialViewModel.FinancialViewModel.UpdateAmortPrincipal | android-app/app/src/main/java/com/vibecoding/calculator/viewmodel/FinancialViewModel.kt:85 | only that field changes, to the given text |
| KotlinFinancialViewModel.FinancialViewModel.UpdateAmortRate | android-app/app/src/main/java/com/vibecoding/calculator/viewmodel/FinancialViewModel.kt:86 | only that field changes, to the given text |
| KotlinFinancialViewModel.FinancialViewModel.UpdateAmortPeriods | android-app/app/src/main/java/com/vibecoding/calculator/viewmodel/FinancialViewModel.kt:87 | only that field changes, to the given text |
| KotlinFinancialViewModel.FinancialViewModel.UpdateCashFlowRate | android-app/app/src/main/java/com/vibecoding/calculator/viewmodel/FinancialViewModel.kt:88 | only that field changes, to the given text |
| KotlinFinancialViewModel.FinancialViewModel.UpdateDeprCost | android-app/app/src/main/java/com/vibecoding/calculator/viewmodel/FinancialViewModel.kt:89 | only that field changes, to the given text |
| KotlinFinancialViewModel.FinancialViewModel.UpdateDeprSalvage | android-app/app/src/main/java/com/vibecoding/calculator/viewmodel/FinancialViewModel.kt:90 | only that field changes, to the given text |
| KotlinFinancialViewModel.FinancialViewModel.UpdateDeprLife | android-app/app/src/main/java/com/vibecoding/calculator/viewmodel/FinancialViewModel.kt:91 | only that field changes, to the given text |
| KotlinFinancialViewModel.FinancialViewModel.UpdateDeprYear | android-app/app/src/main/java/com/vibecoding/calculator/viewmodel/FinancialViewModel.kt:92 | only that field changes, to the given text |
| KotlinFinancialViewModel.FinancialViewModel.UpdateCashFlow | android-app/app/src/main/java/com/vibecoding/calculator/viewmodel/FinancialViewModel.kt:94-96 | the new state is the guarded row edit `CashFlowEdits` describes |
| KotlinFinancialViewModel.FinancialViewModel.AddCashFlow | android-app/app/src/main/java/com/vibecoding/calculator/viewmodel/FinancialViewModel.kt:98-100 | an empty row is appended |
| KotlinFinancialViewModel.FinancialViewModel.RemoveCashFlow | android-app/app/src/main/java/com/vibecoding/calculator/viewmodel/FinancialViewModel.kt:102-106 | the new state is the guarded row removal `CashFlowEdits` describes |
| KotlinFinancialViewModel.FinancialViewModel.Record | android-app/app/src/main/java/com/vibecoding/calculator/viewmodel/FinancialViewModel.kt:129-139 | a value shows formatted under the caption with one log line at the top; an exception shows its message under the caption and logs nothing |
| KotlinFinancialViewModel.FinancialViewModel.CalcFV | android-app/app/src/main/java/com/vibecoding/calculator/viewmodel/FinancialViewModel.kt:109-111 | the new state is the future-value calculation `TvmOutcomes` describes |
| KotlinFinancialViewModel.FinancialViewModel.CalcPV | android-app/app/src/main/java/com/vibecoding/calculator/viewmodel/FinancialViewModel.kt:113-115 | the new state is the present-value calculation |
| KotlinFinancialViewModel.FinancialViewModel.CalcPMT | android-app/app/src/main/java/com/vibecoding/calculator/viewmodel/FinancialViewModel.kt:117-119 | the new state is the payment calculation |
| KotlinFinancialViewModel.FinancialViewModel.CalcN | android-app/app/src/main/java/com/vibecoding/calculator/viewmodel/FinancialViewModel.kt:121-123 | the new state is the number-of-periods calculation |
| KotlinFinancialViewModel.FinancialViewModel.CalcRate | android-app/app/src/main/java/com/vibecoding/calculator/viewmodel/FinancialViewModel.kt:125-127 | the new state is the interest-rate calculation |
| KotlinFinancialViewModel.FinancialViewModel.CalcAmortization | android-app/app/src/main/java/com/vibecoding/calculator/viewmodel/FinancialViewModel.kt:142-158 | the new state is the amortization `AmortizationOutcomes` describes |
| KotlinFinancialViewModel.FinancialViewModel.CalcNPV | android-app/app/src/main/java/com/vibecoding/calculator/viewmodel/FinancialViewModel.kt:161-172 | the new state is the net-present-value calculation |
| KotlinFinancialViewModel.FinancialViewModel.CalcIRR | android-app/app/src/main/java/com/vibecoding/calculator/viewmodel/FinancialViewModel.kt:174-185 | the new state is the internal-rate calculation `IrrOutcome` describes |
| KotlinFinancialViewModel.FinancialViewModel.CalcDepreciation | android-app/app/src/main/java/com/vibecoding/calculator/viewmodel/FinancialViewModel.kt:188-228 | the new state is the chosen depreciation `DepreciationOutcomes` describes |
| KotlinFinancialViewModel.FinancialViewModel.ClearLog | android-app/app/src/main/java/com/vibecoding/calculator/viewmodel/FinancialViewModel.kt:230-232 | only the log changes, to empty |
| SwiftFinancialViewModel.ParseAll | Sources/ScientificCalculator/ViewModels/FinancialViewModel.swift:33-36 | a `guard let` over several texts succeeds exactly when each text parses, and then gives the parsed values in order |
| SwiftFinancialViewModel.Parsed | Sources/ScientificCalculator/ViewModels/FinancialViewModel.swift:119 | `compactMap` keeps at most as many flows as rows, and none exactly when no row parses |
| SwiftFinancialViewModel.ParsedConcat | Sources/ScientificCalculator/ViewModels/FinancialViewModel.swift:119 | the flows kept from two lists one after the other are those of the first followed by those of the second |
| SwiftFinancialViewModel.ParsedAll | Sources/ScientificCalculator/ViewModels/FinancialViewModel.swift:119 | when every row parses no flow is dropped: the flows are the rows' values in order |
| SwiftFinancialViewModel.StepKeepsValid | Sources/ScientificCalculator/ViewModels/FinancialViewModel.swift:105-181 | every action that does not trap keeps at least one cash-flow row |
| SwiftFinancialViewModel.AlwaysValid | Sources/ScientificCalculator/ViewModels/FinancialViewModel.swift:105-181 | from the starting screen, any sequence of actions that does not trap keeps at least one cash-flow row |
| SwiftFinancialViewModel.CashFlowEdits | Sources/ScientificCalculator/ViewModels/FinancialViewModel.swift:105-112 | adding appends an empty row and changes nothing else; with one row left removing changes nothing; with more, removing an index outside the list traps and removing one inside drops that row, keeping the others in order |
| SwiftFinancialViewModel.CalculationLogsOneLine | Sources/ScientificCalculator/ViewModels/FinancialViewModel.swift:32-158 | every calculation that does not trap puts exactly one line on top of the log; editing and the cash-flow list leave the log alone |
| SwiftFinancialViewModel.Clearing | Sources/ScientificCalculator/ViewModels/FinancialViewModel.swift:162-181 | clearing everything gives the starting screen back; clearing the log empties it and changes nothing else |
| SwiftFinancialViewModel.TvmWritesOnlySolvedRegister | Sources/ScientificCalculator/ViewModels/FinancialViewModel.swift:32-101 | a time-value calculation writes only the register it solves for, and the log: a register that does not parse logs the "Preencha" message, no answer logs the "could not compute" message, and an answer is written into the register and logged |
| SwiftFinancialViewModel.OnlyPeriodsAndRateCanFail | Sources/ScientificCalculator/ViewModels/FinancialViewModel.swift:32-69 | once their inputs parse, FV, PV and PMT always succeed, so neither error is logged for them |
| SwiftFinancialViewModel.PeriodsWithoutPayment | Sources/ScientificCalculator/ViewModels/FinancialViewModel.swift:71-85 | at rate 0 without a payment there is no number of periods: the error is logged and N keeps its text |
| SwiftFinancialViewModel.NpvOutcomes | Sources/ScientificCalculator/ViewModels/FinancialViewModel.swift:114-127 | a rate that does not parse logs its error; no flow that parses logs the cash-flow error; otherwise the result is the discounted sum of the flows that parse at the rate over 100, shown with two decimals and logged as currency |
| SwiftFinancialViewModel.BlankRowIgnored | Sources/ScientificCalculator/ViewModels/FinancialViewModel.swift:105-119 | an added blank row changes neither the net present value nor the internal rate of return |
| SwiftFinancialViewModel.IrrOutcomes | Sources/ScientificCalculator/ViewModels/FinancialViewModel.swift:129-141 | fewer than two parsed flows log the minimum-flows error; no rate found logs its error and keeps the result; otherwise the rate is stored with four decimals and logged as a percentage |
| SwiftFinancialViewModel.AmortizationTraps | Sources/ScientificCalculator/ViewModels/FinancialViewModel.swift:145-158 | the calculation traps exactly when all three fields parse and the periods are below 1; a field that does not parse logs the "Preencha" message; otherwise the schedule has one row per period |
| SwiftFinancialViewModel.FinancialViewModel.constructor | Sources/ScientificCalculator/ViewModels/FinancialViewModel.swift:9-28 | a new view model has blank registers, end-of-period payments, one empty cash-flow row and no results, schedule or log |
| SwiftFinancialViewModel.FinancialViewModel.CalculateFV | Sources/ScientificCalculator/ViewModels/FinancialViewModel.swift:32-43 | the new state is the future-value calculation `TvmWritesOnlySolvedRegister` describes |
| SwiftFinancialViewModel.FinancialViewModel.CalculatePV | Sources/ScientificCalculator/ViewModels/FinancialViewModel.swift:45-56 | the new state is the present-value calculation |
| SwiftFinancialViewModel.FinancialViewModel.CalculatePMT | Sources/ScientificCalculator/ViewModels/FinancialViewModel.swift:58-69 | the new state is the payment calculation |
| SwiftFinancialViewModel.FinancialViewModel.CalculateN | Sources/ScientificCalculator/ViewModels/FinancialViewModel.swift:71-85 | the new state is the number-of-periods calculation |
| SwiftFinancialViewModel.FinancialViewModel.CalculateI | Sources/ScientificCalculator/ViewModels/FinancialViewModel.swift:87-101 | the new state is the interest-rate calculation |
| SwiftFinancialViewModel.FinancialViewModel.Conclude | Sources/ScientificCalculator/ViewModels/FinancialViewModel.swift:79-84 | an answer is written into the solved register and logged; no answer logs the error |
| SwiftFinancialViewModel.FinancialViewModel.AddCashFlow | Sources/ScientificCalculator/ViewModels/FinancialViewModel.swift:105-107 | an empty row is appended |
| SwiftFinancialViewModel.FinancialViewModel.RemoveCashFlow | Sources/ScientificCalculator/ViewModels/FinancialViewModel.swift:109-112 | when it does not trap, the new state is the guarded removal `CashFlowEdits` describes |
| SwiftFinancialViewModel.FinancialViewModel.CalculateNPV | Sources/ScientificCalculator/ViewModels/FinancialViewModel.swift:114-127 | the new state is the net-present-value calculation `NpvOutcomes` describes |
| SwiftFinancialViewModel.FinancialViewModel.CalculateIRR | Sources/ScientificCalculator/ViewModels/FinancialViewModel.swift:129-141 | the new state is the internal-rate calculation `IrrOutcomes` describes |
| SwiftFinancialViewModel.FinancialViewModel.CalculateAmortization | Sources/ScientificCalculator/ViewModels/FinancialViewModel.swift:145-158 | when it does not trap, the new state is the amortization `AmortizationTraps` describes |
| SwiftFinancialViewModel.FinancialViewModel.ClearAll | Sources/ScientificCalculator/ViewModels/FinancialViewModel.swift:162-177 | the state becomes the starting screen |
| SwiftFinancialViewModel.FinancialViewModel.ClearLog | Sources/ScientificCalculator/ViewModels/FinancialViewModel.swift:179-181 | only the log changes, to empty |
| SwiftFinancialViewModel.FinancialViewModel.AddLog | Sources/ScientificCalculator/ViewModels/FinancialViewModel.swift:185-187 | the message goes on top of the log and nothing else changes |

## Left out

- Floating point is not modelled: IEEE rounding, infinities, NaN and their propagation.
  - The parsers' `NaN` for `sqrt(-1)`, Swift's `isFinite` checks and the "∞" display depend on it.
  - A division without a guard goes through an uninterpreted `divZero` value.
- The 15-digit `BigDecimal` `MathContext` rounding in the factorial and combinatorics is not modelled: the model computes exact integers.
- Transcendental functions and real-exponent `pow` are not modelled beyond their domain guards, because they are foreign floating-point library calls.
- Number formatting and parsing are kept uninterpreted, because they are locale-dependent library code:
  - `format`, `formatResult`, `formatPercent`, `formatCurrency`, `String(format:)`;
  - `toDouble`, `toInt`, `Double(String)`, `Int(String)`, `parseDouble`.
- Exception messages from `toDouble`/`toInt` are a parameter of the model, not fixed text.
- Swift's `Int(a)` trap, for a double outside the 64-bit range, is not modelled: the model truncates toward zero with no bound.
- The user interfaces are not modelled: the SwiftUI views, Compose screens, Swing frames, themes, navigation and app entry points. They are presentation only.
  - The SwiftUI text-field bindings of the Swift view models appear only as the `Edit`/`EditFlow` actions on the state.
- Rendering is not modelled: `calculateGridStep`/`calculateGridSpacing`, `formatTickLabel`/`formatAxisLabel`, `drawGrid`, `drawAxes`, strokes and colours on the canvas.
  - The curve tracer of `GraphPanel.drawFunction` is modelled as a list of pen moves.
  - Screen y coordinates are left as plane values.
- Observation and threading annotations (`@MainActor`, `@Observable`, `mutableStateOf`, `mutableStateListOf`) are not modelled; the fields are plain class fields.
- Unique ids (`UUID()`) of the Swift graph entries are not modelled; an entry is identified by its position.
- Aliasing of the `FunctionEntry` objects that `GraphPanel.getFunctions` returns is not modelled; entries are values.
- Characters are Unicode code points: Swift grapheme clusters are not modelled.
- Negative indices in the Kotlin and Swift view models are excluded by `nat` parameters. The Kotlin source throws `IndexOutOfBoundsException` for them, and Swift's `remove(at:)` traps on them.
- Character classes are narrower than the source's Unicode-wide tests. Digits are the ASCII digits, letters are the ASCII and Greek letters, and blanks are the characters of Java's `\s`.
- JvmLexing.NumberScan: stops at the ASCII digits, where `Character.isDigit` and Kotlin's `isDigit` also take other Unicode decimal digits such as '٣'.
- JvmLexing.NameEnd: takes only ASCII and Greek letters, where `Character.isLetter` and Kotlin's `isLetter` take every Unicode letter such as 'ж'.
- SwiftExpressionParser.NumberRunEnd: stops at characters Swift's `isNumber` accepts, such as '²' and '½'. In the source "2²" reads "2²" as one number text, which `Double()` rejects, so '2' is reported; the model reports '²'.
- SwiftExpressionParser.DigitRunEnd: treats only ASCII digits as digits, where `isNumber` takes every Unicode number character.
- SwiftExpressionParser.NameEnd: takes ASCII and Greek letters and ASCII digits, where `isLetter` and `isNumber` are Unicode-wide. In the source "é(1)" is an unknown function; in the model 'é' is an unexpected character.
- KotlinGraphingViewModel.FirstBlank: blank means only the characters of Java's `\s`, where Kotlin's `isBlank` takes every Unicode whitespace, the no-break space included.
- KotlinGraphingViewModel.ValueAt: uses the same narrowed blank test, so a text of no-break spaces is evaluated here where the source treats it as blank. `loadPreset` picks its blank entry by the same test.
- CalculatorEngine.FactorialLoop: for n = `Integer.MAX_VALUE` the source's `int` counter wraps past n and the loop never ends. The model returns n! there, because a loop that never ends cannot be stated.
- JavaFinancialEngine.BondPrice: `-periods` is an `int` negation, which gives `Integer.MIN_VALUE` back for `Integer.MIN_VALUE`. The model negates an unbounded integer.
- SwiftFinancialEngine.BondPrice: Swift traps when `periods * 2` overflows a 64-bit `Int`; the model multiplies unbounded integers.
- SwiftFinancialEngine.SumOfYearsDigits: Swift traps when `life * (life + 1)` overflows a 64-bit `Int`; the model multiplies unbounded integers.
- SwiftFinancialViewModel.FinancialViewModel.RemoveCashFlow: requires an index inside the list whenever more than one row exists, because `remove(at:)` traps otherwise.
- SwiftFinancialViewModel.FinancialViewModel.CalculateAmortization: requires that it does not trap (parsed periods below 1 make the engine's range `1...periods` trap). The trap is modelled as `None` in `AmortizationStep`.
- SwiftFinancialEngine.AmortizationSchedule: requires periods ≥ 1, because `1...periods` traps otherwise.
- SwiftFinancialEngine.BondPrice: requires periods ≥ 1, because `1...periods` traps otherwise.
- SwiftGraphingViewModel.GraphingViewModel.RemoveFunction: requires `CanRemove`, because `remove(at:)` traps on an index past the end.
- SwiftFinancialEngine.NumberOfPeriods: its own contract states only the zero-rate case. The logarithmic case is stated by `NumberOfPeriodsSolves`, under the assumption that the library's `pow` undoes its `log`.

## Findings

| source | as written | input that shows it | evidently intended | confidence | as-written member | corrected member |
|---|---|---|---|---|---|---|
| scientific-calculator/src/main/java/com/vibecoding/calculator/parser/ExpressionParser.java:161-167 | `fact` rounds its argument to a `long`, casts it to `int` and range-checks the truncated value, so arguments of 2^32 and above wrap into 0..170 | `fact(4294967296)` gives 1 instead of failing | reject any rounded argument outside 0..170 | high (not executed) | JavaExpressionParser.FactorialWrapsAround | JavaExpressionParser.Factorial |

The parser (`Apply`, `FactorialLoop`, `Parser.ApplyFunction`) follows the code as written through `FactorialAsWritten`. `Factorial` is kept as the intended reference, and `FactorialAgreesInIntRange` shows that the two agree wherever the rounded argument fits in an `int`.
