/** The Android calculator's scientific engine, a twin of the desktop one. Every
    guard throws an ArithmeticException with a message; here the exception is
    `Err(message)`. */
module KotlinScientificEngine {
  import opened Common

  type Outcome = Result<real, string>

  function Add(a: real, b: real): real { a + b }
  function Subtract(a: real, b: real): real { a - b }
  function Multiply(a: real, b: real): real { a * b }

  function Divide(a: real, b: real): (r: Outcome)
    ensures r.Err? <==> b == 0.0
    ensures r.Err? ==> r.error == "Divisão por zero"
    ensures r.Ok? ==> r.value * b == a
  {
    if b == 0.0 then Err("Divisão por zero") else Ok(a / b)
  }

  /** The floating-point remainder: smaller in magnitude than the divisor and
      carrying the sign of the dividend. */
  function Mod(a: real, b: real): (r: Outcome)
    ensures r.Err? <==> b == 0.0
    ensures r.Err? ==> r.error == "Módulo por zero"
    ensures r.Ok? ==> Abs(r.value) < Abs(b)
    ensures r.Ok? ==> r.value == 0.0 || (r.value > 0.0 <==> a > 0.0)
    ensures r.Ok? ==> a == (Trunc(a / b) as real) * b + r.value
  {
    if b == 0.0 then Err("Módulo por zero") else Ok(TruncRem(a, b))
  }

  function Absolute(a: real): real { Abs(a) }

  function Power(lib: Lib, a: real, b: real): real { lib.pow(a, b) }
  function Exp(lib: Lib, a: real): real { lib.exp(a) }

  function Sqrt(lib: Lib, a: real): (r: Outcome)
    ensures r.Err? <==> a < 0.0
    ensures r.Ok? ==> r.value == lib.sqrt(a)
  {
    if a < 0.0 then Err("Raiz de número negativo") else Ok(lib.sqrt(a))
  }

  function Cbrt(lib: Lib, a: real): real { lib.cbrt(a) }

  /** The n-th root: refused for index 0 and for an even index under a negative
      radicand; any other negative radicand gives the negated root of its magnitude. */
  function NthRoot(lib: Lib, a: real, n: real): (r: Outcome)
    ensures r.Err? <==> n == 0.0 || (a < 0.0 && TruncRem(n, 2.0) == 0.0)
    ensures r.Err? && n == 0.0 ==> r.error == "Raiz de índice zero"
    ensures r.Err? && n != 0.0 ==> r.error == "Raiz par de número negativo"
    ensures r.Ok? && a < 0.0 ==> r.value == -lib.pow(-a, 1.0 / n)
    ensures r.Ok? && a >= 0.0 ==> r.value == lib.pow(a, 1.0 / n)
  {
    if n == 0.0 then Err("Raiz de índice zero")
    else if a < 0.0 && TruncRem(n, 2.0) == 0.0 then Err("Raiz par de número negativo")
    else if a < 0.0 then Ok(-lib.pow(-a, 1.0 / n))
    else Ok(lib.pow(a, 1.0 / n))
  }

  /** An odd (or fractional) root of a negative number is the negated root of its
      magnitude. */
  lemma NthRootOdd(lib: Lib, a: real, n: real)
    requires a > 0.0 && n != 0.0 && TruncRem(n, 2.0) != 0.0
    ensures NthRoot(lib, -a, n).Ok? && NthRoot(lib, a, n).Ok?
    ensures NthRoot(lib, -a, n).value == -NthRoot(lib, a, n).value
  {
  }

  function Square(a: real): real { a * a }
  function Cube(a: real): real { a * a * a }
  function TenPow(lib: Lib, a: real): real { lib.pow(10.0, a) }
  function TwoPow(lib: Lib, a: real): real { lib.pow(2.0, a) }

  function Reciprocal(a: real): (r: Outcome)
    ensures r.Err? <==> a == 0.0
    ensures r.Ok? ==> r.value * a == 1.0
  {
    if a == 0.0 then Err("Inverso de zero") else Ok(1.0 / a)
  }

  // ---------------------------------------------------------------------------
  // Logarithms

  const NonPositiveLog := "Logaritmo de valor não-positivo"

  function Ln(lib: Lib, a: real): (r: Outcome)
    ensures r.Err? <==> a <= 0.0
    ensures r.Ok? ==> r.value == lib.ln(a)
  {
    if a <= 0.0 then Err(NonPositiveLog) else Ok(lib.ln(a))
  }

  function Log10(lib: Lib, a: real): (r: Outcome)
    ensures r.Err? <==> a <= 0.0
    ensures r.Ok? ==> r.value == lib.log10(a)
  {
    if a <= 0.0 then Err(NonPositiveLog) else Ok(lib.log10(a))
  }

  function Log2(lib: Lib, a: real): (r: Outcome)
    ensures r.Err? <==> a <= 0.0
    ensures r.Ok? ==> r.value == lib.log2(a)
  {
    if a <= 0.0 then Err(NonPositiveLog) else Ok(lib.log2(a))
  }

  /** log_base(a) as ln a / ln base; a non-positive argument or base, or base 1,
      is refused. */
  function LogBase(lib: Lib, a: real, base: real): (r: Outcome)
    ensures r.Err? <==> a <= 0.0 || base <= 0.0 || base == 1.0
    ensures r.Err? ==> r.error == "Logaritmo inválido"
    ensures r.Ok? && lib.ln(base) != 0.0 ==> r.value * lib.ln(base) == lib.ln(a)
  {
    if a <= 0.0 || base <= 0.0 || base == 1.0 then Err("Logaritmo inválido")
    else Ok(Quot(lib, lib.ln(a), lib.ln(base)))
  }

  /** The general logarithm divides the natural logarithms, so raising it back
      through ln base gives ln a. */
  lemma LogBaseQuotient(lib: Lib, a: real, base: real)
    requires a > 0.0 && base > 0.0 && base != 1.0 && lib.ln(base) != 0.0
    ensures LogBase(lib, a, base).Ok?
    ensures LogBase(lib, a, base).value * lib.ln(base) == lib.ln(a)
    ensures LogBase(lib, base, base) == Ok(1.0)
  {
  }

  // ---------------------------------------------------------------------------
  // Trigonometry

  function Sin(lib: Lib, a: real): real { lib.sin(a) }
  function Cos(lib: Lib, a: real): real { lib.cos(a) }
  function Tan(lib: Lib, a: real): real { lib.tan(a) }

  function Asin(lib: Lib, a: real): (r: Outcome)
    ensures r.Err? <==> a < -1.0 || a > 1.0
    ensures r.Ok? ==> r.value == lib.asin(a)
  {
    if a < -1.0 || a > 1.0 then Err("arcsin fora do domínio [-1,1]") else Ok(lib.asin(a))
  }

  function Acos(lib: Lib, a: real): (r: Outcome)
    ensures r.Err? <==> a < -1.0 || a > 1.0
    ensures r.Ok? ==> r.value == lib.acos(a)
  {
    if a < -1.0 || a > 1.0 then Err("arccos fora do domínio [-1,1]") else Ok(lib.acos(a))
  }

  function Atan(lib: Lib, a: real): real { lib.atan(a) }
  function Atan2(lib: Lib, y: real, x: real): real { lib.atan2(y, x) }

  function SinDeg(lib: Lib, a: real): real { lib.sin(JvmToRadians(lib, a)) }
  function CosDeg(lib: Lib, a: real): real { lib.cos(JvmToRadians(lib, a)) }
  function TanDeg(lib: Lib, a: real): real { lib.tan(JvmToRadians(lib, a)) }

  /** The degree form of arcsin goes through `Asin` and so inherits its guard. */
  function AsinDeg(lib: Lib, a: real): (r: Outcome)
    ensures r.Err? <==> Asin(lib, a).Err?
    ensures r.Err? ==> r.error == Asin(lib, a).error
    ensures r.Ok? ==> r.value == JvmToDegrees(lib, lib.asin(a))
  {
    var x := Asin(lib, a);
    if x.Err? then Err(x.error) else Ok(JvmToDegrees(lib, x.value))
  }

  function AcosDeg(lib: Lib, a: real): (r: Outcome)
    ensures r.Err? <==> Acos(lib, a).Err?
    ensures r.Err? ==> r.error == Acos(lib, a).error
    ensures r.Ok? ==> r.value == JvmToDegrees(lib, lib.acos(a))
  {
    var x := Acos(lib, a);
    if x.Err? then Err(x.error) else Ok(JvmToDegrees(lib, x.value))
  }

  function AtanDeg(lib: Lib, a: real): real { JvmToDegrees(lib, Atan(lib, a)) }

  /** Converting the degree result back to radians recovers the library's angle,
      so the degree variants agree with the radian ones. */
  lemma InverseTrigDegrees(lib: Lib, a: real)
    requires lib.pi != 0.0 && -1.0 <= a <= 1.0
    ensures AsinDeg(lib, a).Ok? && JvmToRadians(lib, AsinDeg(lib, a).value) == lib.asin(a)
    ensures AcosDeg(lib, a).Ok? && JvmToRadians(lib, AcosDeg(lib, a).value) == lib.acos(a)
    ensures JvmToRadians(lib, AtanDeg(lib, a)) == lib.atan(a)
  {
    DegreesRoundTrip(lib, lib.asin(a));
    DegreesRoundTrip(lib, lib.acos(a));
    DegreesRoundTrip(lib, lib.atan(a));
  }

  // ---------------------------------------------------------------------------
  // Hyperbolic functions

  function Sinh(lib: Lib, a: real): real { lib.sinh(a) }
  function Cosh(lib: Lib, a: real): real { lib.cosh(a) }
  function Tanh(lib: Lib, a: real): real { lib.tanh(a) }

  /** The inverse hyperbolic functions by their logarithmic formulas. */
  function Asinh(lib: Lib, a: real): real { lib.ln(a + lib.sqrt(a * a + 1.0)) }

  function Acosh(lib: Lib, a: real): (r: Outcome)
    ensures r.Err? <==> a < 1.0
    ensures r.Ok? ==> r.value == lib.ln(a + lib.sqrt(a * a - 1.0))
  {
    if a < 1.0 then Err("acosh domínio: x >= 1") else Ok(lib.ln(a + lib.sqrt(a * a - 1.0)))
  }

  function Atanh(lib: Lib, a: real): (r: Outcome)
    ensures r.Err? <==> a <= -1.0 || a >= 1.0
    ensures r.Ok? ==> 1.0 - a > 0.0 && r.value == 0.5 * lib.ln((1.0 + a) / (1.0 - a))
  {
    if a <= -1.0 || a >= 1.0 then Err("atanh domínio: -1 < x < 1")
    else Ok(0.5 * lib.ln((1.0 + a) / (1.0 - a)))
  }

  // ---------------------------------------------------------------------------
  // Factorial and combinatorics

  /** n! for 0 <= n <= 170; negative and larger arguments are refused. */
  function Factorial(n: int): Outcome
  {
    if n < 0 then Err("Fatorial de negativo")
    else if n > 170 then Err("Fatorial overflow (max 170!)")
    else Ok(Fact(n) as real)
  }

  /** The accumulator loop over 2..n. */
  method FactorialLoop(n: int) returns (r: Outcome)
    ensures r == Factorial(n)
  {
    if n < 0 {
      return Err("Fatorial de negativo");
    }
    if n > 170 {
      return Err("Fatorial overflow (max 170!)");
    }
    var result := 1.0;
    var i := 2;
    while i <= n
      invariant i == 2 || 2 <= i <= n + 1
      invariant result == RangeProduct(2, i - 1)
    {
      result := result * i as real;
      i := i + 1;
    }
    if n == 0 {
      assert RangeProduct(2, 1) == 1.0 == RangeProduct(2, 0);
    }
    assert result == RangeProduct(2, n);
    RangeProductFact(n);
    return Ok(result);
  }

  /** 0! = 1! = 1 and n! = n * (n-1)! inside the accepted range. */
  lemma FactorialRecurrence(n: int)
    requires 1 <= n <= 170
    ensures Factorial(0) == Ok(1.0) && Factorial(1) == Ok(1.0)
    ensures Factorial(n).value == n as real * Factorial(n - 1).value
  {
  }

  /** nPr: the product n (n-1) ... (n-r+1) for 0 <= r <= n, with no upper cap. */
  function Permutation(n: int, r: int): Outcome
  {
    if n < 0 || r < 0 || r > n then Err("nPr inválido") else Ok(Falling(n, r) as real)
  }

  method PermutationLoop(n: int, r: int) returns (p: Outcome)
    ensures p == Permutation(n, r)
  {
    if n < 0 || r < 0 || r > n {
      return Err("nPr inválido");
    }
    var result := 1.0;
    var i := n;
    while i > n - r
      invariant n - r <= i <= n
      invariant result == Falling(n, n - i) as real
    {
      FallingStepReal(n, i);
      result := Mul(result, i as real);
      i := i - 1;
    }
    return Ok(result);
  }

  /** nP0 = 1 and nPn = n!, and nPr * (n-r)! = n!. */
  lemma PermutationFactorial(n: int, r: int)
    requires 0 <= r <= n <= 170
    ensures Permutation(n, 0) == Ok(1.0)
    ensures Permutation(n, n).value == Factorial(n).value
    ensures Mul(Permutation(n, r).value, Factorial(n - r).value) == Factorial(n).value
  {
    FactSplit(n, r);
    FactSplit(n, n);
    CastMul(Falling(n, r), Fact(n - r), Fact(n));
  }

  /** nCr: the binomial coefficient for 0 <= r <= n. */
  function Combination(n: int, r: int): Outcome
  {
    if n < 0 || r < 0 || r > n then Err("nCr inválido") else Ok(Choose(n, r) as real)
  }

  /** The loop runs over the smaller of r and n-r, multiplying by n-i and then
      dividing by i+1. */
  method CombinationLoop(n: int, r: int) returns (c: Outcome)
    ensures c == Combination(n, r)
  {
    if n < 0 || r < 0 || r > n {
      return Err("nCr inválido");
    }
    var k := r;
    if k > n - k {
      k := n - k;
    }
    var result := 1.0;
    var i := 0;
    while i < k
      invariant 0 <= i <= k <= n
      invariant result == Choose(n, i) as real
    {
      ChooseStepReal(n, i);
      result := Mul(result, (n - i) as real);
      result := Div(result, (i + 1) as real);
      i := i + 1;
    }
    ChooseSymmetric(n, r);
    return Ok(result);
  }

  /** C(n,r) = C(n,n-r), and C(n,r) * r! * (n-r)! = n!. */
  lemma CombinationFactorials(n: int, r: int)
    requires 0 <= r <= n
    ensures Combination(n, r) == Combination(n, n - r)
    ensures Mul(Combination(n, r).value, (Fact(r) * Fact(n - r)) as real) == Fact(n) as real
  {
    ChooseSymmetric(n, r);
    ChooseFactReal(n, r);
  }

  // ---------------------------------------------------------------------------
  // Conversions and constants

  function DegToRad(lib: Lib, deg: real): real { JvmToRadians(lib, deg) }
  function RadToDeg(lib: Lib, rad: real): real { JvmToDegrees(lib, rad) }

  function Pi(lib: Lib): real { lib.pi }
  function E(lib: Lib): real { lib.e }
  function Phi(lib: Lib): real { (1.0 + lib.sqrt(5.0)) / 2.0 }
}
