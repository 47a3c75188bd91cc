/** The iOS calculator's scientific engine: guarded real functions that answer
    `None` where the operation has no real value. */
module SwiftScientificEngine {
  import opened Common

  datatype AngleMode = Degrees | Radians

  function ToRadians(lib: Lib, value: real, mode: AngleMode): real
  {
    match mode
    case Degrees => value * lib.pi / 180.0
    case Radians => value
  }

  function FromRadians(lib: Lib, value: real, mode: AngleMode): real
  {
    match mode
    case Degrees => Quot(lib, value * 180.0, lib.pi)
    case Radians => value
  }

  /** Converting an angle to radians and back gives the angle again. */
  lemma RadiansRoundTrip(lib: Lib, value: real, mode: AngleMode)
    requires lib.pi != 0.0
    ensures FromRadians(lib, ToRadians(lib, value, mode), mode) == value
    ensures ToRadians(lib, FromRadians(lib, value, mode), mode) == value
  {
  }

  function Add(a: real, b: real): real { a + b }
  function Subtract(a: real, b: real): real { a - b }
  function Multiply(a: real, b: real): real { a * b }

  function Divide(a: real, b: real): (r: Option<real>)
    ensures r.None? <==> b == 0.0
    ensures r.Some? ==> r.value * b == a
  {
    if b == 0.0 then None else Some(a / b)
  }

  function Power(lib: Lib, base: real, exp: real): real { lib.pow(base, exp) }

  function SquareRoot(lib: Lib, value: real): (r: Option<real>)
    ensures r.None? <==> value < 0.0
    ensures r.Some? ==> r.value == lib.sqrt(value)
  {
    if value >= 0.0 then Some(lib.sqrt(value)) else None
  }

  function CubeRoot(lib: Lib, value: real): real { lib.cbrt(value) }

  /** The n-th root. An odd root of a negative value is taken on its magnitude and
      negated; the guard that rejects a negative value with a non-integral n is
      reached only when n is even, so it never rejects anything. */
  function NthRoot(lib: Lib, value: real, n: real): (r: Option<real>)
    ensures r.None? <==> n == 0.0
    ensures r.Some? && value < 0.0 && TruncRem(n, 2.0) != 0.0
            ==> r.value == -lib.pow(-value, 1.0 / n)
    ensures r.Some? && !(value < 0.0 && TruncRem(n, 2.0) != 0.0)
            ==> r.value == lib.pow(value, 1.0 / n)
  {
    if n == 0.0 then None
    else if value < 0.0 && TruncRem(n, 2.0) != 0.0 then Some(-lib.pow(-value, 1.0 / n))
    else if !(value >= 0.0 || n == Trunc(n) as real) then
      EvenIsIntegral(n);
      assert false;
      None
    else Some(lib.pow(value, 1.0 / n))
  }

  /** A real whose truncating remainder by 2 is zero is an integer. */
  lemma EvenIsIntegral(n: real)
    ensures TruncRem(n, 2.0) == 0.0 ==> n == Trunc(n) as real
  {
    if TruncRem(n, 2.0) == 0.0 {
      var k := Trunc(n / 2.0);
      assert n == 2.0 * k as real;
      TruncOfInteger(2 * k);
    }
  }

  lemma TruncOfInteger(k: int)
    ensures Trunc(k as real) == k
  {
  }

  function Square(value: real): real { value * value }
  function Cube(value: real): real { value * value * value }

  function NaturalLog(lib: Lib, value: real): (r: Option<real>)
    ensures r.None? <==> value <= 0.0
    ensures r.Some? ==> r.value == lib.ln(value)
  {
    if value > 0.0 then Some(lib.ln(value)) else None
  }

  function Log10(lib: Lib, value: real): (r: Option<real>)
    ensures r.None? <==> value <= 0.0
    ensures r.Some? ==> r.value == lib.log10(value)
  {
    if value > 0.0 then Some(lib.log10(value)) else None
  }

  function Log2(lib: Lib, value: real): (r: Option<real>)
    ensures r.None? <==> value <= 0.0
    ensures r.Some? ==> r.value == lib.log2(value)
  {
    if value > 0.0 then Some(lib.log2(value)) else None
  }

  function Exp(lib: Lib, value: real): real { lib.exp(value) }
  function TenToThe(lib: Lib, value: real): real { lib.pow(10.0, value) }

  function Sin(lib: Lib, value: real, mode: AngleMode): real
  {
    lib.sin(ToRadians(lib, value, mode))
  }

  function Cos(lib: Lib, value: real, mode: AngleMode): real
  {
    lib.cos(ToRadians(lib, value, mode))
  }

  /** The tangent, refused where the cosine of the angle is within 1e-15 of zero. */
  function Tan(lib: Lib, value: real, mode: AngleMode): (r: Option<real>)
    ensures r.None? <==> Abs(Cos(lib, value, mode)) <= 1.0e-15
    ensures r.Some? ==> r.value == lib.tan(ToRadians(lib, value, mode))
  {
    var rad := ToRadians(lib, value, mode);
    if Abs(lib.cos(rad)) > 1.0e-15 then Some(lib.tan(rad)) else None
  }

  function Asin(lib: Lib, value: real, mode: AngleMode): (r: Option<real>)
    ensures r.None? <==> value < -1.0 || value > 1.0
    ensures r.Some? ==> r.value == FromRadians(lib, lib.asin(value), mode)
  {
    if -1.0 <= value <= 1.0 then Some(FromRadians(lib, lib.asin(value), mode)) else None
  }

  function Acos(lib: Lib, value: real, mode: AngleMode): (r: Option<real>)
    ensures r.None? <==> value < -1.0 || value > 1.0
    ensures r.Some? ==> r.value == FromRadians(lib, lib.acos(value), mode)
  {
    if -1.0 <= value <= 1.0 then Some(FromRadians(lib, lib.acos(value), mode)) else None
  }

  function Atan(lib: Lib, value: real, mode: AngleMode): real
  {
    FromRadians(lib, lib.atan(value), mode)
  }

  function Sinh(lib: Lib, value: real): real { lib.sinh(value) }
  function Cosh(lib: Lib, value: real): real { lib.cosh(value) }
  function Tanh(lib: Lib, value: real): real { lib.tanh(value) }
  function Asinh(lib: Lib, value: real): real { lib.asinh(value) }

  function Acosh(lib: Lib, value: real): (r: Option<real>)
    ensures r.None? <==> value < 1.0
    ensures r.Some? ==> r.value == lib.acosh(value)
  {
    if value >= 1.0 then Some(lib.acosh(value)) else None
  }

  function Atanh(lib: Lib, value: real): (r: Option<real>)
    ensures r.None? <==> value <= -1.0 || value >= 1.0
    ensures r.Some? ==> r.value == lib.atanh(value)
  {
    if -1.0 < value < 1.0 then Some(lib.atanh(value)) else None
  }

  // ---------------------------------------------------------------------------
  // Factorial and combinatorics

  /** n! for 0 <= n <= 170 (the largest factorial a double holds), as the loop
      over 2...n computes it. */
  function Factorial(n: int): (r: Option<real>)
    ensures r.Some? <==> 0 <= n <= 170
    ensures r.Some? ==> r.value == Fact(n) as real
  {
    if !(0 <= n <= 170) then None
    else if n <= 1 then Some(1.0)
    else (RangeProductFact(n); Some(RangeProduct(2, n)))
  }

  /** The loop itself: multiplies 2, 3, ..., n into an accumulator. */
  method FactorialLoop(n: int) returns (r: Option<real>)
    ensures r == Factorial(n)
  {
    if !(n >= 0 && n <= 170) {
      return None;
    }
    if n <= 1 {
      return Some(1.0);
    }
    var result := 1.0;
    var i := 2;
    while i <= n
      invariant 2 <= i <= n + 1
      invariant result == RangeProduct(2, i - 1)
    {
      result := result * i as real;
      i := i + 1;
    }
    RangeProductFact(n);
    return Some(result);
  }

  /** nPr = n! / (n-r)!: defined for 0 <= r <= n <= 170 and equal to the number
      of ordered selections n (n-1) ... (n-r+1). */
  function Permutation(n: int, r: int): (p: Option<real>)
    ensures p.Some? <==> 0 <= r <= n <= 170
    ensures p.Some? ==> p.value == Falling(n, r) as real
  {
    if !(n >= 0 && r >= 0 && r <= n) then None
    else
      var nFact, nrFact := Factorial(n), Factorial(n - r);
      if nFact.None? || nrFact.None? then None
      else
        PermutationQuotient(n, r);
        Some(nFact.value / nrFact.value)
  }

  /** nCr = nPr / r!: defined for 0 <= r <= n <= 170 and equal to the binomial
      coefficient. */
  function Combination(n: int, r: int): (c: Option<real>)
    ensures c.Some? <==> 0 <= r <= n <= 170
    ensures c.Some? ==> c.value == Choose(n, r) as real
  {
    if !(n >= 0 && r >= 0 && r <= n) then None
    else
      var perm, rFact := Permutation(n, r), Factorial(r);
      if perm.None? || rFact.None? then None
      else
        CombinationQuotient(n, r);
        Some(perm.value / rFact.value)
  }

  lemma PermutationQuotient(n: nat, r: nat)
    requires r <= n
    ensures Fact(n - r) > 0
    ensures (Fact(n) as real) / (Fact(n - r) as real) == Falling(n, r) as real
  {
    FactSplit(n, r);
    FactPositive(n - r);
    ExactQuotient(Fact(n), Fact(n - r), Falling(n, r));
  }

  lemma CombinationQuotient(n: nat, r: nat)
    requires r <= n
    ensures Fact(r) > 0
    ensures (Falling(n, r) as real) / (Fact(r) as real) == Choose(n, r) as real
  {
    ChooseFalling(n, r);
    FactPositive(r);
    ExactQuotient(Falling(n, r), Fact(r), Choose(n, r));
  }

  /** a / b == c in the reals when a == c * b in the integers. */
  lemma ExactQuotient(a: int, b: int, c: int)
    requires b > 0 && a == c * b
    ensures (a as real) / (b as real) == c as real
  {
    assert a as real == c as real * b as real;
  }

  /** Choosing r is choosing the n-r left behind. */
  lemma CombinationSymmetric(n: int, r: int)
    requires 0 <= r <= n
    ensures Combination(n, r) == Combination(n, n - r)
  {
    if n <= 170 {
      ChooseSymmetric(n, r);
    }
  }

  // ---------------------------------------------------------------------------
  // Constants and utilities

  function Phi(lib: Lib): real { (1.0 + lib.sqrt(5.0)) / 2.0 }

  function Reciprocal(value: real): (r: Option<real>)
    ensures r.None? <==> value == 0.0
    ensures r.Some? ==> r.value * value == 1.0
  {
    if value != 0.0 then Some(1.0 / value) else None
  }

  function Absolute(value: real): real { Abs(value) }
  function Negate(value: real): real { -value }
  function Percentage(value: real): real { value / 100.0 }
}
