/** The original desktop calculator engine: a handful of guarded operations, a
    factorial without an upper bound, and trigonometry in radians and degrees. */
module CalculatorEngine {
  import opened Common

  type Outcome = Result<real, string>

  function Add(a: real, b: real): real { a + b }
  function Subtract(a: real, b: real): real { a - b }
  function Multiply(a: real, b: real): real { a * b }

  function Divide(a: real, b: real): (r: Outcome)
    ensures r.Err? <==> b == 0.0
    ensures r.Err? ==> r.error == "Division by zero"
    ensures r.Ok? ==> r.value * b == a
  {
    if b == 0.0 then Err("Division by zero") else Ok(a / b)
  }

  function Power(lib: Lib, a: real, b: real): real { lib.pow(a, b) }
  function Exp(lib: Lib, a: real): real { lib.exp(a) }

  function Ln(lib: Lib, a: real): (r: Outcome)
    ensures r.Err? <==> a <= 0.0
    ensures r.Err? ==> r.error == "ln domain error"
    ensures r.Ok? ==> r.value == lib.ln(a)
  {
    if a <= 0.0 then Err("ln domain error") else Ok(lib.ln(a))
  }

  function Log10(lib: Lib, a: real): (r: Outcome)
    ensures r.Err? <==> a <= 0.0
    ensures r.Err? ==> r.error == "log10 domain error"
    ensures r.Ok? ==> r.value == lib.log10(a)
  {
    if a <= 0.0 then Err("log10 domain error") else Ok(lib.log10(a))
  }

  function Sqrt(lib: Lib, a: real): (r: Outcome)
    ensures r.Err? <==> a < 0.0
    ensures r.Err? ==> r.error == "sqrt domain error"
    ensures r.Ok? ==> r.value == lib.sqrt(a)
  {
    if a < 0.0 then Err("sqrt domain error") else Ok(lib.sqrt(a))
  }

  /** n! for every n >= 0: unlike the later engines there is no cap at 170. */
  function Factorial(n: int): Outcome
  {
    if n < 0 then Err("factorial domain error") else Ok(Fact(n) as real)
  }

  /** The accumulator loop over 2..n. */
  method FactorialLoop(n: int) returns (r: Outcome)
    ensures r == Factorial(n)
  {
    if n < 0 {
      return Err("factorial domain error");
    }
    var result := 1.0;
    var i := 2;
    while i <= n
      invariant i == 2 || 2 <= i <= n + 1
      invariant result == RangeProduct(2, i - 1)
    {
      result := result * i as real;
      i := i + 1;
    }
    if n == 0 {
      assert RangeProduct(2, 1) == 1.0 == RangeProduct(2, 0);
    }
    RangeProductFact(n);
    return Ok(result);
  }

  /** 0! = 1! = 1, n! = n * (n-1)!, and every factorial is accepted and positive. */
  lemma FactorialRecurrence(n: int)
    requires n >= 1
    ensures Factorial(0) == Ok(1.0) && Factorial(1) == Ok(1.0)
    ensures Factorial(n).Ok? && Factorial(n).value >= 1.0
    ensures Factorial(n).value == n as real * Factorial(n - 1).value
  {
    FactPositive(n);
  }

  function SinRad(lib: Lib, a: real): real { lib.sin(a) }
  function CosRad(lib: Lib, a: real): real { lib.cos(a) }
  function TanRad(lib: Lib, a: real): real { lib.tan(a) }

  /** `Math.toRadians`: multiplication by pi/180. */
  function ToRadians(lib: Lib, deg: real): real { deg * (lib.pi / 180.0) }

  function SinDeg(lib: Lib, a: real): real { lib.sin(ToRadians(lib, a)) }
  function CosDeg(lib: Lib, a: real): real { lib.cos(ToRadians(lib, a)) }
  function TanDeg(lib: Lib, a: real): real { lib.tan(ToRadians(lib, a)) }

  /** The conversion is linear, a half turn (180 degrees) is pi radians, and so a
      whole turn or a change of sign in degrees is the same in radians: the
      degree functions inherit the period and the symmetry of the library's
      radian functions. */
  lemma {:induction false} DegreeTrig(lib: Lib, a: real)
    ensures ToRadians(lib, 180.0) == lib.pi
    ensures SinDeg(lib, a + 360.0) == SinRad(lib, ToRadians(lib, a) + 2.0 * lib.pi)
    ensures CosDeg(lib, a + 360.0) == CosRad(lib, ToRadians(lib, a) + 2.0 * lib.pi)
    ensures TanDeg(lib, a + 180.0) == TanRad(lib, ToRadians(lib, a) + lib.pi)
    ensures SinDeg(lib, -a) == SinRad(lib, -ToRadians(lib, a))
    ensures CosDeg(lib, -a) == CosRad(lib, -ToRadians(lib, a))
  {
    var k := lib.pi / 180.0;
    assert (a + 360.0) * k == a * k + 360.0 * k;
    assert (a + 180.0) * k == a * k + 180.0 * k;
    assert 180.0 * k == lib.pi;
  }
}
