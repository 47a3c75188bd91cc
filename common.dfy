/** Definitions shared by every model in this project: result wrappers, the
    floating-point library the sources call (kept uninterpreted), exact integer
    powers, factorials and binomials, rounding, and character classes. */
module Common {

  datatype Option<T> = None | Some(value: T)

  datatype Result<T, E> = Ok(value: T) | Err(error: E)

  /** The platform math library. Every transcendental function, every `pow` with a
      real exponent and the constants pi and e are opaque values here: a lemma that
      holds for every `Lib` holds whatever the library computes. `divZero(a)` stands
      for the IEEE result (an infinity or NaN) of dividing `a` by zero where the
      source divides without a guard; the real numbers have no such value. */
  datatype Lib = Lib(
    pi: real,
    e: real,
    sin: real -> real,
    cos: real -> real,
    tan: real -> real,
    asin: real -> real,
    acos: real -> real,
    atan: real -> real,
    sinh: real -> real,
    cosh: real -> real,
    tanh: real -> real,
    asinh: real -> real,
    acosh: real -> real,
    atanh: real -> real,
    ln: real -> real,
    log10: real -> real,
    log2: real -> real,
    exp: real -> real,
    sqrt: real -> real,
    cbrt: real -> real,
    pow: (real, real) -> real,
    atan2: (real, real) -> real,
    divZero: real -> real)

  /** a / b as the floating-point hardware computes it, with the division by zero
      left to the library. */
  function Quot(lib: Lib, a: real, b: real): (q: real)
    ensures b != 0.0 ==> q * b == a
  {
    if b == 0.0 then lib.divZero(a) else a / b
  }

  /** The product and quotient of two doubles, as named functions: proofs that
      unfold the parsers then treat a product of two parsed values as a term
      instead of as nonlinear arithmetic. */
  function Mul(a: real, b: real): real { a * b }

  function Div(a: real, b: real): real
    requires b != 0.0
  {
    a / b
  }

  function Abs(x: real): (r: real)
    ensures r >= 0.0 && (r == x || r == -x)
  {
    if x < 0.0 then -x else x
  }

  function Max(a: real, b: real): (r: real)
    ensures r >= a && r >= b && (r == a || r == b)
  {
    if a < b then b else a
  }

  // ---------------------------------------------------------------------------
  // Exact integer powers

  /** b^k for a natural exponent, as repeated multiplication. */
  function Pow(b: real, k: nat): real
  {
    if k == 0 then 1.0 else b * Pow(b, k - 1)
  }

  lemma {:induction false} PowNonZero(b: real, k: nat)
    requires b != 0.0
    ensures Pow(b, k) != 0.0
  {
    if k > 0 {
      PowNonZero(b, k - 1);
    }
  }

  lemma {:induction false} PowPositive(b: real, k: nat)
    requires b > 0.0
    ensures Pow(b, k) > 0.0
  {
    if k > 0 {
      PowPositive(b, k - 1);
    }
  }

  lemma {:induction false} PowAdd(b: real, j: nat, k: nat)
    ensures Pow(b, j + k) == Pow(b, j) * Pow(b, k)
  {
    if j > 0 {
      PowAdd(b, j - 1, k);
    }
  }

  /** For a base above 1, every positive power exceeds 1; below 1 (but positive),
      every positive power is below 1. Hence (1+i)^n differs from 1 when i is a
      nonzero rate above -100% and n >= 1. */
  lemma {:induction false} PowNotOne(b: real, k: nat)
    requires b > 0.0 && b != 1.0 && k >= 1
    ensures b > 1.0 ==> Pow(b, k) > 1.0
    ensures b < 1.0 ==> Pow(b, k) < 1.0
  {
    if k > 1 {
      PowNotOne(b, k - 1);
      PowPositive(b, k - 1);
    }
  }

  /** b^k for any integer exponent (a negative one needs b != 0). */
  function PowInt(b: real, k: int): real
    requires k < 0 ==> b != 0.0
  {
    if k >= 0 then Pow(b, k) else (PowNonZero(b, -k); 1.0 / Pow(b, -k))
  }

  // ---------------------------------------------------------------------------
  // Factorials, falling products and binomial coefficients

  function Fact(n: nat): nat
  {
    if n == 0 then 1 else n * Fact(n - 1)
  }

  lemma {:induction false} FactPositive(n: nat)
    ensures Fact(n) >= 1
  {
    if n > 0 {
      FactPositive(n - 1);
    }
  }

  /** n * (n-1) * ... * (n-r+1): the number of ordered selections of r out of n. */
  function Falling(n: nat, r: nat): nat
    requires r <= n
  {
    if r == 0 then 1 else n * Falling(n - 1, r - 1)
  }

  /** n! = nPr * (n-r)! */
  lemma {:induction false} FactSplit(n: nat, r: nat)
    requires r <= n
    ensures Fact(n) == Falling(n, r) * Fact(n - r)
  {
    if r > 0 {
      FactSplit(n - 1, r - 1);
      calc {
        Fact(n);
        n * Fact(n - 1);
        n * (Falling(n - 1, r - 1) * Fact(n - r));
        { MulAssoc(n, Falling(n - 1, r - 1), Fact(n - r)); }
        (n * Falling(n - 1, r - 1)) * Fact(n - r);
      }
    }
  }

  lemma MulAssoc(a: int, b: int, c: int)
    ensures a * (b * c) == (a * b) * c
  {
  }

  lemma {:induction false} FallingStep(n: nat, r: nat)
    requires r < n
    ensures Falling(n, r + 1) == Falling(n, r) * (n - r)
  {
    if r > 0 {
      FallingStep(n - 1, r - 1);
      calc {
        Falling(n, r + 1);
        n * Falling(n - 1, r);
        n * (Falling(n - 1, r - 1) * (n - r));
        { MulAssoc(n, Falling(n - 1, r - 1), n - r); }
        (n * Falling(n - 1, r - 1)) * (n - r);
      }
    }
  }

  /** lo * (lo+1) * ... * hi as a floating-point product built from the low end,
      the order of the factorial loops (1 when the range is empty). */
  function RangeProduct(lo: int, hi: int): real
    decreases hi - lo
  {
    if hi < lo then 1.0 else RangeProduct(lo, hi - 1) * hi as real
  }

  lemma {:induction false} RangeProductFact(n: nat)
    ensures RangeProduct(2, n) == Fact(n) as real
  {
    if n >= 2 {
      RangeProductFact(n - 1);
    }
  }

  /** Pascal's triangle. */
  function Choose(n: nat, k: nat): nat
  {
    if k == 0 then 1
    else if n == 0 then 0
    else Choose(n - 1, k - 1) + Choose(n - 1, k)
  }

  lemma {:induction false} ChooseAbove(n: nat, k: nat)
    requires k > n
    ensures Choose(n, k) == 0
  {
    if n > 0 {
      ChooseAbove(n - 1, k - 1);
      ChooseAbove(n - 1, k);
    }
  }

  /** k! * C(n,k) counts the ordered selections: C(n,k) * k! == nPk. */
  lemma {:induction false} ChooseFalling(n: nat, k: nat)
    requires k <= n
    ensures Choose(n, k) * Fact(k) == Falling(n, k)
  {
    if k == 0 {
    } else {
      var a, f, p := Choose(n - 1, k - 1), Fact(k - 1), Falling(n - 1, k - 1);
      ChooseFalling(n - 1, k - 1);
      assert Fact(k) == k * f && Falling(n, k) == n * p;
      if k == n {
        ChooseAbove(n - 1, k);
        assert Choose(n, k) == a;
        ScaleProduct(a, f, p, k);
      } else {
        var b := Choose(n - 1, k);
        ChooseFalling(n - 1, k);
        FallingStep(n - 1, k - 1);
        assert Choose(n, k) == a + b;
        PascalProduct(a, b, f, p, k, n);
      }
    }
  }

  lemma ScaleProduct(a: int, f: int, p: int, k: int)
    requires a * f == p
    ensures a * (k * f) == k * p
  {
    calc {
      a * (k * f);
      { MulAssoc(a, k, f); }
      (a * k) * f;
      (k * a) * f;
      { MulAssoc(k, a, f); }
      k * (a * f);
    }
  }

  /** The arithmetic of one Pascal step: a*(k-1)! + b*k! with a*(k-1)! == p and
      b*k! == p*(n-k) gives n*p. */
  lemma PascalProduct(a: int, b: int, f: int, p: int, k: int, n: int)
    requires a * f == p && b * (k * f) == p * (n - k)
    ensures (a + b) * (k * f) == n * p
  {
    ScaleProduct(a, f, p, k);
    calc {
      (a + b) * (k * f);
      a * (k * f) + b * (k * f);
      k * p + p * (n - k);
      n * p;
    }
  }

  /** The factorial form of the binomial coefficient. */
  lemma ChooseFact(n: nat, k: nat)
    requires k <= n
    ensures Choose(n, k) * Fact(k) * Fact(n - k) == Fact(n)
  {
    ChooseFalling(n, k);
    FactSplit(n, k);
  }

  /** The factorial form of the binomial coefficient, over the reals. */
  lemma ChooseFactReal(n: nat, k: nat)
    requires k <= n
    ensures Mul(Choose(n, k) as real, (Fact(k) * Fact(n - k)) as real) == Fact(n) as real
  {
    ChooseFact(n, k);
    MulAssoc(Choose(n, k), Fact(k), Fact(n - k));
    CastMul(Choose(n, k), Fact(k) * Fact(n - k), Fact(n));
  }

  /** An integer identity c·p == f read over the reals. */
  lemma CastMul(c: int, p: int, f: int)
    requires c * p == f
    ensures Mul(c as real, p as real) == f as real
  {
    CastProduct(c, p);
  }

  /** C(n,k) == C(n,n-k). */
  lemma ChooseSymmetric(n: nat, k: nat)
    requires k <= n
    ensures Choose(n, k) == Choose(n, n - k)
  {
    ChooseFact(n, k);
    ChooseFact(n, n - k);
    assert n - (n - k) == k;
    FactPositive(k);
    FactPositive(n - k);
    SwapCancel(Choose(n, k), Choose(n, n - k), Fact(k), Fact(n - k), Fact(n));
  }

  /** x·a·b and y·b·a both equal f with a, b positive: x == y. */
  lemma SwapCancel(x: int, y: int, a: int, b: int, f: int)
    requires a > 0 && b > 0
    requires x * a * b == f
    requires y * b * a == f
    ensures x == y
  {
    assert x * a * b == x * (a * b);
    assert y * b * a == y * (a * b);
    MulCancel(x, y, a * b);
  }

  lemma MulCancel(x: int, y: int, m: int)
    requires m > 0 && x * m == y * m
    ensures x == y
  {
  }

  /** One step of the multiply-then-divide loop of `combination`:
      C(n,i) * (n-i) / (i+1) == C(n,i+1). */
  lemma ChooseStep(n: nat, i: nat)
    requires i < n
    ensures Choose(n, i) * (n - i) == Choose(n, i + 1) * (i + 1)
  {
    ChooseFalling(n, i);
    ChooseFalling(n, i + 1);
    FallingStep(n, i);
    FactPositive(i);
    StepAlgebra(Choose(n, i), Choose(n, i + 1), Fact(i), Fact(i + 1),
                Falling(n, i), Falling(n, i + 1), n - i, i + 1);
  }

  /** The arithmetic of `ChooseStep` on plain numbers: c·f == p, c'·f' == p',
      p' == p·m and f' == d·f with f positive give c·m == c'·d. */
  lemma StepAlgebra(c: int, c': int, f: int, f': int, p: int, p': int, m: int, d: int)
    requires f > 0
    requires c * f == p && c' * f' == p'
    requires p' == p * m && f' == d * f
    ensures c * m == c' * d
  {
    calc {
      (c' * d) * f;
      { MulAssoc(c', d, f); }
      c' * f';
      p * m;
      (c * f) * m;
      { MulAssoc(c, f, m); MulAssoc(c, m, f); }
      (c * m) * f;
    }
    MulCancel(c * m, c' * d, f);
  }

  /** The combination loops multiply by (n-i) and then divide by (i+1), in that
      order: on exact values this turns C(n,i) into C(n,i+1). */
  lemma ChooseStepReal(n: nat, i: nat)
    requires i < n
    ensures Div(Mul(Choose(n, i) as real, (n - i) as real), (i + 1) as real) == Choose(n, i + 1) as real
  {
    ChooseStep(n, i);
    ExactRealQuotient(Choose(n, i), n - i, Choose(n, i + 1), i + 1);
  }

  /** a * b / d == c over the reals when a * b == c * d over the integers. */
  lemma ExactRealQuotient(a: int, b: int, c: int, d: int)
    requires d > 0 && a * b == c * d
    ensures Div(Mul(a as real, b as real), d as real) == c as real
  {
    CastProduct(a, b);
    CastProduct(c, d);
  }

  lemma CastProduct(a: int, b: int)
    ensures (a * b) as real == a as real * b as real
  {
  }

  /** The permutation loops multiply n, n-1, ... into the product: after the
      factor i the product holds the n-i+1 highest factors. */
  lemma FallingStepReal(n: nat, i: nat)
    requires 0 < i <= n
    ensures Mul(Falling(n, n - i) as real, i as real) == Falling(n, n - i + 1) as real
  {
    FallingStep(n, n - i);
    CastProduct(Falling(n, n - i), i);
  }

  // ---------------------------------------------------------------------------
  // Rounding of reals to integers

  /** Conversion toward zero, as Swift's Int(x) and Java's (int) cast do. */
  function Trunc(x: real): (r: int)
    ensures Abs(r as real) <= Abs(x) < Abs(r as real) + 1.0
    ensures x >= 0.0 ==> r >= 0
    ensures x < 0.0 ==> r <= 0
  {
    if x >= 0.0 then x.Floor else -((-x).Floor)
  }

  function Ceil(x: real): (r: int)
    ensures x <= r as real < x + 1.0
  {
    -((-x).Floor)
  }

  /** Nearest integer, halves away from zero (Swift `rounded()`). */
  function RoundHalfAway(x: real): (r: int)
    ensures Abs(r as real - x) <= 0.5
  {
    if x >= 0.0 then (x + 0.5).Floor else -((-x + 0.5).Floor)
  }

  /** Nearest integer, halves toward positive infinity (Java `Math.round`). */
  function RoundHalfUp(x: real): (r: int)
    ensures x - 0.5 < r as real <= x + 0.5
  {
    (x + 0.5).Floor
  }

  /** Nearest integer, halves to the even neighbour (Kotlin `round`). */
  function RoundHalfEven(x: real): (r: int)
    ensures Abs(r as real - x) <= 0.5
    ensures Abs(r as real - x) == 0.5 ==> r % 2 == 0
  {
    var f := x.Floor;
    var d := x - f as real;
    if d < 0.5 then f
    else if d > 0.5 then f + 1
    else if f % 2 == 0 then f else f + 1
  }

  /** The remainder of x / y with the sign of x (Swift `truncatingRemainder`,
      Java and Kotlin `%` on doubles). */
  function TruncRem(x: real, y: real): (r: real)
    requires y != 0.0
    ensures Abs(r) < Abs(y)
    ensures r == 0.0 || (r > 0.0 <==> x > 0.0)
  {
    TruncRemBounds(x, y);
    x - (Trunc(x / y) as real) * y
  }

  /** x - Trunc(x/y)*y is (x/y - Trunc(x/y)) * y, and the first factor lies strictly
      between -1 and 1 with the sign of x/y. */
  lemma TruncRemBounds(x: real, y: real)
    requires y != 0.0
    ensures Abs(x - (Trunc(x / y) as real) * y) < Abs(y)
    ensures var r := x - (Trunc(x / y) as real) * y; r == 0.0 || (r > 0.0 <==> x > 0.0)
  {
    var q := x / y;
    var d := q - Trunc(q) as real;
    assert x == q * y;
    assert x - (Trunc(q) as real) * y == d * y;
    FractionTimes(d, y);
    QuotientSign(x, y);
  }

  /** A factor strictly between -1 and 1 shrinks the magnitude. */
  lemma FractionTimes(d: real, y: real)
    requires -1.0 < d < 1.0 && y != 0.0
    ensures Abs(d * y) < Abs(y)
    ensures d * y == 0.0 <==> d == 0.0
    ensures d * y > 0.0 <==> (d > 0.0 && y > 0.0) || (d < 0.0 && y < 0.0)
  {
    if d >= 0.0 && y > 0.0 {
      assert d * y < 1.0 * y;
    } else if d >= 0.0 {
      assert d * (-y) < 1.0 * (-y);
    } else if y > 0.0 {
      assert (-d) * y < 1.0 * y;
    } else {
      assert (-d) * (-y) < 1.0 * (-y);
    }
  }

  lemma QuotientSign(x: real, y: real)
    requires y != 0.0
    ensures x / y > 0.0 <==> (x > 0.0 && y > 0.0) || (x < 0.0 && y < 0.0)
    ensures x / y == 0.0 <==> x == 0.0
  {
  }

  const IntMin: int := -0x8000_0000
  const IntMax: int := 0x7fff_ffff

  /** Kotlin's Double.toInt(): saturates at the 32-bit bounds. */
  function SaturateInt(x: int): (r: int)
    ensures IntMin <= r <= IntMax
    ensures IntMin <= x <= IntMax ==> r == x
  {
    if x < IntMin then IntMin else if x > IntMax then IntMax else x
  }

  const LongMin: int := -0x8000_0000_0000_0000
  const LongMax: int := 0x7fff_ffff_ffff_ffff

  /** Java's long-to-int cast: keeps the low 32 bits, as a signed value. */
  function WrapInt(x: int): (r: int)
    ensures IntMin <= r <= IntMax
    ensures (r - x) % 0x1_0000_0000 == 0
  {
    var m := x % 0x1_0000_0000;
    if m > IntMax then m - 0x1_0000_0000 else m
  }

  // ---------------------------------------------------------------------------
  // java.lang.Math helpers shared by the desktop and Android code

  /** `Math.toRadians` and `Math.toDegrees`: multiplication by pi/180 and 180/pi. */
  function JvmToRadians(lib: Lib, deg: real): real { deg * (lib.pi / 180.0) }
  function JvmToDegrees(lib: Lib, rad: real): real { rad * Quot(lib, 180.0, lib.pi) }

  /** The two conversions are inverse to each other. */
  lemma DegreesRoundTrip(lib: Lib, x: real)
    requires lib.pi != 0.0
    ensures JvmToDegrees(lib, JvmToRadians(lib, x)) == x
    ensures JvmToRadians(lib, JvmToDegrees(lib, x)) == x
  {
    var k := lib.pi / 180.0;
    var m := 180.0 / lib.pi;
    assert k * m == 1.0;
    assert x * k * m == x * (k * m);
    assert x * m * k == x * (k * m);
  }

  /** `Math.round(double)`: the nearest long, halves upward, clamped to the long
      range. */
  function JvmRound(x: real): (r: int)
    ensures LongMin <= r <= LongMax
    ensures LongMin as real <= x + 0.5 < LongMax as real + 1.0 ==> r == RoundHalfUp(x)
  {
    var k := RoundHalfUp(x);
    if k < LongMin then LongMin else if k > LongMax then LongMax else k
  }

  /** `Math.signum`. */
  function Signum(a: real): (r: real)
    ensures r == 1.0 || r == 0.0 || r == -1.0
    ensures r * Abs(a) == a
  {
    if a > 0.0 then 1.0 else if a < 0.0 then -1.0 else 0.0
  }

  // ---------------------------------------------------------------------------
  // Characters

  predicate IsDigit(c: char)
  {
    '0' <= c <= '9'
  }

  /** Letters: the Latin and Greek alphabets (enough for every name the
      calculators know, including π and φ). */
  predicate IsLetter(c: char)
  {
    ('a' <= c <= 'z') || ('A' <= c <= 'Z')
    || ('Α' <= c <= 'Ω' && c != '΢') || ('α' <= c <= 'ω')
  }

  /** The whitespace class `\s` of Java regular expressions. */
  predicate IsSpace(c: char)
  {
    c == ' ' || c == '\t' || c == '\n' || c == '\U{000B}' || c == '\U{000C}' || c == '\r'
  }

  function ToLower(c: char): (d: char)
    ensures IsLetter(c) <==> IsLetter(d)
    ensures !('A' <= d <= 'Z')
  {
    if 'A' <= c <= 'Z' then (c as int + 32) as char
    else if 'Α' <= c <= 'Ω' && c != '΢' then (c as int + 32) as char
    else c
  }

  function Lower(s: string): (r: string)
    ensures |r| == |s|
    ensures forall i :: 0 <= i < |s| ==> r[i] == ToLower(s[i])
  {
    if s == [] then [] else [ToLower(s[0])] + Lower(s[1..])
  }

  /** Removes every character satisfying `drop`, keeping the order of the rest. */
  function Remove(s: string, drop: char -> bool): (r: string)
    ensures |r| <= |s|
    ensures forall c :: c in r <==> c in s && !drop(c)
  {
    if s == [] then []
    else if drop(s[0]) then Remove(s[1..], drop)
    else [s[0]] + Remove(s[1..], drop)
  }

  /** Removing characters that do not occur changes nothing. */
  lemma {:induction false} RemoveNothing(s: string, drop: char -> bool)
    requires forall i :: 0 <= i < |s| ==> !drop(s[i])
    ensures Remove(s, drop) == s
  {
    if s != [] {
      RemoveNothing(s[1..], drop);
    }
  }

  /** Replaces every occurrence of the character `c` by the text `repl`. */
  function ReplaceChar(s: string, c: char, repl: string): (r: string)
    ensures c !in repl ==> c !in r
    ensures forall d :: d in s && d != c ==> d in r
  {
    if s == [] then []
    else (if s[0] == c then repl else [s[0]]) + ReplaceChar(s[1..], c, repl)
  }

  /** A string made only of whitespace (Kotlin `isBlank`). */
  predicate IsBlank(s: string)
  {
    forall i :: 0 <= i < |s| ==> IsSpace(s[i])
  }
}
