/** The exact-arithmetic mathematics shared by the three financial engines:
    discounting a list of cash flows, the balance of a loan paid by equal
    instalments, the coupons of a bond, and the sum-of-years'-digits charges.
    A `pow` whose exponent is a whole number of periods is the exact power `Pow`;
    a zero divisor goes through `Quot`, like the IEEE division it stands for. */
module FinanceMath {
  import opened Common

  // ---------------------------------------------------------------------------
  // Powers

  lemma {:induction false} PowOfOne(k: nat)
    ensures Pow(1.0, k) == 1.0
  {
    if k > 0 {
      PowOfOne(k - 1);
    }
  }

  /** `Math.pow(b, k)` for a whole exponent k of either sign, in exact arithmetic:
      a negative exponent is the reciprocal of the positive power. */
  function IntPow(lib: Lib, b: real, k: int): (r: real)
    ensures k >= 0 ==> r == Pow(b, k)
    ensures k < 0 && Pow(b, -k) != 0.0 ==> r * Pow(b, -k) == 1.0
  {
    if k >= 0 then Pow(b, k) else Quot(lib, 1.0, Pow(b, -k))
  }

  // ---------------------------------------------------------------------------
  // Quotients

  lemma CancelFactor(x: real, y: real, d: real)
    requires d != 0.0 && x * d == y * d
    ensures x == y
  {
    assert (x - y) * d == 0.0;
  }

  /** A product divided by one factor is the other factor. */
  lemma QuotientOfProduct(v: real, a: real, q: real)
    requires a != 0.0 && v == a * q
    ensures v / a == q
  {
  }

  /** Quotients by the same divisor add up. */
  lemma QuotAdd(lib: Lib, a: real, b: real, d: real)
    requires d != 0.0
    ensures Quot(lib, a, d) + Quot(lib, b, d) == Quot(lib, a + b, d)
  {
    var qa, qb, qs := Quot(lib, a, d), Quot(lib, b, d), Quot(lib, a + b, d);
    assert (qa + qb) * d == qa * d + qb * d;
    CancelFactor(qa + qb, qs, d);
  }

  /** A common factor of dividend and divisor cancels. */
  lemma QuotScale(lib: Lib, a: real, c: real, d: real)
    requires c != 0.0 && d != 0.0
    ensures c * d != 0.0
    ensures Quot(lib, a * c, c * d) == Quot(lib, a, d)
  {
    var q1, q2 := Quot(lib, a * c, c * d), Quot(lib, a, d);
    assert q1 * (c * d) == a * c;
    assert q2 * d == a;
    assert (q1 * d) * c == (q2 * d) * c;
    CancelFactor(q1 * d, q2 * d, c);
    CancelFactor(q1, q2, d);
  }

  lemma DivideBack(a: real, d: real)
    requires d != 0.0
    ensures d * (a / d) == a
  {
  }

  // ---------------------------------------------------------------------------
  // Solving the time-value equation for the number of periods

  /** The one law of the library the period count relies on: raising b to
      log(x)/log(b) gives x back, for a positive base other than 1. */
  ghost predicate PowUndoesLog(lib: Lib)
  {
    forall b: real, x: real :: 0.0 < b && b != 1.0 && 0.0 < x
      ==> lib.pow(b, Quot(lib, lib.ln(x), lib.ln(b))) == x
  }

  /** pv·q + pa·(q−1)/i = −fv when q·(pa + pv·i) = pa − fv·i. */
  lemma PeriodsAlgebra(q: real, pa: real, pv: real, fv: real, i: real)
    requires i != 0.0 && q * (pa + pv * i) == pa - fv * i
    ensures pv * q + pa * ((q - 1.0) / i) == -fv
  {
    var lhs := pv * q + pa * ((q - 1.0) / i);
    assert pa * ((q - 1.0) / i) * i == pa * (q - 1.0);
    assert lhs * i == q * (pa + pv * i) - pa;
    CancelFactor(lhs, -fv, i);
  }

  /** With q = (pa − fv·i)/(pa + pv·i) > 0 and n = ln q / ln(1+i), the future value
      equation pv·(1+i)^n + pa·((1+i)^n − 1)/i + fv = 0 holds: pa is the payment
      as it enters the annuity term. */
  lemma PeriodsSolve(lib: Lib, i: real, n: real, pa: real, pv: real, fv: real, q: real)
    requires PowUndoesLog(lib)
    requires i != 0.0
    requires 1.0 + i > 0.0
    requires q > 0.0
    requires pa + pv * i != 0.0
    requires q == Quot(lib, pa - fv * i, pa + pv * i)
    requires n == Quot(lib, lib.ln(q), lib.ln(1.0 + i))
    ensures pv * lib.pow(1.0 + i, n) + pa * ((lib.pow(1.0 + i, n) - 1.0) / i) == -fv
  {
    assert lib.pow(1.0 + i, n) == q;
    PeriodsAlgebra(q, pa, pv, fv, i);
  }

  // ---------------------------------------------------------------------------
  // Discounting

  /** The plain sum of the first n values. */
  function PrefixSum(xs: seq<real>, n: nat): real
    requires n <= |xs|
  {
    if n == 0 then 0.0 else PrefixSum(xs, n - 1) + xs[n - 1]
  }

  /** The value at time 0 of the first n flows at rate i per period: flow t is
      divided by (1+i)^t. */
  function DiscountedSum(lib: Lib, i: real, flows: seq<real>, n: nat): real
    requires n <= |flows|
  {
    if n == 0 then 0.0
    else DiscountedSum(lib, i, flows, n - 1) + Quot(lib, flows[n - 1], Pow(1.0 + i, n - 1))
  }

  /** No flows are worth nothing, and the first flow is counted at face value. */
  lemma DiscountedSumStart(lib: Lib, i: real, flows: seq<real>)
    ensures DiscountedSum(lib, i, flows, 0) == 0.0
    ensures |flows| >= 1 ==> DiscountedSum(lib, i, flows, 1) == flows[0]
  {
    if |flows| >= 1 {
      assert Pow(1.0 + i, 0) == 1.0;
    }
  }

  /** At rate 0 nothing is discounted: the value is the plain sum. */
  lemma {:induction false} DiscountedSumAtZero(lib: Lib, flows: seq<real>, n: nat)
    requires n <= |flows|
    ensures DiscountedSum(lib, 0.0, flows, n) == PrefixSum(flows, n)
  {
    if n > 0 {
      DiscountedSumAtZero(lib, flows, n - 1);
      PowOfOne(n - 1);
    }
  }

  /** Discounting is additive: the value of the flows summed pointwise is the sum
      of their values. */
  lemma {:induction false} DiscountedSumAdditive(lib: Lib, i: real, f: seq<real>, g: seq<real>,
                                                 h: seq<real>, n: nat)
    requires 1.0 + i != 0.0
    requires n <= |f| == |g| == |h|
    requires forall t :: 0 <= t < |h| ==> h[t] == f[t] + g[t]
    ensures DiscountedSum(lib, i, h, n) == DiscountedSum(lib, i, f, n) + DiscountedSum(lib, i, g, n)
  {
    if n > 0 {
      DiscountedSumAdditive(lib, i, f, g, h, n - 1);
      var d := Pow(1.0 + i, n - 1);
      PowNonZero(1.0 + i, n - 1);
      QuotAdd(lib, f[n - 1], g[n - 1], d);
    }
  }

  // ---------------------------------------------------------------------------
  // Loans paid by equal instalments

  /** The balance after p instalments of `pmt` at rate i per period: each period
      the interest `balance·i` is charged and the instalment paid. */
  function Balance(principal: real, i: real, pmt: real, p: nat): real
  {
    if p == 0 then principal
    else
      var b := Balance(principal, i, pmt, p - 1);
      b - (pmt - b * i)
  }

  /** In closed form: B(p)·i = P·i·(1+i)^p − pmt·((1+i)^p − 1). */
  lemma {:induction false} BalanceClosedForm(principal: real, i: real, pmt: real, p: nat)
    ensures Balance(principal, i, pmt, p) * i
            == principal * i * Pow(1.0 + i, p) - pmt * (Pow(1.0 + i, p) - 1.0)
  {
    if p == 0 {
      assert Balance(principal, i, pmt, 0) == principal && Pow(1.0 + i, 0) == 1.0;
    } else {
      BalanceClosedForm(principal, i, pmt, p - 1);
      BalanceStep(Balance(principal, i, pmt, p - 1), Balance(principal, i, pmt, p),
                  principal, i, pmt, Pow(1.0 + i, p - 1), Pow(1.0 + i, p));
    }
  }

  /** One period of the closed form, on plain numbers: b and q are the balance
      and growth factor before the period, bp and qp after it. */
  lemma BalanceStep(b: real, bp: real, principal: real, i: real, pmt: real, q: real, qp: real)
    requires bp == b - (pmt - b * i)
    requires qp == (1.0 + i) * q
    requires b * i == principal * i * q - pmt * (q - 1.0)
    ensures bp * i == principal * i * qp - pmt * (qp - 1.0)
  {
    var bi := b * i;
    assert bp * i == bi * (1.0 + i) - pmt * i;
    assert bi * (1.0 + i) == (principal * i * q) * (1.0 + i) - pmt * (q - 1.0) * (1.0 + i);
    assert (principal * i * q) * (1.0 + i) == principal * i * qp;
    assert pmt * (q - 1.0) * (1.0 + i) + pmt * i == pmt * (qp - 1.0);
  }

  /** The French-system instalment P·i·f/(f−1), f = (1+i)^n. */
  function Instalment(lib: Lib, principal: real, i: real, n: nat): real
  {
    Quot(lib, principal * (i * Pow(1.0 + i, n)), Pow(1.0 + i, n) - 1.0)
  }

  /** With that instalment the loan is paid off exactly after n periods. */
  lemma PaidOff(lib: Lib, principal: real, i: real, n: nat)
    requires i != 0.0 && Pow(1.0 + i, n) != 1.0
    ensures Balance(principal, i, Instalment(lib, principal, i, n), n) == 0.0
  {
    var f := Pow(1.0 + i, n);
    var pmt := Instalment(lib, principal, i, n);
    assert pmt * (f - 1.0) == principal * (i * f);
    PaidOffBy(principal, i, n, pmt, f);
  }

  /** The same for any payment pmt with pmt·(f − 1) = P·i·f, where f = (1+i)^n. */
  lemma PaidOffBy(principal: real, i: real, n: nat, pmt: real, f: real)
    requires i != 0.0 && f == Pow(1.0 + i, n)
    requires pmt * (f - 1.0) == principal * (i * f)
    ensures Balance(principal, i, pmt, n) == 0.0
  {
    BalanceClosedForm(principal, i, pmt, n);
    var b := Balance(principal, i, pmt, n);
    assert b * i == 0.0;
  }

  // ---------------------------------------------------------------------------
  // Bonds

  /** The value of coupons c paid at the ends of periods 1..t at yield y. */
  function Coupons(lib: Lib, c: real, y: real, t: nat): real
  {
    if t == 0 then 0.0 else Coupons(lib, c, y, t - 1) + Quot(lib, c, Pow(1.0 + y, t))
  }

  /** One more period: a coupon F·y and the face value, both discounted one more
      period, are worth the face value discounted as before. */
  lemma AtParStep(lib: Lib, face: real, y: real, q: real)
    requires 1.0 + y != 0.0 && q != 0.0
    ensures Quot(lib, face * y, (1.0 + y) * q) + Quot(lib, face, (1.0 + y) * q) == Quot(lib, face, q)
  {
    var d := (1.0 + y) * q;
    QuotAdd(lib, face * y, face, d);
    var u := face * y + face;
    assert u == face * (1.0 + y);
    QuotScale(lib, face, 1.0 + y, q);
  }

  /** A bond whose coupon equals its yield (c = F·y) is worth its face value F:
      the coupons make up exactly what discounting takes from the face value. */
  lemma {:induction false} AtPar(lib: Lib, face: real, y: real, t: nat)
    requires 1.0 + y != 0.0
    ensures Coupons(lib, face * y, y, t) + Quot(lib, face, Pow(1.0 + y, t)) == face
  {
    if t == 0 {
      assert Pow(1.0 + y, 0) == 1.0;
    } else {
      AtPar(lib, face, y, t - 1);
      var q := Pow(1.0 + y, t - 1);
      PowNonZero(1.0 + y, t - 1);
      assert Pow(1.0 + y, t) == (1.0 + y) * q;
      AtParStep(lib, face, y, q);
    }
  }

  /** The coupons of periods 1..t in closed form: the annuity
      c·((1+y)^t − 1)/(y·(1+y)^t), multiplied out. */
  lemma {:induction false} CouponsClosedForm(lib: Lib, c: real, y: real, t: nat)
    requires 1.0 + y != 0.0
    ensures Mul(Mul(Coupons(lib, c, y, t), y), Pow(1.0 + y, t)) == Mul(c, Pow(1.0 + y, t) - 1.0)
  {
    if t == 0 {
      assert Pow(1.0 + y, 0) == 1.0;
    } else {
      CouponsClosedForm(lib, c, y, t - 1);
      CouponsNextPeriod(lib, c, y, t);
    }
  }

  /** From the closed form for t − 1 periods to the one for t. */
  lemma CouponsNextPeriod(lib: Lib, c: real, y: real, t: nat)
    requires 1.0 + y != 0.0 && t > 0
    requires Mul(Mul(Coupons(lib, c, y, t - 1), y), Pow(1.0 + y, t - 1)) == Mul(c, Pow(1.0 + y, t - 1) - 1.0)
    ensures Mul(Mul(Coupons(lib, c, y, t), y), Pow(1.0 + y, t)) == Mul(c, Pow(1.0 + y, t) - 1.0)
  {
    var x := Pow(1.0 + y, t);
    PowNonZero(1.0 + y, t);
    PowStep(1.0 + y, t);
    CouponStep(Coupons(lib, c, y, t - 1), Coupons(lib, c, y, t), Quot(lib, c, x), c, y,
               Pow(1.0 + y, t - 1), x);
  }

  /** One more factor of the power. */
  lemma PowStep(b: real, k: nat)
    requires k > 0
    ensures Pow(b, k) == b * Pow(b, k - 1)
  {
  }

  /** One period of the closed form, on plain numbers: xp and x are the growth
      factors after t − 1 and t periods, and cu the coupon of period t
      discounted. */
  lemma CouponStep(prev: real, next: real, cu: real, c: real, y: real, xp: real, x: real)
    requires next == prev + cu && cu * x == c
    requires x == (1.0 + y) * xp
    requires Mul(Mul(prev, y), xp) == Mul(c, xp - 1.0)
    ensures Mul(Mul(next, y), x) == Mul(c, x - 1.0)
  {
    assert next * y * x == (prev * y * xp) * (1.0 + y) + (cu * x) * y;
  }

  // ---------------------------------------------------------------------------
  // Sum-of-years'-digits depreciation

  /** The charge for a year: the depreciable amount times the remaining life
      (life − year + 1) over the sum of the years' digits life·(life+1)/2. */
  function SydCharge(depreciable: real, life: real, year: real): real
    requires life > 0.0
  {
    depreciable * (life - year + 1.0) / (life * (life + 1.0) / 2.0)
  }

  /** The charges for years 1..k. */
  function SydTotal(depreciable: real, life: nat, k: nat): real
    requires life > 0
  {
    if k == 0 then 0.0 else SydTotal(depreciable, life, k - 1) + SydCharge(depreciable, life as real, k as real)
  }

  /** Σ_{y=1..k} (life − y + 1) = k·life − k(k−1)/2. */
  lemma {:induction false} DigitsSum(depreciable: real, life: nat, k: nat)
    requires life > 0
    ensures SydTotal(depreciable, life, k) * (life as real * (life as real + 1.0) / 2.0)
            == depreciable * (k as real * life as real - k as real * (k as real - 1.0) / 2.0)
  {
    if k > 0 {
      DigitsSum(depreciable, life, k - 1);
      var l, kr := life as real, k as real;
      var s := l * (l + 1.0) / 2.0;
      var prev := SydTotal(depreciable, life, k - 1);
      var c := SydCharge(depreciable, l, kr);
      SydChargeTimesDigits(depreciable, l, kr);
      DigitsIdentity(l, kr);
      assert (prev + c) * s == prev * s + c * s;
      assert depreciable * ((kr - 1.0) * l - (kr - 1.0) * (kr - 1.0 - 1.0) / 2.0) + depreciable * (l - kr + 1.0)
             == depreciable * (((kr - 1.0) * l - (kr - 1.0) * (kr - 1.0 - 1.0) / 2.0) + (l - kr + 1.0));
    }
  }

  lemma SydChargeTimesDigits(depreciable: real, l: real, kr: real)
    requires l > 0.0
    ensures SydCharge(depreciable, l, kr) * (l * (l + 1.0) / 2.0) == depreciable * (l - kr + 1.0)
  {
  }

  /** (k−1)·L − (k−1)(k−2)/2 + (L − k + 1) = k·L − k(k−1)/2. */
  lemma DigitsIdentity(l: real, kr: real)
    ensures (kr - 1.0) * l - (kr - 1.0) * (kr - 1.0 - 1.0) / 2.0 + (l - kr + 1.0) == kr * l - kr * (kr - 1.0) / 2.0
  {
  }

  /** Over the whole life the charges add up to the depreciable amount. */
  lemma SydFullLife(depreciable: real, life: nat)
    requires life > 0
    ensures SydTotal(depreciable, life, life) == depreciable
  {
    DigitsSum(depreciable, life, life);
    var l := life as real;
    var s := l * (l + 1.0) / 2.0;
    assert l * l - l * (l - 1.0) / 2.0 == s;
    assert SydTotal(depreciable, life, life) * s == depreciable * s;
  }
}
