/** The Android calculator's financial engine, a twin of the desktop one
    without `percentTotal` and without the statistics: time value of money, net
    present value and a bisection for the internal rate of return, a loan
    amortization table, three depreciation methods, bond pricing and
    percentages.

    Rates are entered in percent; the period rate is rate/100, and only a rate
    of exactly 0 takes the interest-free formulas. Every failure throws an
    ArithmeticException with a message; here it is `Err(message)`. `pow` with a
    real exponent is the library's; with a whole number of periods it is the
    exact power, through `IntPow` when the exponent may be negative. */
module KotlinFinancialEngine {
  import opened Common
  import opened FinanceMath

  type Outcome = Result<real, string>

  /** `interestRate` stops on a derivative smaller than this (1e-20). */
  const DerivativeFloor: real := 0.00000000000000000001

  /** `interestRate` stops once a step is shorter than this (1e-12). */
  const StepTolerance: real := 0.000000000001

  /** `irr` accepts a midpoint whose net present value is below this (1e-10). */
  const ValueTolerance: real := 0.0000000001

  const MaxIterations: nat := 1000

  /** The bracket `irr` starts from. */
  const BracketLow: real := -0.999
  const BracketHigh: real := 10.0

  /** A running loan balance smaller than this in magnitude is shown as 0. */
  const SnapThreshold: real := 0.01

  // ---------------------------------------------------------------------------
  // Time value of money

  /** The payment timing t: 1 at the beginning of the period, 0 at the end. */
  function Timing(beginMode: bool): real
  {
    if beginMode then 1.0 else 0.0
  }

  /** The timing factor 1 + i·t. */
  function ModeFactor(i: real, beginMode: bool): real
  {
    1.0 + i * Timing(beginMode)
  }

  /** The annuity factor ((1+i)^n − 1)/i, with f = (1+i)^n. */
  function Annuity(f: real, i: real): real
    requires i != 0.0
  {
    (f - 1.0) / i
  }

  function FutureValue(lib: Lib, n: real, annualRate: real, pv: real, pmt: real, beginMode: bool): real
  {
    var i := annualRate / 100.0;
    if i == 0.0 then -(pv + pmt * n)
    else
      var factor := lib.pow(1.0 + i, n);
      -(pv * factor + pmt * Annuity(factor, i) * ModeFactor(i, beginMode))
  }

  function PresentValue(lib: Lib, n: real, annualRate: real, pmt: real, fv: real, beginMode: bool): real
  {
    var i := annualRate / 100.0;
    if i == 0.0 then -(fv + pmt * n)
    else
      var factor := lib.pow(1.0 + i, n);
      -(Quot(lib, fv, factor) + pmt * Quot(lib, factor - 1.0, i * factor) * ModeFactor(i, beginMode))
  }

  /** The divisor of the payment formula: the annuity factor times 1 + i·t. */
  function PaymentDivisor(lib: Lib, n: real, i: real, beginMode: bool): real
    requires i != 0.0
  {
    Annuity(lib.pow(1.0 + i, n), i) * ModeFactor(i, beginMode)
  }

  function Payment(lib: Lib, n: real, annualRate: real, pv: real, fv: real, beginMode: bool): real
  {
    var i := annualRate / 100.0;
    if i == 0.0 then Quot(lib, -(pv + fv), n)
    else
      var factor := lib.pow(1.0 + i, n);
      Quot(lib, -(pv * factor + fv), PaymentDivisor(lib, n, i, beginMode))
  }

  /** The present value formula, on plain numbers: f = (1+i)^n, m = 1 + i·t. */
  lemma PresentValueAlgebra(lib: Lib, f: real, i: real, pv: real, pmt: real, m: real)
    requires f != 0.0 && i != 0.0
    ensures -(Quot(lib, -(pv * f + pmt * ((f - 1.0) / i) * m), f)
              + pmt * Quot(lib, f - 1.0, i * f) * m) == pv
  {
    var a := (f - 1.0) / i;
    var q1 := Quot(lib, -(pv * f + pmt * a * m), f);
    var q2 := Quot(lib, f - 1.0, i * f);
    assert q2 * f * i == a * i;
    CancelFactor(q2 * f, a, i);
    assert (q1 + pmt * q2 * m) * f == q1 * f + pmt * (q2 * f) * m;
    CancelFactor(q1 + pmt * q2 * m, -pv, f);
  }

  /** `presentValue` undoes `futureValue` (same n, rate, payment and mode). */
  lemma PresentValueOfFutureValue(lib: Lib, n: real, annualRate: real, pv: real, pmt: real, beginMode: bool)
    requires annualRate / 100.0 != 0.0 ==> lib.pow(1.0 + annualRate / 100.0, n) != 0.0
    ensures PresentValue(lib, n, annualRate, pmt, FutureValue(lib, n, annualRate, pv, pmt, beginMode), beginMode) == pv
  {
    var i := annualRate / 100.0;
    if i != 0.0 {
      PresentValueAlgebra(lib, lib.pow(1.0 + i, n), i, pv, pmt, ModeFactor(i, beginMode));
    }
  }

  /** `futureValue` with the payment `payment` computes reproduces the target fv. */
  lemma FutureValueOfPayment(lib: Lib, n: real, annualRate: real, pv: real, fv: real, beginMode: bool)
    requires annualRate / 100.0 == 0.0 ==> n != 0.0
    requires annualRate / 100.0 != 0.0 ==> PaymentDivisor(lib, n, annualRate / 100.0, beginMode) != 0.0
    ensures FutureValue(lib, n, annualRate, pv, Payment(lib, n, annualRate, pv, fv, beginMode), beginMode) == fv
  {
    var i := annualRate / 100.0;
    var pmt := Payment(lib, n, annualRate, pv, fv, beginMode);
    if i != 0.0 {
      var f := lib.pow(1.0 + i, n);
      assert pmt * PaymentDivisor(lib, n, i, beginMode) == -(pv * f + fv);
      assert pmt * Annuity(f, i) * ModeFactor(i, beginMode) == pmt * PaymentDivisor(lib, n, i, beginMode);
    }
  }

  /** (1+i)^n as the period count requires it: (pmtAdj − fv·i)/(pmtAdj + pv·i),
      with pmtAdj = pmt·(1 + i·t). */
  function PeriodsRatio(lib: Lib, i: real, pv: real, pmt: real, fv: real, beginMode: bool): real
  {
    var pmtAdj := pmt * ModeFactor(i, beginMode);
    Quot(lib, pmtAdj - fv * i, pmtAdj + pv * i)
  }

  /** `periods`: fails when the rate is 0 and nothing is paid, or when the ratio
      (pmtAdj − fv·i)/(pmtAdj + pv·i) is not positive. */
  function Periods(lib: Lib, annualRate: real, pv: real, pmt: real, fv: real, beginMode: bool): (r: Outcome)
    ensures annualRate / 100.0 == 0.0 ==> (r.Err? <==> pmt == 0.0)
    ensures annualRate / 100.0 != 0.0 ==> (r.Err? <==> PeriodsRatio(lib, annualRate / 100.0, pv, pmt, fv, beginMode) <= 0.0)
    ensures r.Err? ==> r.error == (if annualRate / 100.0 == 0.0 then "Impossível calcular N" else "Valores TVM inconsistentes")
  {
    var i := annualRate / 100.0;
    if i == 0.0 then
      if pmt == 0.0 then Err("Impossível calcular N") else Ok(-(pv + fv) / pmt)
    else
      var q := PeriodsRatio(lib, i, pv, pmt, fv, beginMode);
      if q <= 0.0 then Err("Valores TVM inconsistentes")
      else Ok(Quot(lib, lib.ln(q), lib.ln(1.0 + i)))
  }

  /** The payment term of `futureValue` regrouped: pmt·a·m = (pmt·m)·a. */
  lemma PaymentTermRegrouped(pmt: real, a: real, m: real)
    ensures pmt * a * m == (pmt * m) * a
  {
  }

  lemma PeriodsAtRate(lib: Lib, annualRate: real, pv: real, pmt: real, fv: real, beginMode: bool)
    requires PowUndoesLog(lib)
    requires Periods(lib, annualRate, pv, pmt, fv, beginMode).Ok?
    requires annualRate / 100.0 != 0.0 && 1.0 + annualRate / 100.0 > 0.0
    requires pmt * ModeFactor(annualRate / 100.0, beginMode) + pv * (annualRate / 100.0) != 0.0
    ensures FutureValue(lib, Periods(lib, annualRate, pv, pmt, fv, beginMode).value, annualRate, pv, pmt, beginMode) == fv
  {
    var i := annualRate / 100.0;
    var n := Periods(lib, annualRate, pv, pmt, fv, beginMode).value;
    var m := ModeFactor(i, beginMode);
    var q := PeriodsRatio(lib, i, pv, pmt, fv, beginMode);
    PeriodsSolve(lib, i, n, pmt * m, pv, fv, q);
    PaymentTermRegrouped(pmt, Annuity(lib.pow(1.0 + i, n), i), m);
  }

  /** The period count `periods` finds is the one at which `futureValue`
      reaches fv. */
  lemma PeriodsReachFutureValue(lib: Lib, annualRate: real, pv: real, pmt: real, fv: real, beginMode: bool)
    requires PowUndoesLog(lib)
    requires Periods(lib, annualRate, pv, pmt, fv, beginMode).Ok?
    requires annualRate / 100.0 != 0.0 ==>
               1.0 + annualRate / 100.0 > 0.0
               && pmt * ModeFactor(annualRate / 100.0, beginMode) + pv * (annualRate / 100.0) != 0.0
    ensures FutureValue(lib, Periods(lib, annualRate, pv, pmt, fv, beginMode).value, annualRate, pv, pmt, beginMode) == fv
  {
    if annualRate / 100.0 != 0.0 {
      PeriodsAtRate(lib, annualRate, pv, pmt, fv, beginMode);
    } else {
      DivideBack(-(pv + fv), pmt);
    }
  }

  // ---------------------------------------------------------------------------
  // Interest rate by Newton's method

  /** f(i) = pv·(1+i)^n + pmt·((1+i)^n − 1)/i·(1 + i·t) + fv, whose root is the
      rate. */
  function RateResidual(lib: Lib, n: real, pv: real, pmt: real, fv: real, beginMode: bool, i: real): real
  {
    var factor := lib.pow(1.0 + i, n);
    pv * factor + pmt * Quot(lib, factor - 1.0, i) * ModeFactor(i, beginMode) + fv
  }

  /** f'(i), as the loop computes it from n·(1+i)^(n−1). */
  function RateSlope(lib: Lib, n: real, pv: real, pmt: real, fv: real, beginMode: bool, i: real): real
  {
    var factor := lib.pow(1.0 + i, n);
    var dfactor := n * lib.pow(1.0 + i, n - 1.0);
    var dAnnuity := Quot(lib, dfactor * i - (factor - 1.0), i * i);
    pv * dfactor + pmt * (dAnnuity * ModeFactor(i, beginMode) + Quot(lib, factor - 1.0, i) * Timing(beginMode))
  }

  /** The residual at a nonzero trial rate i is how far `futureValue` at i·100
      falls short of fv. */
  lemma RateResidualMeasuresFutureValue(lib: Lib, n: real, pv: real, pmt: real, fv: real,
                                        beginMode: bool, i: real)
    requires i != 0.0
    ensures RateResidual(lib, n, pv, pmt, fv, beginMode, i) == fv - FutureValue(lib, n, i * 100.0, pv, pmt, beginMode)
  {
    assert i * 100.0 / 100.0 == i;
  }

  /** Newton's method from `guess` with k iterations left. It never fails: a
      flat derivative or running out of iterations reports the current guess,
      a short step reports where it lands, both times 100. */
  function NewtonRate(lib: Lib, n: real, pv: real, pmt: real, fv: real, beginMode: bool,
                      guess: real, k: nat): real
    decreases k
  {
    if k == 0 then guess * 100.0
    else
      var df := RateSlope(lib, n, pv, pmt, fv, beginMode, guess);
      if Abs(df) < DerivativeFloor then guess * 100.0
      else
        var next := guess - RateResidual(lib, n, pv, pmt, fv, beginMode, guess) / df;
        if Abs(next - guess) < StepTolerance then next * 100.0
        else NewtonRate(lib, n, pv, pmt, fv, beginMode, next, k - 1)
  }

  /** A trial rate at which `futureValue` already reaches fv is reported as it
      is, provided the slope there is usable. */
  lemma NewtonRateKeepsRoot(lib: Lib, n: real, pv: real, pmt: real, fv: real, beginMode: bool,
                            g: real, k: nat)
    requires k > 0 && g != 0.0
    requires FutureValue(lib, n, g * 100.0, pv, pmt, beginMode) == fv
    requires Abs(RateSlope(lib, n, pv, pmt, fv, beginMode, g)) >= DerivativeFloor
    ensures NewtonRate(lib, n, pv, pmt, fv, beginMode, g, k) == g * 100.0
  {
    RateResidualMeasuresFutureValue(lib, n, pv, pmt, fv, beginMode, g);
  }

  /** `interestRate`: at most 1000 Newton steps from 0.1. */
  method InterestRate(lib: Lib, n: real, pv: real, pmt: real, fv: real, beginMode: bool)
    returns (r: real)
    ensures r == NewtonRate(lib, n, pv, pmt, fv, beginMode, 0.1, MaxIterations)
  {
    var guess := 0.1;
    var iter := 0;
    while iter < MaxIterations
      invariant 0 <= iter <= MaxIterations
      invariant NewtonRate(lib, n, pv, pmt, fv, beginMode, guess, MaxIterations - iter)
                == NewtonRate(lib, n, pv, pmt, fv, beginMode, 0.1, MaxIterations)
    {
      var done, result, next := RateIteration(lib, n, pv, pmt, fv, beginMode, guess, MaxIterations - iter);
      if done {
        return result;
      }
      guess := next;
      iter := iter + 1;
    }
    return guess * 100.0;
  }

  /** The body of the `interestRate` loop: either the method ends here with its
      answer, or it goes on from `next` with one iteration fewer. */
  method RateIteration(lib: Lib, n: real, pv: real, pmt: real, fv: real, beginMode: bool, guess: real, k: nat)
    returns (done: bool, r: real, next: real)
    requires k > 0
    ensures done ==> r == NewtonRate(lib, n, pv, pmt, fv, beginMode, guess, k)
    ensures !done ==> NewtonRate(lib, n, pv, pmt, fv, beginMode, guess, k)
                      == NewtonRate(lib, n, pv, pmt, fv, beginMode, next, k - 1)
  {
    var i := guess;
    var f := RateResidual(lib, n, pv, pmt, fv, beginMode, i);
    var df := RateSlope(lib, n, pv, pmt, fv, beginMode, i);
    if Abs(df) < DerivativeFloor {
      return true, guess * 100.0, guess;
    }
    next := i - f / df;
    if Abs(next - i) < StepTolerance {
      return true, next * 100.0, next;
    }
    return false, 0.0, next;
  }

  // ---------------------------------------------------------------------------
  // Net present value and internal rate of return

  /** The flows discounted at rate/100, the first one undiscounted. */
  function NetPresentValue(lib: Lib, rate: real, cashFlows: seq<real>): real
  {
    DiscountedSum(lib, rate / 100.0, cashFlows, |cashFlows|)
  }

  /** The discounting loop shared by `npv` and `irr`: the flows at rate x. */
  method DiscountAt(lib: Lib, cashFlows: seq<real>, x: real) returns (value: real)
    ensures value == DiscountedSum(lib, x, cashFlows, |cashFlows|)
  {
    value := 0.0;
    var t := 0;
    while t < |cashFlows|
      invariant 0 <= t <= |cashFlows|
      invariant value == DiscountedSum(lib, x, cashFlows, t)
    {
      value := value + Quot(lib, cashFlows[t], Pow(1.0 + x, t));
      t := t + 1;
    }
  }

  /** `npv`. */
  method Npv(lib: Lib, rate: real, cashFlows: seq<real>) returns (npv: real)
    ensures npv == NetPresentValue(lib, rate, cashFlows)
  {
    npv := DiscountAt(lib, cashFlows, rate / 100.0);
  }

  /** No flows are worth nothing, the first flow counts at face value, and at a
      rate of 0 the value is the plain sum. */
  lemma NetPresentValueBasics(lib: Lib, rate: real, cashFlows: seq<real>)
    ensures NetPresentValue(lib, rate, []) == 0.0
    ensures |cashFlows| == 1 ==> NetPresentValue(lib, rate, cashFlows) == cashFlows[0]
    ensures NetPresentValue(lib, 0.0, cashFlows) == PrefixSum(cashFlows, |cashFlows|)
  {
    DiscountedSumStart(lib, rate / 100.0, cashFlows);
    DiscountedSumAtZero(lib, cashFlows, |cashFlows|);
  }

  /** The bisection of `irr` on [lo, hi] with k iterations left: a midpoint with
      a negligible value is the answer; otherwise the half whose ends differ in
      sign (judged by the value at lo) is kept. Out of iterations, the midpoint
      is the answer. Both times in percent. */
  function Bisection(lib: Lib, flows: seq<real>, lo: real, hi: real, k: nat): real
    decreases k
  {
    var mid := (lo + hi) / 2.0;
    if k == 0 then mid * 100.0
    else
      var value := DiscountedSum(lib, mid, flows, |flows|);
      if Abs(value) < ValueTolerance then mid * 100.0
      else
        var loValue := DiscountedSum(lib, lo, flows, |flows|);
        if (value > 0.0) == (loValue > 0.0) then Bisection(lib, flows, mid, hi, k - 1)
        else Bisection(lib, flows, lo, mid, k - 1)
  }

  /** The bisection ended at the midpoint of [l, l + w], a bracket inside
      [lo, hi] reached after j ≤ k halvings, either because the iterations ran
      out or because the value there is negligible. */
  ghost predicate Landed(lib: Lib, flows: seq<real>, lo: real, hi: real, k: nat, r: real,
                         j: nat, l: real, w: real)
  {
    j <= k && w > 0.0 && w * Pow(2.0, j) == hi - lo
    && lo <= l && l + w <= hi
    && r == (l + w / 2.0) * 100.0
    && (j == k || Abs(DiscountedSum(lib, l + w / 2.0, flows, |flows|)) < ValueTolerance)
  }

  /** Each iteration halves the bracket and keeps it inside the previous one, so
      the rate reported lies strictly inside [lo, hi]. */
  lemma {:induction false} BisectionHalves(lib: Lib, flows: seq<real>, lo: real, hi: real, k: nat)
    requires lo < hi
    ensures exists j: nat, l: real, w: real :: Landed(lib, flows, lo, hi, k, Bisection(lib, flows, lo, hi, k), j, l, w)
    ensures lo * 100.0 < Bisection(lib, flows, lo, hi, k) < hi * 100.0
    decreases k
  {
    var r := Bisection(lib, flows, lo, hi, k);
    var mid := (lo + hi) / 2.0;
    if k == 0 || Abs(DiscountedSum(lib, mid, flows, |flows|)) < ValueTolerance {
      assert Pow(2.0, 0) == 1.0;
      assert Landed(lib, flows, lo, hi, k, r, 0, lo, hi - lo);
      LandedInside(lib, flows, lo, hi, k, r, 0, lo, hi - lo);
    } else {
      var value := DiscountedSum(lib, mid, flows, |flows|);
      var loValue := DiscountedSum(lib, lo, flows, |flows|);
      var l0, h0 := lo, mid;
      if (value > 0.0) == (loValue > 0.0) {
        l0, h0 := mid, hi;
      }
      assert r == Bisection(lib, flows, l0, h0, k - 1);
      BisectionHalves(lib, flows, l0, h0, k - 1);
      var j: nat, l: real, w: real :| Landed(lib, flows, l0, h0, k - 1, r, j, l, w);
      LandedInHalf(lib, flows, lo, hi, k, l0, h0, r, j, l, w);
      LandedInside(lib, flows, lo, hi, k, r, j + 1, l, w);
    }
  }

  /** A landing point is strictly inside its bracket. */
  lemma LandedInside(lib: Lib, flows: seq<real>, lo: real, hi: real, k: nat, r: real, j: nat, l: real, w: real)
    requires Landed(lib, flows, lo, hi, k, r, j, l, w)
    ensures lo * 100.0 < r < hi * 100.0
  {
  }

  /** Landing in one half of [lo, hi] after j halvings is landing in [lo, hi]
      after j + 1. */
  lemma LandedInHalf(lib: Lib, flows: seq<real>, lo: real, hi: real, k: nat, l0: real, h0: real,
                     r: real, j: nat, l: real, w: real)
    requires k > 0 && lo < hi
    requires (l0 == lo && h0 == (lo + hi) / 2.0) || (l0 == (lo + hi) / 2.0 && h0 == hi)
    requires Landed(lib, flows, l0, h0, k - 1, r, j, l, w)
    ensures Landed(lib, flows, lo, hi, k, r, j + 1, l, w)
  {
    assert Pow(2.0, j + 1) == 2.0 * Pow(2.0, j);
    assert w * Pow(2.0, j + 1) == 2.0 * (w * Pow(2.0, j));
  }

  /** `irr`: bisection on [-0.999, 10], at most 1000 iterations. */
  method Irr(lib: Lib, cashFlows: seq<real>) returns (r: real)
    ensures r == Bisection(lib, cashFlows, BracketLow, BracketHigh, MaxIterations)
    ensures BracketLow * 100.0 < r < BracketHigh * 100.0
  {
    BisectionHalves(lib, cashFlows, BracketLow, BracketHigh, MaxIterations);
    var lo, hi := BracketLow, BracketHigh;
    var iter := 0;
    while iter < MaxIterations
      invariant 0 <= iter <= MaxIterations
      invariant Bisection(lib, cashFlows, lo, hi, MaxIterations - iter)
                == Bisection(lib, cashFlows, BracketLow, BracketHigh, MaxIterations)
    {
      var mid := (lo + hi) / 2.0;
      var value := DiscountAt(lib, cashFlows, mid);
      if Abs(value) < ValueTolerance {
        return mid * 100.0;
      }
      var loValue := DiscountAt(lib, cashFlows, lo);
      if (value > 0.0) == (loValue > 0.0) {
        lo := mid;
      } else {
        hi := mid;
      }
      iter := iter + 1;
    }
    return (lo + hi) / 2.0 * 100.0;
  }

  // ---------------------------------------------------------------------------
  // Amortization

  /** One line of the schedule, with the fields in the order the source's
      constructor takes them. */
  datatype AmortRow = AmortRow(period: int, payment: real, interest: real, principal: real, balance: real)

  /** The instalment: the principal in equal parts at a zero rate, otherwise the
      French-system payment P·i·f/(f − 1) with f = (1+i)^N. */
  function Instalment(lib: Lib, principal: real, i: real, totalPeriods: int): real
  {
    if i == 0.0 then Quot(lib, principal, totalPeriods as real)
    else
      var f := IntPow(lib, 1.0 + i, totalPeriods);
      Quot(lib, principal * (i * f), f - 1.0)
  }

  /** A balance within a cent of zero is shown as zero. */
  function Snap(b: real): real
  {
    if -SnapThreshold < b < SnapThreshold then 0.0 else b
  }

  /** A snapped balance is 0 or at least a cent away from it, moves by less
      than a cent, and is left alone when already a cent or more from 0. */
  lemma SnapBounds(b: real)
    ensures Snap(b) == 0.0 || Abs(Snap(b)) >= SnapThreshold
    ensures Abs(Snap(b) - b) < SnapThreshold
    ensures Abs(b) >= SnapThreshold ==> Snap(b) == b
  {
  }

  /** A period's interest on a balance. */
  function Interest(balance: real, i: real): real
  {
    balance * i
  }

  /** The running balance after p payments: interest is charged on the balance
      as shown, the rest of the payment reduces it, and the result is snapped. */
  function SnappedBalance(principal: real, i: real, pmt: real, p: nat): real
  {
    if p == 0 then principal
    else
      var b := SnappedBalance(principal, i, pmt, p - 1);
      Snap(b - (pmt - Interest(b, i)))
  }

  function ScheduleRow(principal: real, i: real, pmt: real, p: nat): AmortRow
    requires p >= 1
  {
    var before := SnappedBalance(principal, i, pmt, p - 1);
    AmortRow(p, pmt, Interest(before, i), pmt - Interest(before, i), SnappedBalance(principal, i, pmt, p))
  }

  /** Rows 1..p, in order. */
  function ScheduleRows(principal: real, i: real, pmt: real, p: nat): (rows: seq<AmortRow>)
    ensures |rows| == p
  {
    if p == 0 then [] else ScheduleRows(principal, i, pmt, p - 1) + [ScheduleRow(principal, i, pmt, p)]
  }

  lemma {:induction false} ScheduleRowsIndex(principal: real, i: real, pmt: real, p: nat)
    ensures forall k :: 0 <= k < p ==> ScheduleRows(principal, i, pmt, p)[k] == ScheduleRow(principal, i, pmt, k + 1)
  {
    if p > 0 {
      ScheduleRowsIndex(principal, i, pmt, p - 1);
    }
  }

  /** The number of rows: the loop 1..totalPeriods runs no time when
      totalPeriods < 1. */
  function RowCount(totalPeriods: int): nat
  {
    if totalPeriods > 0 then totalPeriods else 0
  }

  function Schedule(lib: Lib, principal: real, annualRate: real, totalPeriods: int): seq<AmortRow>
  {
    var i := annualRate / 100.0;
    ScheduleRows(principal, i, Instalment(lib, principal, i, totalPeriods), RowCount(totalPeriods))
  }

  /** `amortizationSchedule`. */
  method AmortizationSchedule(lib: Lib, principal: real, annualRate: real, totalPeriods: int)
    returns (schedule: seq<AmortRow>)
    ensures schedule == Schedule(lib, principal, annualRate, totalPeriods)
  {
    var i := annualRate / 100.0;
    var pmt := Instalment(lib, principal, i, totalPeriods);
    schedule := [];
    var balance := principal;
    var p := 1;
    while p <= totalPeriods
      invariant 1 <= p <= RowCount(totalPeriods) + 1
      invariant balance == SnappedBalance(principal, i, pmt, p - 1)
      invariant schedule == ScheduleRows(principal, i, pmt, p - 1)
    {
      var row;
      row, balance := NextRow(principal, i, pmt, p, balance);
      schedule := schedule + [row];
      p := p + 1;
    }
  }

  /** One pass of the schedule loop. */
  method NextRow(principal: real, i: real, pmt: real, p: nat, balance: real)
    returns (row: AmortRow, next: real)
    requires p >= 1 && balance == SnappedBalance(principal, i, pmt, p - 1)
    ensures next == SnappedBalance(principal, i, pmt, p)
    ensures row == ScheduleRow(principal, i, pmt, p)
  {
    var interestPart := balance * i;
    var principalPart := pmt - interestPart;
    next := balance - principalPart;
    if -SnapThreshold < next < SnapThreshold {
      next := 0.0;
    }
    row := AmortRow(p, pmt, interestPart, principalPart, next);
  }

  /** One row per period, none for a count below 1. */
  lemma ScheduleLength(lib: Lib, principal: real, annualRate: real, totalPeriods: int)
    ensures |Schedule(lib, principal, annualRate, totalPeriods)| == RowCount(totalPeriods)
  {
  }

  /** The schedule has one row per period, numbered from 1, all with the same
      payment, the instalment. */
  lemma ScheduleShape(lib: Lib, principal: real, annualRate: real, totalPeriods: int)
    ensures var rows := Schedule(lib, principal, annualRate, totalPeriods);
            |rows| == RowCount(totalPeriods)
            && (forall k :: 0 <= k < |rows| ==> rows[k].period == k + 1)
            && (forall k :: 0 <= k < |rows| ==> rows[k].payment == Instalment(lib, principal, annualRate / 100.0, totalPeriods))
  {
    var i := annualRate / 100.0;
    ScheduleRowsIndex(principal, i, Instalment(lib, principal, i, totalPeriods), RowCount(totalPeriods));
  }

  /** Every row splits the payment into interest and principal. The first row
      charges interest on the loan, every later one on the balance the row
      before left, and each balance is the one before less the principal
      repaid, snapped to 0 within a cent. */
  lemma RowsChain(principal: real, i: real, pmt: real, n: nat, rows: seq<AmortRow>)
    requires rows == ScheduleRows(principal, i, pmt, n)
    ensures forall k :: 0 <= k < |rows| ==> rows[k].interest + rows[k].principal == pmt
    ensures |rows| > 0 ==> rows[0].interest == Interest(principal, i)
    ensures |rows| > 0 ==> rows[0].balance == Snap(principal - rows[0].principal)
    ensures forall k :: 0 < k < |rows| ==> rows[k].interest == Interest(rows[k - 1].balance, i)
    ensures forall k :: 0 < k < |rows| ==> rows[k].balance == Snap(rows[k - 1].balance - rows[k].principal)
  {
    if n > 0 {
      RowFirst(principal, i, pmt, n, rows);
    }
    forall k | 0 <= k < n
      ensures rows[k].interest + rows[k].principal == pmt
      ensures k > 0 ==> rows[k].interest == Interest(rows[k - 1].balance, i)
      ensures k > 0 ==> rows[k].balance == Snap(rows[k - 1].balance - rows[k].principal)
    {
      RowAt(principal, i, pmt, n, rows, k);
      if k > 0 {
        RowLink(principal, i, pmt, n, rows, k);
      }
    }
  }

  /** Row k of the schedule, with the row before it. */
  lemma RowAt(principal: real, i: real, pmt: real, n: nat, rows: seq<AmortRow>, k: nat)
    requires rows == ScheduleRows(principal, i, pmt, n) && k < n
    ensures rows[k] == ScheduleRow(principal, i, pmt, k + 1)
    ensures k > 0 ==> rows[k - 1] == ScheduleRow(principal, i, pmt, k)
  {
    ScheduleRowsIndex(principal, i, pmt, n);
  }

  /** Row 1 against the loan. */
  lemma RowFirst(principal: real, i: real, pmt: real, n: nat, rows: seq<AmortRow>)
    requires rows == ScheduleRows(principal, i, pmt, n) && n > 0
    ensures rows[0].interest == Interest(principal, i)
    ensures rows[0].balance == Snap(principal - rows[0].principal)
  {
    RowAt(principal, i, pmt, n, rows, 0);
    assert SnappedBalance(principal, i, pmt, 0) == principal;
  }

  /** Row k against row k − 1. */
  lemma RowLink(principal: real, i: real, pmt: real, n: nat, rows: seq<AmortRow>, k: nat)
    requires rows == ScheduleRows(principal, i, pmt, n) && 0 < k < n
    ensures rows[k].interest == Interest(rows[k - 1].balance, i)
    ensures rows[k].balance == Snap(rows[k - 1].balance - rows[k].principal)
  {
    RowAt(principal, i, pmt, n, rows, k);
  }

  /** Before any snapping, the instalment pays the loan off exactly: the
      unsnapped balance after the last period is 0. */
  lemma InstalmentRepaysLoan(lib: Lib, principal: real, annualRate: real, totalPeriods: nat)
    requires annualRate / 100.0 != 0.0 && Pow(1.0 + annualRate / 100.0, totalPeriods) != 1.0
    ensures var i := annualRate / 100.0;
            Balance(principal, i, Instalment(lib, principal, i, totalPeriods), totalPeriods) == 0.0
  {
    var i := annualRate / 100.0;
    var f := IntPow(lib, 1.0 + i, totalPeriods);
    var pmt := Instalment(lib, principal, i, totalPeriods);
    assert pmt == Quot(lib, principal * (i * f), f - 1.0);
    PaidOffBy(principal, i, totalPeriods, pmt, f);
  }

  /** At a zero rate the payments add up to the principal. */
  lemma ZeroRateInstalment(lib: Lib, principal: real, totalPeriods: int)
    requires totalPeriods > 0
    ensures Instalment(lib, principal, 0.0, totalPeriods) * totalPeriods as real == principal
  {
  }

  // ---------------------------------------------------------------------------
  // Depreciation

  /** `depreciationSL`: the depreciable amount spread evenly over the life. */
  function DepreciationSL(cost: real, salvage: real, life: real): (r: Outcome)
    ensures r.Err? <==> life <= 0.0
    ensures r.Err? ==> r.error == "Vida útil inválida"
    ensures r.Ok? ==> r.value * life == cost - salvage
  {
    if life <= 0.0 then Err("Vida útil inválida") else Ok((cost - salvage) / life)
  }

  /** The book value after k years at `rate`, never shown below salvage. */
  function DbBookValue(cost: real, salvage: real, rate: real, k: nat): real
  {
    if k == 0 then cost
    else
      var b := DbBookValue(cost, salvage, rate, k - 1);
      var next := b - b * rate;
      if next < salvage then salvage else next
  }

  /** The year's charge on a book value: a `rate` share of it, cut down to what
      is left above salvage, and never negative. */
  function DbCharge(book: real, salvage: real, rate: real): real
  {
    var dep := book * rate;
    Max(if book - dep < salvage then book - salvage else dep, 0.0)
  }

  /** The charge is never negative, never more than the `rate` share of the
      book value, and a positive charge leaves at least salvage. */
  lemma DbChargeBounds(book: real, salvage: real, rate: real)
    ensures DbCharge(book, salvage, rate) >= 0.0
    ensures DbCharge(book, salvage, rate) > 0.0 ==> book - DbCharge(book, salvage, rate) >= salvage
    ensures DbCharge(book, salvage, rate) > 0.0 ==> DbCharge(book, salvage, rate) <= book * rate
  {
  }

  /** Declining balance at the rate factor/life. */
  function DecliningBalance(cost: real, salvage: real, life: real, year: int, factor: real): (r: Outcome)
    ensures r.Err? <==> life <= 0.0 || year <= 0
    ensures r.Err? ==> r.error == "Parâmetros inválidos"
    ensures r.Ok? ==> r.value >= 0.0
  {
    if life <= 0.0 || year <= 0 then Err("Parâmetros inválidos")
    else
      var rate := factor / life;
      DbChargeBounds(DbBookValue(cost, salvage, rate, year - 1), salvage, rate);
      Ok(DbCharge(DbBookValue(cost, salvage, rate, year - 1), salvage, rate))
  }

  /** `depreciationDB`. */
  method DepreciationDB(cost: real, salvage: real, life: real, year: int, factor: real) returns (r: Outcome)
    ensures r == DecliningBalance(cost, salvage, life, year, factor)
  {
    if life <= 0.0 || year <= 0 {
      return Err("Parâmetros inválidos");
    }
    var rate := factor / life;
    var bookValue := cost;
    var y := 1;
    while y < year
      invariant 1 <= y <= year
      invariant bookValue == DbBookValue(cost, salvage, rate, y - 1)
    {
      var dep := bookValue * rate;
      bookValue := bookValue - dep;
      if bookValue < salvage {
        bookValue := salvage;
      }
      y := y + 1;
    }
    var dep := bookValue * rate;
    if bookValue - dep < salvage {
      dep := bookValue - salvage;
    }
    assert Max(dep, 0.0) == DbCharge(bookValue, salvage, rate);
    DecliningBalanceCharge(cost, salvage, life, year, factor);
    return Ok(Max(dep, 0.0));
  }

  /** With valid parameters the answer is the charge on last year's book value. */
  lemma DecliningBalanceCharge(cost: real, salvage: real, life: real, year: int, factor: real)
    requires life > 0.0 && year > 0
    ensures DecliningBalance(cost, salvage, life, year, factor)
         == Ok(DbCharge(DbBookValue(cost, salvage, factor / life, year - 1), salvage, factor / life))
  {
  }

  /** With a non-negative rate and salvage, and a cost above salvage, the book
      value falls year by year and never below salvage; a positive charge never
      takes it below salvage either. */
  lemma {:induction false} DbBookValueDeclines(cost: real, salvage: real, rate: real, k: nat)
    requires 0.0 <= rate && 0.0 <= salvage <= cost
    ensures salvage <= DbBookValue(cost, salvage, rate, k + 1) <= DbBookValue(cost, salvage, rate, k) <= cost
  {
    if k > 0 {
      DbBookValueDeclines(cost, salvage, rate, k - 1);
    }
    var b := DbBookValue(cost, salvage, rate, k);
    assert b >= 0.0;
    assert b * rate >= 0.0;
  }

  /** A positive declining-balance charge leaves at least the salvage value on
      the books. */
  lemma DecliningBalanceKeepsSalvage(cost: real, salvage: real, life: real, year: int, factor: real)
    requires DecliningBalance(cost, salvage, life, year, factor).Ok?
    requires DecliningBalance(cost, salvage, life, year, factor).value > 0.0
    ensures DbBookValue(cost, salvage, factor / life, year - 1) - DecliningBalance(cost, salvage, life, year, factor).value >= salvage
  {
    DbChargeBounds(DbBookValue(cost, salvage, factor / life, year - 1), salvage, factor / life);
  }

  /** `depreciationSYD`: the depreciable amount times the remaining life over the
      sum of the years' digits. A year past the life is not rejected. */
  function DepreciationSYD(cost: real, salvage: real, life: real, year: int): (r: Outcome)
    ensures r.Err? <==> life <= 0.0 || year <= 0
    ensures r.Err? ==> r.error == "Parâmetros inválidos"
    ensures r.Ok? ==> r.value * (life * (life + 1.0) / 2.0) == (cost - salvage) * (life - year as real + 1.0)
  {
    if life <= 0.0 || year <= 0 then Err("Parâmetros inválidos")
    else Ok(SydCharge(cost - salvage, life, year as real))
  }

  /** Over years 1..life of a whole-year life the charges add up to
      cost − salvage; a year beyond life + 1 gives a negative charge. */
  lemma DepreciationSYDSchedule(cost: real, salvage: real, life: nat, year: int)
    requires life > 0
    ensures SydTotal(cost - salvage, life, life) == cost - salvage
    ensures year > life + 1 && cost > salvage ==> DepreciationSYD(cost, salvage, life as real, year).value < 0.0
  {
    SydFullLife(cost - salvage, life);
    if year > life + 1 && cost > salvage {
      var l := life as real;
      var d := DepreciationSYD(cost, salvage, l, year).value;
      assert d * (l * (l + 1.0) / 2.0) == (cost - salvage) * (l - year as real + 1.0);
      NegativeCharge(d, l * (l + 1.0) / 2.0, cost - salvage, l - year as real + 1.0);
    }
  }

  /** A positive and a negative factor give a negative product, so a quotient
      of it by a positive divisor is negative. */
  lemma NegativeCharge(d: real, digits: real, a: real, b: real)
    requires digits > 0.0 && a > 0.0 && b < 0.0 && d * digits == a * b
    ensures d < 0.0
  {
    assert a * b < 0.0;
  }

  // ---------------------------------------------------------------------------
  // Bonds

  /** `bondPrice` with annual coupons c = face·couponRate/100 and yield y: the
      coupons as an annuity plus the discounted face value. */
  function BondPrice(lib: Lib, faceValue: real, couponRate: real, yieldRate: real, periods: int): real
  {
    var c := faceValue * couponRate / 100.0;
    var y := yieldRate / 100.0;
    if y == 0.0 then c * periods as real + faceValue
    else
      var pvCoupons := c * (1.0 - IntPow(lib, 1.0 + y, -periods)) / y;
      var pvFace := Quot(lib, faceValue, IntPow(lib, 1.0 + y, periods));
      pvCoupons + pvFace
  }

  /** For a whole number of periods the annuity formula is the sum of the
      coupons discounted one by one. */
  lemma BondPriceDiscountsCoupons(lib: Lib, faceValue: real, couponRate: real, yieldRate: real, periods: int)
    requires yieldRate / 100.0 != 0.0 && 1.0 + yieldRate / 100.0 != 0.0 && periods >= 0
    ensures BondPrice(lib, faceValue, couponRate, yieldRate, periods)
            == Coupons(lib, faceValue * couponRate / 100.0, yieldRate / 100.0, periods)
               + Quot(lib, faceValue, Pow(1.0 + yieldRate / 100.0, periods))
  {
    Reciprocal(lib, yieldRate / 100.0, periods);
    CouponsClosedForm(lib, faceValue * couponRate / 100.0, yieldRate / 100.0, periods);
    AnnuityOfCoupons(Coupons(lib, faceValue * couponRate / 100.0, yieldRate / 100.0, periods),
                     faceValue * couponRate / 100.0, yieldRate / 100.0,
                     Pow(1.0 + yieldRate / 100.0, periods), IntPow(lib, 1.0 + yieldRate / 100.0, -periods),
                     1.0 - IntPow(lib, 1.0 + yieldRate / 100.0, -periods));
    BondPriceForm(lib, faceValue, couponRate, yieldRate, periods);
  }

  /** The price away from a zero yield, with its products and quotient
      named. */
  lemma BondPriceForm(lib: Lib, faceValue: real, couponRate: real, yieldRate: real, periods: int)
    requires yieldRate / 100.0 != 0.0
    ensures BondPrice(lib, faceValue, couponRate, yieldRate, periods)
            == Div(Mul(faceValue * couponRate / 100.0, 1.0 - IntPow(lib, 1.0 + yieldRate / 100.0, -periods)), yieldRate / 100.0)
               + Quot(lib, faceValue, IntPow(lib, 1.0 + yieldRate / 100.0, periods))
  {
  }

  /** (1+y)^−k is the reciprocal of (1+y)^k, and for k >= 0 the latter is the
      exact power, which is not 0. */
  lemma Reciprocal(lib: Lib, y: real, k: int)
    requires 1.0 + y != 0.0
    ensures k >= 0 ==> IntPow(lib, 1.0 + y, k) == Pow(1.0 + y, k) != 0.0
    ensures k >= 0 ==> IntPow(lib, 1.0 + y, -k) * Pow(1.0 + y, k) == 1.0
    ensures IntPow(lib, 1.0 + y, -k) * IntPow(lib, 1.0 + y, k) == 1.0
  {
    var m := if k >= 0 then k else -k;
    PowNonZero(1.0 + y, m);
    if k == 0 {
      assert Pow(1.0 + y, 0) == 1.0;
    }
  }

  /** The annuity formula, on plain numbers: from cc·y·x = c·(x − 1) and
      u·x = 1 follows c·(1 − u)/y = cc. */
  lemma AnnuityOfCoupons(cc: real, c: real, y: real, x: real, u: real, w: real)
    requires y != 0.0 && x != 0.0 && u * x == 1.0 && w == 1.0 - u
    requires Mul(Mul(cc, y), x) == Mul(c, x - 1.0)
    ensures Div(Mul(c, w), y) == cc
  {
    var a := c * w / y;
    assert a * y * x == c * (x - u * x);
    CancelFactor(a * y, cc * y, x);
    CancelFactor(a, cc, y);
  }

  /** A bond whose coupon rate equals its yield is priced at its face value, for
      any number of periods, negative ones included. */
  lemma BondAtPar(lib: Lib, faceValue: real, rate: real, periods: int)
    requires rate != -100.0
    ensures BondPrice(lib, faceValue, rate, rate, periods) == faceValue
  {
    if rate / 100.0 != 0.0 {
      Reciprocal(lib, rate / 100.0, periods);
      ParPrice(lib, faceValue, faceValue * rate / 100.0, rate / 100.0,
               IntPow(lib, 1.0 + rate / 100.0, -periods), IntPow(lib, 1.0 + rate / 100.0, periods),
               1.0 - IntPow(lib, 1.0 + rate / 100.0, -periods));
      BondPriceForm(lib, faceValue, rate, rate, periods);
    }
  }

  /** The at-par identity on plain numbers: the coupons c·(1 − d)/y with
      c = F·y, and the face value F/x with d·x = 1, make up F. */
  lemma ParPrice(lib: Lib, face: real, c: real, y: real, d: real, x: real, w: real)
    requires y != 0.0 && c == face * y && d * x == 1.0 && w == 1.0 - d
    ensures Div(Mul(c, w), y) + Quot(lib, face, x) == face
  {
    assert c * w / y == face * w;
    assert Quot(lib, face, x) * x == face;
    assert Quot(lib, face, x) == face * d by {
      CancelFactor(Quot(lib, face, x), face * d, x);
    }
  }

  // ---------------------------------------------------------------------------
  // Percentages

  function PercentOf(base: real, percent: real): real
  {
    base * percent / 100.0
  }

  /** The change from old to new in percent of |old|. */
  function PercentChange(oldVal: real, newVal: real): (r: Outcome)
    ensures r.Err? <==> oldVal == 0.0
    ensures r.Err? ==> r.error == "Valor base zero"
    ensures r.Ok? ==> newVal == oldVal + PercentOf(Abs(oldVal), r.value)
  {
    if oldVal == 0.0 then Err("Valor base zero")
    else
      var c := ((newVal - oldVal) / Abs(oldVal)) * 100.0;
      assert PercentOf(Abs(oldVal), c) == newVal - oldVal;
      Ok(c)
  }

  /** Adding p percent of |old| is a change of p percent. */
  lemma PercentChangeOfPercentOf(oldVal: real, p: real)
    requires oldVal != 0.0
    ensures PercentChange(oldVal, oldVal + PercentOf(Abs(oldVal), p)) == Ok(p)
  {
    var a := Abs(oldVal);
    var v := a * p / 100.0;
    assert (oldVal + v) - oldVal == v;
    QuotientOfProduct(v, a, p / 100.0);
    assert PercentChange(oldVal, oldVal + v) == Ok((((oldVal + v) - oldVal) / a) * 100.0);
  }

  /** The mark-up on cost, in percent. */
  function Markup(cost: real, price: real): (r: Outcome)
    ensures r.Err? <==> cost == 0.0
    ensures r.Err? ==> r.error == "Custo zero"
    ensures r.Ok? ==> price == cost + PercentOf(cost, r.value)
  {
    if cost == 0.0 then Err("Custo zero") else Ok(((price - cost) / cost) * 100.0)
  }

  /** The margin on price, in percent. */
  function Margin(cost: real, price: real): (r: Outcome)
    ensures r.Err? <==> price == 0.0
    ensures r.Err? ==> r.error == "Preço zero"
    ensures r.Ok? ==> cost == price - PercentOf(price, r.value)
  {
    if price == 0.0 then Err("Preço zero") else Ok(((price - cost) / price) * 100.0)
  }
}
