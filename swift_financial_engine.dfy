/** The iOS app's financial engine, in the style of the HP 12C: time value of
    money, net present value and internal rate of return, a loan amortization
    table, three depreciation methods, percentages and bond pricing.

    Rates are entered in percent; the period rate is rate/100. A rate whose
    magnitude is below 1e-15 counts as zero. `pow` with a real exponent (the
    number of periods n of the TVM functions) is the library's; with a whole
    number of periods it is the exact power. */
module SwiftFinancialEngine {
  import opened Common
  import opened FinanceMath

  /** Rates smaller than this in magnitude are treated as zero (1e-15). */
  const Negligible: real := 0.000000000000001

  /** Newton's method gives up on a derivative at most this large (1e-20). */
  const DerivativeFloor: real := 0.00000000000000000001

  /** Newton's method stops once a step is shorter than this (1e-10). */
  const Tolerance: real := 0.0000000001

  const MaxIterations: nat := 1000

  // ---------------------------------------------------------------------------
  // Time value of money

  /** The payment as it enters the formulas: one period earlier, so one period
      more of interest, in begin mode. */
  function Adjusted(pmt: real, i: real, beginMode: bool): real
  {
    if beginMode then pmt * (1.0 + i) else pmt
  }

  /** The annuity factor ((1+i)^n − 1)/i, with f = (1+i)^n. */
  function Annuity(f: real, i: real): real
    requires i != 0.0
  {
    (f - 1.0) / i
  }

  function FutureValue(lib: Lib, n: real, rate: real, pv: real, pmt: real, beginMode: bool): real
  {
    var i := rate / 100.0;
    if Abs(i) < Negligible then -(pv + pmt * n)
    else
      var f := lib.pow(1.0 + i, n);
      -(pv * f + Adjusted(pmt, i, beginMode) * Annuity(f, i))
  }

  function PresentValue(lib: Lib, n: real, rate: real, fv: real, pmt: real, beginMode: bool): real
  {
    var i := rate / 100.0;
    if Abs(i) < Negligible then -(fv + pmt * n)
    else
      var f := lib.pow(1.0 + i, n);
      Quot(lib, -(fv + Adjusted(pmt, i, beginMode) * Annuity(f, i)), f)
  }

  /** The divisor of the payment formula: the annuity factor, times (1+i) in
      begin mode. */
  function PaymentDivisor(lib: Lib, n: real, i: real, beginMode: bool): real
    requires i != 0.0
  {
    var a := Annuity(lib.pow(1.0 + i, n), i);
    if beginMode then a * (1.0 + i) else a
  }

  function Payment(lib: Lib, n: real, rate: real, pv: real, fv: real, beginMode: bool): real
  {
    var i := rate / 100.0;
    if Abs(i) < Negligible then Quot(lib, -(pv + fv), n)
    else
      var f := lib.pow(1.0 + i, n);
      Quot(lib, -(pv * f + fv), PaymentDivisor(lib, n, i, beginMode))
  }

  /** Below the threshold the three formulas are the interest-free ones. */
  lemma ZeroRateFormulas(lib: Lib, n: real, rate: real, pv: real, pmt: real, fv: real, beginMode: bool)
    requires Abs(rate / 100.0) < Negligible
    ensures FutureValue(lib, n, rate, pv, pmt, beginMode) == -(pv + pmt * n)
    ensures PresentValue(lib, n, rate, fv, pmt, beginMode) == -(fv + pmt * n)
    ensures n != 0.0 ==> Payment(lib, n, rate, pv, fv, beginMode) * n == -(pv + fv)
  {
  }

  /** `presentValue` undoes `futureValue` (same n, rate, payment and mode). */
  lemma PresentValueOfFutureValue(lib: Lib, n: real, rate: real, pv: real, pmt: real, beginMode: bool)
    requires Abs(rate / 100.0) >= Negligible ==> lib.pow(1.0 + rate / 100.0, n) != 0.0
    ensures PresentValue(lib, n, rate, FutureValue(lib, n, rate, pv, pmt, beginMode), pmt, beginMode) == pv
  {
    var i := rate / 100.0;
    if Abs(i) >= Negligible {
      var f := lib.pow(1.0 + i, n);
      var a := Adjusted(pmt, i, beginMode) * Annuity(f, i);
      var fv := FutureValue(lib, n, rate, pv, pmt, beginMode);
      assert -(fv + a) == pv * f;
      CancelFactor(Quot(lib, pv * f, f), pv, f);
    }
  }

  /** `futureValue` with the payment `payment` computes reproduces the target fv. */
  lemma FutureValueOfPayment(lib: Lib, n: real, rate: real, pv: real, fv: real, beginMode: bool)
    requires Abs(rate / 100.0) < Negligible ==> n != 0.0
    requires Abs(rate / 100.0) >= Negligible ==> PaymentDivisor(lib, n, rate / 100.0, beginMode) != 0.0
    ensures FutureValue(lib, n, rate, pv, Payment(lib, n, rate, pv, fv, beginMode), beginMode) == fv
  {
    var i := rate / 100.0;
    var pmt := Payment(lib, n, rate, pv, fv, beginMode);
    if Abs(i) >= Negligible {
      var f := lib.pow(1.0 + i, n);
      var a := Annuity(f, i);
      var d := PaymentDivisor(lib, n, i, beginMode);
      assert pmt * d == -(pv * f + fv);
      assert Adjusted(pmt, i, beginMode) * a == pmt * d by {
        if beginMode {
          assert pmt * (1.0 + i) * a == pmt * (a * (1.0 + i));
        }
      }
    }
  }

  /** The number of periods: none when the rate is zero and nothing is paid, or
      when (pmtAdj − fv·i)/(pmtAdj + pv·i) is not positive. */
  function NumberOfPeriods(lib: Lib, rate: real, pv: real, pmt: real, fv: real, beginMode: bool): (r: Option<real>)
    ensures Abs(rate / 100.0) < Negligible ==> (r.None? <==> pmt == 0.0)
  {
    var i := rate / 100.0;
    if Abs(i) < Negligible then
      if pmt == 0.0 then None else Some(-(pv + fv) / pmt)
    else
      var q := PeriodsRatio(lib, i, pv, pmt, fv, beginMode);
      if q > 0.0 then Some(Quot(lib, lib.ln(q), lib.ln(1.0 + i))) else None
  }

  /** (1+i)^n as the period count requires it: (pmtAdj − fv·i)/(pmtAdj + pv·i). */
  function PeriodsRatio(lib: Lib, i: real, pv: real, pmt: real, fv: real, beginMode: bool): real
  {
    var pa := Adjusted(pmt, i, beginMode);
    Quot(lib, pa - fv * i, pa + pv * i)
  }

  lemma PeriodsAtRate(lib: Lib, rate: real, pv: real, pmt: real, fv: real, beginMode: bool)
    requires PowUndoesLog(lib)
    requires NumberOfPeriods(lib, rate, pv, pmt, fv, beginMode).Some?
    requires Abs(rate / 100.0) >= Negligible
    requires 1.0 + rate / 100.0 > 0.0 && Adjusted(pmt, rate / 100.0, beginMode) + pv * (rate / 100.0) != 0.0
    ensures FutureValue(lib, NumberOfPeriods(lib, rate, pv, pmt, fv, beginMode).value, rate, pv, pmt, beginMode) == fv
  {
    var i := rate / 100.0;
    var pa := Adjusted(pmt, i, beginMode);
    var q := PeriodsRatio(lib, i, pv, pmt, fv, beginMode);
    PeriodsWhenRated(lib, rate, pv, pmt, fv, beginMode);
    var n := NumberOfPeriods(lib, rate, pv, pmt, fv, beginMode).value;
    PeriodsSolve(lib, i, n, pa, pv, fv, q);
    var f := lib.pow(1.0 + i, n);
    FutureValueWhenRated(lib, n, rate, pv, pmt, beginMode, i, f, pa);
  }

  /** Away from a zero rate the period count is ln q / ln(1+i), q the ratio. */
  lemma PeriodsWhenRated(lib: Lib, rate: real, pv: real, pmt: real, fv: real, beginMode: bool)
    requires Abs(rate / 100.0) >= Negligible
    ensures var q := PeriodsRatio(lib, rate / 100.0, pv, pmt, fv, beginMode);
            NumberOfPeriods(lib, rate, pv, pmt, fv, beginMode) ==
            if q > 0.0 then Some(Quot(lib, lib.ln(q), lib.ln(1.0 + rate / 100.0))) else None
  {
  }

  /** Away from a zero rate the future value is −(pv·f + pmtAdj·(f − 1)/i). */
  lemma FutureValueWhenRated(lib: Lib, n: real, rate: real, pv: real, pmt: real, beginMode: bool, i: real, f: real, pa: real)
    requires i == rate / 100.0 && Abs(i) >= Negligible
    requires f == lib.pow(1.0 + i, n) && pa == Adjusted(pmt, i, beginMode)
    ensures FutureValue(lib, n, rate, pv, pmt, beginMode) == -(pv * f + pa * ((f - 1.0) / i))
  {
  }

  lemma PeriodsAtZero(lib: Lib, rate: real, pv: real, pmt: real, fv: real, beginMode: bool)
    requires NumberOfPeriods(lib, rate, pv, pmt, fv, beginMode).Some?
    requires Abs(rate / 100.0) < Negligible
    ensures FutureValue(lib, NumberOfPeriods(lib, rate, pv, pmt, fv, beginMode).value, rate, pv, pmt, beginMode) == fv
  {
    DivideBack(-(pv + fv), pmt);
  }

  /** The period count it finds is the one at which `futureValue` reaches fv. */
  lemma NumberOfPeriodsSolves(lib: Lib, rate: real, pv: real, pmt: real, fv: real, beginMode: bool)
    requires PowUndoesLog(lib)
    requires NumberOfPeriods(lib, rate, pv, pmt, fv, beginMode).Some?
    requires Abs(rate / 100.0) >= Negligible ==>
               1.0 + rate / 100.0 > 0.0 && Adjusted(pmt, rate / 100.0, beginMode) + pv * (rate / 100.0) != 0.0
    ensures FutureValue(lib, NumberOfPeriods(lib, rate, pv, pmt, fv, beginMode).value, rate, pv, pmt, beginMode) == fv
  {
    if Abs(rate / 100.0) >= Negligible {
      PeriodsAtRate(lib, rate, pv, pmt, fv, beginMode);
    } else {
      PeriodsAtZero(lib, rate, pv, pmt, fv, beginMode);
    }
  }

  /** f(i): the future value equation pv·(1+i)^n + pmtAdj·annuity + fv, whose root
      is the interest rate. */
  function RateResidual(lib: Lib, n: real, pv: real, pmt: real, fv: real, beginMode: bool, i: real): real
    requires i != 0.0
  {
    var f := lib.pow(1.0 + i, n);
    pv * f + Adjusted(pmt, i, beginMode) * Annuity(f, i) + fv
  }

  /** f'(i) as the engine computes it. */
  function RateSlope(lib: Lib, n: real, pv: real, pmt: real, fv: real, beginMode: bool, i: real): real
    requires i != 0.0
  {
    var f := lib.pow(1.0 + i, n);
    var dFactor := n * lib.pow(1.0 + i, n - 1.0);
    var dAnnuity := (dFactor * i - (f - 1.0)) / (i * i);
    var df := pv * dFactor + Adjusted(pmt, i, beginMode) * dAnnuity;
    if beginMode then df + pmt * Annuity(f, i) else df
  }

  /** The residual is how far `futureValue` at the trial rate falls short of fv:
      its roots are the rates that reach fv. */
  lemma RateResidualMeasuresFutureValue(lib: Lib, n: real, pv: real, pmt: real, fv: real,
                                        beginMode: bool, i: real)
    requires Abs(i) >= Negligible
    ensures RateResidual(lib, n, pv, pmt, fv, beginMode, i) == fv - FutureValue(lib, n, i * 100.0, pv, pmt, beginMode)
  {
    assert i * 100.0 / 100.0 == i;
  }

  /** A Newton step from g was usable and moved less than the tolerance to the
      rate r/100. */
  ghost predicate RateConverged(lib: Lib, n: real, pv: real, pmt: real, fv: real, beginMode: bool,
                                g: real, r: real)
  {
    Abs(g) >= Negligible
    && Abs(RateSlope(lib, n, pv, pmt, fv, beginMode, g)) > DerivativeFloor
    && var next := NewtonNext(lib, n, pv, pmt, fv, beginMode, g);
       Abs(next - g) < Tolerance && r == next * 100.0
  }

  /** The Newton update g − f(g)/f'(g). */
  function NewtonNext(lib: Lib, n: real, pv: real, pmt: real, fv: real, beginMode: bool, g: real): real
    requires g != 0.0 && RateSlope(lib, n, pv, pmt, fv, beginMode, g) != 0.0
  {
    g - RateResidual(lib, n, pv, pmt, fv, beginMode, g) / RateSlope(lib, n, pv, pmt, fv, beginMode, g)
  }

  /** Newton's method from `guess` with k iterations left: a guess that is
      practically zero restarts at 0.01 (using up an iteration); a flat
      derivative or running out of iterations gives nothing. */
  function NewtonRate(lib: Lib, n: real, pv: real, pmt: real, fv: real, beginMode: bool,
                      guess: real, k: nat): Option<real>
    decreases k
  {
    if k == 0 then None
    else if Abs(guess) < Negligible then NewtonRate(lib, n, pv, pmt, fv, beginMode, 0.01, k - 1)
    else
      var df := RateSlope(lib, n, pv, pmt, fv, beginMode, guess);
      if !(Abs(df) > DerivativeFloor) then None
      else
        var next := NewtonNext(lib, n, pv, pmt, fv, beginMode, guess);
        if Abs(next - guess) < Tolerance then Some(next * 100.0)
        else NewtonRate(lib, n, pv, pmt, fv, beginMode, next, k - 1)
  }

  /** Whatever rate the iteration reports comes from a usable step that moved
      less than the tolerance. */
  lemma {:induction false} NewtonRateConverged(lib: Lib, n: real, pv: real, pmt: real, fv: real,
                                               beginMode: bool, guess: real, k: nat)
    requires NewtonRate(lib, n, pv, pmt, fv, beginMode, guess, k).Some?
    ensures exists g :: RateConverged(lib, n, pv, pmt, fv, beginMode, g,
                                      NewtonRate(lib, n, pv, pmt, fv, beginMode, guess, k).value)
    decreases k
  {
    if Abs(guess) < Negligible {
      NewtonRateConverged(lib, n, pv, pmt, fv, beginMode, 0.01, k - 1);
    } else {
      var next := NewtonNext(lib, n, pv, pmt, fv, beginMode, guess);
      if Abs(next - guess) < Tolerance {
        assert RateConverged(lib, n, pv, pmt, fv, beginMode, guess, next * 100.0);
      } else {
        NewtonRateConverged(lib, n, pv, pmt, fv, beginMode, next, k - 1);
      }
    }
  }

  /** One usable Newton step, unfolded. */
  lemma NewtonRateStep(lib: Lib, n: real, pv: real, pmt: real, fv: real, beginMode: bool, guess: real, k: nat)
    requires k > 0 && Abs(guess) >= Negligible
    ensures var df := RateSlope(lib, n, pv, pmt, fv, beginMode, guess);
            NewtonRate(lib, n, pv, pmt, fv, beginMode, guess, k)
            == if !(Abs(df) > DerivativeFloor) then None
               else var next := NewtonNext(lib, n, pv, pmt, fv, beginMode, guess);
                 if Abs(next - guess) < Tolerance then Some(next * 100.0)
                 else NewtonRate(lib, n, pv, pmt, fv, beginMode, next, k - 1)
  {
  }

  /** A trial rate at which `futureValue` already reaches fv is reported as it
      is, provided the slope there is usable. */
  lemma NewtonRateKeepsRoot(lib: Lib, n: real, pv: real, pmt: real, fv: real, beginMode: bool,
                            g: real, k: nat)
    requires k > 0 && Abs(g) >= Negligible
    requires FutureValue(lib, n, g * 100.0, pv, pmt, beginMode) == fv
    requires Abs(RateSlope(lib, n, pv, pmt, fv, beginMode, g)) > DerivativeFloor
    ensures NewtonRate(lib, n, pv, pmt, fv, beginMode, g, k) == Some(g * 100.0)
  {
    RateResidualMeasuresFutureValue(lib, n, pv, pmt, fv, beginMode, g);
    NewtonRateStep(lib, n, pv, pmt, fv, beginMode, g, k);
  }

  /** `interestRate`: at most 1000 Newton steps from 0.1. */
  method InterestRate(lib: Lib, n: real, pv: real, pmt: real, fv: real, beginMode: bool)
    returns (r: Option<real>)
    ensures r == NewtonRate(lib, n, pv, pmt, fv, beginMode, 0.1, MaxIterations)
  {
    var guess := 0.1;
    var iter := 0;
    while iter < MaxIterations
      invariant 0 <= iter <= MaxIterations
      invariant NewtonRate(lib, n, pv, pmt, fv, beginMode, guess, MaxIterations - iter)
                == NewtonRate(lib, n, pv, pmt, fv, beginMode, 0.1, MaxIterations)
    {
      var done, result, next := RateIteration(lib, n, pv, pmt, fv, beginMode, guess, MaxIterations - iter);
      if done {
        return result;
      }
      guess := next;
      iter := iter + 1;
    }
    return None;
  }

  /** The body of the `interestRate` loop: either the iteration ends here with
      its answer, or it goes on from `next` with one iteration fewer. */
  method RateIteration(lib: Lib, n: real, pv: real, pmt: real, fv: real, beginMode: bool, guess: real, k: nat)
    returns (done: bool, r: Option<real>, next: real)
    requires k > 0
    ensures done ==> r == NewtonRate(lib, n, pv, pmt, fv, beginMode, guess, k)
    ensures !done ==> NewtonRate(lib, n, pv, pmt, fv, beginMode, guess, k)
                      == NewtonRate(lib, n, pv, pmt, fv, beginMode, next, k - 1)
  {
    var i := guess;
    if Abs(i) < Negligible {
      return false, None, 0.01;
    }
    NewtonRateStep(lib, n, pv, pmt, fv, beginMode, guess, k);
    var f := RateResidual(lib, n, pv, pmt, fv, beginMode, i);
    var df := RateSlope(lib, n, pv, pmt, fv, beginMode, i);
    if !(Abs(df) > DerivativeFloor) {
      return true, None, guess;
    }
    next := i - f / df;
    assert next == NewtonNext(lib, n, pv, pmt, fv, beginMode, guess);
    if Abs(next - guess) < Tolerance {
      return true, Some(next * 100.0), next;
    }
    return false, None, next;
  }

  // ---------------------------------------------------------------------------
  // Net present value and internal rate of return

  /** `npv`: the flows discounted at rate/100, the first one undiscounted. */
  method Npv(lib: Lib, rate: real, cashFlows: seq<real>) returns (result: real)
    ensures result == DiscountedSum(lib, rate / 100.0, cashFlows, |cashFlows|)
  {
    var i := rate / 100.0;
    result := 0.0;
    var t := 0;
    while t < |cashFlows|
      invariant 0 <= t <= |cashFlows|
      invariant result == DiscountedSum(lib, i, cashFlows, t)
    {
      result := result + Quot(lib, cashFlows[t], Pow(1.0 + i, t));
      t := t + 1;
    }
  }

  /** The derivative of the discounted sum of the first n flows with respect to
      the rate: flow t (t > 0) contributes −t·cf/(1+rate)^(t+1). */
  function NpvSlope(lib: Lib, rate: real, flows: seq<real>, n: nat): real
    requires n <= |flows|
  {
    if n == 0 then 0.0
    else if n == 1 then NpvSlope(lib, rate, flows, 0)
    else NpvSlope(lib, rate, flows, n - 1) - Quot(lib, (n - 1) as real * flows[n - 1], Pow(1.0 + rate, n))
  }

  /** The last Newton step from g was usable and moved less than the tolerance to
      the rate r/100. */
  ghost predicate IrrConverged(lib: Lib, flows: seq<real>, g: real, r: real)
  {
    var df := NpvSlope(lib, g, flows, |flows|);
    Abs(df) > DerivativeFloor
    && var next := g - DiscountedSum(lib, g, flows, |flows|) / df;
       Abs(next - g) < Tolerance && r == next * 100.0
  }

  /** Newton's method on the net present value, from `rate`, k iterations left. */
  function NewtonIrr(lib: Lib, flows: seq<real>, rate: real, k: nat): Option<real>
    decreases k
  {
    if k == 0 then None
    else
      var df := NpvSlope(lib, rate, flows, |flows|);
      if !(Abs(df) > DerivativeFloor) then None
      else
        var next := rate - DiscountedSum(lib, rate, flows, |flows|) / df;
        if Abs(next - rate) < Tolerance then Some(next * 100.0)
        else NewtonIrr(lib, flows, next, k - 1)
  }

  /** Whatever rate the iteration reports comes from a usable step that moved
      less than the tolerance. */
  lemma {:induction false} NewtonIrrConverged(lib: Lib, flows: seq<real>, rate: real, k: nat)
    requires NewtonIrr(lib, flows, rate, k).Some?
    ensures exists g :: IrrConverged(lib, flows, g, NewtonIrr(lib, flows, rate, k).value)
    decreases k
  {
    var df := NpvSlope(lib, rate, flows, |flows|);
    var next := rate - DiscountedSum(lib, rate, flows, |flows|) / df;
    if Abs(next - rate) < Tolerance {
      assert IrrConverged(lib, flows, rate, next * 100.0);
    } else {
      NewtonIrrConverged(lib, flows, next, k - 1);
    }
  }

  /** One usable Newton step on the net present value, unfolded. */
  lemma NewtonIrrStep(lib: Lib, flows: seq<real>, rate: real, k: nat)
    requires k > 0
    ensures var df := NpvSlope(lib, rate, flows, |flows|);
            NewtonIrr(lib, flows, rate, k)
            == if !(Abs(df) > DerivativeFloor) then None
               else var next := rate - DiscountedSum(lib, rate, flows, |flows|) / df;
                 if Abs(next - rate) < Tolerance then Some(next * 100.0)
                 else NewtonIrr(lib, flows, next, k - 1)
  {
  }

  /** A single flow has a zero derivative, so no rate is found. */
  lemma IrrOfSingleFlow(lib: Lib, cf: real, rate: real, k: nat)
    ensures NewtonIrr(lib, [cf], rate, k) == None
  {
    assert NpvSlope(lib, rate, [cf], 1) == 0.0;
  }

  /** The inner loop of `irr`: the discounted sum of the flows and its
      derivative at one trial rate. */
  method ValueAndSlope(lib: Lib, cashFlows: seq<real>, rate: real) returns (f: real, df: real)
    ensures f == DiscountedSum(lib, rate, cashFlows, |cashFlows|)
    ensures df == NpvSlope(lib, rate, cashFlows, |cashFlows|)
  {
    f, df := 0.0, 0.0;
    var t := 0;
    while t < |cashFlows|
      invariant 0 <= t <= |cashFlows|
      invariant f == DiscountedSum(lib, rate, cashFlows, t)
      invariant df == NpvSlope(lib, rate, cashFlows, t)
    {
      f := f + Quot(lib, cashFlows[t], Pow(1.0 + rate, t));
      if t > 0 {
        df := df - Quot(lib, t as real * cashFlows[t], Pow(1.0 + rate, t + 1));
      }
      t := t + 1;
    }
  }

  /** `irr`: at most 1000 Newton steps from guess/100. */
  method Irr(lib: Lib, cashFlows: seq<real>, guess: real) returns (r: Option<real>)
    ensures r == NewtonIrr(lib, cashFlows, guess / 100.0, MaxIterations)
  {
    var rate := guess / 100.0;
    var iter := 0;
    while iter < MaxIterations
      invariant 0 <= iter <= MaxIterations
      invariant NewtonIrr(lib, cashFlows, rate, MaxIterations - iter)
                == NewtonIrr(lib, cashFlows, guess / 100.0, MaxIterations)
    {
      var stop, found, newRate := NewtonMove(lib, cashFlows, rate, MaxIterations - iter);
      if stop {
        return found;
      }
      rate := newRate;
      iter := iter + 1;
    }
    return None;
  }

  /** One pass of the `irr` loop: it stops, with no rate when the derivative is
      too flat and with the new rate once the step is below the tolerance, or
      moves on to the new rate. */
  method NewtonMove(lib: Lib, cashFlows: seq<real>, rate: real, ghost k: nat)
    returns (stop: bool, found: Option<real>, newRate: real)
    requires k > 0
    ensures stop ==> found == NewtonIrr(lib, cashFlows, rate, k)
    ensures !stop ==> NewtonIrr(lib, cashFlows, newRate, k - 1) == NewtonIrr(lib, cashFlows, rate, k)
  {
    var f, df := ValueAndSlope(lib, cashFlows, rate);
    NewtonIrrStep(lib, cashFlows, rate, k);
    if !(Abs(df) > DerivativeFloor) {
      return true, None, rate;
    }
    newRate := rate - f / df;
    if Abs(newRate - rate) < Tolerance {
      return true, Some(newRate * 100.0), newRate;
    }
    return false, None, newRate;
  }

  // ---------------------------------------------------------------------------
  // Amortization

  datatype AmortizationRow = AmortizationRow(
    period: int, payment: real, principal: real, interest: real, balance: real)

  /** The rate per period: the annual rate in percent spread over the periods of
      a year. */
  function PeriodRate(lib: Lib, annualRate: real, periodsPerYear: int): real
  {
    Quot(lib, annualRate / 100.0, periodsPerYear as real)
  }

  /** Row p of an interest-free schedule: equal principal repayments. */
  function ZeroRateRow(principal: real, pmt: real, p: nat): AmortizationRow
  {
    AmortizationRow(p, pmt, pmt, 0.0, principal - pmt * p as real)
  }

  /** Row p of a schedule at rate i: the interest on the balance before the
      payment, the rest of the payment as principal, and the new balance shown
      no lower than 0. */
  function RateRow(principal: real, i: real, pmt: real, p: nat): AmortizationRow
    requires p >= 1
  {
    var before := Balance(principal, i, pmt, p - 1);
    AmortizationRow(p, pmt, pmt - before * i, before * i, Max(Balance(principal, i, pmt, p), 0.0))
  }

  /** Rows 1..p of a schedule at rate i, in order. */
  function RateRows(principal: real, i: real, pmt: real, p: nat): (rows: seq<AmortizationRow>)
    ensures |rows| == p
  {
    if p == 0 then [] else RateRows(principal, i, pmt, p - 1) + [RateRow(principal, i, pmt, p)]
  }

  lemma {:induction false} RateRowsIndex(principal: real, i: real, pmt: real, p: nat)
    ensures forall k :: 0 <= k < p ==> RateRows(principal, i, pmt, p)[k] == RateRow(principal, i, pmt, k + 1)
  {
    if p > 0 {
      RateRowsIndex(principal, i, pmt, p - 1);
    }
  }

  function Schedule(lib: Lib, principal: real, annualRate: real, periods: nat, periodsPerYear: int)
    : seq<AmortizationRow>
    requires periods >= 1
  {
    var i := PeriodRate(lib, annualRate, periodsPerYear);
    if !(Abs(i) > Negligible) then
      var pmt := principal / periods as real;
      seq(periods, k requires 0 <= k < periods => ZeroRateRow(principal, pmt, k + 1))
    else RateRows(principal, i, Instalment(lib, principal, i, periods), periods)
  }

  /** `amortizationSchedule`. A range 1...periods with periods < 1 traps, so at
      least one period is required. */
  method AmortizationSchedule(lib: Lib, principal: real, annualRate: real, periods: int,
                              periodsPerYear: int) returns (rows: seq<AmortizationRow>)
    requires periods >= 1
    ensures rows == Schedule(lib, principal, annualRate, periods, periodsPerYear)
  {
    var i := PeriodRate(lib, annualRate, periodsPerYear);
    if !(Abs(i) > Negligible) {
      var pmt := principal / periods as real;
      return seq(periods, k requires 0 <= k < periods => ZeroRateRow(principal, pmt, k + 1));
    }
    var pmt := Instalment(lib, principal, i, periods);
    var balance := principal;
    rows := [];
    var p := 1;
    while p <= periods
      invariant 1 <= p <= periods + 1
      invariant balance == Balance(principal, i, pmt, p - 1)
      invariant rows == RateRows(principal, i, pmt, p - 1)
    {
      var row;
      row, balance := NextRow(principal, i, pmt, p, balance);
      rows := rows + [row];
      p := p + 1;
    }
  }

  /** One pass of the schedule loop: the interest on the balance, the rest of
      the payment off the principal, and the row that records them. */
  method NextRow(principal: real, i: real, pmt: real, p: nat, balance: real)
    returns (row: AmortizationRow, next: real)
    requires p >= 1 && balance == Balance(principal, i, pmt, p - 1)
    ensures next == Balance(principal, i, pmt, p)
    ensures row == RateRow(principal, i, pmt, p)
  {
    var interestPart := balance * i;
    var principalPart := pmt - interestPart;
    next := balance - principalPart;
    row := AmortizationRow(p, pmt, principalPart, interestPart, Max(next, 0.0));
  }

  /** Every schedule has one row per period, numbered from 1, with one payment
      split into interest and principal. */
  lemma ScheduleRows(lib: Lib, principal: real, annualRate: real, periods: nat, periodsPerYear: int)
    requires periods >= 1
    ensures var rows := Schedule(lib, principal, annualRate, periods, periodsPerYear);
            |rows| == periods
            && (forall k :: 0 <= k < periods ==> rows[k].period == k + 1)
            && (forall k :: 0 <= k < periods ==> rows[k].payment == rows[0].payment)
            && (forall k :: 0 <= k < periods ==> rows[k].interest + rows[k].principal == rows[k].payment)
  {
    var i := PeriodRate(lib, annualRate, periodsPerYear);
    RateRowsIndex(principal, i, Instalment(lib, principal, i, periods), periods);
  }

  lemma ZeroRateBalance(principal: real, periods: nat, p: nat)
    requires 1 <= p <= periods && principal >= 0.0
    ensures principal - principal / periods as real * p as real >= 0.0
  {
    var share := principal / periods as real;
    assert share * periods as real == principal;
    assert share >= 0.0;
    assert share * p as real <= share * periods as real;
  }

  /** The balances shown are never negative: with interest they are clamped at
      0; without, they fall in equal steps from a non-negative principal. */
  lemma ScheduleBalancesNonNegative(lib: Lib, principal: real, annualRate: real, periods: nat,
                                    periodsPerYear: int)
    requires periods >= 1
    requires !(Abs(PeriodRate(lib, annualRate, periodsPerYear)) > Negligible) ==> principal >= 0.0
    ensures forall k :: 0 <= k < periods ==> Schedule(lib, principal, annualRate, periods, periodsPerYear)[k].balance >= 0.0
  {
    var rows := Schedule(lib, principal, annualRate, periods, periodsPerYear);
    var i := PeriodRate(lib, annualRate, periodsPerYear);
    RateRowsIndex(principal, i, Instalment(lib, principal, i, periods), periods);
    if !(Abs(i) > Negligible) {
      forall k | 0 <= k < periods
        ensures rows[k].balance >= 0.0
      {
        ZeroRateBalance(principal, periods, k + 1);
      }
    }
  }

  /** In exact arithmetic the last row leaves nothing owing (unless (1+i)^n = 1,
      where the instalment formula divides by zero). */
  lemma ScheduleEndsAtZero(lib: Lib, principal: real, annualRate: real, periods: nat, periodsPerYear: int)
    requires periods >= 1
    requires Abs(PeriodRate(lib, annualRate, periodsPerYear)) > Negligible
             ==> Pow(1.0 + PeriodRate(lib, annualRate, periodsPerYear), periods) != 1.0
    ensures Schedule(lib, principal, annualRate, periods, periodsPerYear)[periods - 1].balance == 0.0
  {
    var i := PeriodRate(lib, annualRate, periodsPerYear);
    if Abs(i) > Negligible {
      PaidOff(lib, principal, i, periods);
      RateRowsIndex(principal, i, Instalment(lib, principal, i, periods), periods);
    } else {
      var share := principal / periods as real;
      assert share * periods as real == principal;
    }
  }

  // ---------------------------------------------------------------------------
  // Depreciation

  /** Straight line: an equal share of cost − salvage each year; 0 for a life
      that is not positive. */
  function StraightLine(cost: real, salvage: real, life: int): (r: real)
    ensures life <= 0 ==> r == 0.0
    ensures life > 0 ==> r * life as real == cost - salvage
  {
    if life <= 0 then 0.0 else (cost - salvage) / life as real
  }

  /** The book value after k years of writing off the fraction `rate` of it. */
  function BookValue(cost: real, rate: real, k: nat): real
  {
    if k == 0 then cost else var b := BookValue(cost, rate, k - 1); b - b * rate
  }

  lemma {:induction false} BookValueClosedForm(cost: real, rate: real, k: nat)
    ensures BookValue(cost, rate, k) == cost * Pow(1.0 - rate, k)
  {
    if k > 0 {
      BookValueClosedForm(cost, rate, k - 1);
      var q := Pow(1.0 - rate, k - 1);
      assert cost * q - cost * q * rate == cost * ((1.0 - rate) * q);
    }
  }

  /** Declining balance at the rate 1/life: the year's charge is that fraction of
      the book value left after the earlier years. Salvage plays no part. */
  function DecliningBalance(cost: real, salvage: real, life: int, year: int): real
  {
    if life <= 0 || year <= 0 || year > life then 0.0
    else BookValue(cost, 1.0 / life as real, year - 1) * (1.0 / life as real)
  }

  /** The loop of `decliningBalanceDepreciation`. */
  method DecliningBalanceLoop(cost: real, salvage: real, life: int, year: int) returns (r: real)
    ensures r == DecliningBalance(cost, salvage, life, year)
  {
    if life <= 0 || year <= 0 || year > life {
      return 0.0;
    }
    var rate := 1.0 / life as real;
    var bookValue := cost;
    var y := 1;
    while y <= year
      invariant 1 <= y <= year
      invariant bookValue == BookValue(cost, rate, y - 1)
    {
      var depreciation := bookValue * rate;
      bookValue := bookValue - depreciation;
      if y == year {
        return depreciation;
      }
      y := y + 1;
    }
    return 0.0;
  }

  /** The closed form cost·(1 − 1/life)^(year−1)/life, whatever the salvage. */
  lemma DecliningBalanceClosedForm(cost: real, salvage: real, life: int, year: int)
    requires 1 <= year <= life
    ensures DecliningBalance(cost, salvage, life, year)
            == cost * Pow(1.0 - 1.0 / life as real, year - 1) / life as real
    ensures DecliningBalance(cost, salvage, life, year) == DecliningBalance(cost, 0.0, life, year)
  {
    BookValueClosedForm(cost, 1.0 / life as real, year - 1);
  }

  /** The charges of years 1..k. */
  function DecliningBalanceTotal(cost: real, salvage: real, life: int, k: nat): real
  {
    if k == 0 then 0.0
    else DecliningBalanceTotal(cost, salvage, life, k - 1) + DecliningBalance(cost, salvage, life, k)
  }

  /** The charges so far and the remaining book value always add up to the cost. */
  lemma {:induction false} DecliningBalanceTelescopes(cost: real, salvage: real, life: int, k: nat)
    requires 0 < life && k <= life
    ensures DecliningBalanceTotal(cost, salvage, life, k) == cost - BookValue(cost, 1.0 / life as real, k)
  {
    if k > 0 {
      DecliningBalanceTelescopes(cost, salvage, life, k - 1);
    }
  }

  /** Sum of the years' digits; 0 outside years 1..life. */
  function SumOfYearsDigits(cost: real, salvage: real, life: int, year: int): real
  {
    if life <= 0 || year <= 0 || year > life then 0.0
    else SydCharge(cost - salvage, life as real, year as real)
  }

  /** Over years 1..life the charges add up to cost − salvage; for 10000, 1000 and
      a five-year life the first charge is 3000. */
  lemma SumOfYearsDigitsSchedule(cost: real, salvage: real, life: nat)
    requires life > 0
    ensures forall y :: 1 <= y <= life
              ==> SumOfYearsDigits(cost, salvage, life, y) == SydCharge(cost - salvage, life as real, y as real)
    ensures SydTotal(cost - salvage, life, life) == cost - salvage
    ensures SumOfYearsDigits(10000.0, 1000.0, 5, 1) == 3000.0
  {
    SydFullLife(cost - salvage, life);
  }

  // ---------------------------------------------------------------------------
  // Percentages

  function PercentOf(value: real, percent: real): real
  {
    value * percent / 100.0
  }

  /** The change from old to new in percent of |old|; none when old is 0. */
  function PercentChange(oldValue: real, newValue: real): (r: Option<real>)
    ensures r.None? <==> oldValue == 0.0
    ensures r.Some? ==> newValue == oldValue + PercentOf(Abs(oldValue), r.value)
  {
    if oldValue == 0.0 then None
    else
      var c := ((newValue - oldValue) / Abs(oldValue)) * 100.0;
      assert PercentOf(Abs(oldValue), c) == newValue - oldValue;
      Some(c)
  }

  /** Adding p percent of |old| is a change of p percent. */
  lemma PercentChangeOfPercentOf(oldValue: real, p: real)
    requires oldValue != 0.0
    ensures PercentChange(oldValue, oldValue + PercentOf(Abs(oldValue), p)) == Some(p)
  {
    var a := Abs(oldValue);
    var v := a * p / 100.0;
    assert v * 100.0 == a * p;
    assert (v / a) * a == v;
    assert v / a * 100.0 * a == a * p;
    CancelFactor(v / a * 100.0, p, a);
    assert oldValue + v - oldValue == v;
    assert PercentOf(Abs(oldValue), p) == v;
    assert PercentChange(oldValue, oldValue + v) == Some((oldValue + v - oldValue) / a * 100.0);
  }

  // ---------------------------------------------------------------------------
  // Bonds

  /** Semiannual coupons over 2·periods dates, then the face value, discounted at
      half the yield. */
  function BondValue(lib: Lib, faceValue: real, couponRate: real, yieldRate: real, periods: nat): real
  {
    var c := faceValue * couponRate / 100.0 / 2.0;
    var y := yieldRate / 100.0 / 2.0;
    var n := periods * 2;
    Coupons(lib, c, y, n) + Quot(lib, faceValue, Pow(1.0 + y, n))
  }

  /** `bondPrice`. A range 1...n with n < 1 traps, so at least one period is
      required. */
  method BondPrice(lib: Lib, faceValue: real, couponRate: real, yieldRate: real, periods: int)
    returns (price: real)
    requires periods >= 1
    ensures price == BondValue(lib, faceValue, couponRate, yieldRate, periods)
  {
    var c := faceValue * couponRate / 100.0 / 2.0;
    var y := yieldRate / 100.0 / 2.0;
    var n := periods * 2;
    price := 0.0;
    var t := 1;
    while t <= n
      invariant 1 <= t <= n + 1
      invariant price == Coupons(lib, c, y, t - 1)
    {
      price := price + Quot(lib, c, Pow(1.0 + y, t));
      t := t + 1;
    }
    price := price + Quot(lib, faceValue, Pow(1.0 + y, n));
  }

  /** A bond whose coupon rate equals its yield is priced at its face value. */
  lemma BondAtPar(lib: Lib, faceValue: real, rate: real, periods: nat)
    requires rate != -200.0
    ensures BondValue(lib, faceValue, rate, rate, periods) == faceValue
  {
    var y := rate / 100.0 / 2.0;
    var c := faceValue * rate / 100.0 / 2.0;
    var n := periods * 2;
    assert BondValue(lib, faceValue, rate, rate, periods) == Coupons(lib, c, y, n) + Quot(lib, faceValue, Pow(1.0 + y, n));
    HalfYearCoupon(faceValue, rate);
    assert c == faceValue * y;
    AtPar(lib, faceValue, y, n);
  }

  /** The half-yearly coupon F·r/100/2 is F times the half-yearly yield r/100/2. */
  lemma HalfYearCoupon(faceValue: real, rate: real)
    ensures faceValue * rate / 100.0 / 2.0 == faceValue * (rate / 100.0 / 2.0)
  {
  }
}
