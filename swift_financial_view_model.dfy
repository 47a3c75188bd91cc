/** The iOS financial screen: the five registers of the time value of money
    (N, i%, PV, PMT, FV) and the begin-mode switch, a list of cash flows with
    their net present value and internal rate of return, the inputs and table
    of a loan amortization, and an output log, newest line first. Every
    calculation adds exactly one line to the log: the answer, or an error that
    leaves the registers as they were. On success only the solved register
    changes.

    Each operation is a function on a `Financial` value. An operation that
    traps in Swift (an index outside the list, a range 1...periods with
    periods < 1) gives `None`. The class `FinancialViewModel` updates its
    fields in place; each of its methods is proved to agree with its function,
    and those that can trap require that they do not. */
module SwiftFinancialViewModel {
  import opened Common
  import FinanceMath
  import Engine = SwiftFinancialEngine

  /** What the screen depends on besides its state:
      - the math library;
      - `Double(_:)` and `Int(_:)` on a text (`None` where they give nil);
      - `String(format: "%.2f")` and `String(format: "%.4f")`;
      - the engine's `formatCurrency` and `formatPercent`;
      - string interpolation of an `Int`. */
  datatype Env = Env(
    lib: Lib,
    toDouble: string -> Option<real>,
    toInt: string -> Option<int>,
    fixed2: real -> string,
    fixed4: real -> string,
    currency: real -> string,
    percent: real -> string,
    showInt: int -> string)

  datatype Financial = Financial(
    nPeriods: string, interestRate: string, presentValue: string, payment: string, futureValue: string,
    beginMode: bool,
    cashFlows: seq<string>,
    npvResult: string,
    irrResult: string,
    amortPrincipal: string, amortRate: string, amortPeriods: string,
    amortSchedule: seq<Engine.AmortizationRow>,
    outputLog: seq<string>)

  /** The screen as it starts and as `clearAll` leaves it: every text empty,
      one empty cash flow, no table and an empty log. */
  function Initial(): Financial
  {
    Financial("", "", "", "", "", false, [""], "", "", "", "", "", [], [])
  }

  /** There is always at least one cash flow row. */
  predicate Valid(s: Financial)
  {
    |s.cashFlows| >= 1
  }

  /** `addLog`: the message goes on top of the log. */
  function Logged(s: Financial, message: string): Financial
  {
    s.(outputLog := [message] + s.outputLog)
  }

  // ---------------------------------------------------------------------------
  // Registers

  datatype Register = N | I | PV | PMT | FV

  function GetRegister(s: Financial, r: Register): string
  {
    match r
    case N => s.nPeriods
    case I => s.interestRate
    case PV => s.presentValue
    case PMT => s.payment
    case FV => s.futureValue
  }

  function SetRegister(s: Financial, r: Register, value: string): Financial
  {
    match r
    case N => s.(nPeriods := value)
    case I => s.(interestRate := value)
    case PV => s.(presentValue := value)
    case PMT => s.(payment := value)
    case FV => s.(futureValue := value)
  }

  /** The text fields the screen edits directly: the registers and the
      amortization inputs. */
  datatype Field = Reg(r: Register) | PrincipalField | AmortRateField | PeriodsField

  function Edit(s: Financial, field: Field, value: string): Financial
  {
    match field
    case Reg(r) => SetRegister(s, r, value)
    case PrincipalField => s.(amortPrincipal := value)
    case AmortRateField => s.(amortRate := value)
    case PeriodsField => s.(amortPeriods := value)
  }

  // ---------------------------------------------------------------------------
  // Parsing

  /** A `guard let` over several texts: all of them parse, or nothing. */
  function ParseAll(env: Env, texts: seq<string>): (r: Option<seq<real>>)
    ensures r.Some? <==> forall i :: 0 <= i < |texts| ==> env.toDouble(texts[i]).Some?
    ensures r.Some? ==> |r.value| == |texts| &&
                        forall i :: 0 <= i < |texts| ==> r.value[i] == env.toDouble(texts[i]).value
  {
    if texts == [] then Some([])
    else
      match env.toDouble(texts[0])
      case None => None
      case Some(v) =>
        match ParseAll(env, texts[1..])
        case None =>
          assert !(forall i :: 0 <= i < |texts| ==> env.toDouble(texts[i]).Some?) by {
            var k :| 0 <= k < |texts[1..]| && env.toDouble(texts[1..][k]).None?;
            assert texts[k + 1] == texts[1..][k];
          }
          None
        case Some(vs) =>
          assert forall i :: 1 <= i < |texts| ==> texts[i] == texts[1..][i - 1];
          Some([v] + vs)
  }

  /** `compactMap { Double($0) }`: the texts that parse, in order; the others
      are dropped. */
  function Parsed(env: Env, texts: seq<string>): (flows: seq<real>)
    ensures |flows| <= |texts|
    ensures flows == [] <==> forall i :: 0 <= i < |texts| ==> env.toDouble(texts[i]).None?
  {
    if texts == [] then []
    else
      var rest := Parsed(env, texts[1..]);
      assert forall i :: 1 <= i < |texts| ==> texts[i] == texts[1..][i - 1];
      match env.toDouble(texts[0])
      case Some(v) => [v] + rest
      case None => rest
  }

  // ---------------------------------------------------------------------------
  // Time value of money

  /** The register each `calculateX` solves for. */
  datatype Solve = SolveFV | SolvePV | SolvePMT | SolveN | SolveI

  function Solved(kind: Solve): Register
  {
    match kind
    case SolveFV => FV
    case SolvePV => PV
    case SolvePMT => PMT
    case SolveN => N
    case SolveI => I
  }

  /** The registers each calculation reads, in the order of its `guard`. */
  function Inputs(kind: Solve): seq<Register>
  {
    match kind
    case SolveFV => [N, I, PV, PMT]
    case SolvePV => [N, I, PMT, FV]
    case SolvePMT => [N, I, PV, FV]
    case SolveN => [I, PV, PMT, FV]
    case SolveI => [N, PV, PMT, FV]
  }

  function InputTexts(s: Financial, kind: Solve): seq<string>
  {
    var rs := Inputs(kind);
    [GetRegister(s, rs[0]), GetRegister(s, rs[1]), GetRegister(s, rs[2]), GetRegister(s, rs[3])]
  }

  /** The message logged when one of the inputs does not parse. */
  function Missing(kind: Solve): string
  {
    match kind
    case SolveFV => "Erro: Preencha N, i%, PV e PMT"
    case SolvePV => "Erro: Preencha N, i%, PMT e FV"
    case SolvePMT => "Erro: Preencha N, i%, PV e FV"
    case SolveN => "Erro: Preencha i%, PV, PMT e FV"
    case SolveI => "Erro: Preencha N, PV, PMT e FV"
  }

  /** The engine's answer for the parsed inputs, in the order of `Inputs`;
      only N and i% can have none. */
  function Answer(env: Env, kind: Solve, x: seq<real>, beginMode: bool): Option<real>
    requires |x| == 4
  {
    match kind
    case SolveFV => Some(Engine.FutureValue(env.lib, x[0], x[1], x[2], x[3], beginMode))
    case SolvePV => Some(Engine.PresentValue(env.lib, x[0], x[1], x[3], x[2], beginMode))
    case SolvePMT => Some(Engine.Payment(env.lib, x[0], x[1], x[2], x[3], beginMode))
    case SolveN => Engine.NumberOfPeriods(env.lib, x[0], x[1], x[2], x[3], beginMode)
    case SolveI => Engine.NewtonRate(env.lib, x[0], x[1], x[2], x[3], beginMode, 0.1, Engine.MaxIterations)
  }

  /** The text written back into the solved register: two decimals, four for
      the rate. */
  function Shown(env: Env, kind: Solve, v: real): string
  {
    if kind == SolveI then env.fixed4(v) else env.fixed2(v)
  }

  function AnswerLine(env: Env, kind: Solve, v: real): string
  {
    match kind
    case SolveFV => "FV = " + env.currency(v)
    case SolvePV => "PV = " + env.currency(v)
    case SolvePMT => "PMT = " + env.currency(v)
    case SolveN => "N = " + env.fixed2(v) + " períodos"
    case SolveI => "i% = " + env.percent(v)
  }

  function Unsolvable(kind: Solve): string
  {
    if kind == SolveN then "Erro: Não foi possível calcular N" else "Erro: Não foi possível calcular i%"
  }

  function TvmStep(env: Env, s: Financial, kind: Solve): Financial
  {
    match ParseAll(env, InputTexts(s, kind))
    case None => Logged(s, Missing(kind))
    case Some(x) =>
      match Answer(env, kind, x, s.beginMode)
      case None => Logged(s, Unsolvable(kind))
      case Some(v) => Logged(SetRegister(s, Solved(kind), Shown(env, kind, v)), AnswerLine(env, kind, v))
  }

  // ---------------------------------------------------------------------------
  // Cash flows

  function AddCashFlowStep(s: Financial): Financial
  {
    s.(cashFlows := s.cashFlows + [""])
  }

  /** `removeCashFlow(at:)`: refused while one row is left; otherwise an index
      outside the list traps. */
  function RemoveCashFlowStep(s: Financial, index: int): Option<Financial>
  {
    if |s.cashFlows| <= 1 then Some(s)
    else if 0 <= index < |s.cashFlows| then Some(s.(cashFlows := s.cashFlows[..index] + s.cashFlows[index + 1..]))
    else None
  }

  /** Editing the text of one cash flow row; an index outside the list traps. */
  function EditFlowStep(s: Financial, index: int, value: string): Option<Financial>
  {
    if 0 <= index < |s.cashFlows| then Some(s.(cashFlows := s.cashFlows[index := value])) else None
  }

  /** `calculateNPV`: the rate is the i% register; the flows that parse are
      discounted, the first one undiscounted. */
  function NpvStep(env: Env, s: Financial): Financial
  {
    match env.toDouble(s.interestRate)
    case None => Logged(s, "Erro: Informe i% para NPV")
    case Some(rate) =>
      var flows := Parsed(env, s.cashFlows);
      if flows == [] then Logged(s, "Erro: Informe os fluxos de caixa")
      else
        var v := FinanceMath.DiscountedSum(env.lib, rate / 100.0, flows, |flows|);
        Logged(s.(npvResult := env.fixed2(v)), "NPV = " + env.currency(v))
  }

  /** The engine's `irr` with its default guess of 10%. */
  function IrrOf(env: Env, flows: seq<real>): Option<real>
  {
    Engine.NewtonIrr(env.lib, flows, 10.0 / 100.0, Engine.MaxIterations)
  }

  function IrrStep(env: Env, s: Financial): Financial
  {
    var flows := Parsed(env, s.cashFlows);
    if |flows| < 2 then Logged(s, "Erro: Mínimo 2 fluxos de caixa")
    else
      match IrrOf(env, flows)
      case None => Logged(s, "Erro: Não foi possível calcular IRR")
      case Some(r) => Logged(s.(irrResult := env.fixed4(r)), "IRR = " + env.percent(r))
  }

  // ---------------------------------------------------------------------------
  // Amortization

  /** `calculateAmortization`, twelve periods a year. Once the inputs parse,
      fewer than one period traps in the engine's range 1...periods. */
  function AmortizationStep(env: Env, s: Financial): Option<Financial>
  {
    match (env.toDouble(s.amortPrincipal), env.toDouble(s.amortRate), env.toInt(s.amortPeriods))
    case (Some(principal), Some(rate), Some(periods)) =>
      if periods < 1 then None
      else
        var schedule := Engine.Schedule(env.lib, principal, rate, periods, 12);
        Some(Logged(s.(amortSchedule := schedule), "Tabela de amortização gerada: " + env.showInt(periods) + " períodos"))
    case _ => Some(Logged(s, "Erro: Preencha principal, taxa e períodos"))
  }

  // ---------------------------------------------------------------------------
  // Every action

  datatype Action =
    | EditField(field: Field, value: string)
    | SetBeginMode(on: bool)
    | EditFlow(index: int, value: string)
    | AddCashFlow
    | RemoveCashFlow(index: int)
    | Tvm(kind: Solve)
    | Npv
    | Irr
    | Amortize
    | ClearAll
    | ClearLog

  /** One action; `None` when it traps. */
  function Step(env: Env, s: Financial, a: Action): Option<Financial>
  {
    match a
    case EditField(field, value) => Some(Edit(s, field, value))
    case SetBeginMode(on) => Some(s.(beginMode := on))
    case EditFlow(index, value) => EditFlowStep(s, index, value)
    case AddCashFlow => Some(AddCashFlowStep(s))
    case RemoveCashFlow(index) => RemoveCashFlowStep(s, index)
    case Tvm(kind) => Some(TvmStep(env, s, kind))
    case Npv => Some(NpvStep(env, s))
    case Irr => Some(IrrStep(env, s))
    case Amortize => AmortizationStep(env, s)
    case ClearAll => Some(Initial())
    case ClearLog => Some(s.(outputLog := []))
  }

  /** The actions in order; a trap ends the run. */
  function Run(env: Env, s: Financial, actions: seq<Action>): Option<Financial>
  {
    if actions == [] then Some(s)
    else
      match Run(env, s, actions[..|actions| - 1])
      case None => None
      case Some(t) => Step(env, t, actions[|actions| - 1])
  }

  /** The calculations: each adds one line to the log. */
  predicate IsCalculation(a: Action)
  {
    a.Tvm? || a.Npv? || a.Irr? || a.Amortize?
  }

  // ---------------------------------------------------------------------------
  // Properties

  /** Every action that does not trap keeps at least one cash flow row. */
  lemma StepKeepsValid(env: Env, s: Financial, a: Action)
    requires Valid(s)
    ensures Step(env, s, a).Some? ==> Valid(Step(env, s, a).value)
  {
    match a {
      case Tvm(kind) => TvmLogsOneLine(env, s, kind);
      case Npv => NpvLogsOneLine(env, s);
      case Irr => IrrLogsOneLine(env, s);
      case Amortize =>
        if AmortizationStep(env, s).Some? {
          AmortizationLogsOneLine(env, s);
        }
      case RemoveCashFlow(index) =>
      case EditFlow(index, value) =>
      case _ =>
    }
  }

  lemma {:induction false} AlwaysValid(env: Env, actions: seq<Action>)
    ensures Run(env, Initial(), actions).Some? ==> Valid(Run(env, Initial(), actions).value)
  {
    if actions != [] {
      var prefix := actions[..|actions| - 1];
      AlwaysValid(env, prefix);
      if Run(env, Initial(), prefix).Some? {
        StepKeepsValid(env, Run(env, Initial(), prefix).value, actions[|actions| - 1]);
      }
    }
  }

  /** The cash flow list: add appends an empty row; remove is refused while
      one row is left, drops the row at the index otherwise, and traps on an
      index outside the list. */
  lemma CashFlowEdits(s: Financial, index: int)
    ensures AddCashFlowStep(s).cashFlows == s.cashFlows + [""]
    ensures AddCashFlowStep(s).(cashFlows := s.cashFlows) == s
    ensures |s.cashFlows| <= 1 ==> RemoveCashFlowStep(s, index) == Some(s)
    ensures |s.cashFlows| > 1 ==> (RemoveCashFlowStep(s, index).None? <==> !(0 <= index < |s.cashFlows|))
    ensures |s.cashFlows| > 1 && 0 <= index < |s.cashFlows| ==>
            var t := RemoveCashFlowStep(s, index).value;
            |t.cashFlows| == |s.cashFlows| - 1 &&
            (forall j :: 0 <= j < index ==> t.cashFlows[j] == s.cashFlows[j]) &&
            (forall j :: index < j < |s.cashFlows| ==> t.cashFlows[j - 1] == s.cashFlows[j]) &&
            t.(cashFlows := s.cashFlows) == s
  {
  }

  /** Every calculation that does not trap adds exactly one line on top of the
      log; editing and the cash flow list leave the log alone. */
  lemma CalculationLogsOneLine(env: Env, s: Financial, a: Action)
    requires Step(env, s, a).Some?
    ensures IsCalculation(a) ==>
            |Step(env, s, a).value.outputLog| == |s.outputLog| + 1 &&
            Step(env, s, a).value.outputLog[1..] == s.outputLog
    ensures !IsCalculation(a) && !a.ClearAll? && !a.ClearLog? ==> Step(env, s, a).value.outputLog == s.outputLog
  {
    var t := Step(env, s, a).value;
    match a {
      case Tvm(kind) =>
        TvmLogsOneLine(env, s, kind);
        assert t == TvmStep(env, s, kind);
      case Npv =>
        NpvLogsOneLine(env, s);
        assert t == NpvStep(env, s);
      case Irr =>
        IrrLogsOneLine(env, s);
        assert t == IrrStep(env, s);
      case Amortize =>
        AmortizationLogsOneLine(env, s);
        assert Step(env, s, a) == AmortizationStep(env, s);
      case EditField(field, value) =>
        assert t == Edit(s, field, value);
      case _ =>
    }
  }

  /** A line put on top of the log. */
  lemma OnTop(t: Financial, message: string)
    ensures |Logged(t, message).outputLog| == |t.outputLog| + 1
    ensures Logged(t, message).outputLog[1..] == t.outputLog
  {
  }

  lemma NpvLogsOneLine(env: Env, s: Financial)
    ensures |NpvStep(env, s).outputLog| == |s.outputLog| + 1
    ensures NpvStep(env, s).outputLog[1..] == s.outputLog
    ensures NpvStep(env, s).cashFlows == s.cashFlows
  {
    match env.toDouble(s.interestRate) {
      case None => OnTop(s, "Erro: Informe i% para NPV");
      case Some(rate) =>
        var flows := Parsed(env, s.cashFlows);
        if flows == [] {
          OnTop(s, "Erro: Informe os fluxos de caixa");
        } else {
          var v := FinanceMath.DiscountedSum(env.lib, rate / 100.0, flows, |flows|);
          OnTop(s.(npvResult := env.fixed2(v)), "NPV = " + env.currency(v));
        }
    }
  }

  lemma IrrLogsOneLine(env: Env, s: Financial)
    ensures |IrrStep(env, s).outputLog| == |s.outputLog| + 1
    ensures IrrStep(env, s).outputLog[1..] == s.outputLog
    ensures IrrStep(env, s).cashFlows == s.cashFlows
  {
    var flows := Parsed(env, s.cashFlows);
    if |flows| < 2 {
      OnTop(s, "Erro: Mínimo 2 fluxos de caixa");
    } else {
      match IrrOf(env, flows) {
        case None => OnTop(s, "Erro: Não foi possível calcular IRR");
        case Some(r) => OnTop(s.(irrResult := env.fixed4(r)), "IRR = " + env.percent(r));
      }
    }
  }

  lemma AmortizationLogsOneLine(env: Env, s: Financial)
    requires AmortizationStep(env, s).Some?
    ensures |AmortizationStep(env, s).value.outputLog| == |s.outputLog| + 1
    ensures AmortizationStep(env, s).value.outputLog[1..] == s.outputLog
    ensures AmortizationStep(env, s).value.cashFlows == s.cashFlows
  {
    match (env.toDouble(s.amortPrincipal), env.toDouble(s.amortRate), env.toInt(s.amortPeriods)) {
      case (Some(principal), Some(rate), Some(periods)) =>
        var schedule := Engine.Schedule(env.lib, principal, rate, periods, 12);
        OnTop(s.(amortSchedule := schedule), "Tabela de amortização gerada: " + env.showInt(periods) + " períodos");
      case _ => OnTop(s, "Erro: Preencha principal, taxa e períodos");
    }
  }

  /** A time-value calculation puts one line on top of the log and changes
      only the solved register besides. */
  lemma TvmLogsOneLine(env: Env, s: Financial, kind: Solve)
    ensures |TvmStep(env, s, kind).outputLog| == |s.outputLog| + 1
    ensures TvmStep(env, s, kind).outputLog[1..] == s.outputLog
    ensures TvmStep(env, s, kind).cashFlows == s.cashFlows
    ensures SetRegister(TvmStep(env, s, kind), Solved(kind), GetRegister(s, Solved(kind))).(outputLog := s.outputLog) == s
  {
    match ParseAll(env, InputTexts(s, kind)) {
      case None => OnTop(s, Missing(kind));
      case Some(x) =>
        match Answer(env, kind, x, s.beginMode) {
          case None => OnTop(s, Unsolvable(kind));
          case Some(v) =>
            RegisterFrame(s, Solved(kind), Shown(env, kind, v), N);
            OnTop(SetRegister(s, Solved(kind), Shown(env, kind, v)), AnswerLine(env, kind, v));
        }
    }
  }

  /** Setting a register changes that register alone, and setting it back
      restores the state. */
  lemma RegisterFrame(s: Financial, r: Register, value: string, other: Register)
    ensures GetRegister(SetRegister(s, r, value), r) == value
    ensures other != r ==> GetRegister(SetRegister(s, r, value), other) == GetRegister(s, other)
    ensures SetRegister(SetRegister(s, r, value), r, GetRegister(s, r)) == s
    ensures SetRegister(s, r, value).outputLog == s.outputLog
  {
  }

  /** `clearAll` gives the starting screen back; `clearLog` empties the log
      and nothing else. */
  lemma Clearing(env: Env, s: Financial)
    ensures Step(env, s, ClearAll) == Some(Initial()) == Run(env, Initial(), [])
    ensures Step(env, s, ClearLog).value.outputLog == []
    ensures Step(env, s, ClearLog).value.(outputLog := s.outputLog) == s
  {
  }

  /** A TVM calculation writes at most the register it solves for: on success
      that register holds the shown answer and the log its line; when an input
      does not parse, or N or i% has no answer, only an error line is
      logged. */
  lemma TvmWritesOnlySolvedRegister(env: Env, s: Financial, kind: Solve, other: Register)
    ensures other != Solved(kind) ==> GetRegister(TvmStep(env, s, kind), other) == GetRegister(s, other)
    ensures SetRegister(TvmStep(env, s, kind), Solved(kind), GetRegister(s, Solved(kind))).(outputLog := s.outputLog) == s
    ensures ParseAll(env, InputTexts(s, kind)).None? ==> TvmStep(env, s, kind) == Logged(s, Missing(kind))
    ensures ParseAll(env, InputTexts(s, kind)).Some? ==>
            var x := ParseAll(env, InputTexts(s, kind)).value;
            match Answer(env, kind, x, s.beginMode)
            case None => TvmStep(env, s, kind) == Logged(s, Unsolvable(kind))
            case Some(v) =>
              GetRegister(TvmStep(env, s, kind), Solved(kind)) == Shown(env, kind, v) &&
              TvmStep(env, s, kind).outputLog == [AnswerLine(env, kind, v)] + s.outputLog
  {
    TvmLogsOneLine(env, s, kind);
    match ParseAll(env, InputTexts(s, kind)) {
      case None =>
      case Some(x) =>
        match Answer(env, kind, x, s.beginMode) {
          case None =>
          case Some(v) => RegisterFrame(s, Solved(kind), Shown(env, kind, v), other);
        }
    }
  }

  /** FV, PV and PMT always have an answer once their inputs parse, so only
      N and i% can log that they could not be computed. */
  lemma OnlyPeriodsAndRateCanFail(env: Env, s: Financial, kind: Solve)
    requires ParseAll(env, InputTexts(s, kind)).Some?
    requires kind != SolveN && kind != SolveI
    ensures TvmStep(env, s, kind).outputLog[0] != Missing(kind)
    ensures TvmStep(env, s, kind).outputLog[0] != Unsolvable(kind)
  {
    var x := ParseAll(env, InputTexts(s, kind)).value;
    var v := Answer(env, kind, x, s.beginMode).value;
    var line := AnswerLine(env, kind, v);
    assert TvmStep(env, s, kind).outputLog[0] == line;
    assert line[0] != 'E';
  }

  /** At a rate of 0 without a payment there is no number of periods: the
      error is logged and N keeps its text. */
  lemma PeriodsWithoutPayment(env: Env, s: Financial)
    requires env.toDouble(s.interestRate) == Some(0.0) && env.toDouble(s.payment) == Some(0.0)
    requires env.toDouble(s.presentValue).Some? && env.toDouble(s.futureValue).Some?
    ensures TvmStep(env, s, SolveN) == Logged(s, "Erro: Não foi possível calcular N")
  {
    var x := ParseAll(env, InputTexts(s, SolveN));
    assert x.Some?;
    assert x.value[0] == 0.0 && x.value[2] == 0.0;
  }

  // ---------------------------------------------------------------------------
  // Cash flow properties

  /** `compactMap` keeps the order: the parsed flows of two lists one after the
      other are those of the first followed by those of the second. */
  lemma {:induction false} ParsedConcat(env: Env, a: seq<string>, b: seq<string>)
    ensures Parsed(env, a + b) == Parsed(env, a) + Parsed(env, b)
  {
    if a == [] {
      assert a + b == b;
    } else {
      assert (a + b)[0] == a[0];
      assert (a + b)[1..] == a[1..] + b;
      ParsedConcat(env, a[1..], b);
      match env.toDouble(a[0]) {
        case Some(v) =>
          calc {
            Parsed(env, a + b);
            [v] + Parsed(env, a[1..] + b);
            [v] + (Parsed(env, a[1..]) + Parsed(env, b));
            ([v] + Parsed(env, a[1..])) + Parsed(env, b);
          }
        case None =>
      }
    }
  }

  /** When every row parses, no flow is dropped. */
  lemma {:induction false} ParsedAll(env: Env, texts: seq<string>)
    requires forall i :: 0 <= i < |texts| ==> env.toDouble(texts[i]).Some?
    ensures Parsed(env, texts) == ParseAll(env, texts).value
  {
    if texts != [] {
      assert forall i :: 1 <= i < |texts| ==> texts[i] == texts[1..][i - 1];
      ParsedAll(env, texts[1..]);
    }
  }

  /** `calculateNPV`: without a rate, or without a single row that parses, an
      error is logged and the result kept; otherwise the result shows the
      discounted sum of the rows that parse. */
  lemma NpvOutcomes(env: Env, s: Financial)
    ensures env.toDouble(s.interestRate).None? ==> NpvStep(env, s) == Logged(s, "Erro: Informe i% para NPV")
    ensures env.toDouble(s.interestRate).Some? &&
            (forall i :: 0 <= i < |s.cashFlows| ==> env.toDouble(s.cashFlows[i]).None?) ==>
            NpvStep(env, s) == Logged(s, "Erro: Informe os fluxos de caixa")
    ensures env.toDouble(s.interestRate).Some? && Parsed(env, s.cashFlows) != [] ==>
            var flows := Parsed(env, s.cashFlows);
            var v := FinanceMath.DiscountedSum(env.lib, env.toDouble(s.interestRate).value / 100.0, flows, |flows|);
            NpvStep(env, s) == Logged(s.(npvResult := env.fixed2(v)), "NPV = " + env.currency(v))
  {
  }

  /** A row that does not parse is dropped rather than reported: adding an
      empty row, when the empty text does not parse, changes neither the net
      present value nor the internal rate of return. */
  lemma BlankRowIgnored(env: Env, s: Financial)
    requires env.toDouble("").None?
    ensures NpvStep(env, AddCashFlowStep(s)) == AddCashFlowStep(NpvStep(env, s))
    ensures IrrStep(env, AddCashFlowStep(s)) == AddCashFlowStep(IrrStep(env, s))
  {
    ParsedConcat(env, s.cashFlows, [""]);
    assert [""][1..] == [];
    assert Parsed(env, [""]) == [];
    var t := AddCashFlowStep(s);
    assert Parsed(env, t.cashFlows) == Parsed(env, s.cashFlows);
    SameFlowsSameNpv(env, s, t.cashFlows);
    SameFlowsSameIrr(env, s, t.cashFlows);
  }

  /** NPV reads the rows only through the flows that parse. */
  lemma SameFlowsSameNpv(env: Env, s: Financial, rows: seq<string>)
    requires Parsed(env, rows) == Parsed(env, s.cashFlows)
    ensures NpvStep(env, s.(cashFlows := rows)) == NpvStep(env, s).(cashFlows := rows)
  {
  }

  /** IRR reads the rows only through the flows that parse. */
  lemma SameFlowsSameIrr(env: Env, s: Financial, rows: seq<string>)
    requires Parsed(env, rows) == Parsed(env, s.cashFlows)
    ensures IrrStep(env, s.(cashFlows := rows)) == IrrStep(env, s).(cashFlows := rows)
  {
  }

  /** `calculateIRR` needs two rows that parse; when the engine finds no rate
      it logs an error and the result keeps its text. */
  lemma IrrOutcomes(env: Env, s: Financial)
    ensures |Parsed(env, s.cashFlows)| < 2 ==> IrrStep(env, s) == Logged(s, "Erro: Mínimo 2 fluxos de caixa")
    ensures |Parsed(env, s.cashFlows)| >= 2 && IrrOf(env, Parsed(env, s.cashFlows)).None? ==>
            IrrStep(env, s) == Logged(s, "Erro: Não foi possível calcular IRR")
    ensures |Parsed(env, s.cashFlows)| >= 2 && IrrOf(env, Parsed(env, s.cashFlows)).Some? ==>
            var r := IrrOf(env, Parsed(env, s.cashFlows)).value;
            IrrStep(env, s) == Logged(s.(irrResult := env.fixed4(r)), "IRR = " + env.percent(r))
    ensures |s.cashFlows| < 2 ==> IrrStep(env, s).irrResult == s.irrResult
  {
  }

  /** `calculateAmortization` traps exactly when its three inputs parse and
      the number of periods is below 1; when an input does not parse, an
      error is logged and the table kept. */
  lemma AmortizationTraps(env: Env, s: Financial)
    ensures AmortizationStep(env, s).None? <==>
            env.toDouble(s.amortPrincipal).Some? && env.toDouble(s.amortRate).Some? &&
            env.toInt(s.amortPeriods).Some? && env.toInt(s.amortPeriods).value < 1
    ensures env.toDouble(s.amortPrincipal).None? || env.toDouble(s.amortRate).None? || env.toInt(s.amortPeriods).None? ==>
            AmortizationStep(env, s) == Some(Logged(s, "Erro: Preencha principal, taxa e períodos"))
    ensures AmortizationStep(env, s).Some? && env.toInt(s.amortPeriods).Some? &&
            env.toDouble(s.amortPrincipal).Some? && env.toDouble(s.amortRate).Some? ==>
            |AmortizationStep(env, s).value.amortSchedule| == env.toInt(s.amortPeriods).value
  {
    if AmortizationStep(env, s).Some? && env.toInt(s.amortPeriods).Some? &&
       env.toDouble(s.amortPrincipal).Some? && env.toDouble(s.amortRate).Some? {
      var periods := env.toInt(s.amortPeriods).value;
      Engine.ScheduleRows(env.lib, env.toDouble(s.amortPrincipal).value, env.toDouble(s.amortRate).value, periods, 12);
    }
  }

  // ---------------------------------------------------------------------------
  // The view model

  class FinancialViewModel {
    var nPeriods: string
    var interestRate: string
    var presentValue: string
    var payment: string
    var futureValue: string
    var beginMode: bool
    var cashFlows: seq<string>
    var npvResult: string
    var irrResult: string
    var amortPrincipal: string
    var amortRate: string
    var amortPeriods: string
    var amortSchedule: seq<Engine.AmortizationRow>
    var outputLog: seq<string>
    const env: Env

    function State(): Financial
      reads this
    {
      Financial(nPeriods, interestRate, presentValue, payment, futureValue, beginMode, cashFlows,
                npvResult, irrResult, amortPrincipal, amortRate, amortPeriods, amortSchedule, outputLog)
    }

    constructor(env: Env)
      ensures State() == Initial() && this.env == env
    {
      this.env := env;
      nPeriods, interestRate, presentValue, payment, futureValue := "", "", "", "", "";
      beginMode := false;
      cashFlows := [""];
      npvResult, irrResult := "", "";
      amortPrincipal, amortRate, amortPeriods := "", "", "";
      amortSchedule := [];
      outputLog := [];
    }

    method CalculateFV()
      modifies this
      ensures State() == TvmStep(env, old(State()), SolveFV)
    {
      assert InputTexts(State(), SolveFV) == [nPeriods, interestRate, presentValue, payment];
      match ParseAll(env, [nPeriods, interestRate, presentValue, payment]) {
        case None => AddLog("Erro: Preencha N, i%, PV e PMT");
        case Some(x) =>
          var fv := Engine.FutureValue(env.lib, x[0], x[1], x[2], x[3], beginMode);
          futureValue := env.fixed2(fv);
          AddLog("FV = " + env.currency(fv));
      }
    }

    method CalculatePV()
      modifies this
      ensures State() == TvmStep(env, old(State()), SolvePV)
    {
      assert InputTexts(State(), SolvePV) == [nPeriods, interestRate, payment, futureValue];
      match ParseAll(env, [nPeriods, interestRate, payment, futureValue]) {
        case None => AddLog("Erro: Preencha N, i%, PMT e FV");
        case Some(x) =>
          var pv := Engine.PresentValue(env.lib, x[0], x[1], x[3], x[2], beginMode);
          presentValue := env.fixed2(pv);
          AddLog("PV = " + env.currency(pv));
      }
    }

    method CalculatePMT()
      modifies this
      ensures State() == TvmStep(env, old(State()), SolvePMT)
    {
      assert InputTexts(State(), SolvePMT) == [nPeriods, interestRate, presentValue, futureValue];
      match ParseAll(env, [nPeriods, interestRate, presentValue, futureValue]) {
        case None => AddLog("Erro: Preencha N, i%, PV e FV");
        case Some(x) =>
          var pmt := Engine.Payment(env.lib, x[0], x[1], x[2], x[3], beginMode);
          payment := env.fixed2(pmt);
          AddLog("PMT = " + env.currency(pmt));
      }
    }

    method CalculateN()
      modifies this
      ensures State() == TvmStep(env, old(State()), SolveN)
    {
      assert InputTexts(State(), SolveN) == [interestRate, presentValue, payment, futureValue];
      match ParseAll(env, [interestRate, presentValue, payment, futureValue]) {
        case None => AddLog("Erro: Preencha i%, PV, PMT e FV");
        case Some(x) =>
          Conclude(SolveN, Engine.NumberOfPeriods(env.lib, x[0], x[1], x[2], x[3], beginMode));
      }
    }

    method CalculateI()
      modifies this
      ensures State() == TvmStep(env, old(State()), SolveI)
    {
      ghost var s := State();
      assert InputTexts(s, SolveI) == [nPeriods, presentValue, payment, futureValue];
      match ParseAll(env, [nPeriods, presentValue, payment, futureValue]) {
        case None => AddLog("Erro: Preencha N, PV, PMT e FV");
        case Some(x) =>
          var r := Engine.InterestRate(env.lib, x[0], x[1], x[2], x[3], beginMode);
          assert r == Answer(env, SolveI, x, s.beginMode);
          Conclude(SolveI, r);
      }
    }

    /** The `if let` that ends `calculateN` and `calculateI`: the answer goes
        into the solved register and the log, or the error into the log. */
    method Conclude(kind: Solve, answer: Option<real>)
      modifies this
      ensures answer.None? ==> State() == Logged(old(State()), Unsolvable(kind))
      ensures answer.Some? ==>
              State() == Logged(SetRegister(old(State()), Solved(kind), Shown(env, kind, answer.value)),
                                AnswerLine(env, kind, answer.value))
    {
      match answer {
        case Some(v) =>
          WriteRegister(Solved(kind), Shown(env, kind, v));
          AddLog(AnswerLine(env, kind, v));
        case None => AddLog(Unsolvable(kind));
      }
    }

    /** Writes the text of one register. */
    method WriteRegister(r: Register, value: string)
      modifies this
      ensures State() == SetRegister(old(State()), r, value)
    {
      match r {
        case N => nPeriods := value;
        case I => interestRate := value;
        case PV => presentValue := value;
        case PMT => payment := value;
        case FV => futureValue := value;
      }
    }

    method AddCashFlow()
      modifies this
      ensures State() == AddCashFlowStep(old(State()))
    {
      cashFlows := cashFlows + [""];
    }

    /** Removing a row at an index outside the list traps, so it is required
        not to happen. */
    method RemoveCashFlow(index: int)
      requires RemoveCashFlowStep(State(), index).Some?
      modifies this
      ensures Some(State()) == RemoveCashFlowStep(old(State()), index)
    {
      if |cashFlows| <= 1 {
        return;
      }
      cashFlows := cashFlows[..index] + cashFlows[index + 1..];
    }

    method CalculateNPV()
      modifies this
      ensures State() == NpvStep(env, old(State()))
    {
      match env.toDouble(interestRate) {
        case None => AddLog("Erro: Informe i% para NPV");
        case Some(rate) =>
          var flows := Parsed(env, cashFlows);
          if flows == [] {
            AddLog("Erro: Informe os fluxos de caixa");
          } else {
            var result := Engine.Npv(env.lib, rate, flows);
            npvResult := env.fixed2(result);
            AddLog("NPV = " + env.currency(result));
          }
      }
    }

    method CalculateIRR()
      modifies this
      ensures State() == IrrStep(env, old(State()))
    {
      var flows := Parsed(env, cashFlows);
      if |flows| < 2 {
        AddLog("Erro: Mínimo 2 fluxos de caixa");
        return;
      }
      var r := Engine.Irr(env.lib, flows, 10.0);
      match r {
        case Some(result) =>
          irrResult := env.fixed4(result);
          AddLog("IRR = " + env.percent(result));
        case None => AddLog("Erro: Não foi possível calcular IRR");
      }
    }

    /** A number of periods below 1 traps in the engine, so it is required not
        to happen. */
    method CalculateAmortization()
      requires AmortizationStep(env, State()).Some?
      modifies this
      ensures Some(State()) == AmortizationStep(env, old(State()))
    {
      match (env.toDouble(amortPrincipal), env.toDouble(amortRate), env.toInt(amortPeriods)) {
        case (Some(principal), Some(rate), Some(periods)) =>
          amortSchedule := Engine.AmortizationSchedule(env.lib, principal, rate, periods, 12);
          AddLog("Tabela de amortização gerada: " + env.showInt(periods) + " períodos");
        case _ => AddLog("Erro: Preencha principal, taxa e períodos");
      }
    }

    method ClearAll()
      modifies this
      ensures State() == Initial()
    {
      ClearRegisters();
      ClearTables();
    }

    /** The registers and begin mode as `clearAll` leaves them. */
    method ClearRegisters()
      modifies this
      ensures nPeriods == "" && interestRate == "" && presentValue == "" && payment == "" && futureValue == ""
      ensures !beginMode
    {
      nPeriods := "";
      interestRate := "";
      presentValue := "";
      payment := "";
      futureValue := "";
      beginMode := false;
    }

    /** The cash flows, the amortization inputs and table, and the log as `clearAll` leaves them. */
    method ClearTables()
      modifies this
      ensures unchanged(this`nPeriods, this`interestRate, this`presentValue, this`payment, this`futureValue, this`beginMode)
      ensures cashFlows == [""] && npvResult == "" && irrResult == ""
      ensures amortPrincipal == "" && amortRate == "" && amortPeriods == "" && amortSchedule == [] && outputLog == []
    {
      cashFlows := [""];
      npvResult := "";
      irrResult := "";
      amortPrincipal := "";
      amortRate := "";
      amortPeriods := "";
      amortSchedule := [];
      outputLog := [];
    }

    method ClearLog()
      modifies this
      ensures State() == old(State()).(outputLog := [])
    {
      outputLog := [];
    }

    /** `addLog`. */
    method AddLog(message: string)
      modifies this
      ensures State() == Logged(old(State()), message)
    {
      outputLog := [message] + outputLog;
    }
  }
}
