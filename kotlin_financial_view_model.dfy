/** The Android financial screen: the text fields of the four tabs (time value
    of money, amortization, cash flows, depreciation), the shown result and its
    label, and a log of results, newest first. Every calculation parses its
    fields in order, calls the financial engine and either shows and logs the
    answer or shows "Erro: " and the exception's message, leaving the log as it
    was. Each operation is a function on a `Financial` value; the class
    `FinancialViewModel` updates its fields in place and each of its methods is
    proved to agree with the function. */
module KotlinFinancialViewModel {
  import opened Common
  import Engine = KotlinFinancialEngine

  datatype Tab = TVM | Amortization | CashFlow | Depreciation

  /** What the screen depends on besides its state: the math library,
      `String.toDouble` and `String.toInt` (`None` where they throw), the
      messages of the exceptions they throw for a text, and the engine's
      `format` and `formatPercent`. */
  datatype Env = Env(
    lib: Lib,
    toDouble: string -> Option<real>,
    toInt: string -> Option<int>,
    doubleMessage: string -> string,
    intMessage: string -> string,
    format: real -> string,
    formatPercent: real -> string)

  datatype Financial = Financial(
    n: string, rate: string, pv: string, pmt: string, fv: string,
    beginMode: bool,
    result: string,
    resultLabel: string,
    log: seq<string>,
    activeTab: Tab,
    amortPrincipal: string, amortRate: string, amortPeriods: string,
    amortSchedule: seq<Engine.AmortRow>,
    cashFlowRate: string,
    cashFlows: seq<string>,
    deprCost: string, deprSalvage: string, deprLife: string, deprYear: string)

  /** The screen as `init` leaves it: every field empty and one empty cash
      flow. */
  function Initial(): Financial
  {
    Financial("", "", "", "", "", false, "", "", [], TVM, "", "", "", [], "", [""], "", "", "", "")
  }

  /** There is always at least one cash flow row. */
  predicate Valid(s: Financial)
  {
    |s.cashFlows| >= 1
  }

  // ---------------------------------------------------------------------------
  // Fields

  /** The thirteen single-text fields, one per `updateX` setter. */
  datatype Field =
    | NField | RateField | PvField | PmtField | FvField
    | AmortPrincipalField | AmortRateField | AmortPeriodsField
    | CashFlowRateField
    | DeprCostField | DeprSalvageField | DeprLifeField | DeprYearField

  function SetField(s: Financial, field: Field, value: string): Financial
  {
    match field
    case NField => s.(n := value)
    case RateField => s.(rate := value)
    case PvField => s.(pv := value)
    case PmtField => s.(pmt := value)
    case FvField => s.(fv := value)
    case AmortPrincipalField => s.(amortPrincipal := value)
    case AmortRateField => s.(amortRate := value)
    case AmortPeriodsField => s.(amortPeriods := value)
    case CashFlowRateField => s.(cashFlowRate := value)
    case DeprCostField => s.(deprCost := value)
    case DeprSalvageField => s.(deprSalvage := value)
    case DeprLifeField => s.(deprLife := value)
    case DeprYearField => s.(deprYear := value)
  }

  function GetField(s: Financial, field: Field): string
  {
    match field
    case NField => s.n
    case RateField => s.rate
    case PvField => s.pv
    case PmtField => s.pmt
    case FvField => s.fv
    case AmortPrincipalField => s.amortPrincipal
    case AmortRateField => s.amortRate
    case AmortPeriodsField => s.amortPeriods
    case CashFlowRateField => s.cashFlowRate
    case DeprCostField => s.deprCost
    case DeprSalvageField => s.deprSalvage
    case DeprLifeField => s.deprLife
    case DeprYearField => s.deprYear
  }

  function SetActiveTabStep(s: Financial, tab: Tab): Financial
  {
    s.(activeTab := tab, result := "", resultLabel := "")
  }

  function UpdateCashFlowStep(s: Financial, index: nat, value: string): Financial
  {
    if index < |s.cashFlows| then s.(cashFlows := s.cashFlows[index := value]) else s
  }

  function AddCashFlowStep(s: Financial): Financial
  {
    s.(cashFlows := s.cashFlows + [""])
  }

  function RemoveCashFlowStep(s: Financial, index: nat): Financial
  {
    if |s.cashFlows| > 1 && index < |s.cashFlows| then s.(cashFlows := s.cashFlows[..index] + s.cashFlows[index + 1..])
    else s
  }

  // ---------------------------------------------------------------------------
  // Parsing

  function ParseReal(env: Env, text: string): Result<real, string>
  {
    match env.toDouble(text)
    case Some(v) => Ok(v)
    case None => Err(env.doubleMessage(text))
  }

  function ParseInt(env: Env, text: string): Result<int, string>
  {
    match env.toInt(text)
    case Some(v) => Ok(v)
    case None => Err(env.intMessage(text))
  }

  /** Parses texts left to right; the first one that does not parse stops the
      calculation with its message. */
  function ParseReals(env: Env, texts: seq<string>): (r: Result<seq<real>, string>)
    ensures r.Ok? <==> forall i :: 0 <= i < |texts| ==> env.toDouble(texts[i]).Some?
    ensures r.Ok? ==> |r.value| == |texts| &&
                      forall i :: 0 <= i < |texts| ==> r.value[i] == env.toDouble(texts[i]).value
    ensures r.Err? ==> exists i :: 0 <= i < |texts| && env.toDouble(texts[i]).None? &&
                                   r.error == env.doubleMessage(texts[i]) &&
                                   forall j :: 0 <= j < i ==> env.toDouble(texts[j]).Some?
  {
    if texts == [] then Ok([])
    else
      match ParseReal(env, texts[0])
      case Err(m) => Err(m)
      case Ok(v) =>
        match ParseReals(env, texts[1..])
        case Err(m) =>
          var r: Result<seq<real>, string> := Err(m);
          assert exists i :: 0 <= i < |texts| && env.toDouble(texts[i]).None? &&
                             r.error == env.doubleMessage(texts[i]) &&
                             forall j :: 0 <= j < i ==> env.toDouble(texts[j]).Some? by {
            var k :| 0 <= k < |texts[1..]| && env.toDouble(texts[1..][k]).None? &&
                     m == env.doubleMessage(texts[1..][k]) &&
                     forall j :: 0 <= j < k ==> env.toDouble(texts[1..][j]).Some?;
            assert texts[k + 1] == texts[1..][k];
            forall j | 0 <= j < k + 1 ensures env.toDouble(texts[j]).Some? {
              if j > 0 { assert texts[j] == texts[1..][j - 1]; }
            }
          }
          r
        case Ok(vs) => Ok([v] + vs)
  }

  // ---------------------------------------------------------------------------
  // Recording an outcome

  /** A successful calculation: shown, labelled and logged at the top. */
  function Succeed(s: Financial, caption: string, shown: string, line: string): Financial
  {
    s.(result := shown, resultLabel := caption, log := [line] + s.log)
  }

  /** A failed calculation: the exception's message is shown; the log is kept. */
  function Fail(s: Financial, caption: string, message: string): Financial
  {
    s.(result := "Erro: " + message, resultLabel := caption)
  }

  // ---------------------------------------------------------------------------
  // Time value of money

  datatype TvmCalc = CalcFV | CalcPV | CalcPMT | CalcN | CalcRate

  function TvmLabel(kind: TvmCalc): string
  {
    match kind
    case CalcFV => "FV"
    case CalcPV => "PV"
    case CalcPMT => "PMT"
    case CalcN => "N"
    case CalcRate => "i%"
  }

  /** The fields each calculation reads, in the order it parses them. */
  function TvmInputs(s: Financial, kind: TvmCalc): seq<string>
  {
    match kind
    case CalcFV => [s.n, s.rate, s.pv, s.pmt]
    case CalcPV => [s.n, s.rate, s.pmt, s.fv]
    case CalcPMT => [s.n, s.rate, s.pv, s.fv]
    case CalcN => [s.rate, s.pv, s.pmt, s.fv]
    case CalcRate => [s.n, s.pv, s.pmt, s.fv]
  }

  /** The engine's answer for parsed inputs `x`. */
  function TvmValue(env: Env, kind: TvmCalc, x: seq<real>, beginMode: bool): Result<real, string>
    requires |x| == 4
  {
    match kind
    case CalcFV => Ok(Engine.FutureValue(env.lib, x[0], x[1], x[2], x[3], beginMode))
    case CalcPV => Ok(Engine.PresentValue(env.lib, x[0], x[1], x[2], x[3], beginMode))
    case CalcPMT => Ok(Engine.Payment(env.lib, x[0], x[1], x[2], x[3], beginMode))
    case CalcN => Engine.Periods(env.lib, x[0], x[1], x[2], x[3], beginMode)
    case CalcRate => Ok(Engine.NewtonRate(env.lib, x[0], x[1], x[2], x[3], beginMode, 0.1, Engine.MaxIterations))
  }

  function TvmOutcome(env: Env, s: Financial, kind: TvmCalc): Result<real, string>
  {
    match ParseReals(env, TvmInputs(s, kind))
    case Err(m) => Err(m)
    case Ok(x) => TvmValue(env, kind, x, s.beginMode)
  }

  /** `tvmCalc`. */
  function TvmStep(env: Env, s: Financial, kind: TvmCalc): Financial
  {
    var caption := TvmLabel(kind);
    match TvmOutcome(env, s, kind)
    case Ok(v) => Succeed(s, caption, env.format(v), caption + " = " + env.format(v))
    case Err(m) => Fail(s, caption, m)
  }

  // ---------------------------------------------------------------------------
  // Amortization

  /** `calcAmortization`. Once the three fields parse, the table is replaced
      before the first row is read, so a period count below 1 empties it and
      then fails on the empty list. */
  function AmortizationStep(env: Env, s: Financial): Financial
  {
    match ParseReals(env, [s.amortPrincipal, s.amortRate])
    case Err(m) => Fail(s, "AMORT", m)
    case Ok(x) =>
      match ParseInt(env, s.amortPeriods)
      case Err(m) => Fail(s, "AMORT", m)
      case Ok(periods) => Tabled(env, s, Engine.Schedule(env.lib, x[0], x[1], periods))
  }

  /** The rest of `calcAmortization` once the table is built: it replaces the
      old one, and its first instalment is shown, or the empty list fails. */
  function Tabled(env: Env, s: Financial, schedule: seq<Engine.AmortRow>): Financial
  {
    var s' := s.(amortSchedule := schedule);
    if schedule == [] then Fail(s', "AMORT", "List is empty.")
    else
      var instalment := env.format(schedule[0].payment);
      Succeed(s', "AMORT", "Parcela: " + instalment, "Amortização: " + s.amortPeriods + "x de " + instalment)
  }

  // ---------------------------------------------------------------------------
  // Cash flows

  /** `calcNPV`: the flows are parsed first, then the rate. */
  function NpvStep(env: Env, s: Financial): Financial
  {
    match ParseReals(env, s.cashFlows)
    case Err(m) => Fail(s, "NPV", m)
    case Ok(flows) =>
      match ParseReal(env, s.cashFlowRate)
      case Err(m) => Fail(s, "NPV", m)
      case Ok(rate) =>
        var shown := env.format(Engine.NetPresentValue(env.lib, rate, flows));
        Succeed(s, "NPV", shown, "NPV = " + shown)
  }

  function IrrStep(env: Env, s: Financial): Financial
  {
    match ParseReals(env, s.cashFlows)
    case Err(m) => Fail(s, "IRR", m)
    case Ok(flows) =>
      var shown := env.formatPercent(Engine.Bisection(env.lib, flows, Engine.BracketLow, Engine.BracketHigh, Engine.MaxIterations));
      Succeed(s, "IRR", shown, "IRR = " + shown)
  }

  // ---------------------------------------------------------------------------
  // Depreciation

  datatype DeprCalc = StraightLine | DoubleDeclining | SumOfYears

  /** The depreciation answer for the parsed fields; the declining balance
      uses the factor 2. */
  function DeprOutcome(env: Env, s: Financial, kind: DeprCalc): Result<real, string>
  {
    match ParseReals(env, [s.deprCost, s.deprSalvage, s.deprLife])
    case Err(m) => Err(m)
    case Ok(x) =>
      if kind == StraightLine then Engine.DepreciationSL(x[0], x[1], x[2])
      else
        match ParseInt(env, s.deprYear)
        case Err(m) => Err(m)
        case Ok(year) =>
          if kind == DoubleDeclining then Engine.DecliningBalance(x[0], x[1], x[2], year, 2.0)
          else Engine.DepreciationSYD(x[0], x[1], x[2], year)
  }

  function DeprLabel(kind: DeprCalc): string
  {
    match kind
    case StraightLine => "DEP SL"
    case DoubleDeclining => "DEP DB"
    case SumOfYears => "DEP SYD"
  }

  function DeprLogLine(s: Financial, kind: DeprCalc, shown: string): string
  {
    match kind
    case StraightLine => "Depr. Linear = " + shown
    case DoubleDeclining => "Depr. DB Ano " + s.deprYear + " = " + shown
    case SumOfYears => "Depr. SYD Ano " + s.deprYear + " = " + shown
  }

  /** `calcDepreciationSL`, `calcDepreciationDB` and `calcDepreciationSYD`:
      every failure is labelled "DEP". */
  function DeprStep(env: Env, s: Financial, kind: DeprCalc): Financial
  {
    match DeprOutcome(env, s, kind)
    case Ok(v) => Succeed(s, DeprLabel(kind), env.format(v), DeprLogLine(s, kind, env.format(v)))
    case Err(m) => Fail(s, "DEP", m)
  }

  // ---------------------------------------------------------------------------
  // Every action

  datatype Action =
    | Update(field: Field, value: string)
    | SetTab(tab: Tab)
    | ToggleBeginMode
    | UpdateCashFlow(index: nat, value: string)
    | AddCashFlow
    | RemoveCashFlow(index: nat)
    | Tvm(kind: TvmCalc)
    | Amortize
    | Npv
    | Irr
    | Depreciate(rule: DeprCalc)
    | ClearLog

  function Step(env: Env, s: Financial, a: Action): Financial
  {
    match a
    case Update(field, value) => SetField(s, field, value)
    case SetTab(tab) => SetActiveTabStep(s, tab)
    case ToggleBeginMode => s.(beginMode := !s.beginMode)
    case UpdateCashFlow(index, value) => UpdateCashFlowStep(s, index, value)
    case AddCashFlow => AddCashFlowStep(s)
    case RemoveCashFlow(index) => RemoveCashFlowStep(s, index)
    case Tvm(kind) => TvmStep(env, s, kind)
    case Amortize => AmortizationStep(env, s)
    case Npv => NpvStep(env, s)
    case Irr => IrrStep(env, s)
    case Depreciate(rule) => DeprStep(env, s, rule)
    case ClearLog => s.(log := [])
  }

  function Run(env: Env, s: Financial, actions: seq<Action>): Financial
  {
    if actions == [] then s else Step(env, Run(env, s, actions[..|actions| - 1]), actions[|actions| - 1])
  }

  // ---------------------------------------------------------------------------
  // Properties

  /** Setting a field changes that field alone. */
  lemma SetFieldIsLocal(s: Financial, field: Field, other: Field, value: string)
    ensures GetField(SetField(s, field, value), field) == value
    ensures other != field ==> GetField(SetField(s, field, value), other) == GetField(s, other)
    ensures SetField(s, field, value).(n := s.n, rate := s.rate, pv := s.pv, pmt := s.pmt, fv := s.fv,
              amortPrincipal := s.amortPrincipal, amortRate := s.amortRate, amortPeriods := s.amortPeriods,
              cashFlowRate := s.cashFlowRate, deprCost := s.deprCost, deprSalvage := s.deprSalvage,
              deprLife := s.deprLife, deprYear := s.deprYear) == s
  {
  }

  /** Every action keeps at least one cash flow row. */
  lemma StepKeepsValid(env: Env, s: Financial, a: Action)
    requires Valid(s)
    ensures Valid(Step(env, s, a))
  {
  }

  lemma {:induction false} AlwaysValid(env: Env, actions: seq<Action>)
    ensures Valid(Run(env, Initial(), actions))
  {
    if actions != [] {
      AlwaysValid(env, actions[..|actions| - 1]);
      StepKeepsValid(env, Run(env, Initial(), actions[..|actions| - 1]), actions[|actions| - 1]);
    }
  }

  /** The cash flow list: update replaces one row inside the list and ignores
      an index past the end; add appends an empty row; remove drops the row at
      the index only when another row is left. */
  lemma CashFlowEdits(s: Financial, index: nat, value: string)
    ensures index < |s.cashFlows| ==> UpdateCashFlowStep(s, index, value).cashFlows == s.cashFlows[index := value]
    ensures index >= |s.cashFlows| ==> UpdateCashFlowStep(s, index, value) == s
    ensures AddCashFlowStep(s).cashFlows == s.cashFlows + [""]
    ensures |s.cashFlows| <= 1 || index >= |s.cashFlows| ==> RemoveCashFlowStep(s, index) == s
    ensures |s.cashFlows| > 1 && index < |s.cashFlows| ==>
            |RemoveCashFlowStep(s, index).cashFlows| == |s.cashFlows| - 1 &&
            (forall j :: 0 <= j < index ==> RemoveCashFlowStep(s, index).cashFlows[j] == s.cashFlows[j]) &&
            (forall j :: index < j < |s.cashFlows| ==> RemoveCashFlowStep(s, index).cashFlows[j - 1] == s.cashFlows[j])
  {
  }

  /** Only a successful calculation adds to the log, one line at the top; a
      failure and every other action except clearing leave it as it was. */
  lemma LogGrowsByOneLine(env: Env, s: Financial, a: Action)
    ensures a == ClearLog ==> Step(env, s, a).log == []
    ensures a != ClearLog ==>
            Step(env, s, a).log == s.log ||
            (|Step(env, s, a).log| == |s.log| + 1 && Step(env, s, a).log[1..] == s.log)
  {
  }

  /** `tvmCalc`: a success shows the formatted value, labels it and logs
      "label = value"; a failure shows the message after "Erro: " under the
      same label and logs nothing. */
  lemma TvmOutcomes(env: Env, s: Financial, kind: TvmCalc)
    ensures TvmStep(env, s, kind).resultLabel == TvmLabel(kind)
    ensures TvmOutcome(env, s, kind).Ok? ==>
            var shown := env.format(TvmOutcome(env, s, kind).value);
            TvmStep(env, s, kind).result == shown &&
            TvmStep(env, s, kind).log == [TvmLabel(kind) + " = " + shown] + s.log
    ensures TvmOutcome(env, s, kind).Err? ==>
            TvmStep(env, s, kind).result == "Erro: " + TvmOutcome(env, s, kind).error &&
            TvmStep(env, s, kind).log == s.log
    ensures TvmStep(env, s, kind).(result := s.result, resultLabel := s.resultLabel, log := s.log) == s
  {
  }

  /** Only `calcN` can fail once its fields parse, and only as `periods`
      does; the other four always show a value then. */
  lemma TvmFailures(env: Env, s: Financial, kind: TvmCalc)
    requires ParseReals(env, TvmInputs(s, kind)).Ok?
    ensures kind != CalcN ==> TvmOutcome(env, s, kind).Ok?
    ensures kind == CalcN ==>
            var x := ParseReals(env, TvmInputs(s, kind)).value;
            TvmOutcome(env, s, kind) == Engine.Periods(env.lib, x[0], x[1], x[2], x[3], s.beginMode)
  {
  }

  /** With a rate of 0 and no payment, `calcN` shows the engine's message. */
  lemma PeriodsWithoutPayment(env: Env, s: Financial)
    requires env.toDouble(s.rate) == Some(0.0) && env.toDouble(s.pmt) == Some(0.0)
    requires env.toDouble(s.pv).Some? && env.toDouble(s.fv).Some?
    ensures TvmStep(env, s, CalcN) == Fail(s, "N", "Impossível calcular N")
  {
    var texts := TvmInputs(s, CalcN);
    assert texts == [s.rate, s.pv, s.pmt, s.fv];
    var x := [0.0, env.toDouble(s.pv).value, 0.0, env.toDouble(s.fv).value];
    var r := ParseReals(env, texts);
    assert r.Ok? && |r.value| == 4;
    assert r.value[0] == x[0] && r.value[2] == x[2];
    assert Engine.Periods(env.lib, r.value[0], r.value[1], r.value[2], r.value[3], s.beginMode) == Err("Impossível calcular N");
  }

  /** The first field that does not parse names the error, in the order the
      calculation reads its fields. */
  lemma FirstBadFieldReported(env: Env, s: Financial)
    requires env.toDouble(s.n).None?
    ensures TvmStep(env, s, CalcFV).result == "Erro: " + env.doubleMessage(s.n)
    ensures TvmStep(env, s, CalcRate).result == "Erro: " + env.doubleMessage(s.n)
  {
  }

  /** `calcAmortization`: a field that does not parse leaves the table alone; a
      period count below 1 empties it and fails on the empty list; otherwise
      the table is the engine's and the first instalment is shown and
      logged. */
  lemma AmortizationOutcomes(env: Env, s: Financial)
    ensures AmortizationStep(env, s).resultLabel == "AMORT"
    ensures (env.toDouble(s.amortPrincipal).None? || env.toDouble(s.amortRate).None? || env.toInt(s.amortPeriods).None?) ==>
            AmortizationStep(env, s).amortSchedule == s.amortSchedule && AmortizationStep(env, s).log == s.log
    ensures env.toDouble(s.amortPrincipal).Some? && env.toDouble(s.amortRate).Some? && env.toInt(s.amortPeriods).Some? ==>
            var periods := env.toInt(s.amortPeriods).value;
            var schedule := Engine.Schedule(env.lib, env.toDouble(s.amortPrincipal).value, env.toDouble(s.amortRate).value, periods);
            AmortizationStep(env, s).amortSchedule == schedule &&
            (periods < 1 ==> schedule == [] && AmortizationStep(env, s) == Fail(s.(amortSchedule := []), "AMORT", "List is empty.")) &&
            (periods >= 1 ==> |schedule| == periods &&
                              AmortizationStep(env, s).result == "Parcela: " + env.format(schedule[0].payment) &&
                              |AmortizationStep(env, s).log| == |s.log| + 1)
  {
    var texts := [s.amortPrincipal, s.amortRate];
    assert texts[0] == s.amortPrincipal && texts[1] == s.amortRate;
    match ParseReals(env, texts) {
      case Err(m) =>
        assert AmortizationStep(env, s) == Fail(s, "AMORT", m);
      case Ok(x) =>
        assert x == [env.toDouble(s.amortPrincipal).value, env.toDouble(s.amortRate).value];
        match env.toInt(s.amortPeriods) {
          case None =>
            assert AmortizationStep(env, s) == Fail(s, "AMORT", env.intMessage(s.amortPeriods));
          case Some(periods) =>
            AmortizationParsed(env, s, x[0], x[1], periods);
            Engine.ScheduleLength(env.lib, x[0], x[1], periods);
            TabledOutcomes(env, s, Engine.Schedule(env.lib, x[0], x[1], periods));
        }
    }
  }

  /** `calcAmortization` once its three fields parse. */
  lemma AmortizationParsed(env: Env, s: Financial, principal: real, rate: real, periods: int)
    requires ParseReals(env, [s.amortPrincipal, s.amortRate]) == Ok([principal, rate])
    requires env.toInt(s.amortPeriods) == Some(periods)
    ensures AmortizationStep(env, s) == Tabled(env, s, Engine.Schedule(env.lib, principal, rate, periods))
  {
  }

  /** What the table shows: its first instalment, or the empty list's error. */
  lemma TabledOutcomes(env: Env, s: Financial, schedule: seq<Engine.AmortRow>)
    ensures Tabled(env, s, schedule).resultLabel == "AMORT" && Tabled(env, s, schedule).amortSchedule == schedule
    ensures schedule == [] ==> Tabled(env, s, schedule) == Fail(s.(amortSchedule := []), "AMORT", "List is empty.")
    ensures schedule != [] ==> Tabled(env, s, schedule).result == "Parcela: " + env.format(schedule[0].payment) &&
                               |Tabled(env, s, schedule).log| == |s.log| + 1
  {
  }

  /** The screen starts with one empty cash flow, which `toDouble` rejects, so
      the net present value and the internal rate fail, logging nothing, while
      any flow is left empty. */
  lemma BlankFlowFails(env: Env, s: Financial)
    requires env.toDouble("") == None
    ensures "" in s.cashFlows ==>
            NpvStep(env, s).log == s.log && IrrStep(env, s).log == s.log &&
            NpvStep(env, s).result[..6] == "Erro: " && IrrStep(env, s).result[..6] == "Erro: "
    ensures NpvStep(env, Initial()).result == "Erro: " + env.doubleMessage("")
    ensures IrrStep(env, Initial()).result == "Erro: " + env.doubleMessage("")
  {
    if "" in s.cashFlows {
      var k :| 0 <= k < |s.cashFlows| && s.cashFlows[k] == "";
      assert ParseReals(env, s.cashFlows).Err?;
    }
  }

  /** With every flow parsed, the internal rate is the bisection's, shown as a
      percentage, and lies inside the bracket. */
  lemma IrrOutcome(env: Env, s: Financial)
    requires ParseReals(env, s.cashFlows).Ok?
    ensures var r := Engine.Bisection(env.lib, ParseReals(env, s.cashFlows).value, Engine.BracketLow, Engine.BracketHigh, Engine.MaxIterations);
            IrrStep(env, s).result == env.formatPercent(r) &&
            IrrStep(env, s).log == ["IRR = " + env.formatPercent(r)] + s.log
  {
  }

  /** Every depreciation failure is labelled "DEP"; a straight line with a life
      of 0 or less fails with the engine's message. */
  lemma DepreciationOutcomes(env: Env, s: Financial, kind: DeprCalc)
    ensures DeprOutcome(env, s, kind).Err? ==> DeprStep(env, s, kind).resultLabel == "DEP" && DeprStep(env, s, kind).log == s.log
    ensures DeprOutcome(env, s, kind).Ok? ==> DeprStep(env, s, kind).resultLabel == DeprLabel(kind) &&
                                              |DeprStep(env, s, kind).log| == |s.log| + 1
    ensures env.toDouble(s.deprCost).Some? && env.toDouble(s.deprSalvage).Some? &&
            env.toDouble(s.deprLife).Some? && env.toDouble(s.deprLife).value <= 0.0 ==>
            DeprStep(env, s, StraightLine) == Fail(s, "DEP", "Vida útil inválida")
  {
    match DeprOutcome(env, s, kind) {
      case Ok(v) =>
        assert DeprStep(env, s, kind) == Succeed(s, DeprLabel(kind), env.format(v), DeprLogLine(s, kind, env.format(v)));
      case Err(m) =>
        assert DeprStep(env, s, kind) == Fail(s, "DEP", m);
    }
    if env.toDouble(s.deprCost).Some? && env.toDouble(s.deprSalvage).Some? &&
       env.toDouble(s.deprLife).Some? && env.toDouble(s.deprLife).value <= 0.0 {
      ShortLifeFails(env, s);
    }
  }

  /** A straight line over a life of 0 or less shows the engine's message. */
  lemma ShortLifeFails(env: Env, s: Financial)
    requires env.toDouble(s.deprCost).Some? && env.toDouble(s.deprSalvage).Some? && env.toDouble(s.deprLife).Some?
    requires env.toDouble(s.deprLife).value <= 0.0
    ensures DeprStep(env, s, StraightLine) == Fail(s, "DEP", "Vida útil inválida")
  {
    LifeReachesEngine(env, s.deprCost, s.deprSalvage, s.deprLife);
    var x := [env.toDouble(s.deprCost).value, env.toDouble(s.deprSalvage).value, env.toDouble(s.deprLife).value];
    assert ParseReals(env, [s.deprCost, s.deprSalvage, s.deprLife]) == Ok(x);
    assert Engine.DepreciationSL(x[0], x[1], x[2]).Err?;
  }

  /** The three depreciation fields parse, in order, to their own values. */
  lemma LifeReachesEngine(env: Env, cost: string, salvage: string, life: string)
    requires env.toDouble(cost).Some? && env.toDouble(salvage).Some? && env.toDouble(life).Some?
    ensures ParseReals(env, [cost, salvage, life]) ==
            Ok([env.toDouble(cost).value, env.toDouble(salvage).value, env.toDouble(life).value])
  {
    var texts := [cost, salvage, life];
    assert forall i :: 0 <= i < |texts| ==> env.toDouble(texts[i]).Some?;
    var r := ParseReals(env, texts);
    assert r.value == [env.toDouble(cost).value, env.toDouble(salvage).value, env.toDouble(life).value];
  }

  /** Switching tabs clears the result and its caption and nothing else. */
  lemma SetTabClearsResult(s: Financial, tab: Tab)
    ensures SetActiveTabStep(s, tab).result == "" && SetActiveTabStep(s, tab).resultLabel == ""
    ensures SetActiveTabStep(s, tab).(activeTab := s.activeTab, result := s.result, resultLabel := s.resultLabel) == s
  {
  }

  // ---------------------------------------------------------------------------
  // The view model

  class FinancialViewModel {
    var n: string
    var rate: string
    var pv: string
    var pmt: string
    var fv: string
    var beginMode: bool
    var result: string
    var resultLabel: string
    var log: seq<string>
    var activeTab: Tab
    var amortPrincipal: string
    var amortRate: string
    var amortPeriods: string
    var amortSchedule: seq<Engine.AmortRow>
    var cashFlowRate: string
    var cashFlows: seq<string>
    var deprCost: string
    var deprSalvage: string
    var deprLife: string
    var deprYear: string
    const env: Env

    function State(): Financial
      reads this
    {
      Financial(n, rate, pv, pmt, fv, beginMode, result, resultLabel, log, activeTab,
                amortPrincipal, amortRate, amortPeriods, amortSchedule, cashFlowRate, cashFlows,
                deprCost, deprSalvage, deprLife, deprYear)
    }

    constructor(env: Env)
      ensures State() == Initial() && this.env == env
    {
      this.env := env;
      n, rate, pv, pmt, fv := "", "", "", "", "";
      beginMode := false;
      result, resultLabel := "", "";
      log := [];
      activeTab := TVM;
      amortPrincipal, amortRate, amortPeriods := "", "", "";
      amortSchedule := [];
      cashFlowRate := "";
      cashFlows := [""];
      deprCost, deprSalvage, deprLife, deprYear := "", "", "", "";
    }

    method SetActiveTab(tab: Tab)
      modifies this
      ensures State() == SetActiveTabStep(old(State()), tab)
    {
      activeTab := tab;
      result := "";
      resultLabel := "";
    }

    method ToggleBeginMode()
      modifies this
      ensures State() == old(State()).(beginMode := !old(beginMode))
    {
      beginMode := !beginMode;
    }

    method UpdateN(value: string)
      modifies this
      ensures State() == SetField(old(State()), NField, value)
    {
      n := value;
    }

    method UpdateRate(value: string)
      modifies this
      ensures State() == SetField(old(State()), RateField, value)
    {
      rate := value;
    }

    method UpdatePV(value: string)
      modifies this
      ensures State() == SetField(old(State()), PvField, value)
    {
      pv := value;
    }

    method UpdatePMT(value: string)
      modifies this
      ensures State() == SetField(old(State()), PmtField, value)
    {
      pmt := value;
    }

    method UpdateFV(value: string)
      modifies this
      ensures State() == SetField(old(State()), FvField, value)
    {
      fv := value;
    }

    method UpdateAmortPrincipal(value: string)
      modifies this
      ensures State() == SetField(old(State()), AmortPrincipalField, value)
    {
      amortPrincipal := value;
    }

    method UpdateAmortRate(value: string)
      modifies this
      ensures State() == SetField(old(State()), AmortRateField, value)
    {
      amortRate := value;
    }

    method UpdateAmortPeriods(value: string)
      modifies this
      ensures State() == SetField(old(State()), AmortPeriodsField, value)
    {
      amortPeriods := value;
    }

    method UpdateCashFlowRate(value: string)
      modifies this
      ensures State() == SetField(old(State()), CashFlowRateField, value)
    {
      cashFlowRate := value;
    }

    method UpdateDeprCost(value: string)
      modifies this
      ensures State() == SetField(old(State()), DeprCostField, value)
    {
      deprCost := value;
    }

    method UpdateDeprSalvage(value: string)
      modifies this
      ensures State() == SetField(old(State()), DeprSalvageField, value)
    {
      deprSalvage := value;
    }

    method UpdateDeprLife(value: string)
      modifies this
      ensures State() == SetField(old(State()), DeprLifeField, value)
    {
      deprLife := value;
    }

    method UpdateDeprYear(value: string)
      modifies this
      ensures State() == SetField(old(State()), DeprYearField, value)
    {
      deprYear := value;
    }

    method UpdateCashFlow(index: nat, value: string)
      modifies this
      ensures State() == UpdateCashFlowStep(old(State()), index, value)
    {
      if index < |cashFlows| {
        cashFlows := cashFlows[index := value];
      }
    }

    method AddCashFlow()
      modifies this
      ensures State() == AddCashFlowStep(old(State()))
    {
      cashFlows := cashFlows + [""];
    }

    method RemoveCashFlow(index: nat)
      modifies this
      ensures State() == RemoveCashFlowStep(old(State()), index)
    {
      if |cashFlows| > 1 && index < |cashFlows| {
        cashFlows := cashFlows[..index] + cashFlows[index + 1..];
      }
    }

    /** The `try` of `tvmCalc` and its `catch`. */
    method Record(caption: string, outcome: Result<real, string>)
      modifies this
      ensures outcome.Ok? ==> State() == Succeed(old(State()), caption, env.format(outcome.value), caption + " = " + env.format(outcome.value))
      ensures outcome.Err? ==> State() == Fail(old(State()), caption, outcome.error)
    {
      if outcome.Ok? {
        result := env.format(outcome.value);
        resultLabel := caption;
        log := [caption + " = " + result] + log;
      } else {
        result := "Erro: " + outcome.error;
        resultLabel := caption;
      }
    }

    method CalcFV()
      modifies this
      ensures State() == TvmStep(env, old(State()), TvmCalc.CalcFV)
    {
      var outcome: Result<real, string>;
      match ParseReals(env, [n, rate, pv, pmt]) {
        case Err(m) => outcome := Err(m);
        case Ok(x) => outcome := Ok(Engine.FutureValue(env.lib, x[0], x[1], x[2], x[3], beginMode));
      }
      Record("FV", outcome);
    }

    method CalcPV()
      modifies this
      ensures State() == TvmStep(env, old(State()), TvmCalc.CalcPV)
    {
      var outcome: Result<real, string>;
      match ParseReals(env, [n, rate, pmt, fv]) {
        case Err(m) => outcome := Err(m);
        case Ok(x) => outcome := Ok(Engine.PresentValue(env.lib, x[0], x[1], x[2], x[3], beginMode));
      }
      Record("PV", outcome);
    }

    method CalcPMT()
      modifies this
      ensures State() == TvmStep(env, old(State()), TvmCalc.CalcPMT)
    {
      var outcome: Result<real, string>;
      match ParseReals(env, [n, rate, pv, fv]) {
        case Err(m) => outcome := Err(m);
        case Ok(x) => outcome := Ok(Engine.Payment(env.lib, x[0], x[1], x[2], x[3], beginMode));
      }
      Record("PMT", outcome);
    }

    method CalcN()
      modifies this
      ensures State() == TvmStep(env, old(State()), TvmCalc.CalcN)
    {
      var outcome: Result<real, string>;
      match ParseReals(env, [rate, pv, pmt, fv]) {
        case Err(m) => outcome := Err(m);
        case Ok(x) => outcome := Engine.Periods(env.lib, x[0], x[1], x[2], x[3], beginMode);
      }
      Record("N", outcome);
    }

    method CalcRate()
      modifies this
      ensures State() == TvmStep(env, old(State()), TvmCalc.CalcRate)
    {
      var outcome: Result<real, string>;
      match ParseReals(env, [n, pv, pmt, fv]) {
        case Err(m) => outcome := Err(m);
        case Ok(x) =>
          var r := Engine.InterestRate(env.lib, x[0], x[1], x[2], x[3], beginMode);
          outcome := Ok(r);
      }
      Record("i%", outcome);
    }

    /** A calculation that succeeded: `result`, `resultLabel` and a new first log line. */
    method RecordSuccess(caption: string, shown: string, line: string)
      modifies this
      ensures State() == Succeed(old(State()), caption, shown, line)
    {
      result := shown;
      resultLabel := caption;
      log := [line] + log;
    }

    /** A calculation that threw: only `result` and `resultLabel` change. */
    method RecordFailure(caption: string, message: string)
      modifies this
      ensures State() == Fail(old(State()), caption, message)
    {
      result := "Erro: " + message;
      resultLabel := caption;
    }

    method CalcAmortization()
      modifies this
      ensures State() == AmortizationStep(env, old(State()))
    {
      match ParseReals(env, [amortPrincipal, amortRate]) {
        case Err(m) => RecordFailure("AMORT", m);
        case Ok(x) =>
          match ParseInt(env, amortPeriods) {
            case Err(m) => RecordFailure("AMORT", m);
            case Ok(periods) =>
              var schedule := Engine.AmortizationSchedule(env.lib, x[0], x[1], periods);
              ghost var s := old(State());
              assert AmortizationStep(env, s) == Tabled(env, s, schedule);
              amortSchedule := schedule;
              if schedule == [] {
                RecordFailure("AMORT", "List is empty.");
              } else {
                var instalment := env.format(schedule[0].payment);
                RecordSuccess("AMORT", "Parcela: " + instalment, "Amortização: " + amortPeriods + "x de " + instalment);
              }
          }
      }
    }

    method CalcNPV()
      modifies this
      ensures State() == NpvStep(env, old(State()))
    {
      match ParseReals(env, cashFlows) {
        case Err(m) => RecordFailure("NPV", m);
        case Ok(flows) =>
          match ParseReal(env, cashFlowRate) {
            case Err(m) => RecordFailure("NPV", m);
            case Ok(r) =>
              var value := Engine.Npv(env.lib, r, flows);
              var shown := env.format(value);
              RecordSuccess("NPV", shown, "NPV = " + shown);
          }
      }
    }

    method CalcIRR()
      modifies this
      ensures State() == IrrStep(env, old(State()))
    {
      match ParseReals(env, cashFlows) {
        case Err(m) => RecordFailure("IRR", m);
        case Ok(flows) =>
          var value := Engine.Irr(env.lib, flows);
          var shown := env.formatPercent(value);
          RecordSuccess("IRR", shown, "IRR = " + shown);
      }
    }

    /** `calcDepreciationSL`, `calcDepreciationDB` and `calcDepreciationSYD`. */
    method CalcDepreciation(kind: DeprCalc)
      modifies this
      ensures State() == DeprStep(env, old(State()), kind)
    {
      var outcome: Result<real, string>;
      match ParseReals(env, [deprCost, deprSalvage, deprLife]) {
        case Err(m) => outcome := Err(m);
        case Ok(x) =>
          if kind == StraightLine {
            outcome := Engine.DepreciationSL(x[0], x[1], x[2]);
          } else {
            match ParseInt(env, deprYear) {
              case Err(m) => outcome := Err(m);
              case Ok(year) =>
                if kind == DoubleDeclining {
                  outcome := Engine.DepreciationDB(x[0], x[1], x[2], year, 2.0);
                } else {
                  outcome := Engine.DepreciationSYD(x[0], x[1], x[2], year);
                }
            }
          }
      }
      assert outcome == DeprOutcome(env, State(), kind);
      match outcome {
        case Ok(v) =>
          var shown := env.format(v);
          RecordSuccess(DeprLabel(kind), shown, DeprLogLine(State(), kind, shown));
        case Err(m) => RecordFailure("DEP", m);
      }
    }

    method ClearLog()
      modifies this
      ensures State() == old(State()).(log := [])
    {
      log := [];
    }
  }
}
