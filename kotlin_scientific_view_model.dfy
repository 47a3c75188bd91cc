/** The Android scientific screen's state: it builds the expression text key by
    key, evaluates it with the Android expression parser on `=`, and remembers
    whether the last key produced a result, in which case the next entry
    replaces the text instead of extending it. Each operation is a function on
    a `Builder` value; the class `ScientificViewModel` updates its fields in
    place and each of its methods is proved to agree with the function. */
module KotlinScientificViewModel {
  import opened Common
  import Parser = KotlinExpressionParser
  import Engine = KotlinScientificEngine

  /** What the screen depends on besides its state: the math library,
      `toDoubleOrNull`, `ScientificEngine.format` and `Int.toString`. */
  datatype Env = Env(lib: Lib, toDouble: string -> Option<real>, format: real -> string,
                     intText: int -> string)

  datatype Builder = Builder(
    expression: string,
    result: string,
    useDegrees: bool,
    secondMode: bool,
    memory: real,
    hasMemory: bool,
    lastResult: real,
    justEvaluated: bool)

  /** The keys a user can press, one per public method. */
  datatype Key =
    | DigitKey(digit: string)
    | OperatorKey(op: string)
    | FunctionKey(func: string)
    | ConstantKey(name: string)
    | ParenOpenKey
    | ParenCloseKey
    | DecimalKey
    | BackspaceKey
    | ClearKey
    | EqualsKey
    | PercentKey
    | NegateKey
    | FactorialKey
    | SquareKey
    | CubeKey
    | ReciprocalKey
    | PowerKey
    | MemoryClearKey
    | MemoryRecallKey
    | MemoryAddKey
    | MemorySubtractKey
    | AngleKey
    | SecondKey

  function Initial(): Builder
  {
    Builder("", "0", true, false, 0.0, false, 0.0, false)
  }

  /** A parser for the current expression: no variable is bound. */
  function ParserEnv(env: Env, k: Builder): Parser.Env
  {
    Parser.Env(k.useDegrees, None, env.lib, env.toDouble)
  }

  /** `ExpressionParser(expression, useDegrees).parse()`. */
  function Evaluate(env: Env, k: Builder): Result<real, Parser.ParseError>
  {
    Parser.EvaluateText(ParserEnv(env, k), k.expression)
  }

  // ---------------------------------------------------------------------------
  // Transitions

  /** The text a constant key inserts. */
  function ConstantText(name: string): string
  {
    if name == "π" then "pi" else if name == "e" then "e" else if name == "φ" then "phi" else name
  }

  /** Entry keys start a new expression after a result and extend it otherwise. */
  function Enter(k: Builder, text: string): Builder
  {
    if k.justEvaluated then k.(expression := text, justEvaluated := false)
    else k.(expression := k.expression + text)
  }

  /** Operator keys always extend the expression. */
  function Extend(k: Builder, text: string): Builder
  {
    k.(expression := k.expression + text, justEvaluated := false)
  }

  function FunctionStep(k: Builder, func: string): Builder
  {
    if k.justEvaluated then k.(expression := func + "(" + k.result + ")", justEvaluated := false)
    else k.(expression := k.expression + func + "(")
  }

  function DecimalStep(k: Builder): Builder
  {
    if k.justEvaluated then k.(expression := "0.", justEvaluated := false)
    else k.(expression := k.expression + ".")
  }

  function BackspaceStep(k: Builder): Builder
  {
    var e := if |k.expression| > 0 then k.expression[..|k.expression| - 1] else k.expression;
    k.(expression := e, justEvaluated := false)
  }

  function ClearStep(k: Builder): Builder
  {
    k.(expression := "", result := "0", justEvaluated := false)
  }

  function EqualsStep(env: Env, k: Builder): Builder
  {
    if k.expression == [] then k
    else
      match Evaluate(env, k)
      case Ok(v) => k.(lastResult := v, result := env.format(v), justEvaluated := true)
      case Err(_) => k.(result := "Erro")
  }

  /** The shared shape of `%`, x², x³ and 1/x: evaluate, apply, and show the
      result as the new expression. */
  function UnaryStep(env: Env, k: Builder, op: real -> Engine.Outcome): Builder
  {
    match Evaluate(env, k)
    case Err(_) => k.(result := "Erro")
    case Ok(v) =>
      match op(v)
      case Err(_) => k.(result := "Erro")
      case Ok(r) =>
        k.(lastResult := r, result := env.format(r), expression := env.format(r),
           justEvaluated := true)
  }

  /** The operations of `%`, x² and x³, which never fail. */
  function Hundredth(v: real): Engine.Outcome
  {
    Ok(v / 100.0)
  }

  function SquareOf(v: real): Engine.Outcome
  {
    Ok(Engine.Square(v))
  }

  function CubeOf(v: real): Engine.Outcome
  {
    Ok(Engine.Cube(v))
  }

  function PercentStep(env: Env, k: Builder): Builder
  {
    UnaryStep(env, k, Hundredth)
  }

  function NegateStep(k: Builder): Builder
  {
    if |k.expression| == 0 then k
    else if k.expression[0] == '-' then k.(expression := k.expression[1..])
    else k.(expression := "-" + k.expression)
  }

  /** `x!`: the value is truncated to an Int, and the expression becomes
      "n!". */
  function FactorialStep(env: Env, k: Builder): Builder
  {
    match Evaluate(env, k)
    case Err(_) => k.(result := "Erro")
    case Ok(v) => FactorialOf(env, k, v)
  }

  /** `x!` once the expression is worth v. */
  function FactorialOf(env: Env, k: Builder, v: real): Builder
  {
    var n := SaturateInt(Trunc(v));
    match Engine.Factorial(n)
    case Err(_) => k.(result := "Erro")
    case Ok(r) =>
      k.(lastResult := r, result := env.format(r), expression := env.intText(n) + "!",
         justEvaluated := true)
  }

  function MemoryRecallStep(env: Env, k: Builder): Builder
  {
    Enter(k, env.format(k.memory))
  }

  function MemoryAddStep(env: Env, k: Builder): Builder
  {
    match Evaluate(env, k)
    case Err(_) => k
    case Ok(v) => k.(memory := k.memory + v, hasMemory := true)
  }

  function MemorySubtractStep(env: Env, k: Builder): Builder
  {
    match Evaluate(env, k)
    case Err(_) => k
    case Ok(v) => k.(memory := k.memory - v, hasMemory := true)
  }

  function Step(env: Env, k: Builder, key: Key): Builder
  {
    match key
    case DigitKey(d) => Enter(k, d)
    case OperatorKey(op) => Extend(k, op)
    case FunctionKey(f) => FunctionStep(k, f)
    case ConstantKey(name) => Enter(k, ConstantText(name))
    case ParenOpenKey => Enter(k, "(")
    case ParenCloseKey => Extend(k, ")")
    case DecimalKey => DecimalStep(k)
    case BackspaceKey => BackspaceStep(k)
    case ClearKey => ClearStep(k)
    case EqualsKey => EqualsStep(env, k)
    case PercentKey => PercentStep(env, k)
    case NegateKey => NegateStep(k)
    case FactorialKey => FactorialStep(env, k)
    case SquareKey => UnaryStep(env, k, SquareOf)
    case CubeKey => UnaryStep(env, k, CubeOf)
    case ReciprocalKey => UnaryStep(env, k, Engine.Reciprocal)
    case PowerKey => Extend(k, "^")
    case MemoryClearKey => k.(memory := 0.0, hasMemory := false)
    case MemoryRecallKey => MemoryRecallStep(env, k)
    case MemoryAddKey => MemoryAddStep(env, k)
    case MemorySubtractKey => MemorySubtractStep(env, k)
    case AngleKey => k.(useDegrees := !k.useDegrees)
    case SecondKey => k.(secondMode := !k.secondMode)
  }

  /** The state after pressing the keys in order. */
  function Run(env: Env, k: Builder, keys: seq<Key>): Builder
  {
    if keys == [] then k else Step(env, Run(env, k, keys[..|keys| - 1]), keys[|keys| - 1])
  }

  /** The keys that insert text: digits, constants, '(' and '.'. */
  predicate IsEntry(key: Key)
  {
    key.DigitKey? || key.ConstantKey? || key.ParenOpenKey? || key.DecimalKey?
  }

  /** The text an entry key inserts into an expression that continues. */
  function EntryText(key: Key): string
    requires IsEntry(key)
  {
    match key
    case DigitKey(d) => d
    case ConstantKey(name) => ConstantText(name)
    case ParenOpenKey => "("
    case DecimalKey => "."
  }

  /** The text the entry keys spell one after another. */
  function Spelled(keys: seq<Key>): string
    requires forall i :: 0 <= i < |keys| ==> IsEntry(keys[i])
  {
    if keys == [] then "" else Spelled(keys[..|keys| - 1]) + EntryText(keys[|keys| - 1])
  }

  // ---------------------------------------------------------------------------
  // Properties

  /** Digits, constants, '(' and '.' replace the expression right after a result
      and extend it otherwise; either way the next key continues it. The '.' key
      starts a fresh expression as "0.". */
  lemma EntryReplacesOrExtends(env: Env, k: Builder, key: Key)
    requires IsEntry(key)
    ensures !Step(env, k, key).justEvaluated
    ensures !k.justEvaluated ==> Step(env, k, key).expression == k.expression + EntryText(key)
    ensures k.justEvaluated && !key.DecimalKey? ==> Step(env, k, key).expression == EntryText(key)
    ensures k.justEvaluated && key.DecimalKey? ==> Step(env, k, key).expression == "0."
    ensures Step(env, k, key) == k.(expression := Step(env, k, key).expression, justEvaluated := false)
  {
  }

  /** Entry keys pressed while an expression is being built extend it by the
      text they spell, and touch nothing else the screen shows. */
  lemma {:induction false} TypedEntries(env: Env, k: Builder, keys: seq<Key>)
    requires forall i :: 0 <= i < |keys| ==> IsEntry(keys[i])
    requires !k.justEvaluated
    ensures Run(env, k, keys).expression == k.expression + Spelled(keys)
    ensures !Run(env, k, keys).justEvaluated
    ensures Run(env, k, keys).result == k.result && Run(env, k, keys).memory == k.memory
  {
    if keys != [] {
      var front := keys[..|keys| - 1];
      assert forall i :: 0 <= i < |front| ==> IsEntry(front[i]) by {
        forall i | 0 <= i < |front| ensures IsEntry(front[i]) { assert front[i] == keys[i]; }
      }
      TypedEntries(env, k, front);
      var last := keys[|keys| - 1];
      TypedOneMore(env, k, Run(env, k, front), Spelled(front), last);
      assert Spelled(keys) == Spelled(front) + EntryText(last);
    }
  }

  /** One more entry key while an expression is being built. */
  lemma TypedOneMore(env: Env, k: Builder, before: Builder, spelled: string, key: Key)
    requires IsEntry(key) && !before.justEvaluated
    requires before.expression == k.expression + spelled
    requires before.result == k.result && before.memory == k.memory
    ensures Step(env, before, key).expression == k.expression + (spelled + EntryText(key))
    ensures !Step(env, before, key).justEvaluated
    ensures Step(env, before, key).result == k.result && Step(env, before, key).memory == k.memory
  {
    EntryReplacesOrExtends(env, before, key);
  }

  /** Operators, ')' and '^' always extend the expression and end the result
      state. */
  lemma OperatorsExtend(env: Env, k: Builder, op: string)
    ensures Step(env, k, OperatorKey(op)) == k.(expression := k.expression + op, justEvaluated := false)
    ensures Step(env, k, PowerKey) == k.(expression := k.expression + "^", justEvaluated := false)
    ensures Step(env, k, ParenCloseKey) == k.(expression := k.expression + ")", justEvaluated := false)
  {
  }

  /** After a result a function key wraps it; otherwise it opens a call. */
  lemma FunctionWrapsResult(env: Env, k: Builder, func: string)
    ensures k.justEvaluated ==> Step(env, k, FunctionKey(func)).expression == func + "(" + k.result + ")"
    ensures !k.justEvaluated ==> Step(env, k, FunctionKey(func)).expression == k.expression + func + "("
    ensures !Step(env, k, FunctionKey(func)).justEvaluated
  {
  }

  /** Backspace drops the last character, if any, and ends the result state. */
  lemma BackspaceDropsLast(env: Env, k: Builder)
    ensures |k.expression| > 0 ==> Step(env, k, BackspaceKey).expression + [k.expression[|k.expression| - 1]] == k.expression
    ensures |k.expression| == 0 ==> Step(env, k, BackspaceKey).expression == ""
    ensures !Step(env, k, BackspaceKey).justEvaluated
  {
  }

  /** Backspace removes a digit just typed in the middle of an expression. */
  lemma BackspaceUndoesDigit(env: Env, k: Builder, d: char)
    requires !k.justEvaluated
    ensures Step(env, Step(env, k, DigitKey([d])), BackspaceKey) == k
  {
    assert (k.expression + [d])[..|k.expression|] == k.expression;
  }

  /** The sign key undoes itself unless the expression is "-" or starts with
      "--". */
  lemma NegateTwice(env: Env, k: Builder)
    requires k.expression != "-" && !(|k.expression| >= 2 && k.expression[..2] == "--")
    ensures Step(env, Step(env, k, NegateKey), NegateKey) == k
  {
    if |k.expression| > 0 && k.expression[0] == '-' {
      assert k.expression[1..][0] == k.expression[1];
      assert "-" + k.expression[1..] == k.expression;
    } else if |k.expression| > 0 {
      assert ("-" + k.expression)[1..] == k.expression;
    }
  }

  /** On "-" or a text starting with "--" each press strips one '-', so pressing
      twice loses two of them. */
  lemma NegateStripsOneMinus(env: Env, k: Builder)
    requires |k.expression| >= 1 && k.expression[0] == '-'
    requires |k.expression| == 1 || k.expression[1] == '-'
    ensures Step(env, k, NegateKey).expression == k.expression[1..]
    ensures Step(env, Step(env, k, NegateKey), NegateKey).expression ==
            (if |k.expression| == 1 then "" else k.expression[2..])
  {
  }

  /** `=` on an empty expression does nothing; a failure shows "Erro" and keeps
      the expression and the result state; a success shows the value. */
  lemma EqualsOutcomes(env: Env, k: Builder)
    ensures k.expression == "" ==> Step(env, k, EqualsKey) == k
    ensures k.expression != "" && Evaluate(env, k).Err? ==>
            Step(env, k, EqualsKey) == k.(result := "Erro")
    ensures k.expression != "" && Evaluate(env, k).Ok? ==>
            Step(env, k, EqualsKey).result == env.format(Evaluate(env, k).value) &&
            Step(env, k, EqualsKey).lastResult == Evaluate(env, k).value &&
            Step(env, k, EqualsKey).justEvaluated &&
            Step(env, k, EqualsKey).expression == k.expression
  {
  }

  /** Pressing `=` again changes nothing. */
  lemma EqualsIdempotent(env: Env, k: Builder)
    ensures Step(env, Step(env, k, EqualsKey), EqualsKey) == Step(env, k, EqualsKey)
  {
  }

  /** Memory keys leave memory alone when the expression does not parse; M-
      undoes M+ when it does; MC resets both memory fields. */
  lemma MemoryKeys(env: Env, k: Builder)
    ensures Evaluate(env, k).Err? ==> Step(env, k, MemoryAddKey) == k
    ensures Evaluate(env, k).Err? ==> Step(env, k, MemorySubtractKey) == k
    ensures Evaluate(env, k).Ok? ==>
            Step(env, Step(env, k, MemoryAddKey), MemorySubtractKey) == k.(hasMemory := true)
    ensures Step(env, k, MemoryClearKey) == k.(memory := 0.0, hasMemory := false)
  {
    match Evaluate(env, k) {
      case Err(_) =>
        assert Step(env, k, MemoryAddKey) == MemoryAddStep(env, k);
        assert Step(env, k, MemorySubtractKey) == MemorySubtractStep(env, k);
      case Ok(v) =>
        var added := k.(memory := k.memory + v, hasMemory := true);
        assert Step(env, k, MemoryAddKey) == added;
        assert Evaluate(env, added) == Ok(v);
        assert Step(env, added, MemorySubtractKey) == added.(memory := added.memory - v);
    }
  }

  /** Clear resets the text and the result and keeps memory and angle mode. */
  lemma ClearKeepsSettings(env: Env, k: Builder)
    ensures Step(env, k, ClearKey) ==
            Initial().(memory := k.memory, hasMemory := k.hasMemory, useDegrees := k.useDegrees,
                       secondMode := k.secondMode, lastResult := k.lastResult)
  {
  }

  /** 1/x of an expression worth 0 shows "Erro" and keeps the expression. */
  lemma ReciprocalOfZero(env: Env, k: Builder)
    requires Evaluate(env, k) == Ok(0.0)
    ensures Step(env, k, ReciprocalKey) == k.(result := "Erro")
  {
  }

  /** x! of a negative value or of one above 170 shows "Erro" and keeps the
      expression; otherwise it shows n! and the expression "n!". */
  lemma FactorialOutcomes(env: Env, k: Builder, v: real)
    requires Evaluate(env, k) == Ok(v)
    ensures (Trunc(v) < 0 || Trunc(v) > 170) ==> Step(env, k, FactorialKey) == k.(result := "Erro")
    ensures 0 <= Trunc(v) <= 170 ==>
            Step(env, k, FactorialKey).lastResult == Fact(Trunc(v)) as real &&
            Step(env, k, FactorialKey).expression == env.intText(Trunc(v)) + "!"
  {
    var n := SaturateInt(Trunc(v));
    if Trunc(v) < 0 {
      assert n < 0;
    } else if Trunc(v) > 170 {
      assert n > 170;
    }
  }

  // ---------------------------------------------------------------------------
  // The view model

  class ScientificViewModel {
    var expression: string
    var result: string
    var useDegrees: bool
    var secondMode: bool
    var memory: real
    var hasMemory: bool
    var lastResult: real
    var justEvaluated: bool
    const env: Env

    function State(): Builder
      reads this
    {
      Builder(expression, result, useDegrees, secondMode, memory, hasMemory, lastResult, justEvaluated)
    }

    constructor(env: Env)
      ensures State() == Initial() && this.env == env
    {
      this.env := env;
      expression := "";
      result := "0";
      useDegrees := true;
      secondMode := false;
      memory := 0.0;
      hasMemory := false;
      lastResult := 0.0;
      justEvaluated := false;
    }

    method ToggleAngleMode()
      modifies this
      ensures State() == Step(env, old(State()), AngleKey)
    {
      useDegrees := !useDegrees;
    }

    method ToggleSecondMode()
      modifies this
      ensures State() == Step(env, old(State()), SecondKey)
    {
      secondMode := !secondMode;
    }

    /** The common body of the entry keys. */
    method Insert(text: string)
      modifies this
      ensures State() == Enter(old(State()), text)
    {
      if justEvaluated {
        expression := text;
        justEvaluated := false;
      } else {
        expression := expression + text;
      }
    }

    method OnDigit(digit: string)
      modifies this
      ensures State() == Step(env, old(State()), DigitKey(digit))
    {
      Insert(digit);
    }

    method OnOperator(op: string)
      modifies this
      ensures State() == Step(env, old(State()), OperatorKey(op))
    {
      justEvaluated := false;
      expression := expression + op;
    }

    method OnFunction(func: string)
      modifies this
      ensures State() == Step(env, old(State()), FunctionKey(func))
    {
      if justEvaluated {
        expression := func + "(" + result + ")";
        justEvaluated := false;
      } else {
        expression := expression + func + "(";
      }
    }

    method OnConstant(name: string)
      modifies this
      ensures State() == Step(env, old(State()), ConstantKey(name))
    {
      var value := if name == "π" then "pi" else if name == "e" then "e"
                   else if name == "φ" then "phi" else name;
      Insert(value);
    }

    method OnParenOpen()
      modifies this
      ensures State() == Step(env, old(State()), ParenOpenKey)
    {
      Insert("(");
    }

    method OnParenClose()
      modifies this
      ensures State() == Step(env, old(State()), ParenCloseKey)
    {
      expression := expression + ")";
      justEvaluated := false;
    }

    method OnDecimal()
      modifies this
      ensures State() == Step(env, old(State()), DecimalKey)
    {
      if justEvaluated {
        expression := "0.";
        justEvaluated := false;
      } else {
        expression := expression + ".";
      }
    }

    method OnBackspace()
      modifies this
      ensures State() == Step(env, old(State()), BackspaceKey)
    {
      if |expression| > 0 {
        expression := expression[..|expression| - 1];
      }
      justEvaluated := false;
    }

    method OnClear()
      modifies this
      ensures State() == Step(env, old(State()), ClearKey)
    {
      expression := "";
      result := "0";
      justEvaluated := false;
    }

    method OnEquals()
      modifies this
      ensures State() == Step(env, old(State()), EqualsKey)
    {
      if expression == [] { return; }
      var parsed := Parser.Parser.Evaluate(expression, ParserEnv(env, State()));
      if parsed.Ok? {
        lastResult := parsed.value;
        result := env.format(lastResult);
        justEvaluated := true;
      } else {
        result := "Erro";
      }
    }

    /** The common body of `%`, x², x³ and 1/x. */
    method ApplyUnary(op: real -> Engine.Outcome)
      modifies this
      ensures State() == UnaryStep(env, old(State()), op)
    {
      var parsed := Parser.Parser.Evaluate(expression, ParserEnv(env, State()));
      if parsed.Err? {
        result := "Erro";
        return;
      }
      var r := op(parsed.value);
      if r.Err? {
        result := "Erro";
        return;
      }
      lastResult := r.value;
      result := env.format(lastResult);
      expression := result;
      justEvaluated := true;
    }

    method OnPercent()
      modifies this
      ensures State() == Step(env, old(State()), PercentKey)
    {
      ApplyUnary(Hundredth);
    }

    method OnNegate()
      modifies this
      ensures State() == Step(env, old(State()), NegateKey)
    {
      if |expression| > 0 {
        expression := if expression[0] == '-' then expression[1..] else "-" + expression;
      }
    }

    method OnFactorial()
      modifies this
      ensures State() == Step(env, old(State()), FactorialKey)
    {
      var parsed := Parser.Parser.Evaluate(expression, ParserEnv(env, State()));
      if parsed.Err? {
        result := "Erro";
        return;
      }
      ShowFactorial(parsed.value);
    }

    /** The rest of `onFactorial` once the expression is worth v. */
    method ShowFactorial(v: real)
      modifies this
      ensures State() == FactorialOf(env, old(State()), v)
    {
      var value := SaturateInt(Trunc(v));
      var f := Engine.Factorial(value);
      if f.Err? {
        result := "Erro";
        return;
      }
      lastResult := f.value;
      result := env.format(lastResult);
      expression := env.intText(value) + "!";
      justEvaluated := true;
    }

    method OnSquare()
      modifies this
      ensures State() == Step(env, old(State()), SquareKey)
    {
      ApplyUnary(SquareOf);
    }

    method OnCube()
      modifies this
      ensures State() == Step(env, old(State()), CubeKey)
    {
      ApplyUnary(CubeOf);
    }

    method OnReciprocal()
      modifies this
      ensures State() == Step(env, old(State()), ReciprocalKey)
    {
      ApplyUnary(Engine.Reciprocal);
    }

    method OnPower()
      modifies this
      ensures State() == Step(env, old(State()), PowerKey)
    {
      expression := expression + "^";
      justEvaluated := false;
    }

    method OnMemoryClear()
      modifies this
      ensures State() == Step(env, old(State()), MemoryClearKey)
    {
      memory := 0.0;
      hasMemory := false;
    }

    method OnMemoryRecall()
      modifies this
      ensures State() == Step(env, old(State()), MemoryRecallKey)
    {
      Insert(env.format(memory));
    }

    method OnMemoryAdd()
      modifies this
      ensures State() == Step(env, old(State()), MemoryAddKey)
    {
      var parsed := Parser.Parser.Evaluate(expression, ParserEnv(env, State()));
      if parsed.Ok? {
        memory := memory + parsed.value;
        hasMemory := true;
      }
    }

    method OnMemorySubtract()
      modifies this
      ensures State() == Step(env, old(State()), MemorySubtractKey)
    {
      var parsed := Parser.Parser.Evaluate(expression, ParserEnv(env, State()));
      if parsed.Ok? {
        memory := memory - parsed.value;
        hasMemory := true;
      }
    }
  }
}
