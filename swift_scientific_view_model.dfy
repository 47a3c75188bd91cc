/** The iOS keypad calculator: an accumulator that keeps the shown text, one
    pending binary operator with its left operand, and a flag saying that the
    next digit starts a new number. Each operation is a function on a
    `Keypad` value; the class `ScientificViewModel` updates its fields in place
    and each of its methods is proved to agree with the function. */
module SwiftScientificViewModel {
  import opened Common
  import Engine = SwiftScientificEngine

  /** Text that is never empty; `formatResult` always produces some. */
  type Text = s: string | |s| > 0 witness "0"

  /** What the keypad depends on besides its state: the math library,
      `Double(String)` and `ScientificEngine.formatResult`. */
  datatype Env = Env(lib: Lib, toDouble: string -> Option<real>, format: real -> Text)

  datatype Keypad = Keypad(
    display: string,
    expression: string,
    angleMode: Engine.AngleMode,
    memory: real,
    isSecondFunction: bool,
    hasError: bool,
    currentValue: real,
    pendingOperator: Option<string>,
    operandA: Option<real>,
    shouldResetDisplay: bool)

  /** The keys a user can press, one per public method. */
  datatype Key =
    | DigitKey(digit: char)
    | DecimalKey
    | OperatorKey(op: string)
    | EqualsKey
    | FunctionKey(name: string)
    | ConstantKey(name: string)
    | MemoryClearKey
    | MemoryRecallKey
    | MemoryAddKey
    | MemorySubtractKey
    | ClearKey
    | SignKey
    | AngleKey
    | SecondKey
    | BackspaceKey

  function Initial(): (k: Keypad)
    ensures |k.display| > 0
  {
    Keypad("0", "", Engine.Degrees, 0.0, false, false, 0.0, None, None, true)
  }

  /** `Double(text) ?? 0`. */
  function OrZero(v: Option<real>): real
  {
    if v.Some? then v.value else 0.0
  }

  /** The number of '.' characters in a text. */
  function Dots(s: string): nat
  {
    multiset(s)['.']
  }

  // ---------------------------------------------------------------------------
  // Transitions

  function ClearStep(k: Keypad): Keypad
  {
    k.(display := "0", expression := "", currentValue := 0.0, pendingOperator := None,
       operandA := None, shouldResetDisplay := true, hasError := false)
  }

  function ShowErrorStep(k: Keypad, msg: string): Keypad
  {
    k.(display := "Erro", expression := msg, hasError := true, shouldResetDisplay := true)
  }

  function InputDigitStep(k: Keypad, digit: char): Keypad
  {
    var c := if k.hasError then ClearStep(k) else k;
    if c.shouldResetDisplay then c.(display := [digit], shouldResetDisplay := false)
    else if c.display == "0" && digit != '.' then c.(display := [digit])
    else c.(display := c.display + [digit])
  }

  function InputDecimalStep(k: Keypad): Keypad
  {
    var c := if k.hasError then ClearStep(k) else k;
    if c.shouldResetDisplay then c.(display := "0.", shouldResetDisplay := false)
    else if '.' !in c.display then c.(display := c.display + ".")
    else c
  }

  /** The binary operation behind an operator key, with the message shown when
      the engine rejects its operands; an unknown operator yields the right
      operand. */
  function Operation(lib: Lib, op: string, a: real, b: real): Result<real, string>
  {
    if op == "+" then Ok(Engine.Add(a, b))
    else if op == "-" || op == "−" then Ok(Engine.Subtract(a, b))
    else if op == "×" then Ok(Engine.Multiply(a, b))
    else if op == "÷" then Guarded(Engine.Divide(a, b), "Divisão por zero")
    else if op == "^" then Ok(Engine.Power(lib, a, b))
    else if op == "ʸ√x" then Guarded(Engine.NthRoot(lib, a, b), "Raiz inválida")
    else if op == "nPr" then Guarded(Engine.Permutation(Trunc(a), Trunc(b)), "nPr inválido")
    else if op == "nCr" then Guarded(Engine.Combination(Trunc(a), Trunc(b)), "nCr inválido")
    else Ok(b)
  }

  function Guarded(r: Option<real>, msg: string): Result<real, string>
  {
    if r.Some? then Ok(r.value) else Err(msg)
  }

  function CalculateStep(env: Env, k: Keypad): Keypad
  {
    if k.pendingOperator.None? || k.operandA.None? then k
    else
      var op := k.pendingOperator.value;
      var a := k.operandA.value;
      var b := OrZero(env.toDouble(k.display));
      var shown := k.(expression := env.format(a) + " " + op + " " + env.format(b) + " =");
      match Operation(env.lib, op, a, b)
      case Err(msg) => ShowErrorStep(shown, msg)
      case Ok(r) =>
        shown.(display := env.format(r), currentValue := r, pendingOperator := None,
               operandA := None, shouldResetDisplay := true)
  }

  function InputOperatorStep(env: Env, k: Keypad, op: string): Keypad
  {
    if k.hasError then k
    else
      var c := CalculateStep(env, k);
      var a := OrZero(env.toDouble(c.display));
      c.(operandA := Some(a), pendingOperator := Some(op), shouldResetDisplay := true,
         expression := env.format(a) + " " + op)
  }

  /** The unary function behind a function key: None for a name the keypad does
      not know, an error message when the engine rejects the value. */
  function UnaryFunction(lib: Lib, mode: Engine.AngleMode, name: string, value: real)
    : Option<Result<real, string>>
  {
    if name == "sin" then Some(Ok(Engine.Sin(lib, value, mode)))
    else if name == "cos" then Some(Ok(Engine.Cos(lib, value, mode)))
    else if name == "tan" then Some(Guarded(Engine.Tan(lib, value, mode), "tan indefinida"))
    else if name == "sin⁻¹" || name == "asin" then
      Some(Guarded(Engine.Asin(lib, value, mode), "Requer [-1, 1]"))
    else if name == "cos⁻¹" || name == "acos" then
      Some(Guarded(Engine.Acos(lib, value, mode), "Requer [-1, 1]"))
    else if name == "tan⁻¹" || name == "atan" then Some(Ok(Engine.Atan(lib, value, mode)))
    else if name == "sinh" then Some(Ok(Engine.Sinh(lib, value)))
    else if name == "cosh" then Some(Ok(Engine.Cosh(lib, value)))
    else if name == "tanh" then Some(Ok(Engine.Tanh(lib, value)))
    else if name == "sinh⁻¹" then Some(Ok(Engine.Asinh(lib, value)))
    else if name == "cosh⁻¹" then Some(Guarded(Engine.Acosh(lib, value), "Requer valor ≥ 1"))
    else if name == "tanh⁻¹" then Some(Guarded(Engine.Atanh(lib, value), "Requer (-1, 1)"))
    else if name == "ln" then Some(Guarded(Engine.NaturalLog(lib, value), "Requer valor > 0"))
    else if name == "log₁₀" then Some(Guarded(Engine.Log10(lib, value), "Requer valor > 0"))
    else if name == "log₂" then Some(Guarded(Engine.Log2(lib, value), "Requer valor > 0"))
    else if name == "eˣ" then Some(Ok(Engine.Exp(lib, value)))
    else if name == "10ˣ" then Some(Ok(Engine.TenToThe(lib, value)))
    else if name == "x²" then Some(Ok(Engine.Square(value)))
    else if name == "x³" then Some(Ok(Engine.Cube(value)))
    else if name == "√x" then Some(Guarded(Engine.SquareRoot(lib, value), "Requer valor ≥ 0"))
    else if name == "³√x" then Some(Ok(Engine.CubeRoot(lib, value)))
    else if name == "x!" then Some(Guarded(Engine.Factorial(Trunc(value)), "Requer 0 ≤ n ≤ 170"))
    else if name == "1/x" then Some(Guarded(Engine.Reciprocal(value), "Divisão por zero"))
    else if name == "%" then Some(Ok(Engine.Percentage(value)))
    else if name == "|x|" then Some(Ok(Engine.Absolute(value)))
    else None
  }

  function ApplyFunctionStep(env: Env, k: Keypad, name: string): Keypad
  {
    match env.toDouble(k.display)
    case None => k
    case Some(value) =>
      match UnaryFunction(env.lib, k.angleMode, name, value)
      case None => k
      case Some(Err(msg)) => ShowErrorStep(k, msg)
      case Some(Ok(r)) =>
        k.(expression := name + "(" + env.format(value) + ")", display := env.format(r),
           currentValue := r, shouldResetDisplay := true)
  }

  function InsertConstantStep(env: Env, k: Keypad, name: string): Keypad
  {
    if name == "π" then k.(display := env.format(env.lib.pi), shouldResetDisplay := true)
    else if name == "e" then k.(display := env.format(env.lib.e), shouldResetDisplay := true)
    else if name == "φ" then k.(display := env.format(Engine.Phi(env.lib)), shouldResetDisplay := true)
    else k
  }

  function MemoryRecallStep(env: Env, k: Keypad): Keypad
  {
    k.(display := env.format(k.memory), shouldResetDisplay := true)
  }

  function MemoryAddStep(env: Env, k: Keypad): Keypad
  {
    k.(memory := k.memory + OrZero(env.toDouble(k.display)))
  }

  function MemorySubtractStep(env: Env, k: Keypad): Keypad
  {
    k.(memory := k.memory - OrZero(env.toDouble(k.display)))
  }

  function ToggleSignStep(env: Env, k: Keypad): Keypad
  {
    match env.toDouble(k.display)
    case None => k
    case Some(value) => k.(display := env.format(Engine.Negate(value)))
  }

  function ToggleAngleModeStep(k: Keypad): Keypad
  {
    k.(angleMode := if k.angleMode == Engine.Degrees then Engine.Radians else Engine.Degrees)
  }

  function BackspaceStep(k: Keypad): Keypad
  {
    if k.hasError then ClearStep(k)
    else if |k.display| > 1 then k.(display := k.display[..|k.display| - 1])
    else k.(display := "0")
  }

  function Step(env: Env, k: Keypad, key: Key): Keypad
  {
    match key
    case DigitKey(d) => InputDigitStep(k, d)
    case DecimalKey => InputDecimalStep(k)
    case OperatorKey(op) => InputOperatorStep(env, k, op)
    case EqualsKey => CalculateStep(env, k)
    case FunctionKey(name) => ApplyFunctionStep(env, k, name)
    case ConstantKey(name) => InsertConstantStep(env, k, name)
    case MemoryClearKey => k.(memory := 0.0)
    case MemoryRecallKey => MemoryRecallStep(env, k)
    case MemoryAddKey => MemoryAddStep(env, k)
    case MemorySubtractKey => MemorySubtractStep(env, k)
    case ClearKey => ClearStep(k)
    case SignKey => ToggleSignStep(env, k)
    case AngleKey => ToggleAngleModeStep(k)
    case SecondKey => k.(isSecondFunction := !k.isSecondFunction)
    case BackspaceKey => BackspaceStep(k)
  }

  /** The state after pressing the keys in order. */
  function Run(env: Env, k: Keypad, keys: seq<Key>): Keypad
  {
    if keys == [] then k else Step(env, Run(env, k, keys[..|keys| - 1]), keys[|keys| - 1])
  }

  function DigitKeys(ds: string): (keys: seq<Key>)
    ensures |keys| == |ds|
    ensures forall i :: 0 <= i < |ds| ==> keys[i] == DigitKey(ds[i])
  {
    if ds == [] then [] else DigitKeys(ds[..|ds| - 1]) + [DigitKey(ds[|ds| - 1])]
  }

  // ---------------------------------------------------------------------------
  // Properties

  /** No key empties the display. */
  lemma StepKeepsDisplay(env: Env, k: Keypad, key: Key)
    requires |k.display| > 0
    ensures |Step(env, k, key).display| > 0
  {
    match key
    case DigitKey(d) => assert Step(env, k, key) == InputDigitStep(k, d);
    case DecimalKey => assert Step(env, k, key) == InputDecimalStep(k);
    case OperatorKey(op) => assert Step(env, k, key) == InputOperatorStep(env, k, op);
    case EqualsKey => assert Step(env, k, key) == CalculateStep(env, k);
    case FunctionKey(name) => assert Step(env, k, key) == ApplyFunctionStep(env, k, name);
    case ConstantKey(name) => assert Step(env, k, key) == InsertConstantStep(env, k, name);
    case MemoryRecallKey => assert Step(env, k, key) == MemoryRecallStep(env, k);
    case MemoryAddKey => assert Step(env, k, key) == MemoryAddStep(env, k);
    case MemorySubtractKey => assert Step(env, k, key) == MemorySubtractStep(env, k);
    case SignKey => assert Step(env, k, key) == ToggleSignStep(env, k);
    case BackspaceKey => assert Step(env, k, key) == BackspaceStep(k);
    case _ =>
  }

  /** From any state with something shown, the display is never empty. */
  lemma {:induction false} DisplayNeverEmpty(env: Env, k: Keypad, keys: seq<Key>)
    requires |k.display| > 0
    ensures |Run(env, k, keys).display| > 0
  {
    if keys != [] {
      DisplayNeverEmpty(env, k, keys[..|keys| - 1]);
      StepKeepsDisplay(env, Run(env, k, keys[..|keys| - 1]), keys[|keys| - 1]);
    }
  }

  /** Digits typed after a result or a clear spell the number, as long as the
      first is not a leading zero and no '.' is among them. */
  lemma {:induction false} TypedDigits(env: Env, k: Keypad, ds: string)
    requires k.shouldResetDisplay && |ds| > 0 && ds[0] != '0'
    requires forall i :: 0 <= i < |ds| ==> '0' <= ds[i] <= '9'
    ensures Run(env, k, DigitKeys(ds)).display == ds
    ensures !Run(env, k, DigitKeys(ds)).shouldResetDisplay
    ensures !Run(env, k, DigitKeys(ds)).hasError
  {
    var keys := DigitKeys(ds);
    if |ds| > 1 {
      var front := ds[..|ds| - 1];
      assert keys[..|keys| - 1] == DigitKeys(front);
      TypedDigits(env, k, front);
    } else {
      assert keys[..0] == [];
    }
  }

  /** A '.' key never puts a second point on the display. */
  lemma DecimalKeepsOnePoint(k: Keypad)
    requires Dots(k.display) <= 1
    ensures Dots(InputDecimalStep(k).display) == 1
  {
    var r := InputDecimalStep(k);
    if !k.hasError && !k.shouldResetDisplay {
      if '.' !in k.display {
        assert multiset(k.display + ".") == multiset(k.display) + multiset{'.'};
      }
    } else {
      assert r.display == "0.";
      assert multiset(r.display) == multiset{'0', '.'};
    }
  }

  /** In the error state an operator key does nothing. */
  lemma OperatorIgnoredOnError(env: Env, k: Keypad, op: string)
    requires k.hasError
    ensures InputOperatorStep(env, k, op) == k
  {
  }

  /** Without a pending operation an operator key stores the shown value as the
      left operand and waits for the next number. */
  lemma OperatorStoresOperand(env: Env, k: Keypad, op: string)
    requires !k.hasError && (k.pendingOperator.None? || k.operandA.None?)
    ensures InputOperatorStep(env, k, op) ==
            k.(operandA := Some(OrZero(env.toDouble(k.display))), pendingOperator := Some(op),
               shouldResetDisplay := true,
               expression := env.format(OrZero(env.toDouble(k.display))) + " " + op)
  {
  }

  /** A second operator first completes the pending one: the new left operand is
      the value the first operation shows. */
  lemma OperatorChains(env: Env, k: Keypad, op: string, r: real)
    requires !k.hasError && k.pendingOperator.Some? && k.operandA.Some?
    requires Operation(env.lib, k.pendingOperator.value, k.operandA.value,
                       OrZero(env.toDouble(k.display))) == Ok(r)
    requires env.toDouble(env.format(r)) == Some(r)
    ensures InputOperatorStep(env, k, op).operandA == Some(r)
    ensures InputOperatorStep(env, k, op).pendingOperator == Some(op)
    ensures InputOperatorStep(env, k, op).display == env.format(r)
    ensures InputOperatorStep(env, k, op).currentValue == r
  {
  }

  /** `=` does nothing unless an operator and its left operand are pending. */
  lemma EqualsNeedsPending(env: Env, k: Keypad)
    requires k.pendingOperator.None? || k.operandA.None?
    ensures CalculateStep(env, k) == k
  {
  }

  /** A completed operation shows its result and clears the pending operation. */
  lemma EqualsShowsResult(env: Env, k: Keypad, r: real)
    requires k.pendingOperator.Some? && k.operandA.Some?
    requires Operation(env.lib, k.pendingOperator.value, k.operandA.value,
                       OrZero(env.toDouble(k.display))) == Ok(r)
    ensures CalculateStep(env, k).display == env.format(r)
    ensures CalculateStep(env, k).pendingOperator.None?
    ensures CalculateStep(env, k).operandA.None?
    ensures CalculateStep(env, k).shouldResetDisplay
    ensures !CalculateStep(env, k).hasError || k.hasError
  {
  }

  /** Dividing by zero shows "Erro" with the reason and keeps the operator
      pending. */
  lemma DivisionByZeroShowsError(env: Env, k: Keypad, a: real)
    requires k.pendingOperator == Some("÷") && k.operandA == Some(a)
    requires OrZero(env.toDouble(k.display)) == 0.0
    ensures CalculateStep(env, k).display == "Erro"
    ensures CalculateStep(env, k).expression == "Divisão por zero"
    ensures CalculateStep(env, k).hasError
    ensures CalculateStep(env, k).pendingOperator == Some("÷")
    ensures CalculateStep(env, k).operandA == Some(a)
  {
  }

  /** Only the four operators that can fail ever show an error. */
  lemma OperationErrors(lib: Lib, op: string, a: real, b: real)
    ensures Operation(lib, op, a, b).Err? ==> op in {"÷", "ʸ√x", "nPr", "nCr"}
    ensures op == "÷" ==> (Operation(lib, op, a, b).Err? <==> b == 0.0)
    ensures Operation(lib, op, a, b).Ok? && op == "÷" ==> Operation(lib, op, a, b).value * b == a
  {
  }

  /** An operator pressed right after a division by zero leaves the keypad in the
      error state, and the reason is replaced by the new operator's echo. */
  lemma ChainAfterDivisionByZero(env: Env, k: Keypad, op: string)
    requires !k.hasError && k.pendingOperator == Some("÷") && k.operandA.Some?
    requires OrZero(env.toDouble(k.display)) == 0.0
    ensures InputOperatorStep(env, k, op).hasError
    ensures InputOperatorStep(env, k, op).display == "Erro"
    ensures InputOperatorStep(env, k, op).expression ==
            env.format(OrZero(env.toDouble("Erro"))) + " " + op
  {
  }

  /** A function whose argument the engine rejects shows "Erro" with the reason. */
  lemma SquareRootOfNegative(env: Env, k: Keypad, v: real)
    requires env.toDouble(k.display) == Some(v) && v < 0.0
    ensures ApplyFunctionStep(env, k, "√x") == ShowErrorStep(k, "Requer valor ≥ 0")
  {
  }

  /** A display that is not a number, or a name the keypad does not know, leaves
      everything as it was. */
  lemma FunctionNeedsNumber(env: Env, k: Keypad, name: string)
    requires env.toDouble(k.display).None? ||
             UnaryFunction(env.lib, k.angleMode, name, env.toDouble(k.display).value).None?
    ensures ApplyFunctionStep(env, k, name) == k
  {
  }

  /** Clearing resets the calculation but keeps memory and angle mode. */
  lemma ClearKeepsMemory(k: Keypad)
    ensures ClearStep(k).memory == k.memory && ClearStep(k).angleMode == k.angleMode
    ensures ClearStep(k) == Initial().(memory := k.memory, angleMode := k.angleMode,
                                       isSecondFunction := k.isSecondFunction)
  {
  }

  /** Both toggles undo themselves. */
  lemma TogglesAreInvolutions(env: Env, k: Keypad)
    ensures Step(env, Step(env, k, AngleKey), AngleKey) == k
    ensures Step(env, Step(env, k, SecondKey), SecondKey) == k
  {
  }

  /** M- undoes M+, also when the display is not a number (it counts as 0). */
  lemma MemorySubtractUndoesAdd(env: Env, k: Keypad)
    ensures MemorySubtractStep(env, MemoryAddStep(env, k)) == k
  {
  }

  /** Backspace removes the digit just typed. */
  lemma BackspaceUndoesDigit(k: Keypad, d: char)
    requires !k.hasError && !k.shouldResetDisplay && k.display != "0" && |k.display| > 0
    ensures BackspaceStep(InputDigitStep(k, d)).display == k.display
  {
    assert InputDigitStep(k, d).display == k.display + [d];
    assert (k.display + [d])[..|k.display|] == k.display;
  }

  /** Changing the sign twice restores the number, when the formatted text reads
      back as the value it shows. */
  lemma SignTwice(env: Env, k: Keypad, v: real)
    requires env.toDouble(k.display) == Some(v)
    requires env.toDouble(env.format(-v)) == Some(-v)
    ensures ToggleSignStep(env, ToggleSignStep(env, k)).display == env.format(v)
  {
  }

  // ---------------------------------------------------------------------------
  // The view model

  class ScientificViewModel {
    var display: string
    var expression: string
    var angleMode: Engine.AngleMode
    var memory: real
    var isSecondFunction: bool
    var hasError: bool
    var currentValue: real
    var pendingOperator: Option<string>
    var operandA: Option<real>
    var shouldResetDisplay: bool
    const env: Env

    function State(): Keypad
      reads this
    {
      Keypad(display, expression, angleMode, memory, isSecondFunction, hasError, currentValue,
             pendingOperator, operandA, shouldResetDisplay)
    }

    /** The display is never empty. */
    predicate Valid()
      reads this
    {
      |display| > 0
    }

    constructor(env: Env)
      ensures Valid() && State() == Initial() && this.env == env
    {
      this.env := env;
      display := "0";
      expression := "";
      angleMode := Engine.Degrees;
      memory := 0.0;
      isSecondFunction := false;
      hasError := false;
      currentValue := 0.0;
      pendingOperator := None;
      operandA := None;
      shouldResetDisplay := true;
    }

    method InputDigit(digit: char)
      requires Valid()
      modifies this
      ensures Valid() && State() == InputDigitStep(old(State()), digit)
    {
      if hasError { Clear(); }
      if shouldResetDisplay {
        display := [digit];
        shouldResetDisplay := false;
      } else if display == "0" && digit != '.' {
        display := [digit];
      } else {
        display := display + [digit];
      }
    }

    method InputDecimal()
      requires Valid()
      modifies this
      ensures Valid() && State() == InputDecimalStep(old(State()))
    {
      if hasError { Clear(); }
      if shouldResetDisplay {
        display := "0.";
        shouldResetDisplay := false;
      } else if '.' !in display {
        display := display + ".";
      }
    }

    method InputOperator(op: string)
      requires Valid()
      modifies this
      ensures Valid() && State() == InputOperatorStep(env, old(State()), op)
    {
      if hasError { return; }
      if pendingOperator != None && operandA != None {
        Calculate();
      }
      var a := OrZero(env.toDouble(display));
      operandA := Some(a);
      pendingOperator := Some(op);
      shouldResetDisplay := true;
      expression := env.format(a) + " " + op;
    }

    method Calculate()
      requires Valid()
      modifies this
      ensures Valid() && State() == CalculateStep(env, old(State()))
    {
      if pendingOperator.None? || operandA.None? { return; }
      var op := pendingOperator.value;
      var a := operandA.value;
      var b := OrZero(env.toDouble(display));
      expression := env.format(a) + " " + op + " " + env.format(b) + " =";
      var result := Operation(env.lib, op, a, b);
      if result.Err? {
        ShowError(result.error);
        return;
      }
      display := env.format(result.value);
      currentValue := result.value;
      pendingOperator := None;
      operandA := None;
      shouldResetDisplay := true;
    }

    method ApplyFunction(name: string)
      requires Valid()
      modifies this
      ensures Valid() && State() == ApplyFunctionStep(env, old(State()), name)
    {
      var parsed := env.toDouble(display);
      if parsed.None? { return; }
      var value := parsed.value;
      var result := UnaryFunction(env.lib, angleMode, name, value);
      if result.None? { return; }
      if result.value.Err? {
        ShowError(result.value.error);
      } else {
        expression := name + "(" + env.format(value) + ")";
        display := env.format(result.value.value);
        currentValue := result.value.value;
        shouldResetDisplay := true;
      }
    }

    method InsertConstant(name: string)
      requires Valid()
      modifies this
      ensures Valid() && State() == InsertConstantStep(env, old(State()), name)
    {
      if name == "π" {
        display := env.format(env.lib.pi);
      } else if name == "e" {
        display := env.format(env.lib.e);
      } else if name == "φ" {
        display := env.format(Engine.Phi(env.lib));
      } else {
        return;
      }
      shouldResetDisplay := true;
    }

    method MemoryClear()
      requires Valid()
      modifies this
      ensures Valid() && State() == Step(env, old(State()), MemoryClearKey)
    {
      memory := 0.0;
    }

    method MemoryRecall()
      requires Valid()
      modifies this
      ensures Valid() && State() == MemoryRecallStep(env, old(State()))
    {
      display := env.format(memory);
      shouldResetDisplay := true;
    }

    method MemoryAdd()
      requires Valid()
      modifies this
      ensures Valid() && State() == MemoryAddStep(env, old(State()))
    {
      memory := memory + OrZero(env.toDouble(display));
    }

    method MemorySubtract()
      requires Valid()
      modifies this
      ensures Valid() && State() == MemorySubtractStep(env, old(State()))
    {
      memory := memory - OrZero(env.toDouble(display));
    }

    method Clear()
      modifies this
      ensures Valid() && State() == ClearStep(old(State()))
    {
      display := "0";
      expression := "";
      currentValue := 0.0;
      pendingOperator := None;
      operandA := None;
      shouldResetDisplay := true;
      hasError := false;
    }

    method ToggleSign()
      requires Valid()
      modifies this
      ensures Valid() && State() == ToggleSignStep(env, old(State()))
    {
      var parsed := env.toDouble(display);
      if parsed.None? { return; }
      display := env.format(Engine.Negate(parsed.value));
    }

    method ToggleAngleMode()
      requires Valid()
      modifies this
      ensures Valid() && State() == ToggleAngleModeStep(old(State()))
    {
      angleMode := if angleMode == Engine.Degrees then Engine.Radians else Engine.Degrees;
    }

    method ToggleSecondFunction()
      requires Valid()
      modifies this
      ensures Valid() && State() == Step(env, old(State()), SecondKey)
    {
      isSecondFunction := !isSecondFunction;
    }

    method Backspace()
      requires Valid()
      modifies this
      ensures Valid() && State() == BackspaceStep(old(State()))
    {
      if hasError {
        Clear();
        return;
      }
      if |display| > 1 {
        display := display[..|display| - 1];
      } else {
        display := "0";
      }
    }

    method ShowError(msg: string)
      modifies this
      ensures Valid() && State() == ShowErrorStep(old(State()), msg)
    {
      display := "Erro";
      expression := msg;
      hasError := true;
      shouldResetDisplay := true;
    }
  }
}
