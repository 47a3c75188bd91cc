/** The Android calculator's recursive-descent expression parser. Its grammar is
    the desktop parser's, plus a variable `x` for the graphing screen and
    two-argument calls `name(a, b)`:

      expression = term (('+' | '-') term)*
      term       = power (('*' | '×' | '/' | '÷') power)*
      power      = unary ('^' unary)?            -- at most one '^'
      unary      = '-' unary | '+' unary | atom
      atom       = '(' expression ')' | number
                 | name                          -- x or a constant
                 | name '(' expression ')'
                 | name '(' expression ',' expression ')'
                 | name unary                    -- a call with an implicit argument

    Every failure throws an ArithmeticException; here it is an `Err` carrying a
    `ParseError`. The functions define the value and end position of each rule;
    the class `Parser` moves a cursor and each of its methods is proved to agree
    with the function of its rule. */
module KotlinExpressionParser {
  import opened Common
  import opened JvmLexing
  import Engine = KotlinScientificEngine

  datatype ParseError =
    | UnexpectedAt(ch: char, pos: nat)  // text left over after the expression
    | UnexpectedCharacter(ch: char)     // an atom that starts with no name character
    | Incomplete                        // the text ended where an atom was due
    | Expected(ch: char, pos: nat)      // a missing ')'
    | InvalidNumber(text: string)
    | UnknownFunction(name: string)
    | DivisionByZero
    | FactorialOutOfRange
    | EngineError(message: string)      // nCr / nPr rejected by the scientific engine

  /** What a parse depends on besides the text: the angle unit, the value of `x`
      if one is bound, the math library and `toDoubleOrNull`. */
  datatype Env = Env(degrees: bool, variableX: Option<real>, lib: Lib,
                     toDouble: string -> Option<real>)

  datatype Parsed = Parsed(value: real, next: nat)

  type Outcome = Result<Parsed, ParseError>

  /** A successful rule consumed at least one character and stayed in the text. */
  predicate Advanced(r: Outcome, s: string, pos: nat)
  {
    r.Ok? ==> pos < r.value.next <= |s|
  }

  /** As `Advanced`, for the loop tails, which may consume nothing. */
  predicate Stayed(r: Outcome, s: string, pos: nat)
  {
    r.Ok? ==> pos <= r.value.next <= |s|
  }

  // ---------------------------------------------------------------------------
  // The functions the names stand for

  /** `Double.roundToInt()` as the file defines it: round half to even, then a
      saturating conversion to a 32-bit int. */
  function RoundToInt(x: real): (n: int)
    ensures IntMin <= n <= IntMax
    ensures IntMin <= RoundHalfEven(x) <= IntMax ==> n == RoundHalfEven(x)
    ensures RoundHalfEven(x) > IntMax ==> n == IntMax
    ensures RoundHalfEven(x) < IntMin ==> n == IntMin
  {
    SaturateInt(RoundHalfEven(x))
  }

  datatype Fn =
    | SinF | CosF | TanF | AsinF | AcosF | AtanF | SinhF | CoshF | TanhF
    | AsinhF | AcoshF | AtanhF | LnF | Log10F | Log2F | SqrtF | CbrtF | AbsF
    | ExpF | FloorF | CeilF | RoundF | SignF | FactF

  /** The one-argument names `applyFunction` accepts, with their aliases. */
  const FunctionTable: map<string, Fn> := map[
    "sin" := SinF, "cos" := CosF, "tan" := TanF,
    "asin" := AsinF, "arcsin" := AsinF, "acos" := AcosF, "arccos" := AcosF,
    "atan" := AtanF, "arctan" := AtanF,
    "sinh" := SinhF, "cosh" := CoshF, "tanh" := TanhF,
    "asinh" := AsinhF, "acosh" := AcoshF, "atanh" := AtanhF,
    "ln" := LnF, "log" := Log10F, "log10" := Log10F, "log2" := Log2F,
    "sqrt" := SqrtF, "√" := SqrtF, "cbrt" := CbrtF, "abs" := AbsF, "exp" := ExpF,
    "floor" := FloorF, "ceil" := CeilF, "round" := RoundF,
    "sign" := SignF, "sgn" := SignF, "fact" := FactF]

  datatype Fn2 = PowF | LogBaseF | NcrF | NprF | RootF

  /** The two-argument names `applyFunction2` accepts. */
  const FunctionTable2: map<string, Fn2> := map[
    "pow" := PowF, "log" := LogBaseF, "ncr" := NcrF, "npr" := NprF, "root" := RootF]

  function AngleIn(env: Env, arg: real): real
  {
    if env.degrees then JvmToRadians(env.lib, arg) else arg
  }

  function AngleOut(env: Env, rad: real): real
  {
    if env.degrees then JvmToDegrees(env.lib, rad) else rad
  }

  /** `fact`: the argument rounded half to even must lie in 0..170. The conversion
      saturates instead of wrapping, so a huge argument is rejected. */
  function Factorial(x: real): (r: Result<real, ParseError>)
    ensures r.Ok? <==> 0 <= RoundHalfEven(x) <= 170
    ensures r.Err? ==> r.error == FactorialOutOfRange
    ensures r.Ok? ==> r.value == Fact(RoundHalfEven(x)) as real
  {
    var n := RoundToInt(x);
    if n < 0 || n > 170 then Err(FactorialOutOfRange)
    else (RangeProductFact(n); Ok(RangeProduct(2, n)))
  }

  /** The accumulator loop of `fact`. */
  method FactorialLoop(x: real) returns (r: Result<real, ParseError>)
    ensures r == Factorial(x)
  {
    var n := RoundToInt(x);
    if n < 0 || n > 170 {
      return Err(FactorialOutOfRange);
    }
    var acc := 1.0;
    var i := 2;
    while i <= n
      invariant i == 2 || 2 <= i <= n + 1
      invariant acc == RangeProduct(2, i - 1)
    {
      acc := acc * i as real;
      i := i + 1;
    }
    if n == 0 {
      assert RangeProduct(2, 1) == 1.0 == RangeProduct(2, 0);
    }
    return Ok(acc);
  }

  /** A known one-argument function. Only `fact` checks its domain. */
  function Apply(env: Env, f: Fn, arg: real): (r: Result<real, ParseError>)
    ensures r.Err? <==> f == FactF && !(0 <= RoundHalfEven(arg) <= 170)
    ensures r.Err? ==> r.error == FactorialOutOfRange
  {
    var lib := env.lib;
    match f
    case SinF => Ok(lib.sin(AngleIn(env, arg)))
    case CosF => Ok(lib.cos(AngleIn(env, arg)))
    case TanF => Ok(lib.tan(AngleIn(env, arg)))
    case AsinF => Ok(AngleOut(env, lib.asin(arg)))
    case AcosF => Ok(AngleOut(env, lib.acos(arg)))
    case AtanF => Ok(AngleOut(env, lib.atan(arg)))
    case SinhF => Ok(lib.sinh(arg))
    case CoshF => Ok(lib.cosh(arg))
    case TanhF => Ok(lib.tanh(arg))
    case AsinhF => Ok(lib.ln(arg + lib.sqrt(arg * arg + 1.0)))
    case AcoshF => Ok(lib.ln(arg + lib.sqrt(arg * arg - 1.0)))
    case AtanhF => Ok(0.5 * lib.ln(Quot(lib, 1.0 + arg, 1.0 - arg)))
    case LnF => Ok(lib.ln(arg))
    case Log10F => Ok(lib.log10(arg))
    case Log2F => Ok(lib.log2(arg))
    case SqrtF => Ok(lib.sqrt(arg))
    case CbrtF => Ok(lib.cbrt(arg))
    case AbsF => Ok(Abs(arg))
    case ExpF => Ok(lib.exp(arg))
    case FloorF => Ok(arg.Floor as real)
    case CeilF => Ok(Ceil(arg) as real)
    case RoundF => Ok(RoundHalfEven(arg) as real)
    case SignF => Ok(Signum(arg))
    case FactF => Factorial(arg)
  }

  /** `applyFunction`: a name outside the table is an unknown function. */
  function FunctionValue(env: Env, name: string, arg: real): (r: Result<real, ParseError>)
    ensures name !in FunctionTable ==> r == Err(UnknownFunction(name))
    ensures name in FunctionTable ==> r == Apply(env, FunctionTable[name], arg)
  {
    if name in FunctionTable then Apply(env, FunctionTable[name], arg)
    else Err(UnknownFunction(name))
  }

  /** An engine result as a parse result: the engine's exception message is kept. */
  function FromEngine(r: Engine.Outcome): Result<real, ParseError>
  {
    match r
    case Ok(v) => Ok(v)
    case Err(m) => Err(EngineError(m))
  }

  /** A known two-argument function. nCr and nPr round both arguments and hand
      them to the scientific engine, which rejects r < 0, n < 0 and r > n. */
  function Apply2(env: Env, f: Fn2, a: real, b: real): (r: Result<real, ParseError>)
    ensures r.Err? <==> (f == NcrF || f == NprF)
                        && (RoundToInt(a) < 0 || RoundToInt(b) < 0 || RoundToInt(b) > RoundToInt(a))
    ensures f == NcrF && r.Ok? ==> r.value == Choose(RoundToInt(a), RoundToInt(b)) as real
    ensures f == NprF && r.Ok? ==> r.value == Falling(RoundToInt(a), RoundToInt(b)) as real
    ensures f == LogBaseF && env.lib.ln(b) != 0.0 ==> r.value * env.lib.ln(b) == env.lib.ln(a)
  {
    var lib := env.lib;
    match f
    case PowF => Ok(lib.pow(a, b))
    case LogBaseF => Ok(Quot(lib, lib.ln(a), lib.ln(b)))
    case NcrF => FromEngine(Engine.Combination(RoundToInt(a), RoundToInt(b)))
    case NprF => FromEngine(Engine.Permutation(RoundToInt(a), RoundToInt(b)))
    case RootF => Ok(lib.pow(b, Quot(lib, 1.0, a)))
  }

  /** `applyFunction2`: a name outside its table is an unknown function. */
  function FunctionValue2(env: Env, name: string, a: real, b: real): (r: Result<real, ParseError>)
    ensures name !in FunctionTable2 ==> r == Err(UnknownFunction(name))
    ensures name in FunctionTable2 ==> r == Apply2(env, FunctionTable2[name], a, b)
  {
    if name in FunctionTable2 then Apply2(env, FunctionTable2[name], a, b)
    else Err(UnknownFunction(name))
  }

  // ---------------------------------------------------------------------------
  // The grammar, as functions of (text, position)

  /** `expect`: the character must be next; the cursor steps over it. */
  function ExpectAt(s: string, pos: nat, c: char): (r: Result<nat, ParseError>)
    requires pos <= |s|
    ensures r.Ok? <==> pos < |s| && s[pos] == c
    ensures r.Ok? ==> r.value == pos + 1
    ensures r.Err? ==> r.error == Expected(c, pos)
  {
    if pos >= |s| || s[pos] != c then Err(Expected(c, pos)) else Ok(pos + 1)
  }

  function Expression(env: Env, s: string, pos: nat): (r: Outcome)
    requires pos <= |s|
    ensures Advanced(r, s, pos)
    decreases |s| - pos, 5
  {
    match Term(env, s, pos)
    case Err(e) => Err(e)
    case Ok(t) => ExpressionTail(env, s, t.next, t.value)
  }

  /** The ('+' | '-') term loop, with `acc` the value so far. */
  function ExpressionTail(env: Env, s: string, pos: nat, acc: real): (r: Outcome)
    requires pos <= |s|
    ensures Stayed(r, s, pos)
    decreases |s| - pos, 5
  {
    if pos < |s| && (s[pos] == '+' || s[pos] == '-') then
      match Term(env, s, pos + 1)
      case Err(e) => Err(e)
      case Ok(t) =>
        ExpressionTail(env, s, t.next, if s[pos] == '+' then acc + t.value else acc - t.value)
    else Ok(Parsed(acc, pos))
  }

  function Term(env: Env, s: string, pos: nat): (r: Outcome)
    requires pos <= |s|
    ensures Advanced(r, s, pos)
    decreases |s| - pos, 4
  {
    match Exponentiation(env, s, pos)
    case Err(e) => Err(e)
    case Ok(p) => TermTail(env, s, p.next, p.value)
  }

  predicate IsTimes(c: char) { c == '*' || c == '×' }
  predicate IsDivide(c: char) { c == '/' || c == '÷' }

  /** The ('*' | '/') power loop; a zero divisor is an error. */
  function TermTail(env: Env, s: string, pos: nat, acc: real): (r: Outcome)
    requires pos <= |s|
    ensures Stayed(r, s, pos)
    decreases |s| - pos, 4
  {
    if pos < |s| && (IsTimes(s[pos]) || IsDivide(s[pos])) then
      match Exponentiation(env, s, pos + 1)
      case Err(e) => Err(e)
      case Ok(p) =>
        if IsTimes(s[pos]) then TermTail(env, s, p.next, Mul(acc, p.value))
        else if p.value == 0.0 then Err(DivisionByZero)
        else TermTail(env, s, p.next, Div(acc, p.value))
    else Ok(Parsed(acc, pos))
  }

  function Exponentiation(env: Env, s: string, pos: nat): (r: Outcome)
    requires pos <= |s|
    ensures Advanced(r, s, pos)
    decreases |s| - pos, 3
  {
    match Unary(env, s, pos)
    case Err(e) => Err(e)
    case Ok(b) =>
      if b.next < |s| && s[b.next] == '^' then
        match Unary(env, s, b.next + 1)
        case Err(e) => Err(e)
        case Ok(x) => Ok(Parsed(env.lib.pow(b.value, x.value), x.next))
      else Ok(b)
  }

  function Unary(env: Env, s: string, pos: nat): (r: Outcome)
    requires pos <= |s|
    ensures Advanced(r, s, pos)
    decreases |s| - pos, 2
  {
    if pos < |s| && s[pos] == '-' then
      match Unary(env, s, pos + 1)
      case Err(e) => Err(e)
      case Ok(u) => Ok(Parsed(-u.value, u.next))
    else if pos < |s| && s[pos] == '+' then Unary(env, s, pos + 1)
    else Atom(env, s, pos)
  }

  function Atom(env: Env, s: string, pos: nat): (r: Outcome)
    requires pos <= |s|
    ensures Advanced(r, s, pos)
    decreases |s| - pos, 1
  {
    if pos == |s| then Err(Incomplete)
    else if s[pos] == '(' then
      match Expression(env, s, pos + 1)
      case Err(e) => Err(e)
      case Ok(x) =>
        match ExpectAt(s, x.next, ')')
        case Err(e) => Err(e)
        case Ok(next) => Ok(Parsed(x.value, next))
    else if IsDigit(s[pos]) || s[pos] == '.' then Number(env, s, pos)
    else
      var end := NameEnd(s, pos);
      if end == pos then Err(UnexpectedCharacter(s[pos]))
      else NamedAtom(env, s, pos, end)
  }

  /** A number: its text is handed to `toDoubleOrNull`. */
  function Number(env: Env, s: string, pos: nat): (r: Outcome)
    requires pos < |s| && (IsDigit(s[pos]) || s[pos] == '.')
    ensures Advanced(r, s, pos)
    ensures r.Ok? ==> r.value.next == NumberEnd(s, pos)
    ensures r.Err? ==> r.error == InvalidNumber(s[pos..NumberEnd(s, pos)])
  {
    var end := NumberEnd(s, pos);
    var text := s[pos..end];
    match env.toDouble(text)
    case None => Err(InvalidNumber(text))
    case Some(v) => Ok(Parsed(v, end))
  }

  /** The value a bare name stands for: `x` when a value is bound to it, then the
      constants. */
  function Constant(env: Env, name: string): Option<real>
  {
    if name == "x" && env.variableX.Some? then env.variableX
    else if name == "pi" || name == "π" then Some(env.lib.pi)
    else if name == "e" then Some(env.lib.e)
    else if name == "phi" || name == "φ" then Some((1.0 + env.lib.sqrt(5.0)) / 2.0)
    else if name == "ans" then Some(0.0)
    else None
  }

  /** The atom for the name s[start..end]: `x` or a constant, or else a call. */
  function NamedAtom(env: Env, s: string, start: nat, end: nat): (r: Outcome)
    requires start < end <= |s|
    ensures Advanced(r, s, start)
    decreases |s| - start, 0
  {
    var name := Lower(s[start..end]);
    match Constant(env, name)
    case Some(v) => Ok(Parsed(v, end))
    case None => CallAtom(env, s, name, end)
  }

  /** A call of `name`, whose text ends at `pos`: with one or two parenthesised
      arguments, or with the unary that follows the name as its argument. */
  function CallAtom(env: Env, s: string, name: string, pos: nat): (r: Outcome)
    requires pos <= |s|
    ensures Advanced(r, s, pos)
    decreases |s| - pos, 3
  {
    if pos < |s| && s[pos] == '(' then
      match Expression(env, s, pos + 1)
      case Err(e) => Err(e)
      case Ok(a) =>
        if a.next < |s| && s[a.next] == ',' then SecondArgument(env, s, name, a.value, a.next)
        else
          match ExpectAt(s, a.next, ')')
          case Err(e) => Err(e)
          case Ok(next) =>
            match FunctionValue(env, name, a.value)
            case Err(e) => Err(e)
            case Ok(v) => Ok(Parsed(v, next))
    else
      match Unary(env, s, pos)
      case Err(e) => Err(e)
      case Ok(u) =>
        match FunctionValue(env, name, u.value)
        case Err(e) => Err(e)
        case Ok(v) => Ok(Parsed(v, u.next))
  }

  /** The rest of a two-argument call, from the ',' after its first argument. */
  function SecondArgument(env: Env, s: string, name: string, first: real, pos: nat): (r: Outcome)
    requires pos < |s| && s[pos] == ','
    ensures Advanced(r, s, pos)
    decreases |s| - pos, 0
  {
    match Expression(env, s, pos + 1)
    case Err(e) => Err(e)
    case Ok(b) =>
      match ExpectAt(s, b.next, ')')
      case Err(e) => Err(e)
      case Ok(next) =>
        match FunctionValue2(env, name, first, b.value)
        case Err(e) => Err(e)
        case Ok(v) => Ok(Parsed(v, next))
  }

  /** `parse`: the whole text must be one expression; the first character left
      over is reported with its position. */
  function ParseText(env: Env, s: string): (r: Result<real, ParseError>)
    ensures r.Ok? <==> Expression(env, s, 0).Ok? && Expression(env, s, 0).value.next == |s|
    ensures r.Ok? ==> r.value == Expression(env, s, 0).value.value
    ensures Expression(env, s, 0).Ok? && Expression(env, s, 0).value.next < |s|
            ==> r == Err(UnexpectedAt(s[Expression(env, s, 0).value.next], Expression(env, s, 0).value.next))
  {
    match Expression(env, s, 0)
    case Err(e) => Err(e)
    case Ok(x) => if x.next < |s| then Err(UnexpectedAt(s[x.next], x.next)) else Ok(x.value)
  }

  /** Evaluates a text after removing its whitespace. */
  function EvaluateText(env: Env, text: string): Result<real, ParseError>
  {
    ParseText(env, StripWhitespace(text))
  }

  // ---------------------------------------------------------------------------
  // Properties of the grammar

  /** A bound `x` is a value; an unbound `x` is an unknown function. */
  lemma VariableBinding(env: Env, s: string, start: nat, end: nat)
    requires start < end <= |s| && Lower(s[start..end]) == "x"
    ensures env.variableX.Some? ==> NamedAtom(env, s, start, end) == Ok(Parsed(env.variableX.value, end))
    ensures env.variableX.None? ==> NamedAtom(env, s, start, end).Err?
  {
    assert "x" !in FunctionTable && "x" !in FunctionTable2;
    UnknownNameFails(env, s, "x", end);
  }

  /** A name in neither table cannot be called, whatever follows it. */
  lemma UnknownNameFails(env: Env, s: string, name: string, pos: nat)
    requires pos <= |s| && name !in FunctionTable && name !in FunctionTable2
    ensures CallAtom(env, s, name, pos).Err?
  {
    if pos < |s| && s[pos] == '(' {
      var a := Expression(env, s, pos + 1);
      if a.Ok? && a.value.next < |s| && s[a.value.next] == ',' {
        assert SecondArgument(env, s, name, a.value.value, a.value.next).Err?;
      }
    }
  }

  /** A numeral in the text is read as the number `toDoubleOrNull` makes of it. */
  lemma NumeralUnary(env: Env, s: string, pos: nat, a: string, v: real)
    requires IsNumeral(a) && pos + |a| <= |s| && s[pos..pos + |a|] == a
    requires EndsNumber(s, pos + |a|) && env.toDouble(a) == Some(v)
    ensures Unary(env, s, pos) == Ok(Parsed(v, pos + |a|))
  {
    assert s[pos] == a[0];
    assert forall k :: pos <= k < pos + |a| ==> s[k] == a[k - pos];
    DigitsScan(s, pos, pos, pos + |a|);
  }

  /** A numeral not followed by '^' is a whole operand of the term loop. */
  lemma NumeralOperand(env: Env, s: string, pos: nat, a: string, v: real)
    requires IsNumeral(a) && pos + |a| <= |s| && s[pos..pos + |a|] == a
    requires EndsNumber(s, pos + |a|) && env.toDouble(a) == Some(v)
    requires pos + |a| < |s| ==> s[pos + |a|] != '^'
    ensures Exponentiation(env, s, pos) == Ok(Parsed(v, pos + |a|))
  {
    NumeralUnary(env, s, pos, a, v);
  }

  /** An atom that starts the text without a sign and spans all of it is the
      result of the whole parse, and so is its error. */
  lemma WholeAtom(env: Env, s: string)
    requires 0 < |s| && s[0] != '-' && s[0] != '+'
    ensures Atom(env, s, 0).Ok? && Atom(env, s, 0).value.next == |s|
            ==> ParseText(env, s) == Ok(Atom(env, s, 0).value.value)
    ensures Atom(env, s, 0).Err? ==> ParseText(env, s) == Err(Atom(env, s, 0).error)
  {
    assert Unary(env, s, 0) == Atom(env, s, 0);
    match Atom(env, s, 0)
    case Err(e) =>
      assert Exponentiation(env, s, 0) == Err(e);
      assert Term(env, s, 0) == Err(e);
    case Ok(x) =>
      if x.next == |s| {
        assert Exponentiation(env, s, 0) == Ok(x);
        assert TermTail(env, s, |s|, x.value) == Ok(x);
        assert Term(env, s, 0) == Ok(x);
        assert ExpressionTail(env, s, |s|, x.value) == Ok(x);
      }
  }

  // One-step unfoldings of the grammar rules, which keep the longer proofs small.

  lemma TermTailTimes(env: Env, s: string, pos: nat, acc: real, v: real, next: nat)
    requires pos < |s| && IsTimes(s[pos])
    requires Exponentiation(env, s, pos + 1) == Ok(Parsed(v, next))
    ensures TermTail(env, s, pos, acc) == TermTail(env, s, next, Mul(acc, v))
  {
  }

  lemma TermTailStop(env: Env, s: string, pos: nat, acc: real)
    requires pos <= |s|
    requires pos < |s| ==> !IsTimes(s[pos]) && !IsDivide(s[pos])
    ensures TermTail(env, s, pos, acc) == Ok(Parsed(acc, pos))
  {
  }

  lemma ExpressionTailStep(env: Env, s: string, pos: nat, acc: real, v: real, next: nat)
    requires pos < |s| && (s[pos] == '+' || s[pos] == '-')
    requires Term(env, s, pos + 1) == Ok(Parsed(v, next))
    ensures ExpressionTail(env, s, pos, acc)
            == ExpressionTail(env, s, next, if s[pos] == '+' then acc + v else acc - v)
  {
  }

  lemma ExpressionTailStop(env: Env, s: string, pos: nat, acc: real)
    requires pos <= |s|
    requires pos < |s| ==> s[pos] != '+' && s[pos] != '-'
    ensures ExpressionTail(env, s, pos, acc) == Ok(Parsed(acc, pos))
  {
  }

  /** A term whose first operand is known. */
  lemma TermFrom(env: Env, s: string, pos: nat, v: real, next: nat)
    requires pos <= |s| && Exponentiation(env, s, pos) == Ok(Parsed(v, next))
    ensures Term(env, s, pos) == TermTail(env, s, next, v)
  {
  }

  /** An expression whose first term is known. */
  lemma ExpressionFrom(env: Env, s: string, pos: nat, v: real, next: nat)
    requires pos <= |s| && Term(env, s, pos) == Ok(Parsed(v, next))
    ensures Expression(env, s, pos) == ExpressionTail(env, s, next, v)
  {
  }

  /** A unary not followed by '^' is a whole operand. */
  lemma PowerFromUnary(env: Env, s: string, pos: nat, v: real, next: nat)
    requires pos <= |s| && Unary(env, s, pos) == Ok(Parsed(v, next))
    requires next < |s| ==> s[next] != '^'
    ensures Exponentiation(env, s, pos) == Ok(Parsed(v, next))
  {
  }

  /** An expression that spans the whole text is its value. */
  lemma WholeText(env: Env, s: string, v: real)
    requires Expression(env, s, 0) == Ok(Parsed(v, |s|))
    ensures ParseText(env, s) == Ok(v)
  {
  }

  /** A letter starts a name, and the atom there is the named atom. */
  lemma NamedAtomAt(env: Env, s: string, pos: nat)
    requires pos < |s| && IsLetter(s[pos])
    ensures NameEnd(s, pos) > pos
    ensures Atom(env, s, pos) == NamedAtom(env, s, pos, NameEnd(s, pos))
  {
  }

  /** A numeral followed by none of '^', '*', '/', '+', '-' is a whole expression. */
  lemma NumeralExpression(env: Env, s: string, pos: nat, a: string, v: real)
    requires IsNumeral(a) && pos + |a| <= |s| && s[pos..pos + |a|] == a
    requires EndsNumber(s, pos + |a|) && env.toDouble(a) == Some(v)
    requires pos + |a| < |s| ==> s[pos + |a|] !in {'^', '*', '×', '/', '÷', '+', '-'}
    ensures Expression(env, s, pos) == Ok(Parsed(v, pos + |a|))
  {
    var p := pos + |a|;
    NumeralOperand(env, s, pos, a, v);
    TermTailStop(env, s, p, v);
    TermFrom(env, s, pos, v, p);
    ExpressionTailStop(env, s, p, v);
    ExpressionFrom(env, s, pos, v, p);
  }

  /** A numeral that is a whole operand of the term loop. */
  lemma NumeralTerm(env: Env, s: string, pos: nat, a: string, v: real)
    requires IsNumeral(a) && pos + |a| <= |s| && s[pos..pos + |a|] == a
    requires EndsNumber(s, pos + |a|) && env.toDouble(a) == Some(v)
    requires pos + |a| < |s| ==> s[pos + |a|] !in {'^', '*', '×', '/', '÷'}
    ensures Term(env, s, pos) == Ok(Parsed(v, pos + |a|))
  {
    NumeralOperand(env, s, pos, a, v);
    TermTailStop(env, s, pos + |a|, v);
    TermFrom(env, s, pos, v, pos + |a|);
  }

  /** The term `b*c` of two numerals that ends the text. */
  lemma {:induction false} ProductToEnd(env: Env, s: string, pos: nat, b: string, c: string, vb: real, vc: real)
    requires IsNumeral(b) && IsNumeral(c)
    requires pos + |b| + 1 + |c| == |s|
    requires s[pos..pos + |b|] == b && s[pos + |b|] == '*' && s[pos + |b| + 1..] == c
    requires env.toDouble(b) == Some(vb) && env.toDouble(c) == Some(vc)
    ensures Term(env, s, pos) == Ok(Parsed(Mul(vb, vc), |s|))
  {
    var q := pos + |b|;
    NumeralOperand(env, s, pos, b, vb);
    NumeralOperand(env, s, q + 1, c, vc);
    TermTailStop(env, s, |s|, Mul(vb, vc));
    TermTailTimes(env, s, q, vb, vc, |s|);
    TermFrom(env, s, pos, vb, q);
  }

  /** `a+b*c` and `a-b*c` bind the product first: the value is a ± (b·c). */
  lemma {:induction false} ProductBindsTighter(env: Env, a: string, op: char, b: string, c: string,
                                               va: real, vb: real, vc: real)
    requires op == '+' || op == '-'
    requires IsNumeral(a) && IsNumeral(b) && IsNumeral(c)
    requires env.toDouble(a) == Some(va) && env.toDouble(b) == Some(vb)
    requires env.toDouble(c) == Some(vc)
    ensures ParseText(env, a + [op] + b + "*" + c)
            == Ok(if op == '+' then va + Mul(vb, vc) else va - Mul(vb, vc))
  {
    var s := a + [op] + b + "*" + c;
    var p1 := |a|;
    assert s[0..p1] == a && s[p1] == op;
    assert s[p1 + 1..p1 + 1 + |b|] == b && s[p1 + 1 + |b|] == '*';
    assert s[p1 + 1 + |b| + 1..] == c;
    ProductBindsTighterAt(env, s, a, b, c, va, vb, vc);
  }

  lemma ProductBindsTighterAt(env: Env, s: string, a: string, b: string, c: string,
                              va: real, vb: real, vc: real)
    requires IsNumeral(a) && IsNumeral(b) && IsNumeral(c)
    requires |a| + 1 + |b| + 1 + |c| == |s|
    requires s[0..|a|] == a && (s[|a|] == '+' || s[|a|] == '-')
    requires s[|a| + 1..|a| + 1 + |b|] == b && s[|a| + 1 + |b|] == '*' && s[|a| + 1 + |b| + 1..] == c
    requires env.toDouble(a) == Some(va) && env.toDouble(b) == Some(vb)
    requires env.toDouble(c) == Some(vc)
    ensures ParseText(env, s) == Ok(if s[|a|] == '+' then va + Mul(vb, vc) else va - Mul(vb, vc))
  {
    var p1 := |a|;
    NumeralTerm(env, s, 0, a, va);
    ProductToEnd(env, s, p1 + 1, b, c, vb, vc);
    var total := if s[p1] == '+' then va + Mul(vb, vc) else va - Mul(vb, vc);
    ExpressionTailStop(env, s, |s|, total);
    ExpressionTailStep(env, s, p1, va, Mul(vb, vc), |s|);
    ExpressionFrom(env, s, 0, va, p1);
    WholeText(env, s, total);
  }

  /** The rest of a two-argument call once its second argument is known to
      parse up to the closing ')'. */
  lemma SecondArgumentAt(env: Env, s: string, name: string, first: real, q: nat, vb: real)
    requires q < |s| - 1 && s[q] == ',' && s[|s| - 1] == ')'
    requires Expression(env, s, q + 1) == Ok(Parsed(vb, |s| - 1))
    ensures SecondArgument(env, s, name, first, q)
            == match FunctionValue2(env, name, first, vb)
               case Ok(v) => Ok(Parsed(v, |s|))
               case Err(e) => Err(e)
  {
    assert ExpectAt(s, |s| - 1, ')') == Ok(|s|);
  }

  /** The atom `name(a,b)` once both arguments are known to parse. */
  lemma TwoArgumentAtom(env: Env, s: string, start: nat, end: nat, q: nat, va: real, vb: real)
    requires start < end < q < |s| - 1 && s[end] == '(' && s[q] == ',' && s[|s| - 1] == ')'
    requires Constant(env, Lower(s[start..end])).None?
    requires Expression(env, s, end + 1) == Ok(Parsed(va, q))
    requires Expression(env, s, q + 1) == Ok(Parsed(vb, |s| - 1))
    ensures NamedAtom(env, s, start, end)
            == match FunctionValue2(env, Lower(s[start..end]), va, vb)
               case Ok(v) => Ok(Parsed(v, |s|))
               case Err(e) => Err(e)
  {
    SecondArgumentAt(env, s, Lower(s[start..end]), va, q, vb);
  }

  /** A two-argument call `name(a,b)` of numerals applies `applyFunction2`. */
  lemma {:induction false} TwoArgumentCall(env: Env, name: string, a: string, b: string,
                                           va: real, vb: real)
    requires |name| > 0 && forall i :: 0 <= i < |name| ==> IsLetter(name[i])
    requires Constant(env, Lower(name)).None?
    requires IsNumeral(a) && IsNumeral(b)
    requires env.toDouble(a) == Some(va) && env.toDouble(b) == Some(vb)
    ensures ParseText(env, name + "(" + a + "," + b + ")")
            == match FunctionValue2(env, Lower(name), va, vb)
               case Ok(v) => Ok(v)
               case Err(e) => Err(e)
  {
    var s := name + "(" + a + "," + b + ")";
    var p := |name|;
    var q := p + 1 + |a|;
    assert s[0..p] == name && s[p] == '(';
    assert s[p + 1..q] == a && s[q] == ',';
    assert s[q + 1..|s| - 1] == b && s[|s| - 1] == ')';
    assert forall k :: 0 <= k < p ==> s[k] == name[k];
    TwoArgumentText(env, s, p, q, a, b, va, vb);
  }

  lemma TwoArgumentText(env: Env, s: string, p: nat, q: nat, a: string, b: string, va: real, vb: real)
    requires IsNumeral(a) && IsNumeral(b) && 0 < p && q == p + 1 + |a| && |s| == q + |b| + 2
    requires s[p] == '(' && s[p + 1..q] == a && s[q] == ','
    requires s[q + 1..|s| - 1] == b && s[|s| - 1] == ')'
    requires forall k :: 0 <= k < p ==> IsLetter(s[k])
    requires Constant(env, Lower(s[0..p])).None?
    requires env.toDouble(a) == Some(va) && env.toDouble(b) == Some(vb)
    ensures ParseText(env, s)
            == match FunctionValue2(env, Lower(s[0..p]), va, vb)
               case Ok(v) => Ok(v)
               case Err(e) => Err(e)
  {
    NameRun(s, 0, p);
    NamedAtomAt(env, s, 0);
    NumeralExpression(env, s, p + 1, a, va);
    NumeralExpression(env, s, q + 1, b, vb);
    TwoArgumentAtom(env, s, 0, p, q, va, vb);
    WholeAtom(env, s);
  }

  /** Where the parts of "nCr(5,2)" lie. */
  lemma NcrLayout(s: string)
    requires s == "nCr(5,2)"
    ensures |s| == 8 && s[3] == '(' && s[4..5] == "5" && s[5] == ',' && s[6..7] == "2" && s[7] == ')'
    ensures Lower(s[0..3]) == "ncr" && forall k :: 0 <= k < 3 ==> IsLetter(s[k])
  {
    assert s[0..3] == "nCr";
  }

  /** nCr of 5 and 2 is 10. */
  lemma NcrLookup(env: Env)
    ensures FunctionValue2(env, "ncr", 5.0, 2.0) == Ok(10.0)
  {
    assert FunctionTable2["ncr"] == NcrF;
    assert RoundHalfEven(5.0) == 5 && RoundHalfEven(2.0) == 2;
    assert Choose(5, 2) == 10 by {
      assert Choose(5, 0) == 1;
      ChooseStep(5, 0);
      ChooseStep(5, 1);
    }
  }

  /** "nCr(5,2)" is 10, computed by the scientific engine. */
  lemma CombinationExample(env: Env, s: string)
    requires env.toDouble("5") == Some(5.0) && env.toDouble("2") == Some(2.0)
    requires s == "nCr(5,2)"
    ensures ParseText(env, s) == Ok(10.0)
  {
    NcrLayout(s);
    NcrLookup(env);
    TwoArgumentText(env, s, 3, 5, "5", "2", 5.0, 2.0);
  }

  /** Wherever the rounded argument fits in an int the saturating conversion is
      exact, and beyond it `fact` is still rejected: nothing wraps around. */
  lemma FactorialSaturates(x: real)
    ensures Factorial(x).Ok? <==> 0 <= RoundToInt(x) <= 170
    ensures RoundHalfEven(x) > IntMax ==> Factorial(x) == Err(FactorialOutOfRange)
  {
  }

  // ---------------------------------------------------------------------------
  // The parser with a moving cursor

  /** A method's result and final cursor agree with what the rule's function
      computes from the starting position. */
  predicate Agrees(r: Result<real, ParseError>, pos: nat, spec: Outcome)
  {
    match spec
    case Ok(p) => r == Ok(p.value) && pos == p.next
    case Err(e) => r == Err(e)
  }

  class Parser {
    const input: string
    const env: Env
    var pos: nat

    constructor(text: string, env: Env)
      ensures input == StripWhitespace(text) && this.env == env && pos == 0
    {
      input := StripWhitespace(text);
      this.env := env;
      pos := 0;
    }

    /** Parses a text and reports the result or the error. */
    static method Evaluate(text: string, env: Env) returns (r: Result<real, ParseError>)
      ensures r == EvaluateText(env, text)
    {
      var parser := new Parser(text, env);
      r := parser.Parse();
    }

    method Parse() returns (r: Result<real, ParseError>)
      requires pos <= |input|
      modifies this
      ensures old(pos) == 0 ==> r == ParseText(env, input)
    {
      r := ParseExpression();
      if r.Ok? && pos < |input| {
        r := Err(UnexpectedAt(input[pos], pos));
      }
    }

    method Expect(c: char) returns (err: Option<ParseError>)
      requires pos <= |input|
      modifies this
      ensures pos <= |input|
      ensures match ExpectAt(input, old(pos), c)
              case Ok(next) => err == None && pos == next
              case Err(e) => err == Some(e)
    {
      if pos >= |input| || input[pos] != c {
        return Some(Expected(c, pos));
      }
      pos := pos + 1;
      return None;
    }

    method ParseExpression() returns (r: Result<real, ParseError>)
      requires pos <= |input|
      modifies this
      ensures pos <= |input|
      ensures Agrees(r, pos, Expression(env, input, old(pos)))
      decreases |input| - pos, 5
    {
      var t := ParseTerm();
      if t.Err? {
        return t;
      }
      var result := t.value;
      while pos < |input|
        invariant old(pos) < pos <= |input|
        invariant ExpressionTail(env, input, pos, result) == Expression(env, input, old(pos))
        decreases |input| - pos
      {
        var c := input[pos];
        if c == '+' {
          pos := pos + 1;
          t := ParseTerm();
          if t.Err? {
            return t;
          }
          result := result + t.value;
        } else if c == '-' {
          pos := pos + 1;
          t := ParseTerm();
          if t.Err? {
            return t;
          }
          result := result - t.value;
        } else {
          break;
        }
      }
      return Ok(result);
    }

    method ParseTerm() returns (r: Result<real, ParseError>)
      requires pos <= |input|
      modifies this
      ensures pos <= |input|
      ensures Agrees(r, pos, Term(env, input, old(pos)))
      decreases |input| - pos, 4
    {
      var p := ParsePower();
      if p.Err? {
        return p;
      }
      var result := p.value;
      while pos < |input|
        invariant old(pos) < pos <= |input|
        invariant TermTail(env, input, pos, result) == Term(env, input, old(pos))
        decreases |input| - pos
      {
        var c := input[pos];
        if !(IsTimes(c) || IsDivide(c)) {
          break;
        }
        var step := ParseFactor(result);
        if step.Err? {
          return step;
        }
        result := step.value;
      }
      return Ok(result);
    }

    /** One '*' or '/' and the operand after it, applied to the product so far. */
    method ParseFactor(acc: real) returns (r: Result<real, ParseError>)
      requires pos < |input| && (IsTimes(input[pos]) || IsDivide(input[pos]))
      modifies this
      ensures pos <= |input|
      ensures r.Ok? ==> old(pos) < pos
      ensures r.Err? ==> TermTail(env, input, old(pos), acc) == Err(r.error)
      ensures r.Ok? ==> TermTail(env, input, old(pos), acc) == TermTail(env, input, pos, r.value)
      decreases |input| - pos, 4
    {
      var c := input[pos];
      pos := pos + 1;
      var operand := ParsePower();
      if operand.Err? {
        return operand;
      }
      if IsTimes(c) {
        return Ok(Mul(acc, operand.value));
      }
      if operand.value == 0.0 {
        return Err(DivisionByZero);
      }
      return Ok(Div(acc, operand.value));
    }

    method ParsePower() returns (r: Result<real, ParseError>)
      requires pos <= |input|
      modifies this
      ensures pos <= |input|
      ensures Agrees(r, pos, Exponentiation(env, input, old(pos)))
      decreases |input| - pos, 3
    {
      var base := ParseUnary();
      if base.Err? {
        return base;
      }
      if pos < |input| && input[pos] == '^' {
        pos := pos + 1;
        var exp := ParseUnary();
        if exp.Err? {
          return exp;
        }
        return Ok(env.lib.pow(base.value, exp.value));
      }
      return base;
    }

    method ParseUnary() returns (r: Result<real, ParseError>)
      requires pos <= |input|
      modifies this
      ensures pos <= |input|
      ensures Agrees(r, pos, Unary(env, input, old(pos)))
      decreases |input| - pos, 2
    {
      if pos < |input| {
        if input[pos] == '-' {
          pos := pos + 1;
          var u := ParseUnary();
          if u.Err? {
            return u;
          }
          return Ok(-u.value);
        }
        if input[pos] == '+' {
          pos := pos + 1;
          r := ParseUnary();
          return;
        }
      }
      r := ParseAtom();
    }

    method ParseAtom() returns (r: Result<real, ParseError>)
      requires pos <= |input|
      modifies this
      ensures pos <= |input|
      ensures Agrees(r, pos, Atom(env, input, old(pos)))
      decreases |input| - pos, 1
    {
      if pos >= |input| {
        return Err(Incomplete);
      }
      var c := input[pos];
      if c == '(' {
        pos := pos + 1;
        r := ParseExpression();
        if r.Err? {
          return;
        }
        var err := Expect(')');
        if err.Some? {
          return Err(err.value);
        }
        return;
      }
      if IsDigit(c) || c == '.' {
        r := ParseNumber();
        return;
      }
      var raw := ParseName();
      if raw == [] {
        return Err(UnexpectedCharacter(c));
      }
      var name := Lower(raw);
      var k := Constant(env, name);
      if k.Some? {
        return Ok(k.value);
      }
      r := ParseCall(name);
    }

    /** The call that follows a name that is neither `x` nor a constant. */
    method ParseCall(name: string) returns (r: Result<real, ParseError>)
      requires pos <= |input|
      modifies this
      ensures pos <= |input|
      ensures Agrees(r, pos, CallAtom(env, input, name, old(pos)))
      decreases |input| - pos, 3
    {
      if pos < |input| && input[pos] == '(' {
        pos := pos + 1;
        var arg := ParseExpression();
        if arg.Err? {
          return arg;
        }
        if pos < |input| && input[pos] == ',' {
          r := ParseSecondArgument(name, arg.value);
          return;
        }
        var err := Expect(')');
        if err.Some? {
          return Err(err.value);
        }
        r := ApplyFunction(name, arg.value);
        return;
      }
      var arg := ParseUnary();
      if arg.Err? {
        return arg;
      }
      r := ApplyFunction(name, arg.value);
    }

    /** The second argument of a call and the closing ')', from the ','. */
    method ParseSecondArgument(name: string, first: real) returns (r: Result<real, ParseError>)
      requires pos < |input| && input[pos] == ','
      modifies this
      ensures pos <= |input|
      ensures Agrees(r, pos, SecondArgument(env, input, name, first, old(pos)))
      decreases |input| - pos, 0
    {
      pos := pos + 1;
      var arg2 := ParseExpression();
      if arg2.Err? {
        return arg2;
      }
      var err := Expect(')');
      if err.Some? {
        return Err(err.value);
      }
      r := ApplyFunction2(name, first, arg2.value);
    }

    /** `applyFunction`: the table lookup, with `fact` computed by its loop. */
    method ApplyFunction(name: string, arg: real) returns (r: Result<real, ParseError>)
      ensures r == FunctionValue(env, name, arg)
    {
      if name in FunctionTable && FunctionTable[name] == FactF {
        r := FactorialLoop(arg);
      } else {
        r := FunctionValue(env, name, arg);
      }
    }

    /** `applyFunction2`: nCr and nPr run the scientific engine's loops. */
    method ApplyFunction2(name: string, a: real, b: real) returns (r: Result<real, ParseError>)
      ensures r == FunctionValue2(env, name, a, b)
    {
      if name in FunctionTable2 && FunctionTable2[name] == NcrF {
        var c := Engine.CombinationLoop(RoundToInt(a), RoundToInt(b));
        r := FromEngine(c);
      } else if name in FunctionTable2 && FunctionTable2[name] == NprF {
        var p := Engine.PermutationLoop(RoundToInt(a), RoundToInt(b));
        r := FromEngine(p);
      } else {
        r := FunctionValue2(env, name, a, b);
      }
    }

    method ParseNumber() returns (r: Result<real, ParseError>)
      requires pos < |input| && (IsDigit(input[pos]) || input[pos] == '.')
      modifies this
      ensures pos <= |input|
      ensures Agrees(r, pos, Number(env, input, old(pos)))
    {
      var start := pos;
      var hasDot := false;
      var hasE := false;
      while pos < |input|
        invariant start <= pos <= |input|
        invariant NumberScan(input, start, pos, hasDot, hasE) == NumberEnd(input, start)
        decreases |input| - pos
      {
        var c := input[pos];
        if IsDigit(c) {
          pos := pos + 1;
        } else if c == '.' && !hasDot {
          hasDot := true;
          pos := pos + 1;
        } else if (c == 'e' || c == 'E') && !hasE && pos > start {
          hasE := true;
          pos := pos + 1;
          if pos < |input| && (input[pos] == '+' || input[pos] == '-') {
            pos := pos + 1;
          }
        } else {
          break;
        }
      }
      var numStr := input[start..pos];
      match env.toDouble(numStr)
      case None => return Err(InvalidNumber(numStr));
      case Some(v) => return Ok(v);
    }

    method ParseName() returns (name: string)
      requires pos <= |input|
      modifies this
      ensures pos == NameEnd(input, old(pos))
      ensures name == input[old(pos)..pos]
    {
      var start := pos;
      while pos < |input| && IsNameChar(input[pos])
        invariant start <= pos <= |input|
        invariant NameEnd(input, pos) == NameEnd(input, start)
        decreases |input| - pos
      {
        pos := pos + 1;
      }
      name := input[start..pos];
    }
  }
}
