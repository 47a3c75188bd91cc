/** The desktop calculator's recursive-descent expression parser.

    Grammar, as the parser implements it:
      expression = term (('+' | '-') term)*
      term       = power (('*' | '×' | '/' | '÷') power)*
      power      = unary ('^' unary)?            -- at most one '^'
      unary      = '-' unary | '+' unary | atom
      atom       = '(' expression ')' | number
                 | name                          -- a constant
                 | name '(' expression ')'       -- a call
                 | name unary                    -- a call with an implicit argument

    Every failure throws an ArithmeticException; here it is an `Err` carrying a
    `ParseError` that records what the message reports. The functions define the
    value and end position of each rule; the class `Parser` moves a cursor and
    each of its methods is proved to agree with the function of its rule. */
module JavaExpressionParser {
  import opened Common
  import opened JvmLexing

  datatype ParseError =
    | UnexpectedAt(ch: char, pos: nat)  // text left over after the expression
    | UnexpectedCharacter(ch: char)     // an atom that starts with no name character
    | Incomplete                        // the text ended where an atom was due
    | Expected(ch: char, pos: nat)      // a missing ')'
    | InvalidNumber(text: string)
    | UnknownFunction(name: string)
    | DivisionByZero
    | FactorialOutOfRange

  /** What a parse depends on besides the text: the angle unit, the math library
      and `Double.parseDouble` (None where it throws). */
  datatype Env = Env(degrees: bool, lib: Lib, parseDouble: string -> Option<real>)

  datatype Parsed = Parsed(value: real, next: nat)

  type Outcome = Result<Parsed, ParseError>

  /** A successful rule consumed at least one character and stayed in the text. */
  predicate Advanced(r: Outcome, s: string, pos: nat)
  {
    r.Ok? ==> pos < r.value.next <= |s|
  }

  /** As `Advanced`, for the loop tails, which may consume nothing. */
  predicate Stayed(r: Outcome, s: string, pos: nat)
  {
    r.Ok? ==> pos <= r.value.next <= |s|
  }

  // ---------------------------------------------------------------------------
  // The functions the names stand for

  datatype Fn =
    | SinF | CosF | TanF | AsinF | AcosF | AtanF | SinhF | CoshF | TanhF
    | AsinhF | AcoshF | AtanhF | LnF | Log10F | Log2F | SqrtF | CbrtF | AbsF
    | ExpF | FloorF | CeilF | RoundF | SignF | FactF

  /** The names `applyFunction` accepts, with their aliases. */
  const FunctionTable: map<string, Fn> := map[
    "sin" := SinF, "cos" := CosF, "tan" := TanF,
    "asin" := AsinF, "arcsin" := AsinF, "acos" := AcosF, "arccos" := AcosF,
    "atan" := AtanF, "arctan" := AtanF,
    "sinh" := SinhF, "cosh" := CoshF, "tanh" := TanhF,
    "asinh" := AsinhF, "acosh" := AcoshF, "atanh" := AtanhF,
    "ln" := LnF, "log" := Log10F, "log10" := Log10F, "log2" := Log2F,
    "sqrt" := SqrtF, "√" := SqrtF, "cbrt" := CbrtF, "abs" := AbsF, "exp" := ExpF,
    "floor" := FloorF, "ceil" := CeilF, "round" := RoundF,
    "sign" := SignF, "sgn" := SignF, "fact" := FactF]

  /** An angle argument, converted to radians in degree mode. */
  function AngleIn(env: Env, arg: real): real
  {
    if env.degrees then JvmToRadians(env.lib, arg) else arg
  }

  /** An angle result, converted to degrees in degree mode. */
  function AngleOut(env: Env, rad: real): real
  {
    if env.degrees then JvmToDegrees(env.lib, rad) else rad
  }

  /** `fact` as written: the long from `Math.round` is cast to int, keeping its low
      32 bits, before the range check. */
  function FactorialAsWritten(x: real): (r: Result<real, ParseError>)
    ensures r.Ok? <==> 0 <= WrapInt(JvmRound(x)) <= 170
    ensures r.Err? ==> r.error == FactorialOutOfRange
    ensures r.Ok? ==> r.value == Fact(WrapInt(JvmRound(x))) as real
  {
    var n := WrapInt(JvmRound(x));
    if n < 0 || n > 170 then Err(FactorialOutOfRange)
    else (RangeProductFact(n); Ok(RangeProduct(2, n)))
  }

  /** 2^32 rounds to a long whose low 32 bits are zero, so the range check sees 0
      and the factorial of 4294967296 comes out as 1. */
  lemma FactorialWrapsAround()
    ensures FactorialAsWritten(4294967296.0) == Ok(1.0)
    ensures FactorialAsWritten(4294967298.0) == Ok(2.0)
  {
    assert JvmRound(4294967296.0) == 4294967296;
    assert WrapInt(4294967296) == 0;
    assert JvmRound(4294967298.0) == 4294967298;
    assert WrapInt(4294967298) == 2;
    assert RangeProduct(2, 2) == RangeProduct(2, 1) * 2.0;
  }

  /** `fact` as intended: the rounded argument itself must lie in 0..170, and the
      result is its factorial. */
  function Factorial(x: real): (r: Result<real, ParseError>)
    ensures r.Ok? <==> 0 <= JvmRound(x) <= 170
    ensures r.Err? ==> r.error == FactorialOutOfRange
    ensures r.Ok? ==> r.value == Fact(JvmRound(x)) as real
  {
    var n := JvmRound(x);
    if n < 0 || n > 170 then Err(FactorialOutOfRange)
    else (RangeProductFact(n); Ok(RangeProduct(2, n)))
  }

  /** Wherever the rounded argument fits in an int the cast changes nothing and the
      two readings agree. */
  lemma FactorialAgreesInIntRange(x: real)
    requires IntMin <= JvmRound(x) <= IntMax
    ensures FactorialAsWritten(x) == Factorial(x)
  {
    var n := JvmRound(x);
    assert WrapInt(n) == n by {
      var m := n % 0x1_0000_0000;
      if n >= 0 {
        assert m == n;
      } else {
        assert m == n + 0x1_0000_0000;
      }
    }
  }

  /** The accumulator loop of `fact`, over the argument after its `int` cast. */
  method FactorialLoop(x: real) returns (r: Result<real, ParseError>)
    ensures r == FactorialAsWritten(x)
  {
    var n := WrapInt(JvmRound(x));
    r := IntFactorial(n);
  }

  /** The range check and the loop of `fact`, once the argument is an `int`. */
  method IntFactorial(n: int) returns (r: Result<real, ParseError>)
    ensures r == if n < 0 || n > 170 then Err(FactorialOutOfRange) else Ok(RangeProduct(2, n))
  {
    if n < 0 || n > 170 {
      return Err(FactorialOutOfRange);
    }
    var acc := 1.0;
    var i := 2;
    while i <= n
      invariant i == 2 || 2 <= i <= n + 1
      invariant acc == RangeProduct(2, i - 1)
    {
      acc := acc * i as real;
      i := i + 1;
    }
    if n == 0 {
      assert RangeProduct(2, 1) == 1.0 == RangeProduct(2, 0);
    }
    return Ok(acc);
  }

  /** A known function applied to its argument. Nothing but `fact` checks its
      domain: sqrt, ln, asin and the rest hand any argument to the library. */
  function Apply(env: Env, f: Fn, arg: real): (r: Result<real, ParseError>)
    ensures r.Err? <==> f == FactF && !(0 <= WrapInt(JvmRound(arg)) <= 170)
    ensures r.Err? ==> r.error == FactorialOutOfRange
  {
    var lib := env.lib;
    match f
    case SinF => Ok(lib.sin(AngleIn(env, arg)))
    case CosF => Ok(lib.cos(AngleIn(env, arg)))
    case TanF => Ok(lib.tan(AngleIn(env, arg)))
    case AsinF => Ok(AngleOut(env, lib.asin(arg)))
    case AcosF => Ok(AngleOut(env, lib.acos(arg)))
    case AtanF => Ok(AngleOut(env, lib.atan(arg)))
    case SinhF => Ok(lib.sinh(arg))
    case CoshF => Ok(lib.cosh(arg))
    case TanhF => Ok(lib.tanh(arg))
    case AsinhF => Ok(lib.ln(arg + lib.sqrt(arg * arg + 1.0)))
    case AcoshF => Ok(lib.ln(arg + lib.sqrt(arg * arg - 1.0)))
    case AtanhF => Ok(0.5 * lib.ln(Quot(lib, 1.0 + arg, 1.0 - arg)))
    case LnF => Ok(lib.ln(arg))
    case Log10F => Ok(lib.log10(arg))
    case Log2F => Ok(Quot(lib, lib.ln(arg), lib.ln(2.0)))
    case SqrtF => Ok(lib.sqrt(arg))
    case CbrtF => Ok(lib.cbrt(arg))
    case AbsF => Ok(Abs(arg))
    case ExpF => Ok(lib.exp(arg))
    case FloorF => Ok(arg.Floor as real)
    case CeilF => Ok(Ceil(arg) as real)
    case RoundF => Ok(JvmRound(arg) as real)
    case SignF => Ok(Signum(arg))
    case FactF => FactorialAsWritten(arg)
  }

  /** `applyFunction`: a name outside the table is an unknown function. */
  function FunctionValue(env: Env, name: string, arg: real): (r: Result<real, ParseError>)
    ensures name !in FunctionTable ==> r == Err(UnknownFunction(name))
    ensures name in FunctionTable ==> r == Apply(env, FunctionTable[name], arg)
  {
    if name in FunctionTable then Apply(env, FunctionTable[name], arg)
    else Err(UnknownFunction(name))
  }

  // ---------------------------------------------------------------------------
  // The grammar, as functions of (text, position)

  /** `expect`: the character must be next; the cursor steps over it. */
  function ExpectAt(s: string, pos: nat, c: char): (r: Result<nat, ParseError>)
    requires pos <= |s|
    ensures r.Ok? <==> pos < |s| && s[pos] == c
    ensures r.Ok? ==> r.value == pos + 1
    ensures r.Err? ==> r.error == Expected(c, pos)
  {
    if pos >= |s| || s[pos] != c then Err(Expected(c, pos)) else Ok(pos + 1)
  }

  function Expression(env: Env, s: string, pos: nat): (r: Outcome)
    requires pos <= |s|
    ensures Advanced(r, s, pos)
    decreases |s| - pos, 5
  {
    match Term(env, s, pos)
    case Err(e) => Err(e)
    case Ok(t) => ExpressionTail(env, s, t.next, t.value)
  }

  /** The ('+' | '-') term loop, with `acc` the value so far. */
  function ExpressionTail(env: Env, s: string, pos: nat, acc: real): (r: Outcome)
    requires pos <= |s|
    ensures Stayed(r, s, pos)
    decreases |s| - pos, 5
  {
    if pos < |s| && (s[pos] == '+' || s[pos] == '-') then
      match Term(env, s, pos + 1)
      case Err(e) => Err(e)
      case Ok(t) =>
        ExpressionTail(env, s, t.next, if s[pos] == '+' then acc + t.value else acc - t.value)
    else Ok(Parsed(acc, pos))
  }

  function Term(env: Env, s: string, pos: nat): (r: Outcome)
    requires pos <= |s|
    ensures Advanced(r, s, pos)
    decreases |s| - pos, 4
  {
    match Exponentiation(env, s, pos)
    case Err(e) => Err(e)
    case Ok(p) => TermTail(env, s, p.next, p.value)
  }

  predicate IsTimes(c: char) { c == '*' || c == '×' }
  predicate IsDivide(c: char) { c == '/' || c == '÷' }

  /** The ('*' | '/') power loop; a zero divisor is an error. */
  function TermTail(env: Env, s: string, pos: nat, acc: real): (r: Outcome)
    requires pos <= |s|
    ensures Stayed(r, s, pos)
    decreases |s| - pos, 4
  {
    if pos < |s| && (IsTimes(s[pos]) || IsDivide(s[pos])) then
      match Exponentiation(env, s, pos + 1)
      case Err(e) => Err(e)
      case Ok(p) =>
        if IsTimes(s[pos]) then TermTail(env, s, p.next, Mul(acc, p.value))
        else if p.value == 0.0 then Err(DivisionByZero)
        else TermTail(env, s, p.next, Div(acc, p.value))
    else Ok(Parsed(acc, pos))
  }

  function Exponentiation(env: Env, s: string, pos: nat): (r: Outcome)
    requires pos <= |s|
    ensures Advanced(r, s, pos)
    decreases |s| - pos, 3
  {
    match Unary(env, s, pos)
    case Err(e) => Err(e)
    case Ok(b) =>
      if b.next < |s| && s[b.next] == '^' then
        match Unary(env, s, b.next + 1)
        case Err(e) => Err(e)
        case Ok(x) => Ok(Parsed(env.lib.pow(b.value, x.value), x.next))
      else Ok(b)
  }

  function Unary(env: Env, s: string, pos: nat): (r: Outcome)
    requires pos <= |s|
    ensures Advanced(r, s, pos)
    decreases |s| - pos, 2
  {
    if pos < |s| && s[pos] == '-' then
      match Unary(env, s, pos + 1)
      case Err(e) => Err(e)
      case Ok(u) => Ok(Parsed(-u.value, u.next))
    else if pos < |s| && s[pos] == '+' then Unary(env, s, pos + 1)
    else Atom(env, s, pos)
  }

  function Atom(env: Env, s: string, pos: nat): (r: Outcome)
    requires pos <= |s|
    ensures Advanced(r, s, pos)
    decreases |s| - pos, 1
  {
    if pos == |s| then Err(Incomplete)
    else if s[pos] == '(' then
      match Expression(env, s, pos + 1)
      case Err(e) => Err(e)
      case Ok(x) =>
        match ExpectAt(s, x.next, ')')
        case Err(e) => Err(e)
        case Ok(next) => Ok(Parsed(x.value, next))
    else if IsDigit(s[pos]) || s[pos] == '.' then Number(env, s, pos)
    else
      var end := NameEnd(s, pos);
      if end == pos then Err(UnexpectedCharacter(s[pos]))
      else NamedAtom(env, s, pos, end)
  }

  /** A number: its text is handed to `Double.parseDouble`. */
  function Number(env: Env, s: string, pos: nat): (r: Outcome)
    requires pos < |s| && (IsDigit(s[pos]) || s[pos] == '.')
    ensures Advanced(r, s, pos)
    ensures r.Ok? ==> r.value.next == NumberEnd(s, pos)
    ensures r.Err? ==> r.error == InvalidNumber(s[pos..NumberEnd(s, pos)])
  {
    var end := NumberEnd(s, pos);
    var text := s[pos..end];
    match env.parseDouble(text)
    case None => Err(InvalidNumber(text))
    case Some(v) => Ok(Parsed(v, end))
  }

  /** The constants, matched on the lower-cased name before any function. */
  function Constant(env: Env, name: string): Option<real>
  {
    if name == "pi" || name == "π" then Some(env.lib.pi)
    else if name == "e" then Some(env.lib.e)
    else if name == "phi" || name == "φ" then Some((1.0 + env.lib.sqrt(5.0)) / 2.0)
    else if name == "ans" then Some(0.0)
    else None
  }

  /** The atom for the name s[start..end]: a constant, or else a call. */
  function NamedAtom(env: Env, s: string, start: nat, end: nat): (r: Outcome)
    requires start < end <= |s|
    ensures Advanced(r, s, start)
    decreases |s| - start, 0
  {
    var name := Lower(s[start..end]);
    match Constant(env, name)
    case Some(v) => Ok(Parsed(v, end))
    case None => CallAtom(env, s, name, end)
  }

  /** A call of `name`, whose text ends at `pos`: with a parenthesised argument,
      or with the unary that follows the name as its argument. */
  function CallAtom(env: Env, s: string, name: string, pos: nat): (r: Outcome)
    requires pos <= |s|
    ensures Advanced(r, s, pos)
    decreases |s| - pos, 3
  {
    if pos < |s| && s[pos] == '(' then
      match Expression(env, s, pos + 1)
      case Err(e) => Err(e)
      case Ok(a) =>
        match ExpectAt(s, a.next, ')')
        case Err(e) => Err(e)
        case Ok(next) =>
          match FunctionValue(env, name, a.value)
          case Err(e) => Err(e)
          case Ok(v) => Ok(Parsed(v, next))
    else
      match Unary(env, s, pos)
      case Err(e) => Err(e)
      case Ok(u) =>
        match FunctionValue(env, name, u.value)
        case Err(e) => Err(e)
        case Ok(v) => Ok(Parsed(v, u.next))
  }

  /** `parse`: the whole text must be one expression; the first character left
      over is reported with its position. */
  function ParseText(env: Env, s: string): (r: Result<real, ParseError>)
    ensures r.Ok? <==> Expression(env, s, 0).Ok? && Expression(env, s, 0).value.next == |s|
    ensures r.Ok? ==> r.value == Expression(env, s, 0).value.value
    ensures Expression(env, s, 0).Ok? && Expression(env, s, 0).value.next < |s|
            ==> r == Err(UnexpectedAt(s[Expression(env, s, 0).value.next], Expression(env, s, 0).value.next))
  {
    match Expression(env, s, 0)
    case Err(e) => Err(e)
    case Ok(x) => if x.next < |s| then Err(UnexpectedAt(s[x.next], x.next)) else Ok(x.value)
  }

  /** Evaluates a text after removing its whitespace. */
  function EvaluateText(env: Env, text: string): Result<real, ParseError>
  {
    ParseText(env, StripWhitespace(text))
  }

  // ---------------------------------------------------------------------------
  // Properties of the grammar


  /** Constants win over everything after them: a constant name is its value even
      when followed by '(' or by an operand. */
  lemma ConstantsFirst(env: Env, s: string, start: nat, end: nat)
    requires start < end <= |s|
    ensures Lower(s[start..end]) == "ans" ==> NamedAtom(env, s, start, end) == Ok(Parsed(0.0, end))
    ensures Lower(s[start..end]) == "e" ==> NamedAtom(env, s, start, end) == Ok(Parsed(env.lib.e, end))
    ensures Lower(s[start..end]) in {"pi", "π"} ==> NamedAtom(env, s, start, end) == Ok(Parsed(env.lib.pi, end))
  {
  }

  /** A numeral in the text is read as the number `parseDouble` makes of it. */
  lemma NumeralUnary(env: Env, s: string, pos: nat, a: string, v: real)
    requires IsNumeral(a) && pos + |a| <= |s| && s[pos..pos + |a|] == a
    requires EndsNumber(s, pos + |a|) && env.parseDouble(a) == Some(v)
    ensures Unary(env, s, pos) == Ok(Parsed(v, pos + |a|))
  {
    assert s[pos] == a[0];
    assert forall k :: pos <= k < pos + |a| ==> s[k] == a[k - pos];
    DigitsScan(s, pos, pos, pos + |a|);
  }

  /** A numeral not followed by '^' is a whole operand of the term loop. */
  lemma NumeralOperand(env: Env, s: string, pos: nat, a: string, v: real)
    requires IsNumeral(a) && pos + |a| <= |s| && s[pos..pos + |a|] == a
    requires EndsNumber(s, pos + |a|) && env.parseDouble(a) == Some(v)
    requires pos + |a| < |s| ==> s[pos + |a|] != '^'
    ensures Exponentiation(env, s, pos) == Ok(Parsed(v, pos + |a|))
  {
    NumeralUnary(env, s, pos, a, v);
  }

  // One-step unfoldings of the grammar rules, which keep the longer proofs small.

  lemma TermTailTimes(env: Env, s: string, pos: nat, acc: real, v: real, next: nat)
    requires pos < |s| && IsTimes(s[pos])
    requires Exponentiation(env, s, pos + 1) == Ok(Parsed(v, next))
    ensures TermTail(env, s, pos, acc) == TermTail(env, s, next, Mul(acc, v))
  {
  }

  lemma TermTailStop(env: Env, s: string, pos: nat, acc: real)
    requires pos <= |s|
    requires pos < |s| ==> !IsTimes(s[pos]) && !IsDivide(s[pos])
    ensures TermTail(env, s, pos, acc) == Ok(Parsed(acc, pos))
  {
  }

  /** A zero divisor stops the term loop. */
  lemma TermTailDivideByZero(env: Env, s: string, pos: nat, acc: real, next: nat)
    requires pos < |s| && IsDivide(s[pos])
    requires Exponentiation(env, s, pos + 1) == Ok(Parsed(0.0, next))
    ensures TermTail(env, s, pos, acc) == Err(DivisionByZero)
  {
  }

  lemma ExpressionTailStep(env: Env, s: string, pos: nat, acc: real, v: real, next: nat)
    requires pos < |s| && (s[pos] == '+' || s[pos] == '-')
    requires Term(env, s, pos + 1) == Ok(Parsed(v, next))
    ensures ExpressionTail(env, s, pos, acc)
            == ExpressionTail(env, s, next, if s[pos] == '+' then acc + v else acc - v)
  {
  }

  lemma ExpressionTailStop(env: Env, s: string, pos: nat, acc: real)
    requires pos <= |s|
    requires pos < |s| ==> s[pos] != '+' && s[pos] != '-'
    ensures ExpressionTail(env, s, pos, acc) == Ok(Parsed(acc, pos))
  {
  }

  /** A term whose first operand is known. */
  lemma TermFrom(env: Env, s: string, pos: nat, v: real, next: nat)
    requires pos <= |s| && Exponentiation(env, s, pos) == Ok(Parsed(v, next))
    ensures Term(env, s, pos) == TermTail(env, s, next, v)
  {
  }

  /** An expression whose first term is known. */
  lemma ExpressionFrom(env: Env, s: string, pos: nat, v: real, next: nat)
    requires pos <= |s| && Term(env, s, pos) == Ok(Parsed(v, next))
    ensures Expression(env, s, pos) == ExpressionTail(env, s, next, v)
  {
  }

  /** A rule that fails passes its error up through every enclosing rule. */
  lemma FailureRises(env: Env, s: string, pos: nat, e: ParseError)
    requires pos <= |s|
    ensures Exponentiation(env, s, pos) == Err(e) ==> Term(env, s, pos) == Err(e)
    ensures Term(env, s, pos) == Err(e) ==> Expression(env, s, pos) == Err(e)
    ensures Unary(env, s, pos) == Err(e) ==> Exponentiation(env, s, pos) == Err(e)
  {
  }

  /** An expression that spans the whole text is its value. */
  lemma WholeText(env: Env, s: string, v: real)
    requires Expression(env, s, 0) == Ok(Parsed(v, |s|))
    ensures ParseText(env, s) == Ok(v)
  {
  }

  /** A parse that stops short of the end reports the character it stopped at,
      with its position. */
  lemma TextLeftOver(env: Env, s: string, v: real, k: nat)
    requires k < |s| && Expression(env, s, 0) == Ok(Parsed(v, k))
    ensures ParseText(env, s) == Err(UnexpectedAt(s[k], k))
  {
  }

  /** A failing expression is the result of the whole parse. */
  lemma TextFails(env: Env, s: string, e: ParseError)
    requires Expression(env, s, 0) == Err(e)
    ensures ParseText(env, s) == Err(e)
  {
  }

  /** A unary not followed by '^' is a whole operand. */
  lemma PowerFromUnary(env: Env, s: string, pos: nat, v: real, next: nat)
    requires pos <= |s| && Unary(env, s, pos) == Ok(Parsed(v, next))
    requires next < |s| ==> s[next] != '^'
    ensures Exponentiation(env, s, pos) == Ok(Parsed(v, next))
  {
  }

  /** An exponentiation `b^x` of two unaries. */
  lemma PowerOf(env: Env, s: string, pos: nat, vb: real, q: nat, vx: real, next: nat)
    requires pos <= |s| && Unary(env, s, pos) == Ok(Parsed(vb, q))
    requires q < |s| && s[q] == '^' && Unary(env, s, q + 1) == Ok(Parsed(vx, next))
    ensures Exponentiation(env, s, pos) == Ok(Parsed(env.lib.pow(vb, vx), next))
  {
  }

  /** A unary at the start of the text that ends it is the value of the text. */
  lemma WholeUnary(env: Env, s: string, v: real)
    requires Unary(env, s, 0) == Ok(Parsed(v, |s|))
    ensures ParseText(env, s) == Ok(v)
  {
    PowerFromUnary(env, s, 0, v, |s|);
    TermTailStop(env, s, |s|, v);
    TermFrom(env, s, 0, v, |s|);
    ExpressionTailStop(env, s, |s|, v);
    ExpressionFrom(env, s, 0, v, |s|);
    WholeText(env, s, v);
  }

  /** A unary at the start of the text that, when it succeeds, ends the text is
      the result of the whole parse. */
  lemma UnaryText(env: Env, s: string)
    requires Unary(env, s, 0).Ok? ==> Unary(env, s, 0).value.next == |s|
    ensures ParseText(env, s)
            == match Unary(env, s, 0)
               case Ok(u) => Ok(u.value)
               case Err(e) => Err(e)
  {
    match Unary(env, s, 0)
    case Ok(u) =>
      WholeUnary(env, s, u.value);
    case Err(e) =>
      FailureRises(env, s, 0, e);
      TextFails(env, s, e);
  }

  /** A unary at the start of the text followed by a character no operator loop
      takes leaves that character over. */
  lemma UnaryLeftOver(env: Env, s: string, v: real, k: nat)
    requires k < |s| && Unary(env, s, 0) == Ok(Parsed(v, k))
    requires s[k] !in {'^', '*', '×', '/', '÷', '+', '-'}
    ensures ParseText(env, s) == Err(UnexpectedAt(s[k], k))
  {
    PowerFromUnary(env, s, 0, v, k);
    TermTailStop(env, s, k, v);
    TermFrom(env, s, 0, v, k);
    ExpressionTailStop(env, s, k, v);
    ExpressionFrom(env, s, 0, v, k);
    TextLeftOver(env, s, v, k);
  }

  /** A letter starts a name, and the atom there is the named atom. */
  lemma NamedAtomAt(env: Env, s: string, pos: nat)
    requires pos < |s| && IsLetter(s[pos])
    ensures NameEnd(s, pos) > pos
    ensures Atom(env, s, pos) == NamedAtom(env, s, pos, NameEnd(s, pos))
    ensures Unary(env, s, pos) == Atom(env, s, pos)
  {
  }

  /** A name that is not a constant and not followed by '(' is applied to the
      unary after it. */
  lemma ImplicitCall(env: Env, s: string, start: nat, end: nat, v: real, next: nat)
    requires start < end < |s| && s[end] != '('
    requires Constant(env, Lower(s[start..end])).None?
    requires Unary(env, s, end) == Ok(Parsed(v, next))
    ensures NamedAtom(env, s, start, end)
            == match FunctionValue(env, Lower(s[start..end]), v)
               case Ok(r) => Ok(Parsed(r, next))
               case Err(e) => Err(e)
  {
  }

  /** A numeral that is a whole operand of the term loop. */
  lemma NumeralTerm(env: Env, s: string, pos: nat, a: string, v: real)
    requires IsNumeral(a) && pos + |a| <= |s| && s[pos..pos + |a|] == a
    requires EndsNumber(s, pos + |a|) && env.parseDouble(a) == Some(v)
    requires pos + |a| < |s| ==> s[pos + |a|] !in {'^', '*', '×', '/', '÷'}
    ensures Term(env, s, pos) == Ok(Parsed(v, pos + |a|))
  {
    NumeralOperand(env, s, pos, a, v);
    TermTailStop(env, s, pos + |a|, v);
    TermFrom(env, s, pos, v, pos + |a|);
  }

  /** The term `b*c` of two numerals that ends the text. */
  lemma {:induction false} ProductToEnd(env: Env, s: string, pos: nat, b: string, c: string, vb: real, vc: real)
    requires IsNumeral(b) && IsNumeral(c)
    requires pos + |b| + 1 + |c| == |s|
    requires s[pos..pos + |b|] == b && s[pos + |b|] == '*' && s[pos + |b| + 1..] == c
    requires env.parseDouble(b) == Some(vb) && env.parseDouble(c) == Some(vc)
    ensures Term(env, s, pos) == Ok(Parsed(Mul(vb, vc), |s|))
  {
    var q := pos + |b|;
    NumeralOperand(env, s, pos, b, vb);
    NumeralOperand(env, s, q + 1, c, vc);
    TermTailStop(env, s, |s|, Mul(vb, vc));
    TermTailTimes(env, s, q, vb, vc, |s|);
    TermFrom(env, s, pos, vb, q);
  }

  /** `a+b*c` and `a-b*c` bind the product first: the value is a ± (b·c). */
  lemma {:induction false} ProductBindsTighter(env: Env, a: string, op: char, b: string, c: string,
                                               va: real, vb: real, vc: real)
    requires op == '+' || op == '-'
    requires IsNumeral(a) && IsNumeral(b) && IsNumeral(c)
    requires env.parseDouble(a) == Some(va) && env.parseDouble(b) == Some(vb)
    requires env.parseDouble(c) == Some(vc)
    ensures ParseText(env, a + [op] + b + "*" + c)
            == Ok(if op == '+' then va + Mul(vb, vc) else va - Mul(vb, vc))
  {
    var s := a + [op] + b + "*" + c;
    var p1 := |a|;
    assert s[0..p1] == a && s[p1] == op;
    assert s[p1 + 1..p1 + 1 + |b|] == b && s[p1 + 1 + |b|] == '*';
    assert s[p1 + 1 + |b| + 1..] == c;
    ProductBindsTighterAt(env, s, a, b, c, va, vb, vc);
  }

  lemma ProductBindsTighterAt(env: Env, s: string, a: string, b: string, c: string,
                              va: real, vb: real, vc: real)
    requires IsNumeral(a) && IsNumeral(b) && IsNumeral(c)
    requires |a| + 1 + |b| + 1 + |c| == |s|
    requires s[0..|a|] == a && (s[|a|] == '+' || s[|a|] == '-')
    requires s[|a| + 1..|a| + 1 + |b|] == b && s[|a| + 1 + |b|] == '*' && s[|a| + 1 + |b| + 1..] == c
    requires env.parseDouble(a) == Some(va) && env.parseDouble(b) == Some(vb)
    requires env.parseDouble(c) == Some(vc)
    ensures ParseText(env, s) == Ok(if s[|a|] == '+' then va + Mul(vb, vc) else va - Mul(vb, vc))
  {
    var p1 := |a|;
    NumeralTerm(env, s, 0, a, va);
    ProductToEnd(env, s, p1 + 1, b, c, vb, vc);
    var total := if s[p1] == '+' then va + Mul(vb, vc) else va - Mul(vb, vc);
    ExpressionTailStop(env, s, |s|, total);
    ExpressionTailStep(env, s, p1, va, Mul(vb, vc), |s|);
    ExpressionFrom(env, s, 0, va, p1);
    WholeText(env, s, total);
  }

  /** Dividing by an operand that evaluates to zero throws. */
  lemma {:induction false} DivisionByZeroFails(env: Env, a: string, z: string, va: real)
    requires IsNumeral(a) && IsNumeral(z)
    requires env.parseDouble(a) == Some(va) && env.parseDouble(z) == Some(0.0)
    ensures ParseText(env, a + "/" + z) == Err(DivisionByZero)
  {
    var s := a + "/" + z;
    assert s[0..|a|] == a && s[|a|] == '/' && s[|a| + 1..] == z;
    DivisionByZeroAt(env, s, a, z, va);
  }

  lemma DivisionByZeroAt(env: Env, s: string, a: string, z: string, va: real)
    requires IsNumeral(a) && IsNumeral(z)
    requires |a| + 1 + |z| == |s|
    requires s[0..|a|] == a && s[|a|] == '/' && s[|a| + 1..] == z
    requires env.parseDouble(a) == Some(va) && env.parseDouble(z) == Some(0.0)
    ensures ParseText(env, s) == Err(DivisionByZero)
  {
    var p1 := |a|;
    NumeralOperand(env, s, 0, a, va);
    NumeralOperand(env, s, p1 + 1, z, 0.0);
    TermTailDivideByZero(env, s, p1, va, |s|);
    TermFrom(env, s, 0, va, p1);
    FailureRises(env, s, 0, DivisionByZero);
    TextFails(env, s, DivisionByZero);
  }

  /** Only one '^' is taken: in `a^b^c` the second '^' is left over and reported
      with its position. */
  lemma {:induction false} SingleExponent(env: Env, a: string, b: string, c: string,
                                          va: real, vb: real)
    requires IsNumeral(a) && IsNumeral(b) && IsNumeral(c)
    requires env.parseDouble(a) == Some(va) && env.parseDouble(b) == Some(vb)
    ensures ParseText(env, a + "^" + b + "^" + c) == Err(UnexpectedAt('^', |a| + 1 + |b|))
  {
    var s := a + "^" + b + "^" + c;
    var p1 := |a|;
    assert s[0..p1] == a && s[p1] == '^';
    assert s[p1 + 1..p1 + 1 + |b|] == b && s[p1 + 1 + |b|] == '^';
    SingleExponentAt(env, s, a, b, va, vb);
  }

  lemma SingleExponentAt(env: Env, s: string, a: string, b: string, va: real, vb: real)
    requires IsNumeral(a) && IsNumeral(b)
    requires |a| + 1 + |b| < |s|
    requires s[0..|a|] == a && s[|a|] == '^'
    requires s[|a| + 1..|a| + 1 + |b|] == b && s[|a| + 1 + |b|] == '^'
    requires env.parseDouble(a) == Some(va) && env.parseDouble(b) == Some(vb)
    ensures ParseText(env, s) == Err(UnexpectedAt('^', |a| + 1 + |b|))
  {
    var p1 := |a|;
    var p2 := p1 + 1 + |b|;
    NumeralUnary(env, s, 0, a, va);
    NumeralUnary(env, s, p1 + 1, b, vb);
    var w := env.lib.pow(va, vb);
    PowerOf(env, s, 0, va, p1, vb, p2);
    TermTailStop(env, s, p2, w);
    TermFrom(env, s, 0, w, p2);
    ExpressionTailStop(env, s, p2, w);
    ExpressionFrom(env, s, 0, w, p2);
    TextLeftOver(env, s, w, p2);
  }

  /** A name of letters directly followed by a numeral is a call on that numeral. */
  lemma ImplicitPrefix(env: Env, s: string, p: nat, a: string, va: real)
    requires IsNumeral(a) && 0 < p && p + |a| <= |s| && s[p..p + |a|] == a
    requires forall k :: 0 <= k < p ==> IsLetter(s[k])
    requires EndsNumber(s, p + |a|)
    requires Constant(env, Lower(s[0..p])).None? && env.parseDouble(a) == Some(va)
    ensures Unary(env, s, 0)
            == match FunctionValue(env, Lower(s[0..p]), va)
               case Ok(v) => Ok(Parsed(v, p + |a|))
               case Err(e) => Err(e)
  {
    assert s[p] == a[0];
    NameRun(s, 0, p);
    NamedAtomAt(env, s, 0);
    NumeralUnary(env, s, p, a, va);
    ImplicitCall(env, s, 0, p, va, p + |a|);
  }

  /** A name directly followed by a numeral takes it as its argument: "sin30" is
      sin(30). */
  lemma {:induction false} ImplicitArgument(env: Env, name: string, a: string, va: real)
    requires |name| > 0 && forall i :: 0 <= i < |name| ==> IsLetter(name[i])
    requires Constant(env, Lower(name)).None?
    requires IsNumeral(a) && env.parseDouble(a) == Some(va)
    ensures ParseText(env, name + a)
            == match FunctionValue(env, Lower(name), va)
               case Ok(v) => Ok(v)
               case Err(e) => Err(e)
  {
    var s := name + a;
    var p := |name|;
    assert s[0..p] == name && s[p..p + |a|] == a;
    assert forall k :: 0 <= k < p ==> s[k] == name[k];
    ImplicitWhole(env, s, p, a, va);
  }

  lemma ImplicitWhole(env: Env, s: string, p: nat, a: string, va: real)
    requires IsNumeral(a) && 0 < p && p + |a| == |s| && s[p..p + |a|] == a
    requires forall k :: 0 <= k < p ==> IsLetter(s[k])
    requires Constant(env, Lower(s[0..p])).None? && env.parseDouble(a) == Some(va)
    ensures ParseText(env, s)
            == match FunctionValue(env, Lower(s[0..p]), va)
               case Ok(v) => Ok(v)
               case Err(e) => Err(e)
  {
    ImplicitPrefix(env, s, p, a, va);
    UnaryText(env, s);
  }

  /** The test-style example: "sin30" in radians is sin(30). */
  lemma ImplicitSineExample(env: Env, s: string)
    requires !env.degrees && env.parseDouble("30") == Some(30.0)
    requires s == "sin30"
    ensures ParseText(env, s) == Ok(env.lib.sin(30.0))
  {
    SineName();
    SinLookup(env, 30.0);
    assert s == "sin" + "30";
    ImplicitArgument(env, "sin", "30", 30.0);
  }

  lemma SineName()
    ensures Lower("sin") == "sin" && forall i :: 0 <= i < 3 ==> IsLetter("sin"[i])
  {
  }

  lemma SinLookup(env: Env, x: real)
    ensures FunctionValue(env, "sin", x) == Ok(env.lib.sin(AngleIn(env, x)))
  {
    assert FunctionTable["sin"] == SinF;
  }

  /** "log10(100)" is log(10) followed by a stray "(100)". */
  lemma Log10Example(env: Env, s: string)
    requires env.parseDouble("10") == Some(10.0)
    requires s == "log10(100)"
    ensures ParseText(env, s) == Err(UnexpectedAt('(', 5))
  {
    LogTenLayout(s);
    LowerLog();
    LogLookup(env, 10.0);
    ImplicitPrefix(env, s, 3, "10", 10.0);
    UnaryLeftOver(env, s, env.lib.log10(10.0), 5);
  }

  lemma LogTenLayout(s: string)
    requires s == "log10(100)"
    ensures |s| == 10 && s[0..3] == "log" && s[3..5] == "10" && s[5] == '('
    ensures forall k :: 0 <= k < 3 ==> IsLetter(s[k])
  {
  }

  lemma LowerLog()
    ensures Lower("log") == "log"
  {
  }

  lemma LogLookup(env: Env, x: real)
    ensures FunctionValue(env, "log", x) == Ok(env.lib.log10(x))
  {
    assert FunctionTable["log"] == Log10F;
  }

  // ---------------------------------------------------------------------------
  // The parser with a moving cursor

  /** A method's result and final cursor agree with what the rule's function
      computes from the starting position. */
  predicate Agrees(r: Result<real, ParseError>, pos: nat, spec: Outcome)
  {
    match spec
    case Ok(p) => r == Ok(p.value) && pos == p.next
    case Err(e) => r == Err(e)
  }

  class Parser {
    const input: string
    const env: Env
    var pos: nat

    constructor(text: string, env: Env)
      ensures input == StripWhitespace(text) && this.env == env && pos == 0
    {
      input := StripWhitespace(text);
      this.env := env;
      pos := 0;
    }

    /** Parses a text and reports the result or the error. */
    static method Evaluate(text: string, env: Env) returns (r: Result<real, ParseError>)
      ensures r == EvaluateText(env, text)
    {
      var parser := new Parser(text, env);
      r := parser.Parse();
    }

    method Parse() returns (r: Result<real, ParseError>)
      requires pos <= |input|
      modifies this
      ensures old(pos) == 0 ==> r == ParseText(env, input)
    {
      r := ParseExpression();
      if r.Ok? && pos < |input| {
        r := Err(UnexpectedAt(input[pos], pos));
      }
    }

    method Expect(c: char) returns (err: Option<ParseError>)
      requires pos <= |input|
      modifies this
      ensures pos <= |input|
      ensures match ExpectAt(input, old(pos), c)
              case Ok(next) => err == None && pos == next
              case Err(e) => err == Some(e)
    {
      if pos >= |input| || input[pos] != c {
        return Some(Expected(c, pos));
      }
      pos := pos + 1;
      return None;
    }

    method ParseExpression() returns (r: Result<real, ParseError>)
      requires pos <= |input|
      modifies this
      ensures pos <= |input|
      ensures Agrees(r, pos, Expression(env, input, old(pos)))
      decreases |input| - pos, 5
    {
      var t := ParseTerm();
      if t.Err? {
        return t;
      }
      var result := t.value;
      while pos < |input|
        invariant old(pos) < pos <= |input|
        invariant ExpressionTail(env, input, pos, result) == Expression(env, input, old(pos))
        decreases |input| - pos
      {
        var c := input[pos];
        if c == '+' {
          pos := pos + 1;
          t := ParseTerm();
          if t.Err? {
            return t;
          }
          result := result + t.value;
        } else if c == '-' {
          pos := pos + 1;
          t := ParseTerm();
          if t.Err? {
            return t;
          }
          result := result - t.value;
        } else {
          break;
        }
      }
      return Ok(result);
    }

    method ParseTerm() returns (r: Result<real, ParseError>)
      requires pos <= |input|
      modifies this
      ensures pos <= |input|
      ensures Agrees(r, pos, Term(env, input, old(pos)))
      decreases |input| - pos, 4
    {
      var p := ParsePower();
      if p.Err? {
        return p;
      }
      var result := p.value;
      while pos < |input|
        invariant old(pos) < pos <= |input|
        invariant TermTail(env, input, pos, result) == Term(env, input, old(pos))
        decreases |input| - pos
      {
        var c := input[pos];
        if !(IsTimes(c) || IsDivide(c)) {
          break;
        }
        var step := ParseFactor(result);
        if step.Err? {
          return step;
        }
        result := step.value;
      }
      return Ok(result);
    }

    /** One '*' or '/' and the operand after it, applied to the product so far. */
    method ParseFactor(acc: real) returns (r: Result<real, ParseError>)
      requires pos < |input| && (IsTimes(input[pos]) || IsDivide(input[pos]))
      modifies this
      ensures pos <= |input|
      ensures r.Ok? ==> old(pos) < pos
      ensures r.Err? ==> TermTail(env, input, old(pos), acc) == Err(r.error)
      ensures r.Ok? ==> TermTail(env, input, old(pos), acc) == TermTail(env, input, pos, r.value)
      decreases |input| - pos, 4
    {
      var c := input[pos];
      pos := pos + 1;
      var operand := ParsePower();
      if operand.Err? {
        return operand;
      }
      if IsTimes(c) {
        return Ok(Mul(acc, operand.value));
      }
      if operand.value == 0.0 {
        return Err(DivisionByZero);
      }
      return Ok(Div(acc, operand.value));
    }

    method ParsePower() returns (r: Result<real, ParseError>)
      requires pos <= |input|
      modifies this
      ensures pos <= |input|
      ensures Agrees(r, pos, Exponentiation(env, input, old(pos)))
      decreases |input| - pos, 3
    {
      var base := ParseUnary();
      if base.Err? {
        return base;
      }
      if pos < |input| && input[pos] == '^' {
        pos := pos + 1;
        var exp := ParseUnary();
        if exp.Err? {
          return exp;
        }
        return Ok(env.lib.pow(base.value, exp.value));
      }
      return base;
    }

    method ParseUnary() returns (r: Result<real, ParseError>)
      requires pos <= |input|
      modifies this
      ensures pos <= |input|
      ensures Agrees(r, pos, Unary(env, input, old(pos)))
      decreases |input| - pos, 2
    {
      if pos < |input| {
        if input[pos] == '-' {
          pos := pos + 1;
          var u := ParseUnary();
          if u.Err? {
            return u;
          }
          return Ok(-u.value);
        }
        if input[pos] == '+' {
          pos := pos + 1;
          r := ParseUnary();
          return;
        }
      }
      r := ParseAtom();
    }

    method ParseAtom() returns (r: Result<real, ParseError>)
      requires pos <= |input|
      modifies this
      ensures pos <= |input|
      ensures Agrees(r, pos, Atom(env, input, old(pos)))
      decreases |input| - pos, 1
    {
      if pos >= |input| {
        return Err(Incomplete);
      }
      var c := input[pos];
      if c == '(' {
        pos := pos + 1;
        r := ParseExpression();
        if r.Err? {
          return;
        }
        var err := Expect(')');
        if err.Some? {
          return Err(err.value);
        }
        return;
      }
      if IsDigit(c) || c == '.' {
        r := ParseNumber();
        return;
      }
      var start := pos;
      var raw := ParseName();
      if raw == [] {
        return Err(UnexpectedCharacter(c));
      }
      var name := Lower(raw);
      var k := Constant(env, name);
      if k.Some? {
        return Ok(k.value);
      }
      r := ParseCall(name);
    }

    /** The call that follows a name that is not a constant. */
    method ParseCall(name: string) returns (r: Result<real, ParseError>)
      requires pos <= |input|
      modifies this
      ensures pos <= |input|
      ensures Agrees(r, pos, CallAtom(env, input, name, old(pos)))
      decreases |input| - pos, 3
    {
      if pos < |input| && input[pos] == '(' {
        pos := pos + 1;
        var arg := ParseExpression();
        if arg.Err? {
          return arg;
        }
        var err := Expect(')');
        if err.Some? {
          return Err(err.value);
        }
        r := ApplyFunction(name, arg.value);
        return;
      }
      var arg := ParseUnary();
      if arg.Err? {
        return arg;
      }
      r := ApplyFunction(name, arg.value);
    }

    /** `applyFunction`: the table lookup, with `fact` computed by its loop. */
    method ApplyFunction(name: string, arg: real) returns (r: Result<real, ParseError>)
      ensures r == FunctionValue(env, name, arg)
    {
      if name in FunctionTable && FunctionTable[name] == FactF {
        r := FactorialLoop(arg);
      } else {
        r := FunctionValue(env, name, arg);
      }
    }

    method ParseNumber() returns (r: Result<real, ParseError>)
      requires pos < |input| && (IsDigit(input[pos]) || input[pos] == '.')
      modifies this
      ensures pos <= |input|
      ensures Agrees(r, pos, Number(env, input, old(pos)))
    {
      var start := pos;
      var hasDot := false;
      var hasE := false;
      while pos < |input|
        invariant start <= pos <= |input|
        invariant NumberScan(input, start, pos, hasDot, hasE) == NumberEnd(input, start)
        decreases |input| - pos
      {
        var c := input[pos];
        if IsDigit(c) {
          pos := pos + 1;
        } else if c == '.' && !hasDot {
          hasDot := true;
          pos := pos + 1;
        } else if (c == 'e' || c == 'E') && !hasE && pos > start {
          hasE := true;
          pos := pos + 1;
          if pos < |input| && (input[pos] == '+' || input[pos] == '-') {
            pos := pos + 1;
          }
        } else {
          break;
        }
      }
      var numStr := input[start..pos];
      match env.parseDouble(numStr)
      case None => return Err(InvalidNumber(numStr));
      case Some(v) => return Ok(v);
    }

    method ParseName() returns (name: string)
      requires pos <= |input|
      modifies this
      ensures pos == NameEnd(input, old(pos))
      ensures name == input[old(pos)..pos]
    {
      var start := pos;
      while pos < |input| && IsNameChar(input[pos])
        invariant start <= pos <= |input|
        invariant NameEnd(input, pos) == NameEnd(input, start)
        decreases |input| - pos
      {
        pos := pos + 1;
      }
      name := input[start..pos];
    }
  }
}
