/** The iOS calculator's recursive-descent expression parser.

    Grammar, as the parser implements it:
      expression = term (('+' | '-') term)*
      term       = power (('*' | '×' | '/' | '÷') power)*
      power      = unary ('^' unary)?            -- at most one '^'
      unary      = '-' unary | '+' unary | primary
      primary    = '(' expression ')' | number | name [ '(' expression [',' expression] ')' ]

    The functions below define, for a text and a position, the value parsed there
    and the position after it; the class `Parser` is the cursor-moving parser and
    each of its methods is proved to agree with the function of the same rule. */
module SwiftExpressionParser {
  import opened Common
  import opened SwiftScientificEngine

  datatype ParserError =
    | UnexpectedCharacter(ch: char)
    | UnexpectedEnd
    | UnknownFunction(name: string)
    | DomainError(message: string)
    | UnknownError

  /** The message shown to the user for each error. */
  function Description(e: ParserError): string
  {
    match e
    case UnexpectedCharacter(ch) => "Caractere inesperado: '" + [ch] + "'"
    case UnexpectedEnd => "Expressão incompleta"
    case UnknownFunction(name) => "Função desconhecida: '" + name + "'"
    case DomainError(msg) => "Erro de domínio: " + msg
    case UnknownError => "Erro desconhecido"
  }

  /** What a parse depends on besides the text: the angle mode, the math library
      and the platform's text-to-Double conversion. */
  datatype Env = Env(mode: AngleMode, lib: Lib, toDouble: string -> Option<real>)

  /** A value and the position just after the text it was read from. */
  datatype Parsed = Parsed(value: real, next: nat)

  type Outcome = Result<Parsed, ParserError>

  /** A successful rule consumed at least one character and stayed in the text;
      a failing rule raised one of the parser's own errors. */
  predicate Advanced(r: Outcome, s: string, pos: nat)
  {
    (r.Ok? ==> pos < r.value.next <= |s|) && (r.Err? ==> !r.error.UnknownError?)
  }

  /** As `Advanced`, for the loop tails, which may consume nothing. */
  predicate Stayed(r: Outcome, s: string, pos: nat)
  {
    (r.Ok? ==> pos <= r.value.next <= |s|) && (r.Err? ==> !r.error.UnknownError?)
  }

  /** The constructor removes every space (and only spaces). */
  function StripSpaces(s: string): (r: string)
    ensures ' ' !in r
    ensures forall c :: c != ' ' ==> (c in r <==> c in s)
  {
    Remove(s, c => c == ' ')
  }

  /** Text without spaces is left as it is, so stripping twice is stripping once. */
  lemma StripSpacesIdempotent(s: string)
    ensures ' ' !in s ==> StripSpaces(s) == s
    ensures StripSpaces(StripSpaces(s)) == StripSpaces(s)
  {
    if ' ' !in s {
      RemoveNothing(s, c => c == ' ');
    }
    RemoveNothing(StripSpaces(s), c => c == ' ');
  }

  // ---------------------------------------------------------------------------
  // Lexical scanning

  predicate IsNumberChar(c: char) { IsDigit(c) || c == '.' }
  predicate IsNameChar(c: char) { IsLetter(c) || IsDigit(c) }

  /** The end of the longest run of digits and dots starting at i. */
  function NumberRunEnd(s: string, i: nat): (j: nat)
    requires i <= |s|
    ensures i <= j <= |s|
    ensures forall k :: i <= k < j ==> IsNumberChar(s[k])
    ensures j < |s| ==> !IsNumberChar(s[j])
    decreases |s| - i
  {
    if i < |s| && IsNumberChar(s[i]) then NumberRunEnd(s, i + 1) else i
  }

  /** The end of the longest run of digits starting at i. */
  function DigitRunEnd(s: string, i: nat): (j: nat)
    requires i <= |s|
    ensures i <= j <= |s|
    ensures forall k :: i <= k < j ==> IsDigit(s[k])
    ensures j < |s| ==> !IsDigit(s[j])
    decreases |s| - i
  {
    if i < |s| && IsDigit(s[i]) then DigitRunEnd(s, i + 1) else i
  }

  /** The end of the number text starting at i: digits and dots, then optionally
      an 'e' or 'E', an optional sign and digits. */
  function NumberEnd(s: string, i: nat): (j: nat)
    requires i <= |s|
    ensures NumberRunEnd(s, i) <= j <= |s|
  {
    var m := NumberRunEnd(s, i);
    if m < |s| && (s[m] == 'e' || s[m] == 'E') then
      var k := if m + 1 < |s| && (s[m + 1] == '+' || s[m + 1] == '-') then m + 2 else m + 1;
      DigitRunEnd(s, k)
    else m
  }

  /** The end of the longest run of letters and digits starting at i. */
  function NameEnd(s: string, i: nat): (j: nat)
    requires i <= |s|
    ensures i <= j <= |s|
    ensures forall k :: i <= k < j ==> IsNameChar(s[k])
    ensures j < |s| ==> !IsNameChar(s[j])
    decreases |s| - i
  {
    if i < |s| && IsNameChar(s[i]) then NameEnd(s, i + 1) else i
  }

  // ---------------------------------------------------------------------------
  // The functions the names stand for

  function OrDomainError(o: Option<real>, message: string): (r: Result<real, ParserError>)
    ensures r.Ok? <==> o.Some?
    ensures r.Ok? ==> r.value == o.value
    ensures r.Err? ==> r.error == DomainError(message)
  {
    match o
    case Some(v) => Ok(v)
    case None => Err(DomainError(message))
  }

  /** The one-argument functions the parser knows. */
  datatype OneArg =
    | SinF | CosF | TanF | AsinF | AcosF | AtanF | SinhF | CoshF | TanhF | AsinhF
    | AcoshF | AtanhF | LnF | Log10F | Log2F | ExpF | SqrtF | CbrtF | AbsF
    | FloorF | CeilF | RoundF

  /** The names of the one-argument functions, with their aliases. */
  const OneArgTable: map<string, OneArg> := map[
    "sin" := SinF, "cos" := CosF, "tan" := TanF,
    "asin" := AsinF, "arcsin" := AsinF, "acos" := AcosF, "arccos" := AcosF,
    "atan" := AtanF, "arctan" := AtanF,
    "sinh" := SinhF, "cosh" := CoshF, "tanh" := TanhF,
    "asinh" := AsinhF, "acosh" := AcoshF, "atanh" := AtanhF,
    "ln" := LnF, "log" := Log10F, "log10" := Log10F, "log2" := Log2F, "exp" := ExpF,
    "sqrt" := SqrtF, "cbrt" := CbrtF, "abs" := AbsF,
    "floor" := FloorF, "ceil" := CeilF, "round" := RoundF]

  /** Where each one-argument function is defined. */
  predicate InOneArgDomain(env: Env, f: OneArg, arg: real)
  {
    match f
    case TanF => Abs(Cos(env.lib, arg, env.mode)) > 1.0e-15
    case AsinF | AcosF => -1.0 <= arg <= 1.0
    case AcoshF => arg >= 1.0
    case AtanhF => -1.0 < arg < 1.0
    case LnF | Log10F | Log2F => arg > 0.0
    case SqrtF => arg >= 0.0
    case _ => true
  }

  /** A known one-argument function applied to its argument: it fails exactly
      outside its domain, with a domain error. */
  function ApplyOneArg(env: Env, f: OneArg, arg: real): (r: Result<real, ParserError>)
    ensures r.Ok? <==> InOneArgDomain(env, f, arg)
    ensures r.Err? ==> r.error.DomainError?
  {
    var lib, mode := env.lib, env.mode;
    match f
    case SinF => Ok(Sin(lib, arg, mode))
    case CosF => Ok(Cos(lib, arg, mode))
    case TanF => OrDomainError(Tan(lib, arg, mode), "tan indefinida")
    case AsinF => OrDomainError(Asin(lib, arg, mode), "asin requer [-1, 1]")
    case AcosF => OrDomainError(Acos(lib, arg, mode), "acos requer [-1, 1]")
    case AtanF => Ok(Atan(lib, arg, mode))
    case SinhF => Ok(Sinh(lib, arg))
    case CoshF => Ok(Cosh(lib, arg))
    case TanhF => Ok(Tanh(lib, arg))
    case AsinhF => Ok(Asinh(lib, arg))
    case AcoshF => OrDomainError(Acosh(lib, arg), "acosh requer valor >= 1")
    case AtanhF => OrDomainError(Atanh(lib, arg), "atanh requer (-1, 1)")
    case LnF => OrDomainError(NaturalLog(lib, arg), "ln requer valor > 0")
    case Log10F => OrDomainError(Log10(lib, arg), "log requer valor > 0")
    case Log2F => OrDomainError(Log2(lib, arg), "log2 requer valor > 0")
    case ExpF => Ok(Exp(lib, arg))
    case SqrtF => OrDomainError(SquareRoot(lib, arg), "sqrt requer valor >= 0")
    case CbrtF => Ok(CubeRoot(lib, arg))
    case AbsF => Ok(Absolute(arg))
    case FloorF => Ok(arg.Floor as real)
    case CeilF => Ok(Ceil(arg) as real)
    case RoundF => Ok(RoundHalfAway(arg) as real)
  }

  /** A call by name: a name outside the table is an unknown function. */
  function OneArgFunction(env: Env, name: string, arg: real): (r: Result<real, ParserError>)
    ensures r.Err? ==> r.error.DomainError? || r.error == UnknownFunction(name)
    ensures r.Err? && r.error.UnknownFunction? <==> name !in OneArgTable
    ensures name in OneArgTable ==> (r.Ok? <==> InOneArgDomain(env, OneArgTable[name], arg))
  {
    if name in OneArgTable then ApplyOneArg(env, OneArgTable[name], arg)
    else Err(UnknownFunction(name))
  }

  datatype TwoArg = PowF | RootF | NprF | NcrF

  const TwoArgTable: map<string, TwoArg> :=
    map["pow" := PowF, "root" := RootF, "npr" := NprF, "ncr" := NcrF]

  /** `root(x, n)` is the n-th root of x; `npr` and `ncr` truncate their arguments
      to integers and are defined for 0 <= r <= n <= 170. */
  function ApplyTwoArg(env: Env, f: TwoArg, a: real, b: real): (r: Result<real, ParserError>)
    ensures r.Err? ==> r.error.DomainError?
    ensures f == PowF ==> r == Ok(env.lib.pow(a, b))
    ensures f == RootF ==> (r.Ok? <==> b != 0.0)
    ensures f == NprF ==> (r.Ok? <==> 0 <= Trunc(b) <= Trunc(a) <= 170)
    ensures f == NprF && r.Ok? ==> r.value == Falling(Trunc(a), Trunc(b)) as real
    ensures f == NcrF ==> (r.Ok? <==> 0 <= Trunc(b) <= Trunc(a) <= 170)
    ensures f == NcrF && r.Ok? ==> r.value == Choose(Trunc(a), Trunc(b)) as real
  {
    match f
    case PowF => Ok(env.lib.pow(a, b))
    case RootF => OrDomainError(NthRoot(env.lib, a, b), "Raiz inválida")
    case NprF => OrDomainError(Permutation(Trunc(a), Trunc(b)), "nPr inválido")
    case NcrF => OrDomainError(Combination(Trunc(a), Trunc(b)), "nCr inválido")
  }

  function TwoArgFunction(env: Env, name: string, a: real, b: real): (r: Result<real, ParserError>)
    ensures r.Err? ==> r.error.DomainError? || r.error == UnknownFunction(name)
    ensures r.Err? && r.error.UnknownFunction? <==> name !in TwoArgTable
  {
    if name in TwoArgTable then ApplyTwoArg(env, TwoArgTable[name], a, b)
    else Err(UnknownFunction(name))
  }

  // ---------------------------------------------------------------------------
  // The grammar, as functions of (text, position)

  /** Checks that the expected character is next and steps over it. */
  function ConsumeAt(s: string, pos: nat, c: char): (r: Result<nat, ParserError>)
    requires pos <= |s|
    ensures r.Ok? <==> pos < |s| && s[pos] == c
    ensures r.Ok? ==> r.value == pos + 1
    ensures r.Err? ==> r.error == (if pos == |s| then UnexpectedEnd else UnexpectedCharacter(s[pos]))
  {
    if pos >= |s| then Err(UnexpectedEnd)
    else if s[pos] != c then Err(UnexpectedCharacter(s[pos]))
    else Ok(pos + 1)
  }

  function Expression(env: Env, s: string, pos: nat): (r: Outcome)
    requires pos <= |s|
    ensures Advanced(r, s, pos)
    decreases |s| - pos, 5
  {
    match Term(env, s, pos)
    case Err(e) => Err(e)
    case Ok(t) => ExpressionTail(env, s, t.next, t.value)
  }

  /** The ('+' | '-') term loop, with `acc` the value so far. */
  function ExpressionTail(env: Env, s: string, pos: nat, acc: real): (r: Outcome)
    requires pos <= |s|
    ensures Stayed(r, s, pos)
    decreases |s| - pos, 5
  {
    if pos < |s| && (s[pos] == '+' || s[pos] == '-') then
      match Term(env, s, pos + 1)
      case Err(e) => Err(e)
      case Ok(t) =>
        ExpressionTail(env, s, t.next, if s[pos] == '+' then acc + t.value else acc - t.value)
    else Ok(Parsed(acc, pos))
  }

  function Term(env: Env, s: string, pos: nat): (r: Outcome)
    requires pos <= |s|
    ensures Advanced(r, s, pos)
    decreases |s| - pos, 4
  {
    match Exponentiation(env, s, pos)
    case Err(e) => Err(e)
    case Ok(p) => TermTail(env, s, p.next, p.value)
  }

  predicate IsTimes(c: char) { c == '*' || c == '×' }
  predicate IsDivide(c: char) { c == '/' || c == '÷' }

  /** The ('*' | '/') power loop; a zero divisor is a domain error. */
  function TermTail(env: Env, s: string, pos: nat, acc: real): (r: Outcome)
    requires pos <= |s|
    ensures Stayed(r, s, pos)
    decreases |s| - pos, 4
  {
    if pos < |s| && (IsTimes(s[pos]) || IsDivide(s[pos])) then
      match Exponentiation(env, s, pos + 1)
      case Err(e) => Err(e)
      case Ok(p) =>
        if IsTimes(s[pos]) then TermTail(env, s, p.next, Mul(acc, p.value))
        else if p.value == 0.0 then Err(DomainError("Divisão por zero"))
        else TermTail(env, s, p.next, Div(acc, p.value))
    else Ok(Parsed(acc, pos))
  }

  function Exponentiation(env: Env, s: string, pos: nat): (r: Outcome)
    requires pos <= |s|
    ensures Advanced(r, s, pos)
    decreases |s| - pos, 3
  {
    match Unary(env, s, pos)
    case Err(e) => Err(e)
    case Ok(b) =>
      if b.next < |s| && s[b.next] == '^' then
        match Unary(env, s, b.next + 1)
        case Err(e) => Err(e)
        case Ok(x) => Ok(Parsed(env.lib.pow(b.value, x.value), x.next))
      else Ok(b)
  }

  function Unary(env: Env, s: string, pos: nat): (r: Outcome)
    requires pos <= |s|
    ensures Advanced(r, s, pos)
    decreases |s| - pos, 2
  {
    if pos < |s| && s[pos] == '-' then
      match Unary(env, s, pos + 1)
      case Err(e) => Err(e)
      case Ok(u) => Ok(Parsed(-u.value, u.next))
    else if pos < |s| && s[pos] == '+' then Unary(env, s, pos + 1)
    else Primary(env, s, pos)
  }

  function Primary(env: Env, s: string, pos: nat): (r: Outcome)
    requires pos <= |s|
    ensures Advanced(r, s, pos)
    decreases |s| - pos, 1
  {
    if pos == |s| then Err(UnexpectedEnd)
    else if s[pos] == '(' then
      match Expression(env, s, pos + 1)
      case Err(e) => Err(e)
      case Ok(x) =>
        match ConsumeAt(s, x.next, ')')
        case Err(e) => Err(e)
        case Ok(next) => Ok(Parsed(x.value, next))
    else if IsNumberChar(s[pos]) then Number(env, s, pos)
    else if IsLetter(s[pos]) then
      var end := NameEnd(s, pos);
      NamedToken(env, s, Lower(s[pos..end]), end)
    else Err(UnexpectedCharacter(s[pos]))
  }

  /** A number: its text is handed to the platform conversion; text the platform
      rejects is reported at its first character. */
  function Number(env: Env, s: string, pos: nat): (r: Outcome)
    requires pos < |s| && IsNumberChar(s[pos])
    ensures Advanced(r, s, pos)
    ensures r.Ok? ==> r.value.next == NumberEnd(s, pos)
  {
    var end := NumberEnd(s, pos);
    var text := s[pos..end];
    match env.toDouble(text)
    case None => Err(UnexpectedCharacter(text[0]))
    case Some(v) => Ok(Parsed(v, end))
  }

  /** A constant, or a function call whose name has been read up to `pos`. */
  function NamedToken(env: Env, s: string, name: string, pos: nat): (r: Outcome)
    requires pos <= |s|
    ensures Stayed(r, s, pos)
    decreases |s| - pos, 1
  {
    if name == "pi" || name == "π" then Ok(Parsed(env.lib.pi, pos))
    else if name == "e" then Ok(Parsed(env.lib.e, pos))
    else if name == "phi" || name == "φ" then Ok(Parsed(Phi(env.lib), pos))
    else CallToken(env, s, name, pos)
  }

  /** A name that is not a constant must be called: '(' and a first argument,
      then either ')' or ',' and a second argument. */
  function CallToken(env: Env, s: string, name: string, pos: nat): (r: Outcome)
    requires pos <= |s|
    ensures Stayed(r, s, pos)
    decreases |s| - pos, 0
  {
    if pos == |s| || s[pos] != '(' then Err(UnknownFunction(name))
    else
      match Expression(env, s, pos + 1)
      case Err(e) => Err(e)
      case Ok(a) =>
        if a.next < |s| && s[a.next] == ',' then SecondArgument(env, s, name, a.value, a.next)
        else
          match ConsumeAt(s, a.next, ')')
          case Err(e) => Err(e)
          case Ok(next) =>
            match OneArgFunction(env, name, a.value)
            case Err(e) => Err(e)
            case Ok(v) => Ok(Parsed(v, next))
  }

  /** The rest of a two-argument call, from the ',' after its first argument. */
  function SecondArgument(env: Env, s: string, name: string, first: real, pos: nat): (r: Outcome)
    requires pos < |s| && s[pos] == ','
    ensures Stayed(r, s, pos)
    decreases |s| - pos, 0
  {
    match Expression(env, s, pos + 1)
    case Err(e) => Err(e)
    case Ok(b) =>
      match ConsumeAt(s, b.next, ')')
      case Err(e) => Err(e)
      case Ok(next) =>
        match TwoArgFunction(env, name, first, b.value)
        case Err(e) => Err(e)
        case Ok(v) => Ok(Parsed(v, next))
  }


  /** The whole text must be one expression: anything left over is reported as an
      unexpected character. */
  function ParseText(env: Env, s: string): (r: Result<real, ParserError>)
    ensures r.Ok? <==> Expression(env, s, 0).Ok? && Expression(env, s, 0).value.next == |s|
    ensures r.Ok? ==> r.value == Expression(env, s, 0).value.value
    ensures r.Err? ==> !r.error.UnknownError?
  {
    match Expression(env, s, 0)
    case Err(e) => Err(e)
    case Ok(x) => if x.next != |s| then Err(UnexpectedCharacter(s[x.next])) else Ok(x.value)
  }

  /** Evaluates a text after removing its spaces. */
  function EvaluateText(env: Env, text: string): (r: Result<real, ParserError>)
    ensures r.Err? ==> !r.error.UnknownError?
  {
    ParseText(env, StripSpaces(text))
  }

  // ---------------------------------------------------------------------------
  // Properties of the grammar

  /** A non-empty run of decimal digits. */
  predicate IsNumeral(a: string)
  {
    |a| > 0 && forall i :: 0 <= i < |a| ==> IsDigit(a[i])
  }

  /** Nothing at `k` can continue a number that ends there. */
  predicate EndsNumber(s: string, k: nat)
  {
    k < |s| ==> !IsNumberChar(s[k]) && s[k] != 'e' && s[k] != 'E'
  }

  /** A numeral in the text is read as the number the platform makes of it, and
      the cursor stops right after it. */
  lemma NumeralUnary(env: Env, s: string, pos: nat, a: string, v: real)
    requires IsNumeral(a) && pos + |a| <= |s| && s[pos..pos + |a|] == a
    requires EndsNumber(s, pos + |a|) && env.toDouble(a) == Some(v)
    ensures Unary(env, s, pos) == Ok(Parsed(v, pos + |a|))
  {
    assert s[pos] == a[0];
    assert forall k :: pos <= k < pos + |a| ==> s[k] == a[k - pos];
    assert NumberEnd(s, pos) == pos + |a|;
  }

  /** A numeral not followed by '^' is a whole operand of the term loop. */
  lemma NumeralOperand(env: Env, s: string, pos: nat, a: string, v: real)
    requires IsNumeral(a) && pos + |a| <= |s| && s[pos..pos + |a|] == a
    requires EndsNumber(s, pos + |a|) && env.toDouble(a) == Some(v)
    requires pos + |a| < |s| ==> s[pos + |a|] != '^'
    ensures Exponentiation(env, s, pos) == Ok(Parsed(v, pos + |a|))
  {
    NumeralUnary(env, s, pos, a, v);
  }

  // One-step unfoldings of the grammar rules, which keep the longer proofs small.

  lemma TermTailTimes(env: Env, s: string, pos: nat, acc: real, v: real, next: nat)
    requires pos < |s| && IsTimes(s[pos])
    requires Exponentiation(env, s, pos + 1) == Ok(Parsed(v, next))
    ensures TermTail(env, s, pos, acc) == TermTail(env, s, next, Mul(acc, v))
  {
  }

  lemma TermTailStop(env: Env, s: string, pos: nat, acc: real)
    requires pos <= |s|
    requires pos < |s| ==> !IsTimes(s[pos]) && !IsDivide(s[pos])
    ensures TermTail(env, s, pos, acc) == Ok(Parsed(acc, pos))
  {
  }

  lemma ExpressionTailStep(env: Env, s: string, pos: nat, acc: real, v: real, next: nat)
    requires pos < |s| && (s[pos] == '+' || s[pos] == '-')
    requires Term(env, s, pos + 1) == Ok(Parsed(v, next))
    ensures ExpressionTail(env, s, pos, acc)
            == ExpressionTail(env, s, next, if s[pos] == '+' then acc + v else acc - v)
  {
  }

  lemma ExpressionTailStop(env: Env, s: string, pos: nat, acc: real)
    requires pos <= |s|
    requires pos < |s| ==> s[pos] != '+' && s[pos] != '-'
    ensures ExpressionTail(env, s, pos, acc) == Ok(Parsed(acc, pos))
  {
  }

  /** A term whose first operand is known. */
  lemma TermFrom(env: Env, s: string, pos: nat, v: real, next: nat)
    requires pos <= |s| && Exponentiation(env, s, pos) == Ok(Parsed(v, next))
    ensures Term(env, s, pos) == TermTail(env, s, next, v)
  {
  }

  /** An expression whose first term is known. */
  lemma ExpressionFrom(env: Env, s: string, pos: nat, v: real, next: nat)
    requires pos <= |s| && Term(env, s, pos) == Ok(Parsed(v, next))
    ensures Expression(env, s, pos) == ExpressionTail(env, s, next, v)
  {
  }

  /** A rule that fails passes its error up through every enclosing rule. */
  lemma FailureRises(env: Env, s: string, pos: nat, e: ParserError)
    requires pos <= |s|
    ensures Exponentiation(env, s, pos) == Err(e) ==> Term(env, s, pos) == Err(e)
    ensures Term(env, s, pos) == Err(e) ==> Expression(env, s, pos) == Err(e)
    ensures Unary(env, s, pos) == Err(e) ==> Exponentiation(env, s, pos) == Err(e)
  {
  }

  /** An expression that spans the whole text is its value. */
  lemma WholeText(env: Env, s: string, v: real)
    requires Expression(env, s, 0) == Ok(Parsed(v, |s|))
    ensures ParseText(env, s) == Ok(v)
  {
  }

  /** A parse that stops short of the end reports the character it stopped at. */
  lemma TextLeftOver(env: Env, s: string, v: real, k: nat)
    requires k < |s| && Expression(env, s, 0) == Ok(Parsed(v, k))
    ensures ParseText(env, s) == Err(UnexpectedCharacter(s[k]))
  {
  }

  /** A failing expression is the result of the whole parse. */
  lemma TextFails(env: Env, s: string, e: ParserError)
    requires Expression(env, s, 0) == Err(e)
    ensures ParseText(env, s) == Err(e)
  {
  }

  /** A unary minus negates the operand after it. */
  lemma UnaryMinus(env: Env, s: string, pos: nat, v: real, next: nat)
    requires pos < |s| && s[pos] == '-' && Unary(env, s, pos + 1) == Ok(Parsed(v, next))
    ensures Unary(env, s, pos) == Ok(Parsed(-v, next))
  {
  }

  /** A zero divisor stops the term loop with a domain error. */
  lemma TermTailDivideByZero(env: Env, s: string, pos: nat, acc: real, next: nat)
    requires pos < |s| && IsDivide(s[pos])
    requires Exponentiation(env, s, pos + 1) == Ok(Parsed(0.0, next))
    ensures TermTail(env, s, pos, acc) == Err(DomainError("Divisão por zero"))
  {
  }

  /** A primary that is neither signed nor followed by '^' is a whole operand. */
  lemma PrimaryOperand(env: Env, s: string, pos: nat)
    requires pos < |s| && s[pos] != '-' && s[pos] != '+'
    ensures Primary(env, s, pos).Err? ==> Exponentiation(env, s, pos) == Err(Primary(env, s, pos).error)
    ensures Unary(env, s, pos) == Primary(env, s, pos)
  {
  }

  /** Number text the platform rejects at the start of the text is the result
      of the whole parse. */
  lemma RejectedNumber(env: Env, s: string)
    requires 0 < |s| && IsNumberChar(s[0]) && env.toDouble(s[0..NumberEnd(s, 0)]) == None
    ensures ParseText(env, s) == Err(UnexpectedCharacter(s[0]))
  {
    assert Primary(env, s, 0) == Err(UnexpectedCharacter(s[0]));
    PrimaryFails(env, s, UnexpectedCharacter(s[0]));
  }

  /** A failing primary at the start of an unsigned text fails the whole parse. */
  lemma PrimaryFails(env: Env, s: string, e: ParserError)
    requires 0 < |s| && s[0] != '-' && s[0] != '+' && Primary(env, s, 0) == Err(e)
    ensures ParseText(env, s) == Err(e)
  {
    PrimaryOperand(env, s, 0);
    FailureRises(env, s, 0, e);
    TextFails(env, s, e);
  }

  /** A unary not followed by '^' is a whole operand. */
  lemma PowerFromUnary(env: Env, s: string, pos: nat, v: real, next: nat)
    requires pos <= |s| && Unary(env, s, pos) == Ok(Parsed(v, next))
    requires next < |s| ==> s[next] != '^'
    ensures Exponentiation(env, s, pos) == Ok(Parsed(v, next))
  {
  }

  /** An exponentiation `b^x` of two unaries. */
  lemma PowerOf(env: Env, s: string, pos: nat, vb: real, q: nat, vx: real, next: nat)
    requires pos <= |s| && Unary(env, s, pos) == Ok(Parsed(vb, q))
    requires q < |s| && s[q] == '^' && Unary(env, s, q + 1) == Ok(Parsed(vx, next))
    ensures Exponentiation(env, s, pos) == Ok(Parsed(env.lib.pow(vb, vx), next))
  {
  }

  /** The term `b*c` of two numerals that ends the text. */
  lemma {:induction false} ProductToEnd(env: Env, s: string, pos: nat, b: string, c: string, vb: real, vc: real)
    requires IsNumeral(b) && IsNumeral(c)
    requires pos + |b| + 1 + |c| == |s|
    requires s[pos..pos + |b|] == b && s[pos + |b|] == '*' && s[pos + |b| + 1..] == c
    requires env.toDouble(b) == Some(vb) && env.toDouble(c) == Some(vc)
    ensures Term(env, s, pos) == Ok(Parsed(Mul(vb, vc), |s|))
  {
    var q := pos + |b|;
    NumeralOperand(env, s, pos, b, vb);
    NumeralOperand(env, s, q + 1, c, vc);
    TermTailStop(env, s, |s|, Mul(vb, vc));
    TermTailTimes(env, s, q, vb, vc, |s|);
    TermFrom(env, s, pos, vb, q);
  }

  /** A numeral that is a whole term, ending at `pos + |a|`. */
  lemma NumeralTerm(env: Env, s: string, pos: nat, a: string, v: real)
    requires IsNumeral(a) && pos + |a| <= |s| && s[pos..pos + |a|] == a
    requires EndsNumber(s, pos + |a|) && env.toDouble(a) == Some(v)
    requires pos + |a| < |s| ==> s[pos + |a|] !in {'^', '*', '×', '/', '÷'}
    ensures Term(env, s, pos) == Ok(Parsed(v, pos + |a|))
  {
    NumeralOperand(env, s, pos, a, v);
    TermTailStop(env, s, pos + |a|, v);
    TermFrom(env, s, pos, v, pos + |a|);
  }

  /** `a+b*c` and `a-b*c` bind the product first: the value is a ± (b·c). */
  lemma {:induction false} ProductBindsTighter(env: Env, a: string, op: char, b: string, c: string,
                                               va: real, vb: real, vc: real)
    requires op == '+' || op == '-'
    requires IsNumeral(a) && IsNumeral(b) && IsNumeral(c)
    requires env.toDouble(a) == Some(va) && env.toDouble(b) == Some(vb)
    requires env.toDouble(c) == Some(vc)
    ensures ParseText(env, a + [op] + b + "*" + c)
            == Ok(if op == '+' then va + Mul(vb, vc) else va - Mul(vb, vc))
  {
    var s := a + [op] + b + "*" + c;
    var p1 := |a|;
    assert s[0..p1] == a && s[p1] == op;
    assert s[p1 + 1..p1 + 1 + |b|] == b && s[p1 + 1 + |b|] == '*';
    assert s[p1 + 1 + |b| + 1..] == c;
    ProductBindsTighterAt(env, s, a, b, c, va, vb, vc);
  }

  lemma ProductBindsTighterAt(env: Env, s: string, a: string, b: string, c: string,
                              va: real, vb: real, vc: real)
    requires IsNumeral(a) && IsNumeral(b) && IsNumeral(c)
    requires |a| + 1 + |b| + 1 + |c| == |s|
    requires s[0..|a|] == a && (s[|a|] == '+' || s[|a|] == '-')
    requires s[|a| + 1..|a| + 1 + |b|] == b && s[|a| + 1 + |b|] == '*' && s[|a| + 1 + |b| + 1..] == c
    requires env.toDouble(a) == Some(va) && env.toDouble(b) == Some(vb)
    requires env.toDouble(c) == Some(vc)
    ensures ParseText(env, s) == Ok(if s[|a|] == '+' then va + Mul(vb, vc) else va - Mul(vb, vc))
  {
    var p1 := |a|;
    NumeralTerm(env, s, 0, a, va);
    ProductToEnd(env, s, p1 + 1, b, c, vb, vc);
    var total := if s[p1] == '+' then va + Mul(vb, vc) else va - Mul(vb, vc);
    ExpressionTailStop(env, s, |s|, total);
    ExpressionTailStep(env, s, p1, va, Mul(vb, vc), |s|);
    ExpressionFrom(env, s, 0, va, p1);
    WholeText(env, s, total);
  }

  /** A parenthesised sum of numerals, `(a+b)`, as a primary. */
  lemma {:induction false} GroupedSum(env: Env, s: string, a: string, b: string, va: real, vb: real)
    requires IsNumeral(a) && IsNumeral(b)
    requires |s| >= |a| + |b| + 3
    requires s[0] == '(' && s[1..1 + |a|] == a && s[1 + |a|] == '+'
    requires s[2 + |a|..2 + |a| + |b|] == b && s[2 + |a| + |b|] == ')'
    requires env.toDouble(a) == Some(va) && env.toDouble(b) == Some(vb)
    ensures Primary(env, s, 0) == Ok(Parsed(va + vb, |a| + |b| + 3))
  {
    var p1 := 1 + |a|;
    var p2 := p1 + 1 + |b|;
    NumeralTerm(env, s, 1, a, va);
    NumeralTerm(env, s, p1 + 1, b, vb);
    ExpressionTailStop(env, s, p2, va + vb);
    ExpressionTailStep(env, s, p1, va, vb, p2);
    ExpressionFrom(env, s, 1, va, p1);
    assert ConsumeAt(s, p2, ')') == Ok(p2 + 1);
  }

  /** Parentheses override precedence: `(a+b)*c` is (a+b)·c. */
  lemma {:induction false} ParenthesesGroup(env: Env, a: string, b: string, c: string,
                                            va: real, vb: real, vc: real)
    requires IsNumeral(a) && IsNumeral(b) && IsNumeral(c)
    requires env.toDouble(a) == Some(va) && env.toDouble(b) == Some(vb)
    requires env.toDouble(c) == Some(vc)
    ensures ParseText(env, "(" + a + "+" + b + ")*" + c) == Ok(Mul(va + vb, vc))
  {
    var s := "(" + a + "+" + b + ")*" + c;
    var q := |a| + |b| + 3;
    assert s[0] == '(' && s[1..1 + |a|] == a && s[1 + |a|] == '+';
    assert s[2 + |a|..2 + |a| + |b|] == b && s[2 + |a| + |b|] == ')' && s[q] == '*';
    assert s[q + 1..] == c;
    ParenthesesGroupAt(env, s, a, b, c, va, vb, vc);
  }

  lemma ParenthesesGroupAt(env: Env, s: string, a: string, b: string, c: string,
                           va: real, vb: real, vc: real)
    requires IsNumeral(a) && IsNumeral(b) && IsNumeral(c)
    requires |s| == |a| + |b| + 4 + |c|
    requires s[0] == '(' && s[1..1 + |a|] == a && s[1 + |a|] == '+'
    requires s[2 + |a|..2 + |a| + |b|] == b && s[2 + |a| + |b|] == ')'
    requires s[|a| + |b| + 3] == '*' && s[|a| + |b| + 4..] == c
    requires env.toDouble(a) == Some(va) && env.toDouble(b) == Some(vb)
    requires env.toDouble(c) == Some(vc)
    ensures ParseText(env, s) == Ok(Mul(va + vb, vc))
  {
    var q := |a| + |b| + 3;
    GroupedSum(env, s, a, b, va, vb);
    PrimaryOperand(env, s, 0);
    PowerFromUnary(env, s, 0, va + vb, q);
    NumeralOperand(env, s, q + 1, c, vc);
    var w := Mul(va + vb, vc);
    TermTailStop(env, s, |s|, w);
    TermTailTimes(env, s, q, va + vb, vc, |s|);
    TermFrom(env, s, 0, va + vb, q);
    ExpressionTailStop(env, s, |s|, w);
    ExpressionFrom(env, s, 0, w, |s|);
    WholeText(env, s, w);
  }

  /** Dividing by an operand that evaluates to zero is a domain error. */
  lemma {:induction false} DivisionByZero(env: Env, a: string, z: string, va: real)
    requires IsNumeral(a) && IsNumeral(z)
    requires env.toDouble(a) == Some(va) && env.toDouble(z) == Some(0.0)
    ensures ParseText(env, a + "/" + z) == Err(DomainError("Divisão por zero"))
  {
    var s := a + "/" + z;
    assert s[0..|a|] == a && s[|a|] == '/' && s[|a| + 1..] == z;
    DivisionByZeroAt(env, s, a, z, va);
  }

  lemma DivisionByZeroAt(env: Env, s: string, a: string, z: string, va: real)
    requires IsNumeral(a) && IsNumeral(z) && |s| == |a| + 1 + |z|
    requires s[0..|a|] == a && s[|a|] == '/' && s[|a| + 1..] == z
    requires env.toDouble(a) == Some(va) && env.toDouble(z) == Some(0.0)
    ensures ParseText(env, s) == Err(DomainError("Divisão por zero"))
  {
    var p1 := |a|;
    var e := DomainError("Divisão por zero");
    NumeralOperand(env, s, 0, a, va);
    NumeralOperand(env, s, p1 + 1, z, 0.0);
    TermTailDivideByZero(env, s, p1, va, |s|);
    TermFrom(env, s, 0, va, p1);
    FailureRises(env, s, 0, e);
    TextFails(env, s, e);
  }

  /** The exponent of '^' is a unary, so a signed exponent is accepted:
      `a^-b` is pow(a, -b). */
  lemma {:induction false} SignedExponent(env: Env, a: string, b: string, va: real, vb: real)
    requires IsNumeral(a) && IsNumeral(b)
    requires env.toDouble(a) == Some(va) && env.toDouble(b) == Some(vb)
    ensures ParseText(env, a + "^-" + b) == Ok(env.lib.pow(va, -vb))
  {
    var s := a + "^-" + b;
    assert s[0..|a|] == a && s[|a|] == '^' && s[|a| + 1] == '-' && s[|a| + 2..] == b;
    SignedExponentAt(env, s, a, b, va, vb);
  }

  lemma SignedExponentAt(env: Env, s: string, a: string, b: string, va: real, vb: real)
    requires IsNumeral(a) && IsNumeral(b) && |s| == |a| + 2 + |b|
    requires s[0..|a|] == a && s[|a|] == '^' && s[|a| + 1] == '-' && s[|a| + 2..] == b
    requires env.toDouble(a) == Some(va) && env.toDouble(b) == Some(vb)
    ensures ParseText(env, s) == Ok(env.lib.pow(va, -vb))
  {
    var p1 := |a|;
    NumeralUnary(env, s, 0, a, va);
    NumeralUnary(env, s, p1 + 2, b, vb);
    UnaryMinus(env, s, p1 + 1, vb, |s|);
    var w := env.lib.pow(va, -vb);
    PowerOf(env, s, 0, va, p1, -vb, |s|);
    TermTailStop(env, s, |s|, w);
    TermFrom(env, s, 0, w, |s|);
    ExpressionTailStop(env, s, |s|, w);
    ExpressionFrom(env, s, 0, w, |s|);
    WholeText(env, s, w);
  }

  /** Only one '^' is taken: in `a^b^c` the second '^' is left over and the
      parse fails on it. */
  lemma {:induction false} SingleExponent(env: Env, a: string, b: string, c: string,
                                          va: real, vb: real, vc: real)
    requires IsNumeral(a) && IsNumeral(b) && IsNumeral(c)
    requires env.toDouble(a) == Some(va) && env.toDouble(b) == Some(vb)
    ensures ParseText(env, a + "^" + b + "^" + c) == Err(UnexpectedCharacter('^'))
  {
    var s := a + "^" + b + "^" + c;
    var p1 := |a|;
    var p2 := p1 + 1 + |b|;
    assert s[0..p1] == a && s[p1] == '^';
    assert s[p1 + 1..p2] == b && s[p2] == '^';
    SingleExponentAt(env, s, a, b, va, vb);
  }

  lemma SingleExponentAt(env: Env, s: string, a: string, b: string, va: real, vb: real)
    requires IsNumeral(a) && IsNumeral(b) && |a| + 1 + |b| < |s|
    requires s[0..|a|] == a && s[|a|] == '^' && s[|a| + 1..|a| + 1 + |b|] == b && s[|a| + 1 + |b|] == '^'
    requires env.toDouble(a) == Some(va) && env.toDouble(b) == Some(vb)
    ensures ParseText(env, s) == Err(UnexpectedCharacter('^'))
  {
    var p1 := |a|;
    var p2 := p1 + 1 + |b|;
    NumeralUnary(env, s, 0, a, va);
    NumeralUnary(env, s, p1 + 1, b, vb);
    var w := env.lib.pow(va, vb);
    PowerOf(env, s, 0, va, p1, vb, p2);
    TermTailStop(env, s, p2, w);
    TermFrom(env, s, 0, w, p2);
    ExpressionTailStop(env, s, p2, w);
    ExpressionFrom(env, s, 0, w, p2);
    TextLeftOver(env, s, w, p2);
  }

  /** Names are resolved in order: a constant (whatever follows it), else a call
      that needs '(' and otherwise names an unknown function. */
  lemma NameResolution(env: Env, s: string, name: string, pos: nat)
    requires pos <= |s|
    ensures name in {"pi", "π"} ==> NamedToken(env, s, name, pos) == Ok(Parsed(env.lib.pi, pos))
    ensures name == "e" ==> NamedToken(env, s, name, pos) == Ok(Parsed(env.lib.e, pos))
    ensures name in {"phi", "φ"} ==> NamedToken(env, s, name, pos) == Ok(Parsed(Phi(env.lib), pos))
    ensures name !in {"pi", "π", "e", "phi", "φ"} && (pos == |s| || s[pos] != '(')
            ==> NamedToken(env, s, name, pos) == Err(UnknownFunction(name))
  {
  }

  /** A call with one argument uses the one-argument table, and a name missing
      from it is an unknown function even if the argument is valid. */
  lemma {:induction false} CallOneArgument(env: Env, name: string, a: string, va: real)
    requires name !in {"pi", "π", "e", "phi", "φ"} && IsNumeral(a)
    requires env.toDouble(a) == Some(va)
    ensures var s := name + "(" + a + ")";
      NamedToken(env, s, name, |name|)
      == match OneArgFunction(env, name, va)
         case Ok(v) => Ok(Parsed(v, |s|))
         case Err(e) => Err(e)
  {
    var s := name + "(" + a + ")";
    assert s[|name|] == '(' && s[|name| + 1..|name| + 1 + |a|] == a && s[|name| + 1 + |a|] == ')';
    CallOneArgumentAt(env, s, name, |name|, a, va);
  }

  lemma CallOneArgumentAt(env: Env, s: string, name: string, pos: nat, a: string, va: real)
    requires name !in {"pi", "π", "e", "phi", "φ"} && IsNumeral(a)
    requires |s| == pos + |a| + 2
    requires s[pos] == '(' && s[pos + 1..pos + 1 + |a|] == a && s[pos + 1 + |a|] == ')'
    requires env.toDouble(a) == Some(va)
    ensures NamedToken(env, s, name, pos)
            == match OneArgFunction(env, name, va)
               case Ok(v) => Ok(Parsed(v, |s|))
               case Err(e) => Err(e)
  {
    NumeralExpression(env, s, pos + 1, a, va);
    OneArgumentCall(env, s, name, pos, va, pos + 1 + |a|);
  }

  /** A numeral followed by none of the operators is a whole expression. */
  lemma NumeralExpression(env: Env, s: string, pos: nat, a: string, v: real)
    requires IsNumeral(a) && pos + |a| < |s| && s[pos..pos + |a|] == a
    requires env.toDouble(a) == Some(v) && s[pos + |a|] == ')'
    ensures Expression(env, s, pos) == Ok(Parsed(v, pos + |a|))
  {
    NumeralTerm(env, s, pos, a, v);
    ExpressionTailStop(env, s, pos + |a|, v);
    ExpressionFrom(env, s, pos, v, pos + |a|);
  }

  /** A call `name(x)` whose argument has been parsed up to the closing ')'. */
  lemma OneArgumentCall(env: Env, s: string, name: string, pos: nat, v: real, k: nat)
    requires name !in {"pi", "π", "e", "phi", "φ"}
    requires pos < k < |s| && s[pos] == '(' && s[k] == ')'
    requires Expression(env, s, pos + 1) == Ok(Parsed(v, k))
    ensures NamedToken(env, s, name, pos)
            == match OneArgFunction(env, name, v)
               case Ok(r) => Ok(Parsed(r, k + 1))
               case Err(e) => Err(e)
  {
    assert ConsumeAt(s, k, ')') == Ok(k + 1);
  }

  /** The test inputs on precedence and grouping. */
  lemma PrecedenceExample(env: Env, s: string)
    requires env.toDouble("2") == Some(2.0) && env.toDouble("3") == Some(3.0)
    requires env.toDouble("4") == Some(4.0)
    requires s == "2+3*4"
    ensures EvaluateText(env, s) == Ok(14.0)
  {
    StripSpacesIdempotent(s);
    assert s == "2" + ['+'] + "3" + "*" + "4";
    ProductBindsTighter(env, "2", '+', "3", "4", 2.0, 3.0, 4.0);
  }

  lemma GroupingExample(env: Env, s: string)
    requires env.toDouble("2") == Some(2.0) && env.toDouble("3") == Some(3.0)
    requires env.toDouble("4") == Some(4.0)
    requires s == "(2+3)*4"
    ensures EvaluateText(env, s) == Ok(20.0)
  {
    StripSpacesIdempotent(s);
    assert s == "(" + "2" + "+" + "3" + ")*" + "4";
    ParenthesesGroup(env, "2", "3", "4", 2.0, 3.0, 4.0);
  }

  lemma DifferenceExample(env: Env, s: string)
    requires env.toDouble("10") == Some(10.0) && env.toDouble("2") == Some(2.0)
    requires env.toDouble("3") == Some(3.0)
    requires s == "10-2*3"
    ensures EvaluateText(env, s) == Ok(4.0)
  {
    StripSpacesIdempotent(s);
    assert s == "10" + ['-'] + "2" + "*" + "3";
    ProductBindsTighter(env, "10", '-', "2", "3", 10.0, 2.0, 3.0);
  }

  /** `1/0` is a domain error. */
  lemma DivisionByZeroExample(env: Env)
    requires env.toDouble("1") == Some(1.0) && env.toDouble("0") == Some(0.0)
    ensures EvaluateText(env, "1/0") == Err(DomainError("Divisão por zero"))
  {
    var s := "1/0";
    StripSpacesIdempotent(s);
    assert s == "1" + "/" + "0";
    DivisionByZero(env, "1", "0", 1.0);
  }

  /** `2^3^2` stops at the second '^'. */
  lemma RepeatedPowerExample(env: Env, s: string)
    requires env.toDouble("2") == Some(2.0) && env.toDouble("3") == Some(3.0)
    requires s == "2^3^2"
    ensures EvaluateText(env, s) == Err(UnexpectedCharacter('^'))
  {
    StripSpacesIdempotent(s);
    assert s == "2" + "^" + "3" + "^" + "2";
    SingleExponent(env, "2", "3", "2", 2.0, 3.0, 2.0);
  }

  /** A stray ')' and an unclosed '(' are rejected. */
  lemma BracketExamples(env: Env)
    ensures EvaluateText(env, ")") == Err(UnexpectedCharacter(')'))
    ensures EvaluateText(env, "(") == Err(UnexpectedEnd)
  {
    StripSpacesIdempotent(")");
    StripSpacesIdempotent("(");
  }

  /** Number text the platform rejects is reported at its first character. */
  lemma MalformedNumberExample(env: Env, s: string)
    requires env.toDouble("1.2.3") == None
    requires s == "1.2.3"
    ensures EvaluateText(env, s) == Err(UnexpectedCharacter('1'))
  {
    MalformedNumberEnd(s);
    assert s[0..5] == s;
    RejectedNumber(env, s);
    assert ' ' !in s;
    StripSpacesIdempotent(s);
  }

  lemma MalformedNumberEnd(s: string)
    requires s == "1.2.3"
    ensures NumberEnd(s, 0) == 5
  {
  }

  /** A tab is not stripped, so it is left over after the number. */
  lemma TabExample(env: Env)
    requires env.toDouble("1") == Some(1.0)
    ensures EvaluateText(env, "1\t") == Err(UnexpectedCharacter('\t'))
  {
    var u := "1\t";
    StripSpacesIdempotent(u);
    assert u[0..1] == "1";
    NumeralOperand(env, u, 0, "1", 1.0);
    assert Term(env, u, 0) == Ok(Parsed(1.0, 1));
    assert Expression(env, u, 0) == Ok(Parsed(1.0, 1));
  }

  /** An unknown name called with an argument. */
  lemma UnknownFunctionExample(env: Env)
    requires env.toDouble("1") == Some(1.0)
    ensures ParseText(env, "foo(1)") == Err(UnknownFunction("foo"))
  {
    var s := "foo(1)";
    assert "foo" !in OneArgTable;
    CallOneArgument(env, "foo", "1", 1.0);
    assert s == "foo" + "(" + "1" + ")";
    FooName();
    assert Primary(env, s, 0) == Err(UnknownFunction("foo"));
    PrimaryFails(env, s, UnknownFunction("foo"));
  }

  lemma FooName()
    ensures NameEnd("foo(1)", 0) == 3 && Lower("foo(1)"[0..3]) == "foo"
  {
    var s := "foo(1)";
    assert NameEnd(s, 3) == 3;
    assert s[0..3] == "foo";
  }

  /** A function name without '(' is an unknown function. */
  lemma BareFunctionNameExample(env: Env)
    ensures ParseText(env, "sin") == Err(UnknownFunction("sin"))
  {
    var t := "sin";
    assert NameEnd(t, 0) == 3 && Lower(t[0..3]) == "sin";
  }

  // ---------------------------------------------------------------------------
  // The parser with a moving cursor

  /** A method's result and final cursor agree with what the rule's function
      computes from the starting position. */
  predicate Agrees(r: Result<real, ParserError>, index: nat, spec: Outcome)
  {
    match spec
    case Ok(p) => r == Ok(p.value) && index == p.next
    case Err(e) => r == Err(e)
  }

  class Parser {
    const expression: string
    const env: Env
    var index: nat

    constructor(text: string, env: Env)
      ensures expression == StripSpaces(text) && this.env == env && index == 0
    {
      expression := StripSpaces(text);
      this.env := env;
      index := 0;
    }

    /** Parses a text and reports the result or the error. */
    static method Evaluate(text: string, env: Env) returns (r: Result<real, ParserError>)
      ensures r == EvaluateText(env, text)
    {
      var parser := new Parser(text, env);
      r := parser.Parse();
    }

    method Parse() returns (r: Result<real, ParserError>)
      requires index <= |expression|
      modifies this
      ensures old(index) == 0 ==> r == ParseText(env, expression)
    {
      r := ParseExpression();
      if r.Ok? && index != |expression| {
        r := Err(UnexpectedCharacter(expression[index]));
      }
    }

    method Consume(c: char) returns (err: Option<ParserError>)
      requires index <= |expression|
      modifies this
      ensures index <= |expression|
      ensures match ConsumeAt(expression, old(index), c)
              case Ok(next) => err == None && index == next
              case Err(e) => err == Some(e)
    {
      if index >= |expression| {
        return Some(UnexpectedEnd);
      }
      if expression[index] != c {
        return Some(UnexpectedCharacter(expression[index]));
      }
      index := index + 1;
      return None;
    }

    method ParseExpression() returns (r: Result<real, ParserError>)
      requires index <= |expression|
      modifies this
      ensures index <= |expression|
      ensures Agrees(r, index, Expression(env, expression, old(index)))
      decreases |expression| - index, 5
    {
      var t := ParseTerm();
      if t.Err? {
        return t;
      }
      var result := t.value;
      while index < |expression|
        invariant old(index) < index <= |expression|
        invariant ExpressionTail(env, expression, index, result) == Expression(env, expression, old(index))
        decreases |expression| - index
      {
        if expression[index] == '+' {
          index := index + 1;
          t := ParseTerm();
          if t.Err? {
            return t;
          }
          result := result + t.value;
        } else if expression[index] == '-' {
          index := index + 1;
          t := ParseTerm();
          if t.Err? {
            return t;
          }
          result := result - t.value;
        } else {
          break;
        }
      }
      return Ok(result);
    }

    method ParseTerm() returns (r: Result<real, ParserError>)
      requires index <= |expression|
      modifies this
      ensures index <= |expression|
      ensures Agrees(r, index, Term(env, expression, old(index)))
      decreases |expression| - index, 4
    {
      var p := ParsePower();
      if p.Err? {
        return p;
      }
      var result := p.value;
      while index < |expression|
        invariant old(index) < index <= |expression|
        invariant TermTail(env, expression, index, result) == Term(env, expression, old(index))
        decreases |expression| - index
      {
        var op := expression[index];
        if !(IsTimes(op) || IsDivide(op)) {
          break;
        }
        var step := ParseFactor(result);
        if step.Err? {
          return step;
        }
        result := step.value;
      }
      return Ok(result);
    }

    /** One '*' or '/' and the operand after it, applied to the product so far. */
    method ParseFactor(acc: real) returns (r: Result<real, ParserError>)
      requires index < |expression| && (IsTimes(expression[index]) || IsDivide(expression[index]))
      modifies this
      ensures index <= |expression|
      ensures r.Ok? ==> old(index) < index
      ensures r.Err? ==> TermTail(env, expression, old(index), acc) == Err(r.error)
      ensures r.Ok? ==> TermTail(env, expression, old(index), acc) == TermTail(env, expression, index, r.value)
      decreases |expression| - index, 4
    {
      var op := expression[index];
      index := index + 1;
      var operand := ParsePower();
      if operand.Err? {
        return operand;
      }
      if IsTimes(op) {
        return Ok(Mul(acc, operand.value));
      }
      if operand.value == 0.0 {
        return Err(DomainError("Divisão por zero"));
      }
      return Ok(Div(acc, operand.value));
    }

    method ParsePower() returns (r: Result<real, ParserError>)
      requires index <= |expression|
      modifies this
      ensures index <= |expression|
      ensures Agrees(r, index, Exponentiation(env, expression, old(index)))
      decreases |expression| - index, 3
    {
      var base := ParseUnary();
      if base.Err? {
        return base;
      }
      if index < |expression| && expression[index] == '^' {
        index := index + 1;
        var exp := ParseUnary();
        if exp.Err? {
          return exp;
        }
        return Ok(env.lib.pow(base.value, exp.value));
      }
      return base;
    }

    method ParseUnary() returns (r: Result<real, ParserError>)
      requires index <= |expression|
      modifies this
      ensures index <= |expression|
      ensures Agrees(r, index, Unary(env, expression, old(index)))
      decreases |expression| - index, 2
    {
      if index < |expression| && expression[index] == '-' {
        index := index + 1;
        var u := ParseUnary();
        if u.Err? {
          return u;
        }
        return Ok(-u.value);
      }
      if index < |expression| && expression[index] == '+' {
        index := index + 1;
        r := ParseUnary();
        return;
      }
      r := ParsePrimary();
    }

    method ParsePrimary() returns (r: Result<real, ParserError>)
      requires index <= |expression|
      modifies this
      ensures index <= |expression|
      ensures Agrees(r, index, Primary(env, expression, old(index)))
      decreases |expression| - index, 1
    {
      if index >= |expression| {
        return Err(UnexpectedEnd);
      }
      if expression[index] == '(' {
        index := index + 1;
        r := ParseExpression();
        if r.Err? {
          return;
        }
        var err := Consume(')');
        if err.Some? {
          return Err(err.value);
        }
        return;
      }
      if IsNumberChar(expression[index]) {
        r := ParseNumber();
        return;
      }
      if IsLetter(expression[index]) {
        var name := ParseName();
        r := EvaluateNamedToken(name);
        return;
      }
      return Err(UnexpectedCharacter(expression[index]));
    }

    method ParseNumber() returns (r: Result<real, ParserError>)
      requires index < |expression| && IsNumberChar(expression[index])
      modifies this
      ensures index <= |expression|
      ensures Agrees(r, index, Number(env, expression, old(index)))
    {
      var start := index;
      var numStr := "";
      while index < |expression| && IsNumberChar(expression[index])
        invariant start <= index <= |expression|
        invariant numStr == expression[start..index]
        invariant NumberRunEnd(expression, index) == NumberRunEnd(expression, start)
        decreases |expression| - index
      {
        numStr := numStr + [expression[index]];
        index := index + 1;
      }
      var mid := index;
      var tail := ScanExponent();
      assert expression[start..index] == expression[start..mid] + expression[mid..index];
      numStr := numStr + tail;
      assert index == NumberEnd(expression, start) && numStr == expression[start..NumberEnd(expression, start)];
      match env.toDouble(numStr)
      case None => return Err(UnexpectedCharacter(numStr[0]));
      case Some(v) => return Ok(v);
    }

    /** Reads the optional exponent of a number: an 'e' or 'E', an optional
        sign and digits. */
    method ScanExponent() returns (part: string)
      requires index <= |expression|
      modifies this
      ensures old(index) <= index <= |expression|
      ensures part == expression[old(index)..index]
      ensures index == (if old(index) < |expression| && (expression[old(index)] == 'e' || expression[old(index)] == 'E')
                        then DigitRunEnd(expression, if old(index) + 1 < |expression| && (expression[old(index) + 1] == '+' || expression[old(index) + 1] == '-') then old(index) + 2 else old(index) + 1)
                        else old(index))
    {
      var start := index;
      part := "";
      if index < |expression| && (expression[index] == 'e' || expression[index] == 'E') {
        part := part + [expression[index]];
        index := index + 1;
        if index < |expression| && (expression[index] == '+' || expression[index] == '-') {
          part := part + [expression[index]];
          index := index + 1;
        }
        var k := index;
        while index < |expression| && IsDigit(expression[index])
          invariant k <= index <= |expression|
          invariant part == expression[start..index]
          invariant DigitRunEnd(expression, index) == DigitRunEnd(expression, k)
          decreases |expression| - index
        {
          part := part + [expression[index]];
          index := index + 1;
        }
      }
    }

    method ParseName() returns (name: string)
      requires index <= |expression|
      modifies this
      ensures index == NameEnd(expression, old(index))
      ensures name == Lower(expression[old(index)..index])
    {
      var start := index;
      var raw := "";
      while index < |expression| && IsNameChar(expression[index])
        invariant start <= index <= |expression|
        invariant raw == expression[start..index]
        invariant NameEnd(expression, index) == NameEnd(expression, start)
        decreases |expression| - index
      {
        raw := raw + [expression[index]];
        index := index + 1;
      }
      name := Lower(raw);
    }

    method EvaluateNamedToken(name: string) returns (r: Result<real, ParserError>)
      requires index <= |expression|
      modifies this
      ensures index <= |expression|
      ensures Agrees(r, index, NamedToken(env, expression, name, old(index)))
      decreases |expression| - index, 1
    {
      if name == "pi" || name == "π" {
        return Ok(env.lib.pi);
      }
      if name == "e" {
        return Ok(env.lib.e);
      }
      if name == "phi" || name == "φ" {
        return Ok(Phi(env.lib));
      }
      r := ParseCall(name);
    }

    /** The call that follows a name that is not a constant. */
    method ParseCall(name: string) returns (r: Result<real, ParserError>)
      requires index <= |expression|
      modifies this
      ensures index <= |expression|
      ensures Agrees(r, index, CallToken(env, expression, name, old(index)))
      decreases |expression| - index, 0
    {
      if index >= |expression| || expression[index] != '(' {
        return Err(UnknownFunction(name));
      }
      index := index + 1;
      var arg := ParseExpression();
      if arg.Err? {
        return arg;
      }
      if index < |expression| && expression[index] == ',' {
        r := ParseSecondArgument(name, arg.value);
        return;
      }
      var err := Consume(')');
      if err.Some? {
        return Err(err.value);
      }
      return OneArgFunction(env, name, arg.value);
    }

    /** The second argument of a call and the closing ')', from the ','. */
    method ParseSecondArgument(name: string, first: real) returns (r: Result<real, ParserError>)
      requires index < |expression| && expression[index] == ','
      modifies this
      ensures index <= |expression|
      ensures Agrees(r, index, SecondArgument(env, expression, name, first, old(index)))
      decreases |expression| - index, 0
    {
      index := index + 1;
      var arg2 := ParseExpression();
      if arg2.Err? {
        return arg2;
      }
      var err := Consume(')');
      if err.Some? {
        return Err(err.value);
      }
      return TwoArgFunction(env, name, first, arg2.value);
    }
  }
}
