/** The Android graphing screen's state: a list of one to six function texts,
    each of which can be switched off, the visible window of the plane, and a
    one-line evaluator. Each operation is a function on a `Graphing` value;
    the class `GraphingViewModel` updates its fields in place and each of its
    methods is proved to agree with the function. */
module KotlinGraphingViewModel {
  import opened Common
  import Parser = KotlinExpressionParser

  /** The list never grows beyond this many functions. */
  const MaxFunctions: nat := 6

  datatype GraphFunction = GraphFunction(expression: string, enabled: bool)

  /** The visible part of the plane. */
  datatype Viewport = Viewport(xMin: real, xMax: real, yMin: real, yMax: real)

  /** What the screen depends on besides its state: the math library,
      `toDoubleOrNull` and the screen's `formatResult`. */
  datatype Env = Env(lib: Lib, toDouble: string -> Option<real>, format: real -> string)

  datatype Graphing = Graphing(
    functions: seq<GraphFunction>,
    useDegrees: bool,
    showGrid: bool,
    view: Viewport,
    evalExpression: string,
    evalResult: string)

  datatype Action =
    | Update(index: nat, expression: string)
    | Toggle(index: nat)
    | Add
    | Remove(index: nat)
    | ToggleAngle
    | ToggleGrid
    | ZoomIn
    | ZoomOut
    | ResetViewport
    | SetEvalExpression(expr: string)
    | Evaluate
    | LoadPreset(preset: string)

  const DefaultView: Viewport := Viewport(-10.0, 10.0, -6.0, 6.0)

  function Initial(): Graphing
  {
    Graphing([GraphFunction("sin(x)", true), GraphFunction("", true)], false, true,
             DefaultView, "", "")
  }

  /** Between one and six functions. */
  predicate Valid(g: Graphing)
  {
    1 <= |g.functions| <= MaxFunctions
  }

  // ---------------------------------------------------------------------------
  // The viewport

  function Width(v: Viewport): real { v.xMax - v.xMin }
  function Height(v: Viewport): real { v.yMax - v.yMin }
  function CentreX(v: Viewport): real { (v.xMin + v.xMax) / 2.0 }
  function CentreY(v: Viewport): real { (v.yMin + v.yMax) / 2.0 }

  /** The window about the same centre with each half-range `factor` times the
      full range. */
  function Rescale(v: Viewport, factor: real): Viewport
  {
    var xc := (v.xMin + v.xMax) / 2.0;
    var yc := (v.yMin + v.yMax) / 2.0;
    var xr := (v.xMax - v.xMin) * factor;
    var yr := (v.yMax - v.yMin) * factor;
    Viewport(xc - xr, xc + xr, yc - yr, yc + yr)
  }

  function ZoomInView(v: Viewport): Viewport { Rescale(v, 0.4) }
  function ZoomOutView(v: Viewport): Viewport { Rescale(v, 0.6) }

  /** Zooming keeps the centre and scales width and height by twice the
      factor. */
  lemma RescaleKeepsCentre(v: Viewport, factor: real)
    ensures CentreX(Rescale(v, factor)) == CentreX(v)
    ensures CentreY(Rescale(v, factor)) == CentreY(v)
    ensures Width(Rescale(v, factor)) == 2.0 * factor * Width(v)
    ensures Height(Rescale(v, factor)) == 2.0 * factor * Height(v)
  {
  }

  /** Zoom in shows 0.8 of the window, zoom out 1.2 of it, about its centre. */
  lemma ZoomFactors(v: Viewport)
    ensures CentreX(ZoomInView(v)) == CentreX(v) && CentreY(ZoomInView(v)) == CentreY(v)
    ensures Width(ZoomInView(v)) == 0.8 * Width(v) && Height(ZoomInView(v)) == 0.8 * Height(v)
    ensures CentreX(ZoomOutView(v)) == CentreX(v) && CentreY(ZoomOutView(v)) == CentreY(v)
    ensures Width(ZoomOutView(v)) == 1.2 * Width(v) && Height(ZoomOutView(v)) == 1.2 * Height(v)
  {
    RescaleKeepsCentre(v, 0.4);
    RescaleKeepsCentre(v, 0.6);
  }

  /** Zoom out does not undo zoom in: the window ends up 0.96 of its size. */
  lemma ZoomOutAfterZoomIn(v: Viewport)
    ensures Width(ZoomOutView(ZoomInView(v))) == 0.96 * Width(v)
    ensures Height(ZoomOutView(ZoomInView(v))) == 0.96 * Height(v)
    ensures CentreX(ZoomOutView(ZoomInView(v))) == CentreX(v)
  {
    ZoomFactors(v);
    ZoomFactors(ZoomInView(v));
  }

  // ---------------------------------------------------------------------------
  // The function list

  /** `indexOfFirst { it.expression.isBlank() }`: the first blank entry, or -1. */
  function FirstBlank(fs: seq<GraphFunction>): (r: int)
    ensures -1 <= r < |fs|
    ensures r >= 0 ==> IsBlank(fs[r].expression)
    ensures r >= 0 ==> forall j :: 0 <= j < r ==> !IsBlank(fs[j].expression)
    ensures r == -1 ==> forall j :: 0 <= j < |fs| ==> !IsBlank(fs[j].expression)
  {
    if fs == [] then -1
    else if IsBlank(fs[0].expression) then 0
    else
      var t := FirstBlank(fs[1..]);
      assert forall j :: 0 < j < |fs| ==> fs[j] == fs[1..][j - 1];
      if t < 0 then -1 else t + 1
  }

  function UpdateStep(g: Graphing, index: nat, expression: string): Graphing
  {
    if index < |g.functions| then
      g.(functions := g.functions[index := g.functions[index].(expression := expression)])
    else g
  }

  function ToggleStep(g: Graphing, index: nat): Graphing
  {
    if index < |g.functions| then
      g.(functions := g.functions[index := g.functions[index].(enabled := !g.functions[index].enabled)])
    else g
  }

  function AddStep(g: Graphing): Graphing
  {
    if |g.functions| < MaxFunctions then g.(functions := g.functions + [GraphFunction("", true)])
    else g
  }

  function RemoveStep(g: Graphing, index: nat): Graphing
  {
    if |g.functions| > 1 && index < |g.functions| then
      g.(functions := g.functions[..index] + g.functions[index + 1..])
    else g
  }

  function ParserEnv(env: Env, g: Graphing, x: Option<real>): Parser.Env
  {
    Parser.Env(g.useDegrees, x, env.lib, env.toDouble)
  }

  function EvaluateStep(env: Env, g: Graphing): Graphing
  {
    if g.evalExpression == [] then g
    else
      match Parser.EvaluateText(ParserEnv(env, g, None), g.evalExpression)
      case Ok(v) => g.(evalResult := env.format(v))
      case Err(_) => g.(evalResult := "Erro")
  }

  /** `evaluateAt`: the value of a function text at x, or None. */
  function ValueAt(env: Env, g: Graphing, expression: string, x: real): (r: Option<real>)
    ensures IsBlank(expression) ==> r.None?
    ensures !IsBlank(expression) ==>
            (r.Some? <==> Parser.EvaluateText(ParserEnv(env, g, Some(x)), expression).Ok?)
    ensures r.Some? ==> r.value == Parser.EvaluateText(ParserEnv(env, g, Some(x)), expression).value
  {
    if IsBlank(expression) then None
    else
      match Parser.EvaluateText(ParserEnv(env, g, Some(x)), expression)
      case Ok(v) => Some(v)
      case Err(_) => None
  }

  function LoadPresetStep(g: Graphing, preset: string): Graphing
  {
    var i := FirstBlank(g.functions);
    if i >= 0 then g.(functions := g.functions[i := GraphFunction(preset, true)])
    else if |g.functions| < MaxFunctions then g.(functions := g.functions + [GraphFunction(preset, true)])
    else g
  }

  function Step(env: Env, g: Graphing, a: Action): Graphing
  {
    match a
    case Update(i, e) => UpdateStep(g, i, e)
    case Toggle(i) => ToggleStep(g, i)
    case Add => AddStep(g)
    case Remove(i) => RemoveStep(g, i)
    case ToggleAngle => g.(useDegrees := !g.useDegrees)
    case ToggleGrid => g.(showGrid := !g.showGrid)
    case ZoomIn => g.(view := ZoomInView(g.view))
    case ZoomOut => g.(view := ZoomOutView(g.view))
    case ResetViewport => g.(view := DefaultView)
    case SetEvalExpression(e) => g.(evalExpression := e)
    case Evaluate => EvaluateStep(env, g)
    case LoadPreset(p) => LoadPresetStep(g, p)
  }

  function Run(env: Env, g: Graphing, actions: seq<Action>): Graphing
  {
    if actions == [] then g else Step(env, Run(env, g, actions[..|actions| - 1]), actions[|actions| - 1])
  }

  // ---------------------------------------------------------------------------
  // Properties

  /** Every action keeps between one and six functions. */
  lemma StepKeepsValid(env: Env, g: Graphing, a: Action)
    requires Valid(g)
    ensures Valid(Step(env, g, a))
  {
  }

  /** From the initial screen, no sequence of actions empties the list or grows
      it beyond six. */
  lemma {:induction false} AlwaysValid(env: Env, actions: seq<Action>)
    ensures Valid(Run(env, Initial(), actions))
  {
    if actions != [] {
      AlwaysValid(env, actions[..|actions| - 1]);
      StepKeepsValid(env, Run(env, Initial(), actions[..|actions| - 1]), actions[|actions| - 1]);
    }
  }

  /** Add appends a blank function while there are fewer than six. */
  lemma AddAppends(g: Graphing)
    ensures |g.functions| < MaxFunctions ==> AddStep(g).functions == g.functions + [GraphFunction("", true)]
    ensures |g.functions| >= MaxFunctions ==> AddStep(g) == g
  {
  }

  /** Remove drops exactly the entry at the index, keeping the others in order,
      unless it is the only one or the index is past the end. */
  lemma RemoveDropsOne(g: Graphing, index: nat)
    ensures |g.functions| > 1 && index < |g.functions| ==>
            |RemoveStep(g, index).functions| == |g.functions| - 1 &&
            (forall j :: 0 <= j < index ==> RemoveStep(g, index).functions[j] == g.functions[j]) &&
            (forall j :: index < j < |g.functions| ==> RemoveStep(g, index).functions[j - 1] == g.functions[j])
    ensures |g.functions| <= 1 || index >= |g.functions| ==> RemoveStep(g, index) == g
  {
  }

  /** Update and toggle change only the entry at the index, and only the field
      they name; past the end they do nothing. */
  lemma UpdateAndToggleAreLocal(g: Graphing, index: nat, e: string)
    ensures index < |g.functions| ==>
            UpdateStep(g, index, e).functions[index] == GraphFunction(e, g.functions[index].enabled) &&
            ToggleStep(g, index).functions[index] ==
              GraphFunction(g.functions[index].expression, !g.functions[index].enabled)
    ensures forall j :: 0 <= j < |g.functions| && j != index ==>
            UpdateStep(g, index, e).functions[j] == g.functions[j] &&
            ToggleStep(g, index).functions[j] == g.functions[j]
    ensures |UpdateStep(g, index, e).functions| == |g.functions|
    ensures |ToggleStep(g, index).functions| == |g.functions|
    ensures index >= |g.functions| ==> UpdateStep(g, index, e) == g && ToggleStep(g, index) == g
  {
  }

  /** Toggling an entry twice restores it. */
  lemma ToggleTwice(g: Graphing, index: nat)
    ensures ToggleStep(ToggleStep(g, index), index) == g
  {
    if index < |g.functions| {
      assert ToggleStep(ToggleStep(g, index), index).functions == g.functions;
    }
  }

  /** A preset fills the first blank entry; with none blank it is appended while
      there is room, and dropped otherwise. */
  lemma PresetFillsFirstBlank(g: Graphing, preset: string, i: nat)
    requires i < |g.functions| && IsBlank(g.functions[i].expression)
    requires forall j :: 0 <= j < i ==> !IsBlank(g.functions[j].expression)
    ensures LoadPresetStep(g, preset).functions == g.functions[i := GraphFunction(preset, true)]
  {
  }

  lemma PresetWithoutBlank(g: Graphing, preset: string)
    requires forall j :: 0 <= j < |g.functions| ==> !IsBlank(g.functions[j].expression)
    ensures |g.functions| < MaxFunctions ==>
            LoadPresetStep(g, preset).functions == g.functions + [GraphFunction(preset, true)]
    ensures |g.functions| >= MaxFunctions ==> LoadPresetStep(g, preset) == g
  {
  }

  /** Reset restores the window from x in [-10, 10] and y in [-6, 6]. */
  lemma ResetRestores(env: Env, g: Graphing, actions: seq<Action>)
    ensures Step(env, Run(env, g, actions), ResetViewport).view == Initial().view
  {
  }

  /** The quick evaluator does nothing on an empty text and shows "Erro" when
      the text does not parse. */
  lemma EvaluateOutcomes(env: Env, g: Graphing)
    ensures g.evalExpression == "" ==> EvaluateStep(env, g) == g
    ensures g.evalExpression != "" && Parser.EvaluateText(ParserEnv(env, g, None), g.evalExpression).Err? ==>
            EvaluateStep(env, g) == g.(evalResult := "Erro")
    ensures EvaluateStep(env, g).functions == g.functions && EvaluateStep(env, g).view == g.view
  {
  }

  // ---------------------------------------------------------------------------
  // The view model

  class GraphingViewModel {
    var functions: seq<GraphFunction>
    var useDegrees: bool
    var showGrid: bool
    var xMin: real
    var xMax: real
    var yMin: real
    var yMax: real
    var evalExpression: string
    var evalResult: string
    const env: Env

    function State(): Graphing
      reads this
    {
      Graphing(functions, useDegrees, showGrid, Viewport(xMin, xMax, yMin, yMax), evalExpression, evalResult)
    }

    constructor(env: Env)
      ensures State() == Initial() && this.env == env
    {
      this.env := env;
      functions := [GraphFunction("sin(x)", true), GraphFunction("", true)];
      useDegrees := false;
      showGrid := true;
      xMin, xMax, yMin, yMax := -10.0, 10.0, -6.0, 6.0;
      evalExpression := "";
      evalResult := "";
    }

    method UpdateFunction(index: nat, expression: string)
      requires Valid(State())
      modifies this
      ensures Valid(State()) && State() == Step(env, old(State()), Update(index, expression))
    {
      if index < |functions| {
        functions := functions[index := functions[index].(expression := expression)];
      }
    }

    method ToggleFunction(index: nat)
      requires Valid(State())
      modifies this
      ensures Valid(State()) && State() == Step(env, old(State()), Toggle(index))
    {
      if index < |functions| {
        functions := functions[index := functions[index].(enabled := !functions[index].enabled)];
      }
    }

    method AddFunction()
      requires Valid(State())
      modifies this
      ensures Valid(State()) && State() == Step(env, old(State()), Add)
    {
      if |functions| < MaxFunctions {
        functions := functions + [GraphFunction("", true)];
      }
    }

    method RemoveFunction(index: nat)
      requires Valid(State())
      modifies this
      ensures Valid(State()) && State() == Step(env, old(State()), Remove(index))
    {
      if |functions| > 1 && index < |functions| {
        functions := functions[..index] + functions[index + 1..];
      }
    }

    method ToggleAngleMode()
      requires Valid(State())
      modifies this
      ensures Valid(State()) && State() == Step(env, old(State()), ToggleAngle)
    {
      useDegrees := !useDegrees;
    }

    method ToggleGrid()
      requires Valid(State())
      modifies this
      ensures Valid(State()) && State() == Step(env, old(State()), Action.ToggleGrid)
    {
      showGrid := !showGrid;
    }

    method ZoomIn()
      requires Valid(State())
      modifies this
      ensures Valid(State()) && State() == Step(env, old(State()), Action.ZoomIn)
    {
      var xCenter := (xMin + xMax) / 2.0;
      var yCenter := (yMin + yMax) / 2.0;
      var xRange := (xMax - xMin) * 0.4;
      var yRange := (yMax - yMin) * 0.4;
      xMin := xCenter - xRange;
      xMax := xCenter + xRange;
      yMin := yCenter - yRange;
      yMax := yCenter + yRange;
    }

    method ZoomOut()
      requires Valid(State())
      modifies this
      ensures Valid(State()) && State() == Step(env, old(State()), Action.ZoomOut)
    {
      var xCenter := (xMin + xMax) / 2.0;
      var yCenter := (yMin + yMax) / 2.0;
      var xRange := (xMax - xMin) * 0.6;
      var yRange := (yMax - yMin) * 0.6;
      xMin := xCenter - xRange;
      xMax := xCenter + xRange;
      yMin := yCenter - yRange;
      yMax := yCenter + yRange;
    }

    method ResetViewport()
      requires Valid(State())
      modifies this
      ensures Valid(State()) && State() == Step(env, old(State()), Action.ResetViewport)
    {
      xMin := -10.0;
      xMax := 10.0;
      yMin := -6.0;
      yMax := 6.0;
    }

    method UpdateEvalExpression(expr: string)
      requires Valid(State())
      modifies this
      ensures Valid(State()) && State() == Step(env, old(State()), SetEvalExpression(expr))
    {
      evalExpression := expr;
    }

    method Evaluate()
      requires Valid(State())
      modifies this
      ensures Valid(State()) && State() == Step(env, old(State()), Action.Evaluate)
    {
      if evalExpression == [] { return; }
      var parsed := Parser.Parser.Evaluate(evalExpression, ParserEnv(env, State(), None));
      if parsed.Ok? {
        evalResult := env.format(parsed.value);
      } else {
        evalResult := "Erro";
      }
    }

    /** `evaluateAt` reads the angle mode and changes nothing. */
    method EvaluateAt(expression: string, x: real) returns (r: Option<real>)
      ensures r == ValueAt(env, State(), expression, x)
    {
      if IsBlank(expression) {
        return None;
      }
      var parsed := Parser.Parser.Evaluate(expression, ParserEnv(env, State(), Some(x)));
      r := if parsed.Ok? then Some(parsed.value) else None;
    }

    method LoadPreset(preset: string)
      requires Valid(State())
      modifies this
      ensures Valid(State()) && State() == Step(env, old(State()), Action.LoadPreset(preset))
    {
      var emptyIndex := FirstBlank(functions);
      if emptyIndex >= 0 {
        functions := functions[emptyIndex := GraphFunction(preset, true)];
      } else if |functions| < MaxFunctions {
        functions := functions + [GraphFunction(preset, true)];
      }
    }
  }
}
