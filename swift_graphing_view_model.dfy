/** The iOS graphing screen's state: a list of one to six function entries, each
    with a colour from a palette of six, the visible window of the plane, and a
    quick evaluator. Each operation is a function on a `Graphing` value; the
    class `GraphingViewModel` updates its fields in place and each of its
    methods is proved to agree with the function. */
module SwiftGraphingViewModel {
  import opened Common
  import Engine = SwiftScientificEngine
  import Parser = SwiftExpressionParser

  const MaxFunctions: nat := 6

  datatype Colour = Blue | Red | Green | Yellow | Mauve | Peach

  /** `graphColors`, in order. */
  const Palette: seq<Colour> := [Blue, Red, Green, Yellow, Mauve, Peach]

  datatype FunctionEntry = FunctionEntry(expression: string, colour: Colour, isEnabled: bool)

  /** What the screen depends on besides its state: the math library,
      `Double(String)`, `formatResult`, and the text `"\(x)"` of a Double. */
  datatype Env = Env(lib: Lib, toDouble: string -> Option<real>, format: real -> string,
                     describe: real -> string)

  datatype Viewport = Viewport(xMin: real, xMax: real, yMin: real, yMax: real)

  datatype Graphing = Graphing(
    functions: seq<FunctionEntry>,
    angleMode: Engine.AngleMode,
    showGrid: bool,
    showAxes: bool,
    view: Viewport,
    quickExpression: string,
    quickResult: string)

  const DefaultView: Viewport := Viewport(-10.0, 10.0, -10.0, 10.0)

  function Initial(): Graphing
  {
    Graphing([FunctionEntry("", Palette[0], true)], Engine.Radians, true, true, DefaultView, "", "")
  }

  predicate Valid(g: Graphing)
  {
    1 <= |g.functions| <= MaxFunctions
  }

  // ---------------------------------------------------------------------------
  // The viewport

  function Width(v: Viewport): real { v.xMax - v.xMin }
  function Height(v: Viewport): real { v.yMax - v.yMin }
  function CentreX(v: Viewport): real { (v.xMin + v.xMax) / 2.0 }
  function CentreY(v: Viewport): real { (v.yMin + v.yMax) / 2.0 }

  /** The window about the same centre with each half-range `factor` times the
      full range. */
  function Rescale(v: Viewport, factor: real): Viewport
  {
    var xc := (v.xMin + v.xMax) / 2.0;
    var yc := (v.yMin + v.yMax) / 2.0;
    var xr := (v.xMax - v.xMin) * factor;
    var yr := (v.yMax - v.yMin) * factor;
    Viewport(xc - xr, xc + xr, yc - yr, yc + yr)
  }

  function ZoomInView(v: Viewport): Viewport { Rescale(v, 0.4) }
  function ZoomOutView(v: Viewport): Viewport { Rescale(v, 0.75) }

  /** Zoom in shows 0.8 of the window and zoom out 1.5 of it, about its
      centre. */
  lemma ZoomFactors(v: Viewport)
    ensures CentreX(ZoomInView(v)) == CentreX(v) && CentreY(ZoomInView(v)) == CentreY(v)
    ensures Width(ZoomInView(v)) == 0.8 * Width(v) && Height(ZoomInView(v)) == 0.8 * Height(v)
    ensures CentreX(ZoomOutView(v)) == CentreX(v) && CentreY(ZoomOutView(v)) == CentreY(v)
    ensures Width(ZoomOutView(v)) == 1.5 * Width(v) && Height(ZoomOutView(v)) == 1.5 * Height(v)
  {
  }

  /** Zoom out after zoom in leaves the window 1.2 times its size. */
  lemma ZoomOutAfterZoomIn(v: Viewport)
    ensures Width(ZoomOutView(ZoomInView(v))) == 1.2 * Width(v)
    ensures Height(ZoomOutView(ZoomInView(v))) == 1.2 * Height(v)
  {
    ZoomFactors(v);
    ZoomFactors(ZoomInView(v));
  }

  // ---------------------------------------------------------------------------
  // The function list

  function AddStep(g: Graphing): Graphing
  {
    if |g.functions| >= MaxFunctions then g
    else
      var colourIndex := |g.functions| % |Palette|;
      g.(functions := g.functions + [FunctionEntry("", Palette[colourIndex], true)])
  }

  /** `remove(at:)` traps on an index past the end, unless the guard returns
      first. */
  predicate CanRemove(g: Graphing, index: nat)
  {
    |g.functions| <= 1 || index < |g.functions|
  }

  function RemoveStep(g: Graphing, index: nat): Graphing
    requires CanRemove(g, index)
  {
    if |g.functions| <= 1 then g
    else g.(functions := g.functions[..index] + g.functions[index + 1..])
  }

  function LoadPresetStep(g: Graphing, preset: string): Graphing
  {
    if |g.functions| == 0 then g
    else g.(functions := g.functions[0 := FunctionEntry(preset, g.functions[0].colour, true)])
  }

  function ParserEnv(env: Env, g: Graphing): Parser.Env
  {
    Parser.Env(g.angleMode, env.lib, env.toDouble)
  }

  /** The text parsed for entry `expression` at x: every 'x' becomes "(x)". */
  function Substitute(env: Env, expression: string, x: real): string
  {
    ReplaceChar(expression, 'x', "(" + env.describe(x) + ")")
  }

  /** `evaluateFunction(at:x:)`. */
  function FunctionValue(env: Env, g: Graphing, index: nat, x: real): (r: Option<real>)
    ensures r.Some? <==>
            index < |g.functions| && g.functions[index].isEnabled && g.functions[index].expression != "" &&
            Parser.EvaluateText(ParserEnv(env, g), Substitute(env, g.functions[index].expression, x)).Ok?
    ensures r.Some? ==>
            r.value == Parser.EvaluateText(ParserEnv(env, g), Substitute(env, g.functions[index].expression, x)).value
  {
    if index >= |g.functions| then None
    else
      var entry := g.functions[index];
      if !entry.isEnabled || entry.expression == "" then None
      else
        match Parser.EvaluateText(ParserEnv(env, g), Substitute(env, entry.expression, x))
        case Ok(v) => Some(v)
        case Err(_) => None
  }

  function EvaluateQuickStep(env: Env, g: Graphing): Graphing
  {
    if g.quickExpression == "" then g.(quickResult := "")
    else
      match Parser.EvaluateText(ParserEnv(env, g), g.quickExpression)
      case Ok(v) => g.(quickResult := env.format(v))
      case Err(e) => g.(quickResult := Parser.Description(e))
  }

  // ---------------------------------------------------------------------------
  // Properties

  /** Add appends a blank, enabled entry coloured by the list's old length,
      while there are fewer than six. */
  lemma AddAppends(g: Graphing)
    ensures |g.functions| < MaxFunctions ==>
            AddStep(g).functions == g.functions + [FunctionEntry("", Palette[|g.functions|], true)]
    ensures |g.functions| >= MaxFunctions ==> AddStep(g) == g
  {
  }

  /** Every operation on the list keeps between one and six entries. */
  lemma ListStaysValid(g: Graphing, index: nat, preset: string)
    requires Valid(g)
    ensures Valid(AddStep(g))
    ensures CanRemove(g, index) ==> Valid(RemoveStep(g, index))
    ensures Valid(LoadPresetStep(g, preset))
  {
  }

  /** Entries added one after another from the initial list take the palette's
      colours in order. */
  lemma {:induction false} AddedColours(n: nat)
    requires 1 <= n <= MaxFunctions
    ensures |Adds(n).functions| == n
    ensures forall i :: 0 <= i < n ==> Adds(n).functions[i].colour == Palette[i]
  {
    if n == 1 {
      assert Adds(n).functions == [FunctionEntry("", Palette[0], true)];
    } else {
      AddedColours(n - 1);
      var g := Adds(n - 1);
      assert InPaletteOrder(g.functions);
      AddColourStep(g);
      var h := AddStep(g);
      assert Adds(n) == h;
      assert |h.functions| == n;
    }
  }

  /** Each entry has the palette colour of its position. */
  predicate InPaletteOrder(fs: seq<FunctionEntry>)
  {
    |fs| <= |Palette| && forall i :: 0 <= i < |fs| ==> fs[i].colour == Palette[i]
  }

  /** One more press of add, below the limit, colours the new entry by its
      position and keeps the others. */
  lemma AddColourStep(g: Graphing)
    requires |g.functions| < MaxFunctions
    requires InPaletteOrder(g.functions)
    ensures |AddStep(g).functions| == |g.functions| + 1
    ensures InPaletteOrder(AddStep(g).functions)
  {
    AddAppends(g);
    var added := AddStep(g).functions;
    forall i | 0 <= i < |added|
      ensures added[i].colour == Palette[i]
    {
      if i < |g.functions| {
        assert added[i] == g.functions[i];
      }
    }
  }

  /** The initial screen after n - 1 presses of add. */
  function Adds(n: nat): Graphing
    requires 1 <= n
  {
    if n == 1 then Initial() else AddStep(Adds(n - 1))
  }

  /** The colour comes from the length, not from the colours in use: after the
      first of two entries is removed, the next one added repeats the colour of
      the one left. */
  lemma ColourRepeatsAfterRemove()
    ensures var g := AddStep(RemoveStep(Adds(2), 0));
            |g.functions| == 2 && g.functions[0].colour == g.functions[1].colour == Red
  {
    AddedColours(2);
  }

  /** Remove drops exactly the entry at the index, keeping the rest in order. */
  lemma RemoveDropsOne(g: Graphing, index: nat)
    requires CanRemove(g, index) && |g.functions| > 1
    ensures |RemoveStep(g, index).functions| == |g.functions| - 1
    ensures forall j :: 0 <= j < index ==> RemoveStep(g, index).functions[j] == g.functions[j]
    ensures forall j :: index < j < |g.functions| ==> RemoveStep(g, index).functions[j - 1] == g.functions[j]
  {
  }

  /** A preset replaces only the first entry, keeping its colour and enabling
      it. */
  lemma PresetReplacesFirst(g: Graphing, preset: string)
    requires |g.functions| > 0
    ensures LoadPresetStep(g, preset).functions[0] == FunctionEntry(preset, g.functions[0].colour, true)
    ensures LoadPresetStep(g, preset).functions[1..] == g.functions[1..]
  {
  }

  /** Substitution is textual: an 'x' inside a name is replaced too, so a text
      using `exp` never contains the name after substitution, unless the
      number's own text brings an 'x' back. */
  lemma SubstitutionIsTextual(env: Env, x: real)
    requires 'x' !in env.describe(x)
    ensures 'x' !in Substitute(env, "exp(x)", x)
    ensures Substitute(env, "exp(x)", x) == "e(" + env.describe(x) + ")p((" + env.describe(x) + "))"
  {
    var d := env.describe(x);
    var r := "(" + d + ")";
    ReplaceInExp(r);
    assert "e" + r + "p(" + r + ")" == "e(" + d + ")p((" + d + "))";
  }

  /** Each 'x' of "exp(x)", the one in the name included, becomes the
      replacement. */
  lemma ReplaceInExp(r: string)
    ensures ReplaceChar("exp(x)", 'x', r) == "e" + r + "p(" + r + ")"
  {
    assert "exp(x)"[1..] == "xp(x)" && "xp(x)"[1..] == "p(x)" && "p(x)"[1..] == "(x)";
    assert "(x)"[1..] == "x)" && "x)"[1..] == ")" && ")"[1..] == "";
    assert ReplaceChar(")", 'x', r) == ")";
    assert ReplaceChar("x)", 'x', r) == r + ")";
    assert ReplaceChar("(x)", 'x', r) == "(" + r + ")";
    assert ReplaceChar("p(x)", 'x', r) == "p(" + r + ")";
    assert ReplaceChar("xp(x)", 'x', r) == r + "p(" + r + ")";
  }

  /** An entry that is switched off or empty, or an index past the end, has no
      value anywhere. */
  lemma NoValueWithoutEntry(env: Env, g: Graphing, index: nat, x: real)
    requires index >= |g.functions| || !g.functions[index].isEnabled || g.functions[index].expression == ""
    ensures FunctionValue(env, g, index, x).None?
  {
  }

  /** The quick evaluator clears its result on an empty text and shows the
      parser's message on a failure. */
  lemma QuickOutcomes(env: Env, g: Graphing)
    ensures g.quickExpression == "" ==> EvaluateQuickStep(env, g).quickResult == ""
    ensures g.quickExpression != "" && Parser.EvaluateText(ParserEnv(env, g), g.quickExpression).Err? ==>
            EvaluateQuickStep(env, g).quickResult ==
              Parser.Description(Parser.EvaluateText(ParserEnv(env, g), g.quickExpression).error)
  {
  }

  // ---------------------------------------------------------------------------
  // The view model

  class GraphingViewModel {
    var functions: seq<FunctionEntry>
    var angleMode: Engine.AngleMode
    var showGrid: bool
    var showAxes: bool
    var xMin: real
    var xMax: real
    var yMin: real
    var yMax: real
    var quickExpression: string
    var quickResult: string
    const env: Env

    function State(): Graphing
      reads this
    {
      Graphing(functions, angleMode, showGrid, showAxes, Viewport(xMin, xMax, yMin, yMax),
               quickExpression, quickResult)
    }

    constructor(env: Env)
      ensures State() == Initial() && this.env == env
    {
      this.env := env;
      functions := [FunctionEntry("", Palette[0], true)];
      angleMode := Engine.Radians;
      showGrid := true;
      showAxes := true;
      xMin, xMax, yMin, yMax := -10.0, 10.0, -10.0, 10.0;
      quickExpression := "";
      quickResult := "";
    }

    method AddFunction()
      requires Valid(State())
      modifies this
      ensures Valid(State()) && State() == AddStep(old(State()))
    {
      if |functions| >= MaxFunctions { return; }
      var colourIndex := |functions| % |Palette|;
      functions := functions + [FunctionEntry("", Palette[colourIndex], true)];
    }

    method RemoveFunction(index: nat)
      requires Valid(State()) && CanRemove(State(), index)
      modifies this
      ensures Valid(State()) && State() == RemoveStep(old(State()), index)
    {
      if |functions| <= 1 { return; }
      functions := functions[..index] + functions[index + 1..];
    }

    method EvaluateFunction(index: nat, x: real) returns (r: Option<real>)
      ensures r == FunctionValue(env, State(), index, x)
    {
      if index >= |functions| { return None; }
      var entry := functions[index];
      if !entry.isEnabled || entry.expression == "" { return None; }
      var expr := ReplaceChar(entry.expression, 'x', "(" + env.describe(x) + ")");
      var result := Parser.Parser.Evaluate(expr, ParserEnv(env, State()));
      r := if result.Ok? then Some(result.value) else None;
    }

    method EvaluateQuick()
      requires Valid(State())
      modifies this
      ensures Valid(State()) && State() == EvaluateQuickStep(env, old(State()))
    {
      if quickExpression == "" {
        quickResult := "";
        return;
      }
      var result := Parser.Parser.Evaluate(quickExpression, ParserEnv(env, State()));
      if result.Ok? {
        quickResult := env.format(result.value);
      } else {
        quickResult := Parser.Description(result.error);
      }
    }

    method ZoomIn()
      requires Valid(State())
      modifies this
      ensures Valid(State()) && State() == old(State()).(view := ZoomInView(old(State()).view))
    {
      var xCenter := (xMin + xMax) / 2.0;
      var yCenter := (yMin + yMax) / 2.0;
      var xRange := (xMax - xMin) * 0.4;
      var yRange := (yMax - yMin) * 0.4;
      xMin := xCenter - xRange;
      xMax := xCenter + xRange;
      yMin := yCenter - yRange;
      yMax := yCenter + yRange;
    }

    method ZoomOut()
      requires Valid(State())
      modifies this
      ensures Valid(State()) && State() == old(State()).(view := ZoomOutView(old(State()).view))
    {
      var xCenter := (xMin + xMax) / 2.0;
      var yCenter := (yMin + yMax) / 2.0;
      var xRange := (xMax - xMin) * 0.75;
      var yRange := (yMax - yMin) * 0.75;
      xMin := xCenter - xRange;
      xMax := xCenter + xRange;
      yMin := yCenter - yRange;
      yMax := yCenter + yRange;
    }

    method ResetViewport()
      requires Valid(State())
      modifies this
      ensures Valid(State()) && State() == old(State()).(view := DefaultView)
    {
      xMin := -10.0;
      xMax := 10.0;
      yMin := -10.0;
      yMax := 10.0;
    }

    method LoadPreset(preset: string)
      modifies this
      ensures old(Valid(State())) ==> Valid(State())
      ensures State() == LoadPresetStep(old(State()), preset)
    {
      if |functions| == 0 { return; }
      var firstFunc := functions[0];
      functions := functions[0 := FunctionEntry(preset, firstFunc.colour, true)];
    }
  }
}
