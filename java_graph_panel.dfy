/** The desktop graph panel: a list of function entries, each with a colour
    from a palette of six and a visibility flag, a window on the plane that the
    zoom buttons, the mouse wheel and dragging move, and the tracer that turns
    one entry into a path of pen moves, one sample per pixel column. The
    operations are functions on a `Panel` value; the class `GraphPanel`
    updates its fields in place and each of its methods is proved to agree with
    them. */
module JavaGraphPanel {
  import opened Common
  import Parser = JavaExpressionParser

  datatype Colour = Blue | Green | Peach | Mauve | Yellow | Teal

  /** `FUNCTION_COLORS`, in order. */
  const Palette: seq<Colour> := [Blue, Green, Peach, Mauve, Yellow, Teal]

  datatype FunctionEntry = FunctionEntry(expression: string, colour: Colour, visible: bool)

  /** A mouse position in pixels, relative to the panel. */
  datatype Point = Point(x: int, y: int)

  /** The panel's width or height in pixels once it is laid out. */
  type Pixels = n: int | n > 0 witness 1

  /** What the panel depends on besides its state: the math library,
      `Double.parseDouble`, and the text `"" + x` of a double. */
  datatype Env = Env(lib: Lib, parseDouble: string -> Option<real>, describe: real -> string)

  datatype Viewport = Viewport(xMin: real, xMax: real, yMin: real, yMax: real)

  datatype Panel = Panel(
    functions: seq<FunctionEntry>,
    view: Viewport,
    showGrid: bool,
    showAxes: bool,
    dragStart: Option<Point>,
    useDegrees: bool)

  const DefaultView: Viewport := Viewport(-10.0, 10.0, -10.0, 10.0)

  function Initial(): Panel
  {
    Panel([], DefaultView, true, true, None, false)
  }

  function Width(v: Viewport): real { v.xMax - v.xMin }
  function Height(v: Viewport): real { v.yMax - v.yMin }
  function CentreX(v: Viewport): real { (v.xMin + v.xMax) / 2.0 }
  function CentreY(v: Viewport): real { (v.yMin + v.yMax) / 2.0 }

  /** The window is never empty or reversed. */
  predicate Valid(p: Panel)
  {
    p.view.xMin < p.view.xMax && p.view.yMin < p.view.yMax
  }

  // ---------------------------------------------------------------------------
  // The function list

  predicate InRange(p: Panel, index: int)
  {
    0 <= index < |p.functions|
  }

  /** `addFunction`: the new entry is visible and coloured by the list's old
      length; the index it gets is that length. */
  function AddStep(p: Panel, expression: string): Panel
  {
    p.(functions := p.functions + [FunctionEntry(expression, Palette[|p.functions| % |Palette|], true)])
  }

  function UpdateStep(p: Panel, index: int, expression: string): Panel
  {
    if InRange(p, index) then p.(functions := p.functions[index := p.functions[index].(expression := expression)])
    else p
  }

  function RemoveStep(p: Panel, index: int): Panel
  {
    if InRange(p, index) then p.(functions := p.functions[..index] + p.functions[index + 1..])
    else p
  }

  function ToggleStep(p: Panel, index: int): Panel
  {
    if InRange(p, index) then p.(functions := p.functions[index := p.functions[index].(visible := !p.functions[index].visible)])
    else p
  }

  function ClearStep(p: Panel): Panel
  {
    p.(functions := [])
  }

  // ---------------------------------------------------------------------------
  // The window

  /** The window about the same centre whose half-ranges are the old ranges
      times `factor`. */
  function Rescale(v: Viewport, factor: real): Viewport
  {
    var cx := (v.xMin + v.xMax) / 2.0;
    var cy := (v.yMin + v.yMax) / 2.0;
    var w := (v.xMax - v.xMin) * factor;
    var h := (v.yMax - v.yMin) * factor;
    Viewport(cx - w, cx + w, cy - h, cy + h)
  }

  /** `zoomIn` divides each range by 2.5 to get the half-range. */
  function ZoomInView(v: Viewport): Viewport { Rescale(v, 1.0 / 2.5) }

  /** `zoomOut` takes 0.625 of each range as the half-range. */
  function ZoomOutView(v: Viewport): Viewport { Rescale(v, 0.625) }

  /** The plane's x at pixel column `px` of a panel `w` pixels wide. */
  function PlaneX(v: Viewport, px: int, w: Pixels): real
  {
    v.xMin + (v.xMax - v.xMin) * px as real / w as real
  }

  /** The plane's y at pixel row `py` of a panel `h` pixels high (rows grow
      downwards). */
  function PlaneY(v: Viewport, py: int, h: Pixels): real
  {
    v.yMax - (v.yMax - v.yMin) * (py as real / h as real)
  }

  /** The mouse wheel: a turn away from the user (positive rotation) widens the
      window 1.2 times, any other turn narrows it 1.2 times, and the point
      under the cursor stays where it is. */
  function WheelView(v: Viewport, rotation: int, at: Point, w: Pixels, h: Pixels): Viewport
  {
    var factor := if rotation > 0 then 1.2 else 1.0 / 1.2;
    var fx := at.x as real / w as real;
    var fy := at.y as real / h as real;
    var cx := v.xMin + (v.xMax - v.xMin) * fx;
    var cy := v.yMax - (v.yMax - v.yMin) * fy;
    var nw := (v.xMax - v.xMin) * factor;
    var nh := (v.yMax - v.yMin) * factor;
    Viewport(cx - nw * fx, cx + nw * (1.0 - fx), cy - nh * (1.0 - fy), cy + nh * fy)
  }

  /** Moves the window by `dx` along x and `dy` along y, in plane units, the
      opposite way from the mouse along x and the same way along y. */
  function Pan(v: Viewport, dx: real, dy: real): Viewport
  {
    Viewport(v.xMin - dx, v.xMax - dx, v.yMin + dy, v.yMax + dy)
  }

  function WheelStep(p: Panel, rotation: int, at: Point, w: Pixels, h: Pixels): Panel
  {
    p.(view := WheelView(p.view, rotation, at, w, h))
  }

  function PressStep(p: Panel, at: Point): Panel { p.(dragStart := Some(at)) }

  function ReleaseStep(p: Panel): Panel { p.(dragStart := None) }

  /** A drag with the button down moves the window by the mouse's movement
      since the last event, scaled from pixels to plane units. */
  function DragStep(p: Panel, at: Point, w: Pixels, h: Pixels): Panel
  {
    match p.dragStart
    case None => p
    case Some(start) =>
      var dx := (at.x - start.x) as real * (p.view.xMax - p.view.xMin) / w as real;
      var dy := (at.y - start.y) as real * (p.view.yMax - p.view.yMin) / h as real;
      p.(view := Pan(p.view, dx, dy), dragStart := Some(at))
  }

  // ---------------------------------------------------------------------------
  // Screen coordinates

  /** `toScreenX`: the column of x, cut toward zero to an `int`. */
  function ScreenX(v: Viewport, x: real, w: Pixels): int
    requires v.xMin < v.xMax
  {
    SaturateInt(Trunc((x - v.xMin) / (v.xMax - v.xMin) * w as real))
  }

  /** `toScreenY`: the row of y, cut toward zero to an `int`. */
  function ScreenY(v: Viewport, y: real, h: Pixels): int
    requires v.yMin < v.yMax
  {
    SaturateInt(Trunc((v.yMax - y) / (v.yMax - v.yMin) * h as real))
  }

  // ---------------------------------------------------------------------------
  // Tracing a function

  /** The text parsed for an entry at x: every 'x', then every 'X', becomes the
      number's text in parentheses. */
  function Substitute(env: Env, expression: string, x: real): string
  {
    var r := "(" + env.describe(x) + ")";
    ReplaceChar(ReplaceChar(expression, 'x', r), 'X', r)
  }

  function ParserEnv(env: Env, p: Panel): Parser.Env
  {
    Parser.Env(p.useDegrees, env.lib, env.parseDouble)
  }

  /** The entry's value at pixel column `px`, or `None` where the parser
      throws. */
  function Sample(env: Env, p: Panel, e: FunctionEntry, px: int, w: Pixels): Option<real>
  {
    match Parser.EvaluateText(ParserEnv(env, p), Substitute(env, e.expression, PlaneX(p.view, px, w)))
    case Ok(y) => Some(y)
    case Err(_) => None
  }

  /** Values more than ten window-heights beyond the window break the curve. */
  predicate InBand(v: Viewport, y: real)
  {
    !(y < v.yMin - (v.yMax - v.yMin) * 10.0 || y > v.yMax + (v.yMax - v.yMin) * 10.0)
  }

  /** A pen move at a pixel column; the point drawn is the column and the
      `ScreenY` row of the sampled value `y`. */
  datatype PathOp = MoveTo(px: int, y: real) | LineTo(px: int, y: real)

  /** The tracer's variables: the path so far, whether a sub-path is open, and
      the previous value drawn (`NaN` is `None`). */
  datatype Pen = Pen(ops: seq<PathOp>, started: bool, prevY: Option<real>)

  /** One column of the tracing loop: a missing or far-off value closes the
      sub-path; a jump of more than two window-heights from the previous value
      starts a new one (poles of `tan`); otherwise the pen draws on. */
  function PenStep(v: Viewport, pen: Pen, px: int, sample: Option<real>): Pen
  {
    if sample.None? || !InBand(v, sample.value) then Pen(pen.ops, false, None)
    else
      var y := sample.value;
      var started := if pen.prevY.Some? && Abs(y - pen.prevY.value) > (v.yMax - v.yMin) * 2.0 then false
                     else pen.started;
      var op := if !started then MoveTo(px, y) else LineTo(px, y);
      Pen(pen.ops + [op], true, Some(y))
  }

  /** The pen after the first `k` columns of the values `f`. */
  function Trace(v: Viewport, f: int -> Option<real>, k: nat): Pen
  {
    if k == 0 then Pen([], false, None)
    else PenStep(v, Trace(v, f, k - 1), k - 1, f(k - 1))
  }

  /** The entry's value at each pixel column. */
  function Samples(env: Env, p: Panel, e: FunctionEntry, w: Pixels): int -> Option<real>
  {
    px => Sample(env, p, e, px, w)
  }

  /** `drawFunction`'s path across the panel's width. */
  function Plot(env: Env, p: Panel, e: FunctionEntry, w: Pixels): seq<PathOp>
  {
    Trace(p.view, Samples(env, p, e, w), w).ops
  }

  /** The path starts by lifting the pen, and every column lies in the first
      `k`. */
  ghost predicate InColumns(k: nat, ops: seq<PathOp>)
  {
    && (|ops| > 0 ==> ops[0].MoveTo?)
    && (forall i :: 0 <= i < |ops| ==> 0 <= ops[i].px < k)
  }

  /** Columns strictly increase along the path. */
  ghost predicate Increasing(ops: seq<PathOp>)
  {
    forall i, j :: 0 <= i < j < |ops| ==> ops[i].px < ops[j].px
  }

  /** Each point is the function's own value at its column, inside the band. */
  ghost predicate OnCurve(v: Viewport, f: int -> Option<real>, ops: seq<PathOp>)
  {
    forall i :: 0 <= i < |ops| ==> f(ops[i].px) == Some(ops[i].y) && InBand(v, ops[i].y)
  }

  /** A line joins only neighbouring columns whose values differ by at most
      two window-heights. */
  ghost predicate Joined(v: Viewport, ops: seq<PathOp>)
  {
    forall i, j :: 0 <= i < j < |ops| && j == i + 1 && ops[j].LineTo? ==>
      ops[j].px == ops[i].px + 1 && Abs(ops[j].y - ops[i].y) <= (v.yMax - v.yMin) * 2.0
  }

  /** What a path of the first `k` columns promises. */
  ghost predicate Traced(v: Viewport, f: int -> Option<real>, k: nat, ops: seq<PathOp>)
  {
    InColumns(k, ops) && Increasing(ops) && OnCurve(v, f, ops) && Joined(v, ops)
  }

  /** Columns whose value exists and lies in the band are all drawn. */
  ghost predicate Complete(v: Viewport, f: int -> Option<real>, k: nat, ops: seq<PathOp>)
  {
    forall px :: 0 <= px < k && f(px).Some? && InBand(v, f(px).value) ==>
      exists i :: 0 <= i < |ops| && ops[i].px == px
  }

  /** The pen's own variables after `k` columns: a sub-path is open exactly
      when there is a previous value, and then it ends at the last column with
      that value. */
  predicate PenShape(k: nat, pen: Pen)
  {
    && (pen.started <==> pen.prevY.Some?)
    && (pen.started ==> |pen.ops| > 0 && pen.ops[|pen.ops| - 1].px == k - 1 &&
                        pen.prevY.value == pen.ops[|pen.ops| - 1].y)
  }

  /** The tracer's loop invariant after `k` columns. */
  ghost predicate PenInvariant(v: Viewport, f: int -> Option<real>, k: nat, pen: Pen)
  {
    Traced(v, f, k, pen.ops) && Complete(v, f, k, pen.ops) && PenShape(k, pen)
  }

  lemma TracedStep(v: Viewport, f: int -> Option<real>, k: nat, pen: Pen)
    requires Traced(v, f, k, pen.ops) && PenShape(k, pen)
    ensures Traced(v, f, k + 1, PenStep(v, pen, k, f(k)).ops)
    ensures PenShape(k + 1, PenStep(v, pen, k, f(k)))
  {
    InColumnsStep(v, f, k, pen);
    IncreasingStep(v, f, k, pen);
    OnCurveStep(v, f, k, pen);
    JoinedStep(v, f, k, pen);
  }

  lemma InColumnsStep(v: Viewport, f: int -> Option<real>, k: nat, pen: Pen)
    requires InColumns(k, pen.ops) && PenShape(k, pen)
    ensures InColumns(k + 1, PenStep(v, pen, k, f(k)).ops)
  {
  }

  lemma IncreasingStep(v: Viewport, f: int -> Option<real>, k: nat, pen: Pen)
    requires InColumns(k, pen.ops) && Increasing(pen.ops)
    ensures Increasing(PenStep(v, pen, k, f(k)).ops)
  {
  }

  lemma OnCurveStep(v: Viewport, f: int -> Option<real>, k: nat, pen: Pen)
    requires OnCurve(v, f, pen.ops)
    ensures OnCurve(v, f, PenStep(v, pen, k, f(k)).ops)
  {
  }

  lemma JoinedStep(v: Viewport, f: int -> Option<real>, k: nat, pen: Pen)
    requires Joined(v, pen.ops) && PenShape(k, pen)
    ensures Joined(v, PenStep(v, pen, k, f(k)).ops)
  {
  }

  lemma CompleteStep(v: Viewport, f: int -> Option<real>, k: nat, pen: Pen)
    requires Complete(v, f, k, pen.ops)
    ensures Complete(v, f, k + 1, PenStep(v, pen, k, f(k)).ops)
  {
    var next := PenStep(v, pen, k, f(k));
    forall px | 0 <= px < k + 1 && f(px).Some? && InBand(v, f(px).value)
      ensures exists i :: 0 <= i < |next.ops| && next.ops[i].px == px
    {
      if px < k {
        var i :| 0 <= i < |pen.ops| && pen.ops[i].px == px;
        assert next.ops[i] == pen.ops[i];
      } else {
        assert next.ops[|pen.ops|].px == px;
      }
    }
  }

  lemma {:induction false} TraceKeepsInvariant(v: Viewport, f: int -> Option<real>, k: nat)
    ensures PenInvariant(v, f, k, Trace(v, f, k))
  {
    if k > 0 {
      TraceKeepsInvariant(v, f, k - 1);
      TraceStepTo(v, f, k);
    }
  }

  /** The loop body keeps the invariant, stated for the column just done. */
  lemma TraceStepTo(v: Viewport, f: int -> Option<real>, k: nat)
    requires k > 0 && PenInvariant(v, f, k - 1, Trace(v, f, k - 1))
    ensures PenInvariant(v, f, k, Trace(v, f, k))
  {
    var j: nat := k - 1;
    var pen := Trace(v, f, j);
    var next := PenStep(v, pen, j, f(j));
    assert Trace(v, f, k) == next;
    TracedStep(v, f, j, pen);
    CompleteStep(v, f, j, pen);
    assert j + 1 == k;
    assert Traced(v, f, k, next.ops) && Complete(v, f, k, next.ops) && PenShape(k, next);
  }

  /** A path drawn across the whole panel keeps every promise of `Traced` and
      misses no drawable column. */
  lemma PlotIsTraced(env: Env, p: Panel, e: FunctionEntry, w: Pixels)
    ensures Traced(p.view, Samples(env, p, e, w), w, Plot(env, p, e, w))
    ensures Complete(p.view, Samples(env, p, e, w), w, Plot(env, p, e, w))
  {
    TraceKeepsInvariant(p.view, Samples(env, p, e, w), w);
  }

  /** Entries that `paintComponent` traces: visible and not blank after
      `trim`, which drops every character up to the space. */
  predicate IsDrawn(e: FunctionEntry)
  {
    e.visible && exists i :: 0 <= i < |e.expression| && e.expression[i] > ' '
  }

  /** The entries traced, in list order. */
  function Drawn(fs: seq<FunctionEntry>): (r: seq<FunctionEntry>)
    ensures |r| <= |fs|
  {
    if fs == [] then []
    else Drawn(fs[..|fs| - 1]) + (if IsDrawn(fs[|fs| - 1]) then [fs[|fs| - 1]] else [])
  }

  /** An entry is traced exactly when it is in the list, visible and not
      blank. */
  lemma {:induction false} DrawnEntries(fs: seq<FunctionEntry>)
    ensures forall e :: e in Drawn(fs) <==> e in fs && IsDrawn(e)
  {
    if fs != [] {
      DrawnEntries(fs[..|fs| - 1]);
      assert fs == fs[..|fs| - 1] + [fs[|fs| - 1]];
    }
  }

  /** One drawn curve: its colour and its path. */
  datatype Curve = Curve(colour: Colour, path: seq<PathOp>)

  function Curves(env: Env, p: Panel, fs: seq<FunctionEntry>, w: Pixels): (r: seq<Curve>)
    ensures |r| == |fs|
  {
    if fs == [] then []
    else Curves(env, p, fs[..|fs| - 1], w) + [Curve(fs[|fs| - 1].colour, Plot(env, p, fs[|fs| - 1], w))]
  }

  /** `paintComponent`'s curves, one per traced entry, in list order. */
  function Painted(env: Env, p: Panel, w: Pixels): seq<Curve>
  {
    Curves(env, p, Drawn(p.functions), w)
  }

  lemma {:induction false} CurvesFollowEntries(env: Env, p: Panel, fs: seq<FunctionEntry>, w: Pixels)
    ensures forall i :: 0 <= i < |fs| ==>
              Curves(env, p, fs, w)[i] == Curve(fs[i].colour, Plot(env, p, fs[i], w))
  {
    if fs != [] {
      var front, last := fs[..|fs| - 1], fs[|fs| - 1];
      CurvesFollowEntries(env, p, front, w);
      assert fs == front + [last];
      CurvesSnoc(env, p, front, last, w);
    }
  }

  lemma DrawnSnoc(fs: seq<FunctionEntry>, e: FunctionEntry)
    ensures Drawn(fs + [e]) == Drawn(fs) + (if IsDrawn(e) then [e] else [])
  {
    assert (fs + [e])[..|fs|] == fs;
  }

  lemma CurvesSnoc(env: Env, p: Panel, fs: seq<FunctionEntry>, e: FunctionEntry, w: Pixels)
    ensures Curves(env, p, fs + [e], w) == Curves(env, p, fs, w) + [Curve(e.colour, Plot(env, p, e, w))]
  {
    assert (fs + [e])[..|fs|] == fs;
  }

  /** One entry of `paintComponent`'s loop: a traced entry adds its curve,
      any other adds nothing. */
  lemma PaintStep(env: Env, p: Panel, fs: seq<FunctionEntry>, k: nat, w: Pixels)
    requires k < |fs|
    ensures Curves(env, p, Drawn(fs[..k + 1]), w) ==
            Curves(env, p, Drawn(fs[..k]), w) + (if IsDrawn(fs[k]) then [Curve(fs[k].colour, Plot(env, p, fs[k], w))] else [])
  {
    assert fs[..k + 1] == fs[..k] + [fs[k]];
    DrawnSnoc(fs[..k], fs[k]);
    if IsDrawn(fs[k]) {
      CurvesSnoc(env, p, Drawn(fs[..k]), fs[k], w);
    } else {
      assert Drawn(fs[..k + 1]) == Drawn(fs[..k]);
    }
  }

  // ---------------------------------------------------------------------------
  // Every event

  datatype Event =
    | AddEvent(expression: string)
    | UpdateEvent(index: int, expression: string)
    | RemoveEvent(index: int)
    | ClearEvent
    | ToggleEvent(index: int)
    | ResetEvent
    | ZoomInEvent
    | ZoomOutEvent
    | DegreesEvent(on: bool)
    | GridEvent(on: bool)
    | AxesEvent(on: bool)
    | WheelEvent(rotation: int, at: Point, w: Pixels, h: Pixels)
    | PressEvent(at: Point)
    | ReleaseEvent
    | DragEvent(at: Point, w: Pixels, h: Pixels)

  function Step(p: Panel, event: Event): Panel
  {
    match event
    case AddEvent(expression) => AddStep(p, expression)
    case UpdateEvent(index, expression) => UpdateStep(p, index, expression)
    case RemoveEvent(index) => RemoveStep(p, index)
    case ClearEvent => ClearStep(p)
    case ToggleEvent(index) => ToggleStep(p, index)
    case ResetEvent => p.(view := DefaultView)
    case ZoomInEvent => p.(view := ZoomInView(p.view))
    case ZoomOutEvent => p.(view := ZoomOutView(p.view))
    case DegreesEvent(on) => p.(useDegrees := on)
    case GridEvent(on) => p.(showGrid := on)
    case AxesEvent(on) => p.(showAxes := on)
    case WheelEvent(rotation, at, w, h) => WheelStep(p, rotation, at, w, h)
    case PressEvent(at) => PressStep(p, at)
    case ReleaseEvent => ReleaseStep(p)
    case DragEvent(at, w, h) => DragStep(p, at, w, h)
  }

  function Run(p: Panel, events: seq<Event>): Panel
  {
    if events == [] then p else Step(Run(p, events[..|events| - 1]), events[|events| - 1])
  }

  // ---------------------------------------------------------------------------
  // Properties

  /** Zoom in keeps the centre and shows 0.8 of each range; zoom out keeps it
      and shows 1.25 of each range. */
  lemma ZoomFactors(v: Viewport)
    ensures CentreX(ZoomInView(v)) == CentreX(v) && CentreY(ZoomInView(v)) == CentreY(v)
    ensures Width(ZoomInView(v)) == 0.8 * Width(v) && Height(ZoomInView(v)) == 0.8 * Height(v)
    ensures CentreX(ZoomOutView(v)) == CentreX(v) && CentreY(ZoomOutView(v)) == CentreY(v)
    ensures Width(ZoomOutView(v)) == 1.25 * Width(v) && Height(ZoomOutView(v)) == 1.25 * Height(v)
  {
  }

  /** The two buttons are inverse: 0.8 times 1.25 is 1, so zooming out after
      zooming in (or the other way round) gives back the window exactly, in
      exact arithmetic. */
  lemma {:induction false} ZoomsAreInverse(v: Viewport)
    ensures ZoomOutView(ZoomInView(v)) == v
    ensures ZoomInView(ZoomOutView(v)) == v
  {
    ZoomFactors(v);
    ZoomFactors(ZoomInView(v));
    ZoomFactors(ZoomOutView(v));
  }

  /** The wheel keeps the plane point under the cursor under the cursor and
      scales both ranges by the same factor. */
  lemma {:induction false} WheelKeepsCursorPoint(v: Viewport, rotation: int, at: Point, w: Pixels, h: Pixels)
    ensures var factor := if rotation > 0 then 1.2 else 1.0 / 1.2;
            Width(WheelView(v, rotation, at, w, h)) == factor * Width(v) &&
            Height(WheelView(v, rotation, at, w, h)) == factor * Height(v)
    ensures PlaneX(WheelView(v, rotation, at, w, h), at.x, w) == PlaneX(v, at.x, w)
    ensures PlaneY(WheelView(v, rotation, at, w, h), at.y, h) == PlaneY(v, at.y, h)
  {
    WheelScales(v, rotation, at, w, h);
    WheelKeepsX(v, rotation, at, w, h);
    WheelKeepsY(v, rotation, at, w, h);
  }

  lemma WheelScales(v: Viewport, rotation: int, at: Point, w: Pixels, h: Pixels)
    ensures var factor := if rotation > 0 then 1.2 else 1.0 / 1.2;
            Width(WheelView(v, rotation, at, w, h)) == factor * Width(v) &&
            Height(WheelView(v, rotation, at, w, h)) == factor * Height(v)
  {
  }

  lemma WheelKeepsX(v: Viewport, rotation: int, at: Point, w: Pixels, h: Pixels)
    ensures PlaneX(WheelView(v, rotation, at, w, h), at.x, w) == PlaneX(v, at.x, w)
  {
    var factor := if rotation > 0 then 1.2 else 1.0 / 1.2;
    var fx := at.x as real / w as real;
    KeepsPoint(v.xMin, v.xMax - v.xMin, (v.xMax - v.xMin) * factor, fx, at.x as real, w as real);
  }

  /** The arithmetic behind `WheelKeepsX`: the new window starts `nw * f`
      before the old point and is `nw` wide, so the point is where it was. */
  lemma KeepsPoint(lo: real, d: real, nw: real, f: real, p: real, q: real)
    requires q != 0.0 && f == p / q
    ensures (lo + d * f - nw * f) + ((lo + d * f + nw * (1.0 - f)) - (lo + d * f - nw * f)) * p / q
            == lo + d * p / q
  {
    assert (lo + d * f + nw * (1.0 - f)) - (lo + d * f - nw * f) == nw;
    MulDiv(nw, p, q);
    MulDiv(d, p, q);
  }

  lemma WheelKeepsY(v: Viewport, rotation: int, at: Point, w: Pixels, h: Pixels)
    ensures PlaneY(WheelView(v, rotation, at, w, h), at.y, h) == PlaneY(v, at.y, h)
  {
    var factor := if rotation > 0 then 1.2 else 1.0 / 1.2;
    var u := WheelView(v, rotation, at, w, h);
    var nh := (v.yMax - v.yMin) * factor;
    assert u.yMax - u.yMin == nh;
  }

  /** `a * b / c` and `a * (b / c)` agree. */
  lemma MulDiv(a: real, b: real, c: real)
    requires c != 0.0
    ensures a * b / c == a * (b / c)
  {
  }

  /** Being a panel with a non-empty window survives every event. */
  lemma StepKeepsValid(p: Panel, event: Event)
    requires Valid(p)
    ensures Valid(Step(p, event))
  {
    match event
    case ZoomInEvent => ZoomFactors(p.view);
    case ZoomOutEvent => ZoomFactors(p.view);
    case WheelEvent(rotation, at, w, h) => WheelKeepsCursorPoint(p.view, rotation, at, w, h);
    case _ =>
  }

  lemma {:induction false} AlwaysValid(events: seq<Event>)
    ensures Valid(Run(Initial(), events))
  {
    if events != [] {
      AlwaysValid(events[..|events| - 1]);
      StepKeepsValid(Run(Initial(), events[..|events| - 1]), events[|events| - 1]);
    }
  }

  /** A drag moves the window without resizing it, and the plane point that
      was under the mouse at the last event is under it again. */
  lemma {:induction false} DragFollowsCursor(p: Panel, at: Point, w: Pixels, h: Pixels)
    requires p.dragStart.Some?
    ensures Width(DragStep(p, at, w, h).view) == Width(p.view)
    ensures Height(DragStep(p, at, w, h).view) == Height(p.view)
    ensures PlaneX(DragStep(p, at, w, h).view, at.x, w) == PlaneX(p.view, p.dragStart.value.x, w)
    ensures PlaneY(DragStep(p, at, w, h).view, at.y, h) == PlaneY(p.view, p.dragStart.value.y, h)
    ensures DragStep(p, at, w, h).dragStart == Some(at)
  {
    var s := p.dragStart.value;
    var v := p.view;
    DragX(v.xMin, v.xMax, at.x as real, s.x as real, w as real);
    DragY(v.yMin, v.yMax, at.y as real, s.y as real, h as real);
  }

  /** Along x: the point under the old mouse column is under the new one. */
  lemma DragX(lo: real, hi: real, a: real, b: real, n: real)
    requires n != 0.0
    ensures var dx := (a - b) * (hi - lo) / n;
            (lo - dx) + ((hi - dx) - (lo - dx)) * a / n == lo + (hi - lo) * b / n
  {
    var d := hi - lo;
    var dx := (a - b) * d / n;
    assert (hi - dx) - (lo - dx) == d;
    assert dx == d * a / n - d * b / n by { Shift(d, a, b, n); }
  }

  /** Along y: the point under the old mouse row is under the new one. */
  lemma DragY(lo: real, hi: real, a: real, b: real, n: real)
    requires n != 0.0
    ensures var dy := (a - b) * (hi - lo) / n;
            (hi + dy) - ((hi + dy) - (lo + dy)) * (a / n) == hi - (hi - lo) * (b / n)
  {
    var d := hi - lo;
    var dy := (a - b) * d / n;
    assert (hi + dy) - (lo + dy) == d;
    assert dy == d * a / n - d * b / n by { Shift(d, a, b, n); }
    MulDiv(d, a, n);
    MulDiv(d, b, n);
  }

  /** Scaling a pixel difference and then moving by it is moving from one scaled
      position to the other. */
  lemma Shift(range: real, a: real, b: real, n: real)
    requires n != 0.0
    ensures (a - b) * range / n == range * a / n - range * b / n
  {
  }

  /** Dragging to a point and back to where the drag started restores the
      window. */
  lemma {:induction false} DragThereAndBack(p: Panel, a: Point, b: Point, w: Pixels, h: Pixels)
    requires p.dragStart == Some(a)
    ensures DragStep(DragStep(p, b, w, h), a, w, h).view == p.view
  {
    DragFollowsCursor(p, b, w, h);
  }

  /** A drag with no button pressed, or after release, moves nothing. */
  lemma DragNeedsPress(p: Panel, at: Point, w: Pixels, h: Pixels)
    ensures DragStep(ReleaseStep(p), at, w, h) == ReleaseStep(p)
    ensures DragStep(PressStep(p, at), at, w, h).view == p.view
  {
  }

  /** The wheel zooms in on any rotation that is not positive, a zero one
      included. */
  lemma WheelZeroZoomsIn(v: Viewport, at: Point, w: Pixels, h: Pixels)
    ensures Width(WheelView(v, 0, at, w, h)) == Width(v) / 1.2
  {
    WheelKeepsCursorPoint(v, 0, at, w, h);
  }

  /** Add appends a visible entry coloured by the old length; with no cap on
      the list, the colours cycle every six. */
  lemma AddAppends(p: Panel, expression: string)
    ensures AddStep(p, expression).functions ==
            p.functions + [FunctionEntry(expression, Palette[|p.functions| % 6], true)]
  {
  }

  /** Entries added one after another to an empty list take the palette's
      colours in turn. */
  lemma {:induction false} AddedColours(p: Panel, expressions: seq<string>)
    requires p.functions == []
    ensures |Adds(p, expressions).functions| == |expressions|
    ensures forall i :: 0 <= i < |expressions| ==>
              Adds(p, expressions).functions[i] == FunctionEntry(expressions[i], Palette[i % 6], true)
  {
    if expressions != [] {
      var n := |expressions| - 1;
      AddedColours(p, expressions[..n]);
      assert Adds(p, expressions).functions ==
             Adds(p, expressions[..n]).functions + [FunctionEntry(expressions[n], Palette[n % 6], true)];
    }
  }

  /** The panel after one `addFunction` per text. */
  function Adds(p: Panel, expressions: seq<string>): Panel
  {
    if expressions == [] then p
    else AddStep(Adds(p, expressions[..|expressions| - 1]), expressions[|expressions| - 1])
  }

  /** The colour comes from the length, not from the colours in use: after the
      first of two entries is removed, the next one added repeats the colour of
      the one left. */
  lemma ColourRepeatsAfterRemove(p: Panel, a: string, b: string, c: string)
    requires p.functions == []
    ensures var q := AddStep(RemoveStep(Adds(p, [a, b]), 0), c);
            q.functions == [FunctionEntry(b, Green, true), FunctionEntry(c, Green, true)]
  {
    AddedColours(p, [a, b]);
  }

  /** Update, remove and toggle act on an index inside the list and do nothing
      for any other. */
  lemma IndexGuards(p: Panel, index: int, expression: string)
    ensures !InRange(p, index) ==>
            UpdateStep(p, index, expression) == p && RemoveStep(p, index) == p && ToggleStep(p, index) == p
    ensures InRange(p, index) ==>
            |UpdateStep(p, index, expression).functions| == |p.functions| &&
            UpdateStep(p, index, expression).functions[index] == p.functions[index].(expression := expression) &&
            (forall j :: 0 <= j < |p.functions| && j != index ==> UpdateStep(p, index, expression).functions[j] == p.functions[j])
    ensures InRange(p, index) ==>
            |RemoveStep(p, index).functions| == |p.functions| - 1 &&
            (forall j :: 0 <= j < index ==> RemoveStep(p, index).functions[j] == p.functions[j]) &&
            (forall j :: index < j < |p.functions| ==> RemoveStep(p, index).functions[j - 1] == p.functions[j])
  {
  }

  /** Toggling the same entry twice restores the list. */
  lemma ToggleTwice(p: Panel, index: int)
    ensures ToggleStep(ToggleStep(p, index), index) == p
  {
  }

  /** Clearing empties the list and touches nothing else; reset restores the
      starting window. */
  lemma ClearAndReset(p: Panel)
    ensures ClearStep(p).functions == [] && ClearStep(p).view == p.view
    ensures Step(p, ResetEvent).view == Initial().view && Step(p, ResetEvent).functions == p.functions
  {
  }

  /** Each sampled column maps back to itself on screen, and the window's
      corners map to the panel's corners. */
  lemma {:induction false} ScreenRoundTrip(v: Viewport, px: int, w: Pixels, h: Pixels)
    requires v.xMin < v.xMax && v.yMin < v.yMax
    requires 0 <= px <= w <= IntMax && h <= IntMax
    ensures ScreenX(v, PlaneX(v, px, w), w) == px
    ensures ScreenX(v, v.xMin, w) == 0 && ScreenX(v, v.xMax, w) == w
    ensures ScreenY(v, v.yMax, h) == 0 && ScreenY(v, v.yMin, h) == h
  {
    ColumnRoundTrip(v, px, w);
    CornersMap(v, w, h);
  }

  lemma ColumnRoundTrip(v: Viewport, px: int, w: Pixels)
    requires v.xMin < v.xMax
    requires 0 <= px <= w <= IntMax
    ensures ScreenX(v, PlaneX(v, px, w), w) == px
  {
    Unscale(v.xMin, v.xMax, px as real, w as real);
    assert (PlaneX(v, px, w) - v.xMin) / (v.xMax - v.xMin) * w as real == px as real;
    assert Trunc(px as real) == px;
  }

  lemma CornersMap(v: Viewport, w: Pixels, h: Pixels)
    requires v.xMin < v.xMax && v.yMin < v.yMax
    requires w <= IntMax && h <= IntMax
    ensures ScreenX(v, v.xMin, w) == 0 && ScreenX(v, v.xMax, w) == w
    ensures ScreenY(v, v.yMax, h) == 0 && ScreenY(v, v.yMin, h) == h
  {
    assert (v.xMax - v.xMin) / (v.xMax - v.xMin) == 1.0;
    assert (v.yMax - v.yMin) / (v.yMax - v.yMin) == 1.0;
  }

  /** Going from a column to the plane and back gives the column. */
  lemma Unscale(lo: real, hi: real, a: real, n: real)
    requires lo != hi && n != 0.0
    ensures ((lo + (hi - lo) * a / n) - lo) / (hi - lo) * n == a
  {
    var d := hi - lo;
    assert (lo + d * a / n) - lo == d * a / n;
    MulDiv(d, a, n);
    assert d * (a / n) / d == a / n;
  }

  /** Substitution replaces both cases of x, so, when the number's text has
      neither, no x of either case is left for the parser. */
  lemma SubstitutionClearsX(env: Env, expression: string, x: real)
    requires 'x' !in env.describe(x) && 'X' !in env.describe(x)
    ensures 'x' !in Substitute(env, expression, x) && 'X' !in Substitute(env, expression, x)
  {
    var r := "(" + env.describe(x) + ")";
    assert 'x' !in r && 'X' !in r;
    var once := ReplaceChar(expression, 'x', r);
    assert 'x' !in once;
    CharsKept(once, 'X', r, 'x');
  }

  /** Replacing one character by a text without a second one leaves no new
      copies of the second. */
  lemma {:induction false} CharsKept(s: string, c: char, repl: string, d: char)
    requires d !in s && d !in repl
    ensures d !in ReplaceChar(s, c, repl)
  {
    if s != [] {
      CharsKept(s[1..], c, repl, d);
    }
  }

  // ---------------------------------------------------------------------------
  // The panel

  /** The body of `drawFunction`'s loop for one column, on the tracer's three
      variables. */
  method PenMove(v: Viewport, ops: seq<PathOp>, started: bool, prevY: Option<real>, px: int, sample: Option<real>)
    returns (ops': seq<PathOp>, started': bool, prevY': Option<real>)
    ensures Pen(ops', started', prevY') == PenStep(v, Pen(ops, started, prevY), px, sample)
  {
    ops', started', prevY' := ops, started, prevY;
    if sample.None? || !InBand(v, sample.value) {
      started' := false;
      prevY' := None;
    } else {
      var y := sample.value;
      if prevY.Some? && Abs(y - prevY.value) > (v.yMax - v.yMin) * 2.0 {
        started' := false;
      }
      if !started' {
        ops' := ops + [MoveTo(px, y)];
      } else {
        ops' := ops + [LineTo(px, y)];
      }
      started' := true;
      prevY' := Some(y);
    }
  }

  class GraphPanel {
    var functions: seq<FunctionEntry>
    var xMin: real
    var xMax: real
    var yMin: real
    var yMax: real
    var showGrid: bool
    var showAxes: bool
    var dragStart: Option<Point>
    var useDegrees: bool
    const env: Env

    function State(): Panel
      reads this
    {
      Panel(functions, Viewport(xMin, xMax, yMin, yMax), showGrid, showAxes, dragStart, useDegrees)
    }

    constructor(env: Env)
      ensures State() == Initial() && this.env == env
    {
      this.env := env;
      functions := [];
      xMin, xMax, yMin, yMax := -10.0, 10.0, -10.0, 10.0;
      showGrid := true;
      showAxes := true;
      dragStart := None;
      useDegrees := false;
    }

    method SetUseDegrees(on: bool)
      modifies this
      ensures State() == old(State()).(useDegrees := on)
    {
      useDegrees := on;
    }

    method AddFunction(expression: string) returns (index: int)
      modifies this
      ensures State() == AddStep(old(State()), expression)
      ensures index == |old(functions)| && functions[index].expression == expression
    {
      var colour := Palette[|functions| % |Palette|];
      functions := functions + [FunctionEntry(expression, colour, true)];
      index := |functions| - 1;
    }

    method UpdateFunction(index: int, expression: string)
      modifies this
      ensures State() == UpdateStep(old(State()), index, expression)
    {
      if 0 <= index < |functions| {
        functions := functions[index := functions[index].(expression := expression)];
      }
    }

    method RemoveFunction(index: int)
      modifies this
      ensures State() == RemoveStep(old(State()), index)
    {
      if 0 <= index < |functions| {
        functions := functions[..index] + functions[index + 1..];
      }
    }

    method ClearFunctions()
      modifies this
      ensures State() == ClearStep(old(State()))
    {
      functions := [];
    }

    method ToggleFunction(index: int)
      modifies this
      ensures State() == ToggleStep(old(State()), index)
    {
      if 0 <= index < |functions| {
        functions := functions[index := functions[index].(visible := !functions[index].visible)];
      }
    }

    method ResetView()
      modifies this
      ensures State() == old(State()).(view := DefaultView)
    {
      xMin, xMax, yMin, yMax := -10.0, 10.0, -10.0, 10.0;
    }

    method ZoomIn()
      modifies this
      ensures State() == old(State()).(view := ZoomInView(old(State()).view))
    {
      var cx, cy := (xMin + xMax) / 2.0, (yMin + yMax) / 2.0;
      var w, h := (xMax - xMin) / 2.5, (yMax - yMin) / 2.5;
      xMin, xMax, yMin, yMax := cx - w, cx + w, cy - h, cy + h;
    }

    method ZoomOut()
      modifies this
      ensures State() == old(State()).(view := ZoomOutView(old(State()).view))
    {
      var cx, cy := (xMin + xMax) / 2.0, (yMin + yMax) / 2.0;
      var w, h := (xMax - xMin) * 0.625, (yMax - yMin) * 0.625;
      xMin, xMax, yMin, yMax := cx - w, cx + w, cy - h, cy + h;
    }

    method SetShowGrid(on: bool)
      modifies this
      ensures State() == old(State()).(showGrid := on)
    {
      showGrid := on;
    }

    method SetShowAxes(on: bool)
      modifies this
      ensures State() == old(State()).(showAxes := on)
    {
      showAxes := on;
    }

    /** The wheel listener, given the panel's size. */
    method MouseWheel(rotation: int, at: Point, w: Pixels, h: Pixels)
      modifies this
      ensures State() == WheelStep(old(State()), rotation, at, w, h)
    {
      var factor := if rotation > 0 then 1.2 else 1.0 / 1.2;
      var cx := xMin + (xMax - xMin) * (at.x as real / w as real);
      var cy := yMax - (yMax - yMin) * (at.y as real / h as real);
      var nw := (xMax - xMin) * factor;
      var nh := (yMax - yMin) * factor;
      xMin, xMax := cx - nw * (at.x as real / w as real), cx + nw * (1.0 - at.x as real / w as real);
      yMin, yMax := cy - nh * (1.0 - at.y as real / h as real), cy + nh * (at.y as real / h as real);
    }

    method MousePressed(at: Point)
      modifies this
      ensures State() == PressStep(old(State()), at)
    {
      dragStart := Some(at);
    }

    method MouseReleased()
      modifies this
      ensures State() == ReleaseStep(old(State()))
    {
      dragStart := None;
    }

    method MouseDragged(at: Point, w: Pixels, h: Pixels)
      modifies this
      ensures State() == DragStep(old(State()), at, w, h)
    {
      if dragStart.Some? {
        var start := dragStart.value;
        var dx := (at.x - start.x) as real * (xMax - xMin) / w as real;
        var dy := (at.y - start.y) as real * (yMax - yMin) / h as real;
        var moved := Pan(Viewport(xMin, xMax, yMin, yMax), dx, dy);
        xMin := moved.xMin;
        xMax := moved.xMax;
        yMin := moved.yMin;
        yMax := moved.yMax;
        dragStart := Some(at);
      }
    }

    /** The body of `drawFunction`'s `try`: substitute the column's x and
        parse; an exception gives no value. */
    method SampleAt(e: FunctionEntry, px: int, w: Pixels) returns (r: Option<real>)
      ensures r == Sample(env, State(), e, px, w)
    {
      var x := PlaneX(Viewport(xMin, xMax, yMin, yMax), px, w);
      var text := Substitute(env, e.expression, x);
      var result := Parser.Parser.Evaluate(text, Parser.Env(useDegrees, env.lib, env.parseDouble));
      r := if result.Ok? then Some(result.value) else None;
    }

    /** `drawFunction`: one sample per pixel column, left to right. */
    method DrawFunction(e: FunctionEntry, w: Pixels) returns (ops: seq<PathOp>)
      ensures ops == Plot(env, State(), e, w)
    {
      var started := false;
      var prevY: Option<real> := None;
      ops := [];
      var px := 0;
      while px < w
        invariant 0 <= px <= w
        invariant Pen(ops, started, prevY) == Trace(State().view, Samples(env, State(), e, w), px)
      {
        ops, started, prevY := TraceColumn(e, w, px, ops, started, prevY);
        px := px + 1;
      }
    }

    /** One pass of `drawFunction`'s loop: sample column `px` and move the pen. */
    method TraceColumn(e: FunctionEntry, w: Pixels, px: nat, ops: seq<PathOp>, started: bool, prevY: Option<real>)
      returns (ops': seq<PathOp>, started': bool, prevY': Option<real>)
      requires Pen(ops, started, prevY) == Trace(State().view, Samples(env, State(), e, w), px)
      ensures Pen(ops', started', prevY') == Trace(State().view, Samples(env, State(), e, w), px + 1)
    {
      var sample := SampleAt(e, px, w);
      ops', started', prevY' := PenMove(Viewport(xMin, xMax, yMin, yMax), ops, started, prevY, px, sample);
    }

    /** `paintComponent`'s curves: one traced path per visible, non-blank
        entry, in list order. */
    method Paint(w: Pixels) returns (curves: seq<Curve>)
      ensures curves == Painted(env, State(), w)
    {
      ghost var s := State();
      curves := [];
      var k := 0;
      while k < |functions|
        invariant 0 <= k <= |functions|
        invariant curves == Curves(env, s, Drawn(functions[..k]), w)
      {
        var fn := functions[k];
        PaintStep(env, s, functions, k, w);
        if IsDrawn(fn) {
          var path := DrawFunction(fn, w);
          curves := curves + [Curve(fn.colour, path)];
        }
        k := k + 1;
      }
      assert functions[..k] == functions;
    }
  }
}
