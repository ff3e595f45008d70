/** The emission loop of `convert_svg_to_hpgl` in tool_paths.py: for each
    SVG path, an optional `SP` pen selection, then (unless the path is empty
    or is the canvas border) `PU` to its first point, `PD`, one `PA` per
    further point and `PU;`. Coordinates are truncated toward zero and not
    scaled. */
module HpglEmitter {
  import opened Python
  import opened SvgPath
  import opened Units
  import opened Pens

  /** A `<path>` element: its `d` and `style` attributes. */
  datatype PathElement = PathElement(d: string, style: string)

  /** The canvas size in points. */
  datatype Canvas = Canvas(width: real, height: real)

  /** The canvas from the `width` and `height` attributes: read in pixels by
      `get_svg_canvas_size_in_px`, then turned into points. */
  function CanvasOf(widthAttr: string, heightAttr: string): Result<Canvas>
  {
    match CanvasDimensionPx(widthAttr)
    case Err(e) => Err(e)
    case Ok(w) =>
      match CanvasDimensionPx(heightAttr)
      case Err(e) => Err(e)
      case Ok(h) => Ok(Canvas(ConvertPxToPt(w), ConvertPxToPt(h)))
  }

  // ---------------------------------------------------------------------
  // The lines

  /** One line of HPGL as the emitter writes it. */
  datatype Line =
    | SelectPen(pen: int)       // SP<pen>;
    | PenUpTo(x: int, y: int)   // PU<x>,<y>;
    | PenDown                   // PD
    | PlotTo(x: int, y: int)    // PA<x>,<y>;
    | PenUp                     // PU;

  /** The text of a line: `f"SP{pen_number};"`, `f"PU{int(x)},{int(y)};"`,
      "PD", `f"PA{int(x)},{int(y)};"` and "PU;". */
  function Render(l: Line): string
  {
    match l
    case SelectPen(pen) => "SP" + ShowInt(pen) + ";"
    case PenUpTo(x, y) => "PU" + ShowInt(x) + "," + ShowInt(y) + ";"
    case PenDown => "PD"
    case PlotTo(x, y) => "PA" + ShowInt(x) + "," + ShowInt(y) + ";"
    case PenUp => "PU;"
  }

  function RenderAll(lines: seq<Line>): (r: seq<string>)
    ensures |r| == |lines|
    ensures forall k :: 0 <= k < |lines| ==> r[k] == Render(lines[k])
  {
    if lines == [] then [] else [Render(lines[0])] + RenderAll(lines[1..])
  }

  /** One `PA` line per point, coordinates truncated by `int()`. */
  function PaLines(ps: seq<Point>): (r: seq<Line>)
    ensures |r| == |ps|
    ensures forall k :: 0 <= k < |ps| ==> r[k] == PlotTo(Trunc(ps[k].x), Trunc(ps[k].y))
  {
    if ps == [] then [] else PaLines(ps[..|ps| - 1]) + [PlotTo(Trunc(ps[|ps| - 1].x), Trunc(ps[|ps| - 1].y))]
  }

  /** The lines that draw a non-empty path. */
  function PathBody(points: seq<Point>): seq<Line>
    requires points != []
  {
    [PenUpTo(Trunc(points[0].x), Trunc(points[0].y)), PenDown] + PaLines(points[1..]) + [PenUp]
  }

  /** The four corners in one of the two orders the source lists,
      followed by a fifth point: the rectangle that frames the canvas. */
  predicate IsCanvasBorder(points: seq<Point>, c: Canvas)
  {
    var topLeft := Point(0.0, 0.0);
    var topRight := Point(c.width, 0.0);
    var bottomLeft := Point(0.0, c.height);
    var bottomRight := Point(c.width, c.height);
    |points| == 5 &&
    ((points[0] == topLeft && points[1] == topRight && points[2] == bottomRight && points[3] == bottomLeft) ||
     (points[0] == bottomLeft && points[1] == bottomRight && points[2] == topRight && points[3] == topLeft))
  }

  /** The `SP` line a path's style asks for, if any. */
  function PenPart(style: string): seq<Line>
  {
    match StylePen(style)
    case None => []
    case Some(pen) => [SelectPen(pen)]
  }

  /** The drawing lines of a path: none for an empty path or the canvas
      border. */
  function DrawPart(points: seq<Point>, c: Canvas): seq<Line>
  {
    if points == [] || IsCanvasBorder(points, c) then [] else PathBody(points)
  }

  /** The lines for one path whose points have been parsed. */
  function PathLines(style: string, points: seq<Point>, c: Canvas): seq<Line>
  {
    PenPart(style) + DrawPart(points, c)
  }

  /** The lines for one path element, or the exception its `d` raises. */
  function EmitPath(e: PathElement, c: Canvas): Result<seq<Line>>
  {
    match PathPoints(e.d)
    case Err(err) => Err(err)
    case Ok(points) => Ok(PathLines(e.style, points, c))
  }

  function PathResults(paths: seq<PathElement>, c: Canvas): (r: seq<Result<seq<Line>>>)
    ensures |r| == |paths|
    ensures forall k :: 0 <= k < |paths| ==> r[k] == EmitPath(paths[k], c)
  {
    if paths == [] then [] else [EmitPath(paths[0], c)] + PathResults(paths[1..], c)
  }

  /** `hpgl_code_lines` after the first `n` path elements: their lines one
      after another; the first exception ends the conversion. */
  function Concat(results: seq<Result<seq<Line>>>, n: nat): Result<seq<Line>>
    requires n <= |results|
  {
    if n == 0 then Ok([])
    else
      match Concat(results, n - 1)
      case Err(err) => Err(err)
      case Ok(lines) =>
        match results[n - 1]
        case Err(err) => Err(err)
        case Ok(more) => Ok(lines + more)
  }

  /** The lines written for all the path elements on a canvas. */
  function Emit(paths: seq<PathElement>, c: Canvas): Result<seq<Line>>
  {
    Concat(PathResults(paths, c), |paths|)
  }

  /** What `convert_svg_to_hpgl` stores in `hpgl_code`, or the exception
      that leaves it as it was. */
  function Convert(widthAttr: string, heightAttr: string, paths: seq<PathElement>): Result<string>
  {
    match CanvasOf(widthAttr, heightAttr)
    case Err(e) => Err(e)
    case Ok(c) =>
      match Emit(paths, c)
      case Err(e) => Err(e)
      case Ok(lines) => Ok(Join(RenderAll(lines)))
  }

  // ---------------------------------------------------------------------
  // What the emitter promises

  /** A drawn path of k points is k + 2 lines: `PU` to the first point,
      `PD`, a `PA` for each further point, and `PU;`. */
  lemma PathBodyShape(points: seq<Point>)
    requires points != []
    ensures |PathBody(points)| == |points| + 2
    ensures PathBody(points)[0] == PenUpTo(Trunc(points[0].x), Trunc(points[0].y))
    ensures PathBody(points)[1] == PenDown
    ensures forall k :: 1 <= k < |points| ==> PathBody(points)[k + 1] == PlotTo(Trunc(points[k].x), Trunc(points[k].y))
    ensures PathBody(points)[|points| + 1] == PenUp
  {
    forall k | 1 <= k < |points|
      ensures PathBody(points)[k + 1] == PlotTo(Trunc(points[k].x), Trunc(points[k].y))
    {
      PathBodyAt(points, k);
    }
  }

  lemma PathBodyAt(points: seq<Point>, k: nat)
    requires 1 <= k < |points|
    ensures PathBody(points)[k + 1] == PlotTo(Trunc(points[k].x), Trunc(points[k].y))
  {
    var rest := points[1..];
    assert rest[k - 1] == points[k];
    assert PathBody(points)[k + 1] == PaLines(rest)[k - 1];
  }

  /** An `SP` line is written first exactly when the style has a stroke
      token, whether or not the pen changes, and there is no other. */
  lemma PenLine(style: string, points: seq<Point>, c: Canvas)
    ensures StylePen(style).Some? ==>
      PathLines(style, points, c)[0] == SelectPen(StylePen(style).value)
    ensures forall k :: 0 < k < |PathLines(style, points, c)| ==> !PathLines(style, points, c)[k].SelectPen?
    ensures StylePen(style).None? ==>
      forall k :: 0 <= k < |PathLines(style, points, c)| ==> !PathLines(style, points, c)[k].SelectPen?
  {
    if points != [] && !IsCanvasBorder(points, c) {
      PathBodyShape(points);
    }
  }

  /** The canvas border and an empty path draw nothing; the `SP` line of
      such a path is still written. */
  lemma NothingDrawn(style: string, points: seq<Point>, c: Canvas)
    requires points == [] || IsCanvasBorder(points, c)
    ensures PathLines(style, points, c) == PenPart(style)
  {
  }

  /** Any other path is drawn in full after its optional `SP` line. */
  lemma Drawn(style: string, points: seq<Point>, c: Canvas)
    requires points != [] && !IsCanvasBorder(points, c)
    ensures |PathLines(style, points, c)| == |points| + 2 + (if StylePen(style).Some? then 1 else 0)
    ensures StylePen(style).None? ==> PathLines(style, points, c) == PathBody(points)
  {
    PathBodyShape(points);
  }

  /** The border test accepts the two corner orders it lists and no other
      point count. */
  lemma BorderOrders(c: Canvas, p: Point)
    ensures IsCanvasBorder([Point(0.0, 0.0), Point(c.width, 0.0), Point(c.width, c.height), Point(0.0, c.height), p], c)
    ensures IsCanvasBorder([Point(0.0, c.height), Point(c.width, c.height), Point(c.width, 0.0), Point(0.0, 0.0), p], c)
    ensures !IsCanvasBorder([Point(0.0, 0.0), Point(c.width, 0.0), Point(c.width, c.height), Point(0.0, c.height)], c)
  {
  }

  /** Coordinates are truncated toward zero and not scaled: -2.7 is
      written -2 and 3.9 is written 3. */
  lemma TruncatedCoordinates()
    ensures Render(PaLines([Point(-2.7, 3.9)])[0]) == "PA-2,3;"
  {
    assert Trunc(-2.7) == -2 && Trunc(3.9) == 3;
    assert ShowInt(-2) == "-2" by { assert ShowNat(2) == "2"; }
    assert ShowInt(3) == "3";
  }

  /** The first exception ends the conversion: once the lines of a prefix
      fail, so do the lines of every longer prefix. */
  lemma {:induction false} ConcatErrStays(results: seq<Result<seq<Line>>>, i: nat, n: nat)
    requires i <= n <= |results| && Concat(results, i).Err?
    ensures Concat(results, n) == Concat(results, i)
    decreases n - i
  {
    if i < n {
      ConcatErrStays(results, i, n - 1);
    }
  }

  /** The lines succeed exactly when every path does, and fail with the
      exception of the first path that fails. */
  lemma {:induction false} ConcatOutcome(results: seq<Result<seq<Line>>>, n: nat)
    requires n <= |results|
    ensures Concat(results, n).Ok? <==> forall k :: 0 <= k < n ==> results[k].Ok?
    ensures Concat(results, n).Err? ==>
      exists k :: 0 <= k < n && results[k] == Err(Concat(results, n).error)
  {
    if n > 0 {
      ConcatOutcome(results, n - 1);
    }
  }

  /** Each path's lines follow those of the paths before it. */
  lemma ConcatAppends(results: seq<Result<seq<Line>>>, n: nat)
    requires n < |results| && Concat(results, n + 1).Ok?
    ensures Concat(results, n).Ok? && results[n].Ok?
    ensures Concat(results, n + 1).value == Concat(results, n).value + results[n].value
  {
  }

  /** A path element whose `d` parses gives its pen line and its drawing. */
  lemma EmitPathOf(e: PathElement, c: Canvas, points: seq<Point>)
    requires PathPoints(e.d) == Ok(points)
    ensures EmitPath(e, c) == Ok(PenPart(e.style) + DrawPart(points, c))
  {
  }

  /** A path element fails exactly when its `d` does, with IndexError. */
  lemma EmitPathOutcome(e: PathElement, c: Canvas)
    ensures EmitPath(e, c).Ok? <==> PathPoints(e.d).Ok?
    ensures EmitPath(e, c).Err? ==> EmitPath(e, c).error == IndexError
  {
    PathPointsOutcome(e.d);
  }

  /** The conversion fails only with the ValueError of an unreadable canvas
      size or the IndexError of a `d` that does not parse. */
  lemma ConvertErrors(widthAttr: string, heightAttr: string, paths: seq<PathElement>)
    ensures Convert(widthAttr, heightAttr, paths).Err? ==>
      (CanvasOf(widthAttr, heightAttr).Err? && Convert(widthAttr, heightAttr, paths).error == ValueError) ||
      (exists k :: 0 <= k < |paths| && PathPoints(paths[k].d).Err? && Convert(widthAttr, heightAttr, paths).error == IndexError)
  {
    if CanvasOf(widthAttr, heightAttr).Ok? {
      var c := CanvasOf(widthAttr, heightAttr).value;
      var results := PathResults(paths, c);
      ConcatOutcome(results, |paths|);
      if Emit(paths, c).Err? {
        var k :| 0 <= k < |paths| && results[k] == Err(Emit(paths, c).error);
        EmitPathOutcome(paths[k], c);
      }
    }
  }

  /** Once the canvas is read, the conversion is the emission on it. */
  lemma ConvertOnCanvas(widthAttr: string, heightAttr: string, paths: seq<PathElement>, c: Canvas)
    requires CanvasOf(widthAttr, heightAttr) == Ok(c)
    ensures Emit(paths, c).Err? ==> Convert(widthAttr, heightAttr, paths) == Err(Emit(paths, c).error)
    ensures Emit(paths, c).Ok? ==> Convert(widthAttr, heightAttr, paths) == Ok(Join(RenderAll(Emit(paths, c).value)))
  {
  }
}
