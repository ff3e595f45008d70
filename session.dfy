/** The module-level state of tool_paths.py that the conversion writes:
    `hpgl_code`, the HPGL text the estimator and the visualizer read. */
module Session {
  import opened Python
  import opened SvgPath
  import opened Units
  import opened Pens
  import opened HpglEmitter
  import opened NumberScan
  import opened HpglInterpreter

  class ToolPathSession {
    /** The global `hpgl_code`. */
    var hpglCode: string

    constructor()
      ensures hpglCode == ""
    {
      hpglCode := "";
    }

    /** `convert_svg_to_hpgl`, given the `width` and `height` attributes of
        the `<svg>` element and the `<path>` elements in document order. An
        exception leaves `hpgl_code` as it was. */
    method ConvertSvgToHpgl(widthAttr: string, heightAttr: string, paths: seq<PathElement>)
      returns (r: Result<()>)
      modifies this
      ensures Convert(widthAttr, heightAttr, paths).Ok? ==>
        r == Ok(()) && hpglCode == Convert(widthAttr, heightAttr, paths).value
      ensures Convert(widthAttr, heightAttr, paths).Err? ==>
        r == Err(Convert(widthAttr, heightAttr, paths).error) && hpglCode == old(hpglCode)
    {
      var widthPx := CanvasDimensionPx(widthAttr);
      if widthPx.Err? {
        return Err(widthPx.error);
      }
      var heightPx := CanvasDimensionPx(heightAttr);
      if heightPx.Err? {
        return Err(heightPx.error);
      }
      var canvasWidthPt := ConvertPxToPt(widthPx.value);
      var canvasHeightPt := ConvertPxToPt(heightPx.value);
      ghost var c := Canvas(canvasWidthPt, canvasHeightPt);
      ghost var results := PathResults(paths, c);
      assert CanvasOf(widthAttr, heightAttr) == Ok(c);
      ConvertOnCanvas(widthAttr, heightAttr, paths, c);
      var topLeft := Point(0.0, 0.0);
      var topRight := Point(canvasWidthPt, 0.0);
      var bottomLeft := Point(0.0, canvasHeightPt);
      var bottomRight := Point(canvasWidthPt, canvasHeightPt);

      var lines: seq<Line> := [];
      for i := 0 to |paths|
        invariant Concat(results, i) == Ok(lines)
        invariant hpglCode == old(hpglCode)
      {
        var path := paths[i];
        var penLines := SelectPenLines(path.style);
        var parsed := ParseSvgPath(path.d);
        if parsed.Err? {
          EmitFails(results, i, parsed.error);
          return Err(parsed.error);
        }
        var points := parsed.value;
        var drawLines := DrawLines(points, topLeft, topRight, bottomLeft, bottomRight);
        EmitPathOf(path, c, points);
        EmitStep(results, i, lines, penLines + drawLines);
        lines := lines + (penLines + drawLines);
      }
      hpglCode := Join(RenderAll(lines));
      return Ok(());
    }

    /** `estimate_plotting_time`: the minutes and seconds of the estimate
        it shows, or the exception. */
    method EstimatePlottingTime(dist: Distance) returns (r: Result<(int, int)>)
      ensures r == Estimate(hpglCode, dist)
    {
      var hpglCommands := SplitLines(hpglCode);
      ghost var prog := ReadAll(hpglCommands);
      var tally := Start;
      for i := 0 to |hpglCommands|
        invariant Tallies(prog, i, dist) == Ok(tally)
      {
        var next := TallyLine(hpglCommands, i, tally, dist);
        if next.Err? {
          TalliesErrStays(prog, i + 1, |prog|, dist);
          return Err(next.error);
        }
        tally := next.value;
      }
      var slewingTime := tally.slewing / SlewingSpeed;
      var drawingTime := tally.drawing / DrawingSpeed;
      var totalTime := slewingTime + drawingTime;
      var minutes := (totalTime / 60.0).Floor;
      var seconds := Trunc(totalTime - 60.0 * minutes as real);
      return Ok((minutes, seconds));
    }

    /** `visualize_hpgl`: the pen-up movements and the strokes it plots,
        None when no line carries coordinates, or the exception. */
    method VisualizeHpgl(penColorMapping: map<int, string>) returns (r: Result<Option<(seq<Move>, seq<Stroke>)>>)
      ensures r == Visualize(hpglCode, penColorMapping)
    {
      var yCoords: seq<real> := [];
      var hpglCommands := SplitLines(hpglCode);
      ghost var prog := ReadAll(hpglCommands);
      for i := 0 to |hpglCommands|
        invariant yCoords == YCoords(prog, i)
      {
        var ys := LineY(hpglCommands, i);
        yCoords := yCoords + ys;
      }
      if yCoords == [] {
        return Ok(None);
      }
      var maxY := Max(yCoords);
      var scene := Blank;
      for i := 0 to |hpglCommands|
        invariant Scenes(prog, i, maxY, penColorMapping) == Ok(scene)
      {
        var next := DrawLine(hpglCommands, i, scene, maxY, penColorMapping);
        if next.Err? {
          ScenesErrStays(prog, i + 1, |prog|, maxY, penColorMapping);
          return Err(next.error);
        }
        scene := next.value;
      }
      return Ok(Some((scene.moves, scene.strokes)));
    }
  }

  /** One pass of the loop of `estimate_plotting_time`, on line `i`:
      `current_pos`, the two distances and `pen_down` after it. */
  method TallyLine(cmds: seq<string>, i: nat, t: Tally, dist: Distance) returns (r: Result<Tally>)
    requires i < |cmds| && Tallies(ReadAll(cmds), i, dist) == Ok(t)
    ensures r == Tallies(ReadAll(cmds), i + 1, dist)
  {
    var cmd := cmds[i];
    ReadAllAt(cmds, i);
    ghost var ins := Read(cmd);
    var currentPos, slewing, drawing, penDown := t.pos, t.slewing, t.drawing, t.penDown;
    if StartsWith(cmd, 'P', 'U') {
      var params := Numbers(cmd);
      if params != [] {
        if |params| < 2 {
          return Err(IndexError);
        }
        TickPenUp(t, ins, dist);
        var nextPos := Point(params[0], params[1]);
        slewing := slewing + dist(currentPos.x, currentPos.y, nextPos.x, nextPos.y);
        currentPos := nextPos;
      }
      penDown := false;
    } else if StartsWith(cmd, 'P', 'D') {
      penDown := true;
    } else if StartsWith(cmd, 'P', 'A') {
      var params := Numbers(cmd);
      if params != [] {
        if |params| < 2 {
          return Err(IndexError);
        }
        TickPlot(t, ins, dist);
        var nextPos := Point(params[0], params[1]);
        if penDown {
          drawing := drawing + dist(currentPos.x, currentPos.y, nextPos.x, nextPos.y);
        }
        currentPos := nextPos;
      }
    }
    return Ok(Tally(currentPos, slewing, drawing, penDown));
  }

  /** One pass of the first loop of `visualize_hpgl`, on line `i`: the y
      it appends to `y_coords`, if any. */
  method LineY(cmds: seq<string>, i: nat) returns (ys: seq<real>)
    requires i < |cmds|
    ensures YCoords(ReadAll(cmds), i + 1) == YCoords(ReadAll(cmds), i) + ys
  {
    var cmd := cmds[i];
    ReadAllAt(cmds, i);
    ys := [];
    if StartsWith(cmd, 'P', 'U') || StartsWith(cmd, 'P', 'A') {
      var params := Numbers(cmd);
      if |params| >= 2 {
        ys := [params[1]];
      }
    }
  }

  /** One pass of the second loop of `visualize_hpgl`, on line `i`: the
      position, the pen, the colour and the two movement lists after it. */
  method DrawLine(cmds: seq<string>, i: nat, s: Scene, maxY: real, penColorMapping: map<int, string>)
    returns (r: Result<Scene>)
    requires i < |cmds| && Scenes(ReadAll(cmds), i, maxY, penColorMapping) == Ok(s)
    ensures r == Scenes(ReadAll(cmds), i + 1, maxY, penColorMapping)
  {
    var cmd := cmds[i];
    ReadAllAt(cmds, i);
    ghost var ins := Read(cmd);
    var currentPos, penDown, currentColor := s.pos, s.penDown, s.color;
    var penUpMovements, penDownMovements := s.moves, s.strokes;
    if StartsWith(cmd, 'S', 'P') {
      DrawSelectPen(s, ins, maxY, penColorMapping);
      if |cmd| < 3 {
        return Err(IndexError);
      }
      if !IsDigit(cmd[2]) {
        return Err(ValueError);
      }
      var penNumber := DigitValue(cmd[2]);
      currentColor := PenColor(penColorMapping, penNumber);
    } else if StartsWith(cmd, 'P', 'U') {
      var params := Numbers(cmd);
      if |params| >= 2 {
        DrawPenUp(s, ins, maxY, penColorMapping);
        var nextPos := Point(params[0], maxY - params[1]);
        penUpMovements := penUpMovements + [Move(currentPos, nextPos)];
        currentPos := nextPos;
      }
      penDown := false;
    } else if StartsWith(cmd, 'P', 'D') {
      penDown := true;
    } else if StartsWith(cmd, 'P', 'A') {
      var params := Numbers(cmd);
      if |params| >= 2 {
        DrawPlot(s, ins, maxY, penColorMapping);
        var nextPos := Point(params[0], maxY - params[1]);
        if penDown {
          penDownMovements := penDownMovements + [Stroke(currentPos, nextPos, currentColor)];
        }
        currentPos := nextPos;
      }
    }
    return Ok(Scene(currentPos, penDown, currentColor, penUpMovements, penDownMovements));
  }

  /** The pen selection of one path: `SP` with the pen of its stroke
      colour, when its style has one. */
  method SelectPenLines(style: string) returns (lines: seq<Line>)
    ensures lines == PenPart(style)
  {
    lines := [];
    var colorMatch := StrokeSearch(style);
    if colorMatch.Some? {
      var color := Strip(colorMatch.value);
      color := Upper(color);
      var penNumber := if color in ColorToPen then ColorToPen[color] else DefaultPen;
      lines := lines + [SelectPen(penNumber)];
    }
  }

  /** The drawing lines of one path, given the canvas corners in points:
      none for an empty path or the border, otherwise `PU`, `PD`, a `PA`
      per further point and `PU;`. */
  method DrawLines(points: seq<Point>, topLeft: Point, topRight: Point, bottomLeft: Point, bottomRight: Point)
    returns (lines: seq<Line>)
    requires topLeft == Point(0.0, 0.0) && topRight.y == 0.0 && bottomLeft.x == 0.0
    requires bottomRight == Point(topRight.x, bottomLeft.y)
    ensures lines == DrawPart(points, Canvas(topRight.x, bottomLeft.y))
  {
    lines := [];
    if points == [] {
      return;
    }
    if |points| == 5 &&
       ((points[0] == topLeft && points[1] == topRight && points[2] == bottomRight && points[3] == bottomLeft) ||
        (points[0] == bottomLeft && points[1] == bottomRight && points[2] == topRight && points[3] == topLeft)) {
      return;
    }
    lines := lines + [PenUpTo(Trunc(points[0].x), Trunc(points[0].y))];
    lines := lines + [PenDown];
    var rest := points[1..];
    for j := 0 to |rest|
      invariant lines == [PenUpTo(Trunc(points[0].x), Trunc(points[0].y)), PenDown] + PaLines(rest[..j])
    {
      assert rest[..j + 1][..j] == rest[..j];
      lines := lines + [PlotTo(Trunc(rest[j].x), Trunc(rest[j].y))];
    }
    assert rest[..|rest|] == rest;
    lines := lines + [PenUp];
  }

  /** A path whose `d` raises ends the conversion with that exception. */
  lemma EmitFails(results: seq<Result<seq<Line>>>, i: nat, e: Error)
    requires i < |results| && Concat(results, i).Ok? && results[i] == Err(e)
    ensures Concat(results, |results|) == Err(e)
  {
    ConcatErrStays(results, i + 1, |results|);
  }

  /** A path whose `d` parses adds its pen line and its drawing lines. */
  lemma EmitStep(results: seq<Result<seq<Line>>>, i: nat, before: seq<Line>, more: seq<Line>)
    requires i < |results| && Concat(results, i) == Ok(before) && results[i] == Ok(more)
    ensures Concat(results, i + 1) == Ok(before + more)
  {
  }
}
