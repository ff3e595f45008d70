/** What the two readers of tool_paths.py, `estimate_plotting_time` and
    `visualize_hpgl`, make of the `hpgl_code` that `convert_svg_to_hpgl`
    stores: the lines come back one by one, the coordinates without their
    sign, and the pen of an `SP` line maps back to the colour that chose it. */
module RoundTrip {
  import opened Python
  import opened NumberScan
  import opened SvgPath
  import opened Pens
  import opened HpglEmitter
  import opened HpglInterpreter

  /** The magnitude `str(int(x))` writes after its sign. */
  function Abs(i: int): (n: nat)
    ensures n == i || n == -i
  {
    if i < 0 then -i else i
  }

  // ---------------------------------------------------------------------
  // The text of the stored lines

  lemma NoLineBreakConcat(a: string, b: string)
    requires NoLineBreak(a) && NoLineBreak(b)
    ensures NoLineBreak(a + b)
  {
    forall k | 0 <= k < |a + b|
      ensures !IsLineBreak((a + b)[k])
    {
      if k >= |a| {
        assert (a + b)[k] == b[k - |a|];
      }
    }
  }

  lemma ShowIntOneLine(i: int)
    ensures NoLineBreak(ShowInt(i))
  {
    var ds := ShowNat(Abs(i));
    assert forall k :: 0 <= k < |ds| ==> IsDigit(ds[k]);
    if i < 0 {
      NoLineBreakConcat("-", ds);
    }
  }

  lemma PairOneLine(op: string, x: int, y: int)
    requires NoLineBreak(op)
    ensures NoLineBreak(op + ShowInt(x) + "," + ShowInt(y) + ";")
  {
    ShowIntOneLine(x);
    ShowIntOneLine(y);
    NoLineBreakConcat(op, ShowInt(x));
    NoLineBreakConcat(op + ShowInt(x), ",");
    NoLineBreakConcat(op + ShowInt(x) + ",", ShowInt(y));
    NoLineBreakConcat(op + ShowInt(x) + "," + ShowInt(y), ";");
  }

  /** Every line the emitter writes is a non-empty line without a line
      break. */
  lemma RenderOneLine(l: Line)
    ensures Render(l) != [] && NoLineBreak(Render(l))
  {
    match l
    case SelectPen(p) =>
      ShowIntOneLine(p);
      NoLineBreakConcat("SP", ShowInt(p));
      NoLineBreakConcat("SP" + ShowInt(p), ";");
    case PenUpTo(x, y) => PairOneLine("PU", x, y);
    case PenDown =>
    case PlotTo(x, y) => PairOneLine("PA", x, y);
    case PenUp =>
  }

  /** `hpgl_code.splitlines()` gives back exactly the lines that
      `"\n".join` put together. */
  lemma SplitRendered(lines: seq<Line>)
    ensures SplitLines(Join(RenderAll(lines))) == RenderAll(lines)
  {
    var r := RenderAll(lines);
    forall k | 0 <= k < |r|
      ensures r[k] != [] && NoLineBreak(r[k])
    {
      RenderOneLine(lines[k]);
    }
    SplitJoin(r);
  }

  // ---------------------------------------------------------------------
  // Reading one stored line

  lemma SkipOpcode(a: char, b: char, rest: string)
    requires !IsDigit(a) && !IsSign(a) && a != '.'
    requires !IsDigit(b) && !IsSign(b) && b != '.'
    ensures Tokens([a, b] + rest) == Tokens(rest)
  {
    assert [a, b] + rest == [a] + ([b] + rest);
    ScanSkip(a, [b] + rest);
    ScanSkip(b, rest);
  }

  lemma LastTokens(y: int)
    ensures Tokens(ShowInt(y) + ";") == [ShowNat(Abs(y))]
  {
    assert ShowInt(y) + ";" == ShowInt(y) + [';'] + [];
    ScanShowInt(y, ';', []);
    ScanSkip(';', []);
    assert Tokens([]) == [];
  }

  lemma CoordinateTokens(x: int, y: int)
    ensures Tokens(ShowInt(x) + "," + ShowInt(y) + ";") == [ShowNat(Abs(x)), ShowNat(Abs(y))]
  {
    var tail := ShowInt(y) + ";";
    assert ShowInt(x) + "," + ShowInt(y) + ";" == ShowInt(x) + [','] + tail;
    ScanShowInt(x, ',', tail);
    ScanSkip(',', tail);
    LastTokens(y);
  }

  /** A coordinate pair behind a two-letter opcode scans as the digits of
      the two magnitudes: the regex leaves the minus of an integer behind. */
  lemma PairTokens(a: char, b: char, x: int, y: int)
    requires !IsDigit(a) && !IsSign(a) && a != '.'
    requires !IsDigit(b) && !IsSign(b) && b != '.'
    ensures Tokens([a, b] + ShowInt(x) + "," + ShowInt(y) + ";") == [ShowNat(Abs(x)), ShowNat(Abs(y))]
  {
    var rest := ShowInt(x) + "," + ShowInt(y) + ";";
    assert [a, b] + ShowInt(x) + "," + ShowInt(y) + ";" == [a, b] + rest;
    SkipOpcode(a, b, rest);
    CoordinateTokens(x, y);
  }

  lemma ShowNatToken(n: nat)
    ensures IsNumberToken(ShowNat(n)) && TokenValue(ShowNat(n)) == n as real
  {
    ShowNatValue(n);
  }

  /** ... and reads as the two magnitudes. */
  lemma PairNumbers(a: char, b: char, x: int, y: int)
    requires !IsDigit(a) && !IsSign(a) && a != '.'
    requires !IsDigit(b) && !IsSign(b) && b != '.'
    ensures Numbers([a, b] + ShowInt(x) + "," + ShowInt(y) + ";") == [Abs(x) as real, Abs(y) as real]
  {
    var s := [a, b] + ShowInt(x) + "," + ShowInt(y) + ";";
    PairTokens(a, b, x, y);
    var toks := [ShowNat(Abs(x)), ShowNat(Abs(y))];
    ShowNatToken(Abs(x));
    ShowNatToken(Abs(y));
    ValuesAt(toks, 0);
    ValuesAt(toks, 1);
    assert Numbers(s) == Values(toks);
  }

  /** `PU<x>,<y>;` is read as a pen-up move to the two magnitudes. */
  lemma ReadPenUpTo(x: int, y: int)
    ensures Read(Render(PenUpTo(x, y))) == Instruction(PenUpOp, [Abs(x) as real, Abs(y) as real], Some(ShowInt(x)[0]))
  {
    PairNumbers('P', 'U', x, y);
  }

  /** `PA<x>,<y>;` is read as a plot to the two magnitudes. */
  lemma ReadPlotTo(x: int, y: int)
    ensures Read(Render(PlotTo(x, y))) == Instruction(PlotOp, [Abs(x) as real, Abs(y) as real], Some(ShowInt(x)[0]))
  {
    PairNumbers('P', 'A', x, y);
  }

  /** `PU;` is read as a pen-up without numbers. */
  lemma ReadPenUp()
    ensures Read(Render(PenUp)) == Instruction(PenUpOp, [], Some(';'))
  {
    assert Render(PenUp) == ['P', 'U'] + [';'] + [];
    SkipOpcode('P', 'U', [';'] + []);
    ScanSkip(';', []);
    assert Tokens([]) == [];
  }

  /** `PD` is read as a pen-down without numbers. */
  lemma ReadPenDown()
    ensures Read(Render(PenDown)) == Instruction(PenDownOp, [], None)
  {
    assert Render(PenDown) == ['P', 'D'] + [];
    SkipOpcode('P', 'D', []);
    assert Tokens([]) == [];
  }

  /** `SP<pen>;` is read as a pen selection whose third character is the
      first of `str(pen)`: the digit itself for a one-digit pen. */
  lemma ReadSelectPen(pen: int)
    ensures Read(Render(SelectPen(pen))) == Instruction(SelectPenOp, [Abs(pen) as real], Some(ShowInt(pen)[0]))
    ensures 0 <= pen < 10 ==> ShowInt(pen)[0] == DigitChar(pen)
  {
    var s := Render(SelectPen(pen));
    assert s == ['S', 'P'] + (ShowInt(pen) + [';'] + []);
    SkipOpcode('S', 'P', ShowInt(pen) + [';'] + []);
    ScanShowInt(pen, ';', []);
    ScanSkip(';', []);
    assert Tokens([]) == [];
    ShowNatToken(Abs(pen));
    NumbersOfOneToken(s, ShowNat(Abs(pen)));
  }

  /** The instruction the readers take from an emitted line, written out:
      the opcode, the magnitudes of its integers, and its third character. */
  function Heard(l: Line): Instruction
  {
    match l
    case SelectPen(p) => Instruction(SelectPenOp, [Abs(p) as real], Some(ShowInt(p)[0]))
    case PenUpTo(x, y) => Instruction(PenUpOp, [Abs(x) as real, Abs(y) as real], Some(ShowInt(x)[0]))
    case PenDown => Instruction(PenDownOp, [], None)
    case PlotTo(x, y) => Instruction(PlotOp, [Abs(x) as real, Abs(y) as real], Some(ShowInt(x)[0]))
    case PenUp => Instruction(PenUpOp, [], Some(';'))
  }

  /** Reading a rendered line gives exactly `Heard` of it. */
  lemma ReadRendered(l: Line)
    ensures Read(Render(l)) == Heard(l)
  {
    match l
    case SelectPen(p) => ReadSelectPen(p);
    case PenUpTo(x, y) => ReadPenUpTo(x, y);
    case PenDown => ReadPenDown();
    case PlotTo(x, y) => ReadPlotTo(x, y);
    case PenUp => ReadPenUp();
  }

  // ---------------------------------------------------------------------
  // The lines the emitter writes can all be read back

  /** A line whose pen, if it selects one, is one of the six of
      `pen_color_mapping`. */
  predicate TablePen(l: Line) { l.SelectPen? ==> 1 <= l.pen <= 6 }

  predicate AllTablePens(lines: seq<Line>) { forall k :: 0 <= k < |lines| ==> TablePen(lines[k]) }

  /** Neither reader raises on a line the emitter writes with a table pen:
      a `PU` or `PA` line carries two numbers, and an `SP` line a digit. */
  lemma ReadableLine(l: Line)
    requires TablePen(l)
    ensures !IsBadMove(Read(Render(l))) && !IsBadPenSelect(Read(Render(l)))
  {
    ReadRendered(l);
    if l.SelectPen? {
      ReadSelectPen(l.pen);
    }
  }

  /** The lines of one path select only table pens. */
  lemma PathPens(style: string, points: seq<Point>, c: Canvas)
    ensures AllTablePens(PathLines(style, points, c))
  {
    PenLine(style, points, c);
    if StylePen(style).Some? {
      ColorPenRange(StrokeSearch(style).value);
    }
  }

  lemma EmitPathPens(e: PathElement, c: Canvas)
    ensures EmitPath(e, c).Ok? ==> AllTablePens(EmitPath(e, c).value)
  {
    if PathPoints(e.d).Ok? {
      var points := PathPoints(e.d).value;
      EmitPathOf(e, c, points);
      PathPens(e.style, points, c);
    }
  }

  lemma {:induction false} ConcatPens(results: seq<Result<seq<Line>>>, n: nat)
    requires n <= |results|
    requires forall k :: 0 <= k < |results| && results[k].Ok? ==> AllTablePens(results[k].value)
    ensures Concat(results, n).Ok? ==> AllTablePens(Concat(results, n).value)
  {
    if n > 0 && Concat(results, n).Ok? {
      ConcatPens(results, n - 1);
      ConcatAppends(results, n - 1);
      var before := Concat(results, n - 1).value;
      var more := results[n - 1].value;
      forall k | 0 <= k < |before + more|
        ensures TablePen((before + more)[k])
      {
        if k >= |before| {
          assert (before + more)[k] == more[k - |before|];
        }
      }
    }
  }

  /** Every `SP` line of a conversion names a pen of `pen_color_mapping`. */
  lemma EmittedPens(paths: seq<PathElement>, c: Canvas)
    ensures Emit(paths, c).Ok? ==> AllTablePens(Emit(paths, c).value)
  {
    var results := PathResults(paths, c);
    forall k | 0 <= k < |results| && results[k].Ok?
      ensures AllTablePens(results[k].value)
    {
      EmitPathPens(paths[k], c);
    }
    ConcatPens(results, |paths|);
  }

  /** Read back from the stored text, no line of such lines makes either
      reader raise. */
  lemma ReadableText(lines: seq<Line>)
    requires AllTablePens(lines)
    ensures forall k :: 0 <= k < |SplitLines(Join(RenderAll(lines)))| ==>
      !IsBadMove(Read(SplitLines(Join(RenderAll(lines)))[k])) &&
      !IsBadPenSelect(Read(SplitLines(Join(RenderAll(lines)))[k]))
  {
    SplitRendered(lines);
    forall k | 0 <= k < |lines|
      ensures !IsBadMove(Read(RenderAll(lines)[k])) && !IsBadPenSelect(Read(RenderAll(lines)[k]))
    {
      ReadableLine(lines[k]);
    }
  }

  /** A text none of whose `SP` lines is malformed is visualized without an
      exception. */
  lemma VisualizeSucceeds(code: string, mapping: map<int, string>)
    requires forall k :: 0 <= k < |SplitLines(code)| ==> !IsBadPenSelect(Read(SplitLines(code)[k]))
    ensures Visualize(code, mapping).Ok?
  {
    var cmds := SplitLines(code);
    var prog := ReadAll(cmds);
    forall k | 0 <= k < |prog|
      ensures !IsBadPenSelect(prog[k])
    {
      ReadAllAt(cmds, k);
    }
    var ys := YCoords(prog, |prog|);
    if ys != [] {
      ScenesFail(prog, |prog|, Max(ys), mapping);
    }
  }

  /** Whatever `convert_svg_to_hpgl` stores, `estimate_plotting_time` and
      `visualize_hpgl` read without an exception. */
  lemma ConvertedReadable(widthAttr: string, heightAttr: string, paths: seq<PathElement>,
                          dist: Distance, mapping: map<int, string>)
    ensures Convert(widthAttr, heightAttr, paths).Ok? ==>
      Estimate(Convert(widthAttr, heightAttr, paths).value, dist).Ok? &&
      Visualize(Convert(widthAttr, heightAttr, paths).value, mapping).Ok?
  {
    if Convert(widthAttr, heightAttr, paths).Ok? {
      var c := CanvasOf(widthAttr, heightAttr).value;
      ConvertOnCanvas(widthAttr, heightAttr, paths, c);
      EmittedPens(paths, c);
      var lines := Emit(paths, c).value;
      var code := Join(RenderAll(lines));
      ReadableText(lines);
      EstimateOutcome(code, dist);
      VisualizeSucceeds(code, mapping);
    }
  }

  // ---------------------------------------------------------------------
  // What the readers make of each line

  /** The colour a stroke value stands for: its upper-cased hex when the
      table knows it, black ("#000000", pen 4) otherwise. */
  function TableColor(color: string): string
  {
    var key := Upper(Strip(color));
    if key in ColorToPen then key else "#000000"
  }

  /** `pen_color_mapping` gives back the colour that chose the pen. */
  lemma PenOfColorRoundTrip(color: string)
    ensures ColorPen(color) in PenColorMapping
    ensures PenColor(PenColorMapping, ColorPen(color)) == TableColor(color)
  {
    TablesInverse();
  }

  /** The visualizer draws in the colour of the stroke value that selected
      the pen: the `SP` line the emitter writes for it sets exactly that
      colour. */
  lemma SelectPenRoundTrip(s: Scene, color: string, maxY: real)
    ensures Draw(s, Read(Render(SelectPen(ColorPen(color)))), maxY, PenColorMapping) ==
      Ok(s.(color := TableColor(color)))
  {
    var pen := ColorPen(color);
    ColorPenRange(color);
    ReadSelectPen(pen);
    DrawSelectPen(s, Read(Render(SelectPen(pen))), maxY, PenColorMapping);
    PenOfColorRoundTrip(color);
  }

  /** The visualizer moves to the flipped magnitudes of a `PU<x>,<y>;`. */
  lemma PenUpToRoundTrip(s: Scene, x: int, y: int, maxY: real, mapping: map<int, string>)
    ensures Draw(s, Read(Render(PenUpTo(x, y))), maxY, mapping) ==
      Ok(Scene(Point(Abs(x) as real, maxY - Abs(y) as real), false, s.color,
               s.moves + [Move(s.pos, Point(Abs(x) as real, maxY - Abs(y) as real))], s.strokes))
  {
    ReadPenUpTo(x, y);
    DrawPenUp(s, Read(Render(PenUpTo(x, y))), maxY, mapping);
  }

  /** ... and plots to those of a `PA<x>,<y>;`, drawing a stroke when the
      pen is down. */
  lemma PlotToRoundTrip(s: Scene, x: int, y: int, maxY: real, mapping: map<int, string>)
    ensures Draw(s, Read(Render(PlotTo(x, y))), maxY, mapping) ==
      Ok(Scene(Point(Abs(x) as real, maxY - Abs(y) as real), s.penDown, s.color, s.moves,
               if s.penDown then s.strokes + [Stroke(s.pos, Point(Abs(x) as real, maxY - Abs(y) as real), s.color)]
               else s.strokes))
  {
    ReadPlotTo(x, y);
    DrawPlot(s, Read(Render(PlotTo(x, y))), maxY, mapping);
  }

  /** The estimator slews to the magnitudes of a `PU<x>,<y>;`. */
  lemma SlewRoundTrip(t: Tally, x: int, y: int, dist: Distance)
    ensures Tick(t, Read(Render(PenUpTo(x, y))), dist) ==
      Ok(Tally(Point(Abs(x) as real, Abs(y) as real),
               t.slewing + dist(t.pos.x, t.pos.y, Abs(x) as real, Abs(y) as real), t.drawing, false))
  {
    ReadPenUpTo(x, y);
    TickPenUp(t, Read(Render(PenUpTo(x, y))), dist);
  }

  /** ... and draws to those of a `PA<x>,<y>;` while the pen is down. */
  lemma DrawRoundTrip(t: Tally, x: int, y: int, dist: Distance)
    ensures Tick(t, Read(Render(PlotTo(x, y))), dist) ==
      Ok(Tally(Point(Abs(x) as real, Abs(y) as real), t.slewing,
               if t.penDown then t.drawing + dist(t.pos.x, t.pos.y, Abs(x) as real, Abs(y) as real) else t.drawing,
               t.penDown))
  {
    ReadPlotTo(x, y);
    TickPlot(t, Read(Render(PlotTo(x, y))), dist);
  }

  /** The pen lines change only the pen state of either reader. */
  lemma PenLinesRoundTrip(s: Scene, t: Tally, maxY: real, mapping: map<int, string>, dist: Distance)
    ensures Draw(s, Read(Render(PenDown)), maxY, mapping) == Ok(s.(penDown := true))
    ensures Draw(s, Read(Render(PenUp)), maxY, mapping) == Ok(s.(penDown := false))
    ensures Tick(t, Read(Render(PenDown)), dist) == Ok(t.(penDown := true))
    ensures Tick(t, Read(Render(PenUp)), dist) == Ok(t.(penDown := false))
  {
    ReadPenDown();
    ReadPenUp();
  }

  /** A negative coordinate is read back without its sign: the emitter
      writes `PU-2,3;` and both readers take it for (2, 3). */
  lemma NegativeCoordinateUnsigned()
    ensures Render(PenUpTo(-2, 3)) == "PU-2,3;"
    ensures Read(Render(PenUpTo(-2, 3))).numbers == [2.0, 3.0]
  {
    assert ShowNat(2) == "2" && ShowNat(3) == "3";
    ReadPenUpTo(-2, 3);
  }

  // ---------------------------------------------------------------------
  // The segments of one drawn path

  /** The instructions the readers take from some emitted lines. */
  function Played(lines: seq<Line>): (prog: seq<Instruction>)
    ensures |prog| == |lines|
  {
    if lines == [] then [] else Played(lines[..|lines| - 1]) + [Heard(lines[|lines| - 1])]
  }

  lemma {:induction false} PlayedAt(lines: seq<Line>, k: nat)
    requires k < |lines|
    ensures Played(lines)[k] == Heard(lines[k])
    decreases |lines|
  {
    if k < |lines| - 1 {
      PlayedAt(lines[..|lines| - 1], k);
    }
  }

  /** The stored text of some lines is read as their instructions. */
  lemma PlayedText(lines: seq<Line>)
    ensures ReadAll(SplitLines(Join(RenderAll(lines)))) == Played(lines)
  {
    SplitRendered(lines);
    var cmds := RenderAll(lines);
    forall k | 0 <= k < |lines|
      ensures ReadAll(cmds)[k] == Played(lines)[k]
    {
      ReadAllAt(cmds, k);
      ReadRendered(lines[k]);
      PlayedAt(lines, k);
    }
  }

  /** The second loop of `visualize_hpgl` run from scene `s` over `prog`. */
  function Replay(s: Scene, prog: seq<Instruction>, maxY: real, mapping: map<int, string>): Result<Scene>
  {
    if prog == [] then Ok(s)
    else
      match Replay(s, prog[..|prog| - 1], maxY, mapping)
      case Err(e) => Err(e)
      case Ok(t) => Draw(t, prog[|prog| - 1], maxY, mapping)
  }

  lemma {:induction false} ReplayAppend(s: Scene, a: seq<Instruction>, b: seq<Instruction>, maxY: real, mapping: map<int, string>)
    requires Replay(s, a, maxY, mapping).Ok?
    ensures Replay(s, a + b, maxY, mapping) == Replay(Replay(s, a, maxY, mapping).value, b, maxY, mapping)
    decreases |b|
  {
    if b == [] {
      assert a + b == a;
    } else {
      assert (a + b)[..|a + b| - 1] == a + b[..|b| - 1];
      assert (a + b)[|a + b| - 1] == b[|b| - 1];
      ReplayAppend(s, a, b[..|b| - 1], maxY, mapping);
    }
  }

  /** The loop from line `i` to line `n` continues from the scene after
      line `i`. */
  lemma {:induction false} ScenesReplay(prog: seq<Instruction>, i: nat, n: nat, maxY: real, mapping: map<int, string>)
    requires i <= n <= |prog| && Scenes(prog, i, maxY, mapping).Ok?
    ensures Scenes(prog, n, maxY, mapping) == Replay(Scenes(prog, i, maxY, mapping).value, prog[i..n], maxY, mapping)
    decreases n
  {
    if n > i {
      ScenesReplay(prog, i, n - 1, maxY, mapping);
      assert prog[i..n][..n - i - 1] == prog[i..n - 1];
      assert prog[i..n][n - i - 1] == prog[n - 1];
    }
  }

  /** Where the visualizer puts a point the emitter wrote: the magnitudes
      of its truncated coordinates, y flipped against `max_y`. */
  function Flip(p: Point, maxY: real): Point
  {
    Point(Abs(Trunc(p.x)) as real, maxY - Abs(Trunc(p.y)) as real)
  }

  /** Where the pen is after visiting `ps` from `start`. */
  function LastEnd(start: Point, ps: seq<Point>, maxY: real): Point
  {
    if ps == [] then start else Flip(ps[|ps| - 1], maxY)
  }

  /** The strokes of a polyline drawn from `start` through the flipped
      points of `ps`, one per point, each from the previous point. */
  function Chain(start: Point, ps: seq<Point>, maxY: real, color: string): (r: seq<Stroke>)
    ensures |r| == |ps|
  {
    if ps == [] then []
    else
      var init := ps[..|ps| - 1];
      Chain(start, init, maxY, color) + [Stroke(LastEnd(start, init, maxY), Flip(ps[|ps| - 1], maxY), color)]
  }

  /** Every stroke of a chain has its colour. */
  lemma {:induction false} ChainColor(start: Point, ps: seq<Point>, maxY: real, color: string, k: nat)
    requires k < |ps|
    ensures Chain(start, ps, maxY, color)[k].color == color
    ensures Chain(start, ps, maxY, color)[k].end == Flip(ps[k], maxY)
    decreases |ps|
  {
    var init := ps[..|ps| - 1];
    if k < |ps| - 1 {
      ChainColor(start, init, maxY, color, k);
      assert init[k] == ps[k];
    }
  }

  /** With the pen down, one `PA<x>,<y>;` draws a stroke to its flipped
      point. */
  lemma PlotStep(t: Scene, x: int, y: int, maxY: real, mapping: map<int, string>)
    requires t.penDown
    ensures Replay(t, [Heard(PlotTo(x, y))], maxY, mapping) ==
      Ok(t.(pos := Point(Abs(x) as real, maxY - Abs(y) as real),
            strokes := t.strokes + [Stroke(t.pos, Point(Abs(x) as real, maxY - Abs(y) as real), t.color)]))
  {
    assert [Heard(PlotTo(x, y))][..0] == [];
    DrawPlot(t, Heard(PlotTo(x, y)), maxY, mapping);
  }

  /** With the pen down, the `PA` lines of a path draw the chain of its
      points in the current colour and move nothing else. */
  lemma {:induction false} PlotsDraw(s: Scene, ps: seq<Point>, maxY: real, mapping: map<int, string>)
    requires s.penDown
    ensures Replay(s, Played(PaLines(ps)), maxY, mapping) ==
      Ok(s.(pos := LastEnd(s.pos, ps, maxY), strokes := s.strokes + Chain(s.pos, ps, maxY, s.color)))
    decreases |ps|
  {
    if ps == [] {
      assert Played(PaLines(ps)) == [];
      assert s.strokes + [] == s.strokes;
    } else {
      var init := ps[..|ps| - 1];
      var p := ps[|ps| - 1];
      var last := PlotTo(Trunc(p.x), Trunc(p.y));
      assert PaLines(ps) == PaLines(init) + [last];
      var a := Played(PaLines(init));
      assert Played(PaLines(ps)) == a + [Heard(last)];
      PlotsDraw(s, init, maxY, mapping);
      ReplayAppend(s, a, [Heard(last)], maxY, mapping);
      var t := Replay(s, a, maxY, mapping).value;
      PlotStep(t, Trunc(p.x), Trunc(p.y), maxY, mapping);
      assert s.strokes + Chain(s.pos, ps, maxY, s.color) == t.strokes + [Stroke(t.pos, Flip(p, maxY), t.color)];
    }
  }

  lemma {:induction false} PlayedAppend(a: seq<Line>, b: seq<Line>)
    ensures Played(a + b) == Played(a) + Played(b)
    decreases |b|
  {
    if b == [] {
      assert a + b == a;
    } else {
      assert (a + b)[..|a + b| - 1] == a + b[..|b| - 1];
      assert (a + b)[|a + b| - 1] == b[|b| - 1];
      PlayedAppend(a, b[..|b| - 1]);
    }
  }

  /** `PU<x0>,<y0>;` then `PD`: one pen-up movement to the first point, and
      the pen goes down. */
  lemma StartStep(s: Scene, x: int, y: int, maxY: real, mapping: map<int, string>)
    ensures Replay(s, [Heard(PenUpTo(x, y)), Heard(PenDown)], maxY, mapping) ==
      Ok(Scene(Point(Abs(x) as real, maxY - Abs(y) as real), true, s.color,
               s.moves + [Move(s.pos, Point(Abs(x) as real, maxY - Abs(y) as real))], s.strokes))
  {
    var t := Scene(Point(Abs(x) as real, maxY - Abs(y) as real), false, s.color,
                   s.moves + [Move(s.pos, Point(Abs(x) as real, maxY - Abs(y) as real))], s.strokes);
    ReplayOne(s, Heard(PenUpTo(x, y)), maxY, mapping);
    DrawPenUp(s, Heard(PenUpTo(x, y)), maxY, mapping);
    ReplayThen(s, [Heard(PenUpTo(x, y))], [Heard(PenDown)], t, maxY, mapping);
    ReplayOne(t, Heard(PenDown), maxY, mapping);
  }

  lemma ReplayOne(s: Scene, ins: Instruction, maxY: real, mapping: map<int, string>)
    ensures Replay(s, [ins], maxY, mapping) == Draw(s, ins, maxY, mapping)
  {
    assert [ins][..0] == [];
  }

  /** `PU;` lifts the pen and records nothing. */
  lemma EndStep(s: Scene, maxY: real, mapping: map<int, string>)
    ensures Replay(s, [Heard(PenUp)], maxY, mapping) == Ok(s.(penDown := false))
  {
    ReplayOne(s, Heard(PenUp), maxY, mapping);
  }

  /** The instructions of a drawn path: its first point, `PD`, one per
      further point, `PU;`. */
  lemma PlayedBody(points: seq<Point>)
    requires points != []
    ensures Played(PathBody(points)) ==
      [Heard(PenUpTo(Trunc(points[0].x), Trunc(points[0].y))), Heard(PenDown)] +
      Played(PaLines(points[1..])) + [Heard(PenUp)]
  {
    var p := points[0];
    var start := [PenUpTo(Trunc(p.x), Trunc(p.y)), PenDown];
    var body := PaLines(points[1..]);
    PlayedAppend(start, body);
    PlayedAppend(start + body, [PenUp]);
    assert PathBody(points) == start + body + [PenUp];
    assert Played(start) == [Heard(PenUpTo(Trunc(p.x), Trunc(p.y))), Heard(PenDown)];
    assert Played([PenUp]) == [Heard(PenUp)];
  }

  lemma ReplayThen(s: Scene, a: seq<Instruction>, b: seq<Instruction>, t: Scene, maxY: real, mapping: map<int, string>)
    requires Replay(s, a, maxY, mapping) == Ok(t)
    ensures Replay(s, a + b, maxY, mapping) == Replay(t, b, maxY, mapping)
  {
    ReplayAppend(s, a, b, maxY, mapping);
  }

  lemma BodyReplay(s: Scene, start: seq<Instruction>, body: seq<Instruction>, s1: Scene, s2: Scene,
                   maxY: real, mapping: map<int, string>)
    requires Replay(s, start, maxY, mapping) == Ok(s1) && Replay(s1, body, maxY, mapping) == Ok(s2)
    ensures Replay(s, start + body + [Heard(PenUp)], maxY, mapping) == Ok(s2.(penDown := false))
  {
    ReplayThen(s, start, body, s1, maxY, mapping);
    ReplayThen(s, start + body, [Heard(PenUp)], s2, maxY, mapping);
    EndStep(s2, maxY, mapping);
  }

  /** A drawn path of k points gives the visualizer exactly one pen-up
      movement, to its first point, and k - 1 strokes, the chain through
      its other points in the current colour; the pen ends up. */
  lemma PathSegments(s: Scene, points: seq<Point>, maxY: real, mapping: map<int, string>)
    requires points != []
    ensures Replay(s, Played(PathBody(points)), maxY, mapping) ==
      Ok(Scene(LastEnd(Flip(points[0], maxY), points[1..], maxY), false, s.color,
               s.moves + [Move(s.pos, Flip(points[0], maxY))],
               s.strokes + Chain(Flip(points[0], maxY), points[1..], maxY, s.color)))
  {
    var p := points[0];
    var start := [Heard(PenUpTo(Trunc(p.x), Trunc(p.y))), Heard(PenDown)];
    var body := Played(PaLines(points[1..]));
    PlayedBody(points);
    StartStep(s, Trunc(p.x), Trunc(p.y), maxY, mapping);
    var s1 := Scene(Flip(p, maxY), true, s.color, s.moves + [Move(s.pos, Flip(p, maxY))], s.strokes);
    PlotsDraw(s1, points[1..], maxY, mapping);
    var s2 := s1.(pos := LastEnd(s1.pos, points[1..], maxY), strokes := s1.strokes + Chain(s1.pos, points[1..], maxY, s1.color));
    BodyReplay(s, start, body, s1, s2, maxY, mapping);
  }

  /** Hence the counts: one pen-up movement and one stroke per point after
      the first, every stroke in the colour of the last `SP`. */
  lemma PathSegmentCounts(s: Scene, points: seq<Point>, maxY: real, mapping: map<int, string>)
    requires points != []
    ensures Replay(s, Played(PathBody(points)), maxY, mapping).Ok?
    ensures var t := Replay(s, Played(PathBody(points)), maxY, mapping).value;
      |t.moves| == |s.moves| + 1 && |t.strokes| == |s.strokes| + |points| - 1 &&
      forall k :: |s.strokes| <= k < |t.strokes| ==> t.strokes[k].color == s.color
  {
    PathSegments(s, points, maxY, mapping);
    var c := Chain(Flip(points[0], maxY), points[1..], maxY, s.color);
    forall k | 0 <= k < |c|
      ensures c[k].color == s.color
    {
      ChainColor(Flip(points[0], maxY), points[1..], maxY, s.color, k);
    }
  }

  /** In the visualizer's loop over a stored text, the lines of a drawn
      path at line `i` add exactly those segments. */
  lemma DrawnPathInPicture(prog: seq<Instruction>, i: nat, points: seq<Point>, maxY: real, mapping: map<int, string>)
    requires points != [] && i + |points| + 2 <= |prog|
    requires prog[i..i + |points| + 2] == Played(PathBody(points))
    requires Scenes(prog, i, maxY, mapping).Ok?
    ensures var s := Scenes(prog, i, maxY, mapping).value;
      Scenes(prog, i + |points| + 2, maxY, mapping) ==
      Ok(Scene(LastEnd(Flip(points[0], maxY), points[1..], maxY), false, s.color,
               s.moves + [Move(s.pos, Flip(points[0], maxY))],
               s.strokes + Chain(Flip(points[0], maxY), points[1..], maxY, s.color)))
  {
    ScenesReplay(prog, i, i + |points| + 2, maxY, mapping);
    PathSegments(Scenes(prog, i, maxY, mapping).value, points, maxY, mapping);
  }
}
