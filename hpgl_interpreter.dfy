/** The two readers of `hpgl_code` in tool_paths.py: `estimate_plotting_time`
    walks the lines and adds up the distance travelled with the pen up and
    with the pen down; `visualize_hpgl` turns the lines into the segments it
    plots, with the y axis flipped. Both read a line's numbers with the same
    regular expression as `parse_svg_path`. */
module HpglInterpreter {
  import opened Python
  import opened NumberScan
  import opened SvgPath

  /** `SLEWING_SPEED` and `DRAWING_SPEED`, in mm/s. */
  const SlewingSpeed: real := 400.0
  const DrawingSpeed: real := 100.0

  /** `cmd.startswith(...)` for the two-letter opcodes. */
  predicate StartsWith(cmd: string, a: char, b: char) { |cmd| >= 2 && cmd[0] == a && cmd[1] == b }

  /** The opcodes the two readers tell apart; the two-letter prefixes are
      distinct, so the order in which they are checked does not matter. */
  datatype Op = SelectPenOp | PenUpOp | PenDownOp | PlotOp | OtherOp

  function OpOf(cmd: string): Op
  {
    if StartsWith(cmd, 'S', 'P') then SelectPenOp
    else if StartsWith(cmd, 'P', 'U') then PenUpOp
    else if StartsWith(cmd, 'P', 'D') then PenDownOp
    else if StartsWith(cmd, 'P', 'A') then PlotOp
    else OtherOp
  }

  /** What the readers take from one line: its opcode, the numbers
      `re.findall` finds in it, and its third character, `cmd[2]`, when it
      has one. */
  datatype Instruction = Instruction(op: Op, numbers: seq<real>, third: Option<char>)

  function Read(cmd: string): Instruction
  {
    Instruction(OpOf(cmd), Numbers(cmd), if |cmd| >= 3 then Some(cmd[2]) else None)
  }

  function ReadAll(cmds: seq<string>): (r: seq<Instruction>)
    ensures |r| == |cmds|
  {
    if cmds == [] then [] else [Read(cmds[0])] + ReadAll(cmds[1..])
  }

  lemma {:induction false} ReadAllAt(cmds: seq<string>, k: nat)
    requires k < |cmds|
    ensures ReadAll(cmds)[k] == Read(cmds[k])
  {
    if k > 0 {
      ReadAllAt(cmds[1..], k - 1);
    }
  }

  /** `calculate_distance(x1, y1, x2, y2)`. Its `math.sqrt` is not part of
      this model, so the distance is a parameter. */
  type Distance = (real, real, real, real) -> real

  ghost predicate NonNegative(dist: Distance) { forall x1, y1, x2, y2 :: dist(x1, y1, x2, y2) >= 0.0 }

  // ---------------------------------------------------------------------
  // estimate_plotting_time

  /** The loop variables: `current_pos`, the two distances and `pen_down`. */
  datatype Tally = Tally(pos: Point, slewing: real, drawing: real, penDown: bool)

  const Start: Tally := Tally(Point(0.0, 0.0), 0.0, 0.0, false)

  /** A `PU` or `PA` line with exactly one number: `params[1]` raises. */
  predicate IsBadMove(ins: Instruction) { (ins.op == PenUpOp || ins.op == PlotOp) && |ins.numbers| == 1 }

  /** One pass of the loop. `PU` with numbers slews to them; every `PU`
      lifts the pen; `PD` lowers it; `PA` with numbers moves there and adds
      the distance to the drawing total only while the pen is down. */
  function Tick(t: Tally, ins: Instruction, dist: Distance): Result<Tally>
  {
    var ps := ins.numbers;
    match ins.op
    case PenUpOp =>
      if ps == [] then Ok(t.(penDown := false))
      else if |ps| == 1 then Err(IndexError)
      else
        var next := Point(ps[0], ps[1]);
        Ok(Tally(next, t.slewing + dist(t.pos.x, t.pos.y, next.x, next.y), t.drawing, false))
    case PenDownOp => Ok(t.(penDown := true))
    case PlotOp =>
      if ps == [] then Ok(t)
      else if |ps| == 1 then Err(IndexError)
      else
        var next := Point(ps[0], ps[1]);
        var drawn := if t.penDown then dist(t.pos.x, t.pos.y, next.x, next.y) else 0.0;
        Ok(t.(pos := next, drawing := t.drawing + drawn))
    case _ => Ok(t)
  }

  /** A `PU` line with two numbers slews there and lifts the pen. */
  lemma TickPenUp(t: Tally, ins: Instruction, dist: Distance)
    requires ins.op == PenUpOp && |ins.numbers| >= 2
    ensures Tick(t, ins, dist) == Ok(Tally(Point(ins.numbers[0], ins.numbers[1]),
      t.slewing + dist(t.pos.x, t.pos.y, ins.numbers[0], ins.numbers[1]), t.drawing, false))
  {
  }

  /** A `PA` line with two numbers moves there, drawing when the pen is
      down. */
  lemma TickPlot(t: Tally, ins: Instruction, dist: Distance)
    requires ins.op == PlotOp && |ins.numbers| >= 2
    ensures Tick(t, ins, dist) == Ok(Tally(Point(ins.numbers[0], ins.numbers[1]), t.slewing,
      if t.penDown then t.drawing + dist(t.pos.x, t.pos.y, ins.numbers[0], ins.numbers[1]) else t.drawing, t.penDown))
  {
  }

  /** The loop variables after the first `n` lines, or the exception. */
  function Tallies(prog: seq<Instruction>, n: nat, dist: Distance): Result<Tally>
    requires n <= |prog|
  {
    if n == 0 then Ok(Start)
    else
      match Tallies(prog, n - 1, dist)
      case Err(e) => Err(e)
      case Ok(t) => Tick(t, prog[n - 1], dist)
  }

  /** `slewing_time + drawing_time`, in seconds. */
  function TotalTime(t: Tally): real
  {
    t.slewing / SlewingSpeed + t.drawing / DrawingSpeed
  }

  /** `int(total_time // 60)` and `int(total_time % 60)`: Python's float
      `//` floors and its `%` takes the sign of the divisor. */
  function MinutesSeconds(total: real): (int, int)
  {
    var minutes := (total / 60.0).Floor;
    (minutes, Trunc(total - 60.0 * minutes as real))
  }

  /** The minutes and seconds the estimate reports for `hpgl_code`, or the
      exception. */
  function Estimate(code: string, dist: Distance): Result<(int, int)>
  {
    var prog := ReadAll(SplitLines(code));
    match Tallies(prog, |prog|, dist)
    case Err(e) => Err(e)
    case Ok(t) => Ok(MinutesSeconds(TotalTime(t)))
  }

  // ---------------------------------------------------------------------
  // What the estimate promises

  /** The seconds are always 0 to 59; for a non-negative time the report
      is the time rounded down to whole seconds. */
  lemma MinutesSecondsBounds(total: real)
    ensures 0 <= MinutesSeconds(total).1 < 60
    ensures total >= 0.0 ==> MinutesSeconds(total).0 >= 0
    ensures (60 * MinutesSeconds(total).0 + MinutesSeconds(total).1) as real <= total
    ensures total < (60 * MinutesSeconds(total).0 + MinutesSeconds(total).1 + 1) as real
  {
    var m := (total / 60.0).Floor;
    var rest := total - 60.0 * m as real;
    assert m as real <= total / 60.0 < m as real + 1.0;
    assert 0.0 <= rest < 60.0;
  }

  /** With distances that are never negative, both totals stay
      non-negative. */
  lemma {:induction false} TalliesNonNegative(prog: seq<Instruction>, n: nat, dist: Distance)
    requires n <= |prog| && NonNegative(dist)
    ensures Tallies(prog, n, dist).Ok? ==>
      Tallies(prog, n, dist).value.slewing >= 0.0 && Tallies(prog, n, dist).value.drawing >= 0.0
  {
    if n > 0 {
      TalliesNonNegative(prog, n - 1, dist);
    }
  }

  /** The estimate fails exactly when some `PU` or `PA` line carries a
      single number, and then with IndexError. */
  lemma {:induction false} TalliesFail(prog: seq<Instruction>, n: nat, dist: Distance)
    requires n <= |prog|
    ensures Tallies(prog, n, dist).Err? <==> exists k :: 0 <= k < n && IsBadMove(prog[k])
    ensures Tallies(prog, n, dist).Err? ==> Tallies(prog, n, dist).error == IndexError
  {
    if n > 0 {
      TalliesFail(prog, n - 1, dist);
      if Tallies(prog, n - 1, dist).Err? {
        var k :| 0 <= k < n - 1 && IsBadMove(prog[k]);
        assert 0 <= k < n && IsBadMove(prog[k]);
      }
    }
  }

  /** Without a `PD` line nothing counts as drawing. */
  lemma {:induction false} NoPenDownNoDrawing(prog: seq<Instruction>, n: nat, dist: Distance)
    requires n <= |prog|
    requires forall k :: 0 <= k < n ==> prog[k].op != PenDownOp
    ensures Tallies(prog, n, dist).Ok? ==>
      Tallies(prog, n, dist).value.drawing == 0.0 && !Tallies(prog, n, dist).value.penDown
  {
    if n > 0 {
      NoPenDownNoDrawing(prog, n - 1, dist);
    }
  }

  /** Once the loop has raised, later lines change nothing. */
  lemma {:induction false} TalliesErrStays(prog: seq<Instruction>, i: nat, n: nat, dist: Distance)
    requires i <= n <= |prog| && Tallies(prog, i, dist).Err?
    ensures Tallies(prog, n, dist) == Tallies(prog, i, dist)
    decreases n
  {
    if n > i {
      TalliesErrStays(prog, i, n - 1, dist);
    }
  }

  /** `PU` always lifts the pen and never draws, whether or not the line
      has numbers. */
  lemma PenUpLifts(t: Tally, ins: Instruction, dist: Distance)
    requires ins.op == PenUpOp
    ensures Tick(t, ins, dist).Ok? ==> !Tick(t, ins, dist).value.penDown
    ensures Tick(t, ins, dist).Ok? ==> Tick(t, ins, dist).value.drawing == t.drawing
  {
  }

  /** The estimate of a text fails exactly at a `PU` or `PA` line with a
      single number; otherwise its seconds are 0 to 59 and, with
      non-negative distances, its minutes are not negative. */
  lemma EstimateOutcome(code: string, dist: Distance)
    ensures Estimate(code, dist).Err? <==>
      exists k :: 0 <= k < |SplitLines(code)| && IsBadMove(Read(SplitLines(code)[k]))
    ensures Estimate(code, dist).Err? ==> Estimate(code, dist).error == IndexError
    ensures Estimate(code, dist).Ok? ==> 0 <= Estimate(code, dist).value.1 < 60
    ensures Estimate(code, dist).Ok? && NonNegative(dist) ==> Estimate(code, dist).value.0 >= 0
  {
    var cmds := SplitLines(code);
    var prog := ReadAll(cmds);
    forall k | 0 <= k < |cmds|
      ensures prog[k] == Read(cmds[k])
    {
      ReadAllAt(cmds, k);
    }
    TalliesFail(prog, |prog|, dist);
    if Tallies(prog, |prog|, dist).Ok? {
      var t := Tallies(prog, |prog|, dist).value;
      MinutesSecondsBounds(TotalTime(t));
      if NonNegative(dist) {
        TalliesNonNegative(prog, |prog|, dist);
      }
    }
  }

  // ---------------------------------------------------------------------
  // visualize_hpgl

  /** A `PU` or `PA` line with at least two numbers: one that moves. */
  predicate HasCoordinates(ins: Instruction) { (ins.op == PenUpOp || ins.op == PlotOp) && |ins.numbers| >= 2 }

  /** `y_coords` after the first `n` lines: the second number of every
      line that moves. */
  function YCoords(prog: seq<Instruction>, n: nat): seq<real>
    requires n <= |prog|
  {
    if n == 0 then []
    else YCoords(prog, n - 1) + (if HasCoordinates(prog[n - 1]) then [prog[n - 1].numbers[1]] else [])
  }

  /** `max(y_coords)`. */
  function Max(ys: seq<real>): (m: real)
    requires ys != []
    ensures m in ys
    ensures forall i :: 0 <= i < |ys| ==> ys[i] <= m
  {
    if |ys| == 1 then ys[0]
    else
      var m := Max(ys[1..]);
      assert forall i :: 1 <= i < |ys| ==> ys[i] == ys[1..][i - 1];
      if ys[0] > m then ys[0] else m
  }

  /** A pen-up movement, `(current_pos, next_pos)`. */
  datatype Move = Move(start: Point, end: Point)

  /** A pen-down movement with the colour of the selected pen. */
  datatype Stroke = Stroke(start: Point, end: Point, color: string)

  /** The loop variables of the second pass. */
  datatype Scene = Scene(pos: Point, penDown: bool, color: string, moves: seq<Move>, strokes: seq<Stroke>)

  const Black: string := "black"

  const Blank: Scene := Scene(Point(0.0, 0.0), false, Black, [], [])

  /** `pen_color_mapping.get(pen_number, 'black')`. */
  function PenColor(mapping: map<int, string>, pen: int): string
  {
    if pen in mapping then mapping[pen] else Black
  }

  /** An `SP` line whose third character is not a digit: `int(cmd[2])`
      raises. */
  predicate IsBadPenSelect(ins: Instruction)
  {
    ins.op == SelectPenOp && (ins.third.None? || !IsDigit(ins.third.value))
  }

  /** One pass of the second loop. `SP` reads the one digit after the
      opcode; `PU` and `PA` with two numbers go to `(x, max_y - y)`, `PU`
      recording a pen-up movement and `PA` a stroke while the pen is down. */
  function Draw(s: Scene, ins: Instruction, maxY: real, mapping: map<int, string>): Result<Scene>
  {
    var ps := ins.numbers;
    match ins.op
    case SelectPenOp =>
      if ins.third.None? then Err(IndexError)
      else if !IsDigit(ins.third.value) then Err(ValueError)
      else Ok(s.(color := PenColor(mapping, DigitValue(ins.third.value))))
    case PenUpOp =>
      if |ps| >= 2 then
        var next := Point(ps[0], maxY - ps[1]);
        Ok(s.(pos := next, penDown := false, moves := s.moves + [Move(s.pos, next)]))
      else Ok(s.(penDown := false))
    case PenDownOp => Ok(s.(penDown := true))
    case PlotOp =>
      if |ps| >= 2 then
        var next := Point(ps[0], maxY - ps[1]);
        var strokes := if s.penDown then s.strokes + [Stroke(s.pos, next, s.color)] else s.strokes;
        Ok(s.(pos := next, strokes := strokes))
      else Ok(s)
    case OtherOp => Ok(s)
  }

  /** An `SP` line sets the colour of the pen its third character names,
      or raises. */
  lemma DrawSelectPen(s: Scene, ins: Instruction, maxY: real, mapping: map<int, string>)
    requires ins.op == SelectPenOp
    ensures ins.third.None? ==> Draw(s, ins, maxY, mapping) == Err(IndexError)
    ensures ins.third.Some? && !IsDigit(ins.third.value) ==> Draw(s, ins, maxY, mapping) == Err(ValueError)
    ensures ins.third.Some? && IsDigit(ins.third.value) ==>
      Draw(s, ins, maxY, mapping) == Ok(s.(color := PenColor(mapping, DigitValue(ins.third.value))))
  {
  }

  /** A `PU` line with two numbers records a pen-up movement to the
      flipped point and lifts the pen. */
  lemma DrawPenUp(s: Scene, ins: Instruction, maxY: real, mapping: map<int, string>)
    requires ins.op == PenUpOp && |ins.numbers| >= 2
    ensures Draw(s, ins, maxY, mapping) ==
      Ok(Scene(Point(ins.numbers[0], maxY - ins.numbers[1]), false, s.color,
               s.moves + [Move(s.pos, Point(ins.numbers[0], maxY - ins.numbers[1]))], s.strokes))
  {
  }

  /** A `PA` line with two numbers moves to the flipped point, recording a
      stroke in the current colour when the pen is down. */
  lemma DrawPlot(s: Scene, ins: Instruction, maxY: real, mapping: map<int, string>)
    requires ins.op == PlotOp && |ins.numbers| >= 2
    ensures Draw(s, ins, maxY, mapping) ==
      Ok(Scene(Point(ins.numbers[0], maxY - ins.numbers[1]), s.penDown, s.color, s.moves,
               if s.penDown then s.strokes + [Stroke(s.pos, Point(ins.numbers[0], maxY - ins.numbers[1]), s.color)]
               else s.strokes))
  {
  }

  /** The second pass after the first `n` lines, or the exception. */
  function Scenes(prog: seq<Instruction>, n: nat, maxY: real, mapping: map<int, string>): Result<Scene>
    requires n <= |prog|
  {
    if n == 0 then Ok(Blank)
    else
      match Scenes(prog, n - 1, maxY, mapping)
      case Err(e) => Err(e)
      case Ok(s) => Draw(s, prog[n - 1], maxY, mapping)
  }

  /** Once the loop has raised, later lines change nothing. */
  lemma {:induction false} ScenesErrStays(prog: seq<Instruction>, i: nat, n: nat, maxY: real, mapping: map<int, string>)
    requires i <= n <= |prog| && Scenes(prog, i, maxY, mapping).Err?
    ensures Scenes(prog, n, maxY, mapping) == Scenes(prog, i, maxY, mapping)
    decreases n
  {
    if n > i {
      ScenesErrStays(prog, i, n - 1, maxY, mapping);
    }
  }

  /** The segments of a whole program, None when no line moves. */
  function Picture(prog: seq<Instruction>, mapping: map<int, string>): Result<Option<(seq<Move>, seq<Stroke>)>>
  {
    var ys := YCoords(prog, |prog|);
    if ys == [] then Ok(None)
    else
      match Scenes(prog, |prog|, Max(ys), mapping)
      case Err(e) => Err(e)
      case Ok(s) => Ok(Some((s.moves, s.strokes)))
  }

  /** The pen-up movements and the strokes `visualize_hpgl` plots, None
      when no line moves and it returns early, or the exception. */
  function Visualize(code: string, mapping: map<int, string>): Result<Option<(seq<Move>, seq<Stroke>)>>
  {
    Picture(ReadAll(SplitLines(code)), mapping)
  }

  // ---------------------------------------------------------------------
  // What the visualizer promises

  /** `y_coords` is empty exactly when no line moves. */
  lemma {:induction false} YCoordsEmpty(prog: seq<Instruction>, n: nat)
    requires n <= |prog|
    ensures YCoords(prog, n) == [] <==> forall k :: 0 <= k < n ==> !HasCoordinates(prog[k])
  {
    if n > 0 {
      YCoordsEmpty(prog, n - 1);
    }
  }

  /** Every line that moves contributes its y to `y_coords`. */
  lemma {:induction false} YCoordsHold(prog: seq<Instruction>, n: nat, k: nat)
    requires k < n <= |prog| && HasCoordinates(prog[k])
    ensures prog[k].numbers[1] in YCoords(prog, n)
  {
    if k < n - 1 {
      YCoordsHold(prog, n - 1, k);
    }
  }

  /** The visualizer draws nothing exactly when no `PU` or `PA` line has
      two numbers. */
  lemma NothingToDraw(prog: seq<Instruction>, mapping: map<int, string>)
    ensures Picture(prog, mapping) == Ok(None) <==> forall k :: 0 <= k < |prog| ==> !HasCoordinates(prog[k])
  {
    YCoordsEmpty(prog, |prog|);
    if YCoords(prog, |prog|) != [] {
      assert Picture(prog, mapping).Err? || Picture(prog, mapping).value.Some?;
    }
  }

  /** The second pass fails exactly at an `SP` line without a digit after
      the opcode: IndexError when the line ends there, ValueError
      otherwise. */
  lemma {:induction false} ScenesFail(prog: seq<Instruction>, n: nat, maxY: real, mapping: map<int, string>)
    requires n <= |prog|
    ensures Scenes(prog, n, maxY, mapping).Err? <==> exists k :: 0 <= k < n && IsBadPenSelect(prog[k])
    ensures Scenes(prog, n, maxY, mapping).Err? ==>
      exists k :: 0 <= k < n && IsBadPenSelect(prog[k]) &&
        Scenes(prog, n, maxY, mapping).error == (if prog[k].third.None? then IndexError else ValueError)
  {
    if n > 0 {
      ScenesFail(prog, n - 1, maxY, mapping);
      if Scenes(prog, n - 1, maxY, mapping).Err? {
        var k :| 0 <= k < n - 1 && IsBadPenSelect(prog[k]) &&
          Scenes(prog, n - 1, maxY, mapping).error == (if prog[k].third.None? then IndexError else ValueError);
        assert 0 <= k < n && IsBadPenSelect(prog[k]);
      } else if Scenes(prog, n, maxY, mapping).Err? {
        assert IsBadPenSelect(prog[n - 1]);
      }
    }
  }

  /** Every point of a scene has a y that is not negative. */
  predicate InView(s: Scene)
  {
    s.pos.y >= 0.0 &&
    (forall i :: 0 <= i < |s.moves| ==> s.moves[i].start.y >= 0.0 && s.moves[i].end.y >= 0.0) &&
    (forall i :: 0 <= i < |s.strokes| ==> s.strokes[i].start.y >= 0.0 && s.strokes[i].end.y >= 0.0)
  }

  /** The current colour and the colour of every stroke is black or one of
      the table's. */
  predicate Colored(s: Scene, mapping: map<int, string>)
  {
    (s.color == Black || s.color in mapping.Values) &&
    forall i :: 0 <= i < |s.strokes| ==> s.strokes[i].color == Black || s.strokes[i].color in mapping.Values
  }

  lemma {:induction false} ScenesInView(prog: seq<Instruction>, n: nat, maxY: real, mapping: map<int, string>)
    requires n <= |prog|
    requires forall k :: 0 <= k < n && HasCoordinates(prog[k]) ==> prog[k].numbers[1] <= maxY
    ensures Scenes(prog, n, maxY, mapping).Ok? ==> InView(Scenes(prog, n, maxY, mapping).value)
  {
    if n > 0 {
      ScenesInView(prog, n - 1, maxY, mapping);
    }
  }

  lemma {:induction false} ScenesColored(prog: seq<Instruction>, n: nat, maxY: real, mapping: map<int, string>)
    requires n <= |prog|
    ensures Scenes(prog, n, maxY, mapping).Ok? ==> Colored(Scenes(prog, n, maxY, mapping).value, mapping)
  {
    if n > 0 {
      ScenesColored(prog, n - 1, maxY, mapping);
    }
  }

  /** Every plotted y is `max_y - y` for a y read from the code, so the
      flipped picture never goes below zero; every stroke has the colour of
      a pen in the table or black. */
  lemma PictureInView(prog: seq<Instruction>, mapping: map<int, string>)
    ensures Picture(prog, mapping).Ok? && Picture(prog, mapping).value.Some? ==>
      var (moves, strokes) := Picture(prog, mapping).value.value;
      (forall i :: 0 <= i < |moves| ==> moves[i].start.y >= 0.0 && moves[i].end.y >= 0.0) &&
      (forall i :: 0 <= i < |strokes| ==> strokes[i].start.y >= 0.0 && strokes[i].end.y >= 0.0) &&
      (forall i :: 0 <= i < |strokes| ==> strokes[i].color == Black || strokes[i].color in mapping.Values)
  {
    var ys := YCoords(prog, |prog|);
    if ys != [] {
      forall k | 0 <= k < |prog| && HasCoordinates(prog[k])
        ensures prog[k].numbers[1] <= Max(ys)
      {
        YCoordsHold(prog, |prog|, k);
      }
      ScenesInView(prog, |prog|, Max(ys), mapping);
      ScenesColored(prog, |prog|, Max(ys), mapping);
    }
  }

  /** Each segment is recorded by one line that moves, so there are never
      more segments than entries of `y_coords`. */
  lemma {:induction false} SegmentsFromMoves(prog: seq<Instruction>, n: nat, maxY: real, mapping: map<int, string>)
    requires n <= |prog|
    ensures Scenes(prog, n, maxY, mapping).Ok? ==>
      |Scenes(prog, n, maxY, mapping).value.moves| + |Scenes(prog, n, maxY, mapping).value.strokes| <= |YCoords(prog, n)|
  {
    if n > 0 {
      SegmentsFromMoves(prog, n - 1, maxY, mapping);
    }
  }

  /** How many of the first `n` lines are a `PU` with two numbers: each
      records one pen-up movement. */
  function PenUpMoves(prog: seq<Instruction>, n: nat): nat
    requires n <= |prog|
  {
    if n == 0 then 0
    else PenUpMoves(prog, n - 1) + (if prog[n - 1].op == PenUpOp && |prog[n - 1].numbers| >= 2 then 1 else 0)
  }

  /** How many of the first `n` lines are a `PA` with two numbers reached
      while the pen is down: each records one stroke. */
  function PenDownPlots(prog: seq<Instruction>, n: nat, maxY: real, mapping: map<int, string>): nat
    requires n <= |prog|
  {
    if n == 0 then 0
    else
      PenDownPlots(prog, n - 1, maxY, mapping) +
      (if prog[n - 1].op == PlotOp && |prog[n - 1].numbers| >= 2 &&
          Scenes(prog, n - 1, maxY, mapping).Ok? && Scenes(prog, n - 1, maxY, mapping).value.penDown
       then 1 else 0)
  }

  /** The second loop records exactly one pen-up movement per `PU` line
      with coordinates, and exactly one stroke per `PA` line with
      coordinates while the pen is down. */
  lemma {:induction false} SegmentCounts(prog: seq<Instruction>, n: nat, maxY: real, mapping: map<int, string>)
    requires n <= |prog|
    ensures Scenes(prog, n, maxY, mapping).Ok? ==>
      |Scenes(prog, n, maxY, mapping).value.moves| == PenUpMoves(prog, n) &&
      |Scenes(prog, n, maxY, mapping).value.strokes| == PenDownPlots(prog, n, maxY, mapping)
  {
    if n > 0 && Scenes(prog, n, maxY, mapping).Ok? {
      SegmentCounts(prog, n - 1, maxY, mapping);
      var s := Scenes(prog, n - 1, maxY, mapping).value;
      var ins := prog[n - 1];
      if ins.op == PenUpOp && |ins.numbers| >= 2 {
        DrawPenUp(s, ins, maxY, mapping);
      } else if ins.op == PlotOp && |ins.numbers| >= 2 {
        DrawPlot(s, ins, maxY, mapping);
      }
    }
  }
}
