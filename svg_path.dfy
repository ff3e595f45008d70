/** `parse_svg_path` of tool_paths.py: the `d` attribute of an SVG path is
    split into commands with `re.findall(r'[MLZmlz][^MLZmlz]*', d)`; M and L
    append the point made of their first two numbers, Z appends a copy of
    the first point. Lower-case (relative) commands are upper-cased and so
    read as absolute, and `current_pos` is never added to a point. */
module SvgPath {
  import opened Python
  import opened NumberScan

  datatype Point = Point(x: real, y: real)

  predicate IsCommandLetter(c: char) {
    c == 'M' || c == 'L' || c == 'Z' || c == 'm' || c == 'l' || c == 'z'
  }

  // ---------------------------------------------------------------------
  // Splitting `d` into commands

  /** How many characters at the start of `s` are not command letters:
      the `[^MLZmlz]*` part of a command. */
  function BodyLength(s: string): (n: nat)
    ensures n <= |s|
  {
    if s == [] || IsCommandLetter(s[0]) then 0 else 1 + BodyLength(s[1..])
  }

  /** `re.findall(r'[MLZmlz][^MLZmlz]*', d)`: a command letter and every
      character up to the next command letter; text before the first
      letter is dropped. */
  function Commands(d: string): seq<string>
    decreases |d|
  {
    if d == [] then []
    else if IsCommandLetter(d[0]) then
      var n := 1 + BodyLength(d[1..]);
      [d[..n]] + Commands(d[n..])
    else Commands(d[1..])
  }

  /** Every command starts with its letter. */
  predicate WellFormed(cmds: seq<string>) {
    forall k :: 0 <= k < |cmds| ==> cmds[k] != [] && IsCommandLetter(cmds[k][0])
  }

  lemma {:induction false} CommandsWellFormed(d: string)
    ensures WellFormed(Commands(d))
    decreases |d|
  {
    if d != [] {
      if IsCommandLetter(d[0]) {
        var n := 1 + BodyLength(d[1..]);
        CommandsWellFormed(d[n..]);
      } else {
        CommandsWellFormed(d[1..]);
      }
    }
  }

  /** Number of command letters in `s`. */
  function LetterCount(s: string): nat
  {
    if s == [] then 0 else (if IsCommandLetter(s[0]) then 1 else 0) + LetterCount(s[1..])
  }

  lemma {:induction false} BodyHasNoLetter(s: string)
    ensures LetterCount(s) == LetterCount(s[BodyLength(s)..])
  {
    if s != [] && !IsCommandLetter(s[0]) {
      BodyHasNoLetter(s[1..]);
      assert s[1..][BodyLength(s[1..])..] == s[BodyLength(s)..];
    }
  }

  /** There is one command per command letter in `d`. */
  lemma {:induction false} CommandCount(d: string)
    ensures |Commands(d)| == LetterCount(d)
    decreases |d|
  {
    if d != [] {
      if IsCommandLetter(d[0]) {
        var n := 1 + BodyLength(d[1..]);
        BodyHasNoLetter(d[1..]);
        assert d[1..][BodyLength(d[1..])..] == d[n..];
        CommandCount(d[n..]);
      } else {
        CommandCount(d[1..]);
      }
    }
  }

  // ---------------------------------------------------------------------
  // The meaning of one command

  /** A command as the loop body reads it: `cmd[0].upper()` and
      `parse_numbers(cmd[1:])`. */
  datatype Command = Command(kind: char, params: seq<real>)

  function Parse(cmd: string): (c: Command)
    requires cmd != []
    ensures c.kind == UpperChar(cmd[0])
  {
    Command(UpperChar(cmd[0]), Numbers(cmd[1..]))
  }

  function ParseAll(cmds: seq<string>): (r: seq<Command>)
    requires forall k :: 0 <= k < |cmds| ==> cmds[k] != []
    ensures |r| == |cmds|
    ensures forall k :: 0 <= k < |cmds| ==> r[k] == Parse(cmds[k])
  {
    if cmds == [] then [] else [Parse(cmds[0])] + ParseAll(cmds[1..])
  }

  predicate IsDraw(c: Command) { c.kind == 'M' || c.kind == 'L' }

  predicate IsClose(c: Command) { c.kind == 'Z' }

  /** Every parsed command is an M, an L or a Z. */
  predicate Kinds(cmds: seq<Command>) {
    forall k :: 0 <= k < |cmds| ==> IsDraw(cmds[k]) || IsClose(cmds[k])
  }

  /** The commands of any `d` are M, L or Z once upper-cased. */
  lemma ParsedKinds(d: string)
    ensures WellFormed(Commands(d))
    ensures Kinds(ParseAll(Commands(d)))
  {
    CommandsWellFormed(d);
    var cmds := Commands(d);
    var parsed := ParseAll(cmds);
    forall k | 0 <= k < |parsed|
      ensures IsDraw(parsed[k]) || IsClose(parsed[k])
    {
      assert parsed[k].kind == UpperChar(cmds[k][0]);
    }
  }

  /** One pass of the loop body: M and L append the point of their first
      two numbers (an IndexError when there are fewer), Z appends the first
      point (an IndexError when there is none yet). */
  function Step(points: seq<Point>, c: Command): Result<seq<Point>>
  {
    if IsDraw(c) then
      if |c.params| < 2 then Err(IndexError)
      else Ok(points + [Point(c.params[0], c.params[1])])
    else if IsClose(c) then
      if points == [] then Err(IndexError) else Ok(points + [points[0]])
    else Ok(points)
  }

  /** The loop from command `i` on, from the points collected so far; the
      first exception ends it. */
  function Run(cmds: seq<Command>, i: nat, points: seq<Point>): Result<seq<Point>>
    requires i <= |cmds|
    decreases |cmds| - i
  {
    if i == |cmds| then Ok(points)
    else
      match Step(points, cmds[i])
      case Err(e) => Err(e)
      case Ok(next) => Run(cmds, i + 1, next)
  }

  /** What `parse_svg_path(d)` returns or raises. */
  function PathPoints(d: string): Result<seq<Point>>
  {
    CommandsWellFormed(d);
    Run(ParseAll(Commands(d)), 0, [])
  }

  /** `parse_svg_path`, written as the loop of the source. */
  method ParseSvgPath(d: string) returns (r: Result<seq<Point>>)
    ensures r == PathPoints(d)
  {
    var commands := Commands(d);
    CommandsWellFormed(d);
    ghost var parsed := ParseAll(commands);
    var points: seq<Point> := [];
    var currentPos := Point(0.0, 0.0);
    var i := 0;
    while i < |commands|
      invariant 0 <= i <= |commands|
      invariant Run(parsed, i, points) == PathPoints(d)
    {
      var command := commands[i];
      var cmdType := UpperChar(command[0]);
      var params := Numbers(command[1..]);
      assert parsed[i] == Command(cmdType, params);
      if cmdType == 'M' || cmdType == 'L' {
        if |params| < 2 {
          return Err(IndexError);
        }
        currentPos := Point(params[0], params[1]);
        points := points + [currentPos];
      } else if cmdType == 'Z' {
        if points == [] {
          return Err(IndexError);
        }
        points := points + [points[0]];
      }
      i := i + 1;
    }
    return Ok(points);
  }

  // ---------------------------------------------------------------------
  // What the parser promises

  /** A draw command can be read: it has at least two numbers. */
  predicate Readable(c: Command) { !IsDraw(c) || |c.params| >= 2 }

  /** The loop succeeds exactly when every M and L has two numbers and the
      first command, when the loop starts with no points, is not a Z. */
  predicate RunSucceeds(cmds: seq<Command>, i: nat, points: seq<Point>)
    requires i <= |cmds|
  {
    (forall k :: i <= k < |cmds| ==> Readable(cmds[k])) &&
    (points == [] && i < |cmds| ==> !IsClose(cmds[i]))
  }

  /** The only exception the loop raises is IndexError, and it raises it
      exactly when a draw command lacks a number or the loop starts with a
      Z and no points. */
  lemma {:induction false} RunOutcome(cmds: seq<Command>, i: nat, points: seq<Point>)
    requires Kinds(cmds) && i <= |cmds|
    ensures Run(cmds, i, points).Ok? <==> RunSucceeds(cmds, i, points)
    ensures Run(cmds, i, points).Err? ==> Run(cmds, i, points).error == IndexError
    decreases |cmds| - i
  {
    if i < |cmds| {
      var s := Step(points, cmds[i]);
      if s.Ok? {
        assert s.value != [];
        RunOutcome(cmds, i + 1, s.value);
      }
    }
  }

  /** Each command adds exactly one point, after the points already there. */
  lemma {:induction false} RunLength(cmds: seq<Command>, i: nat, points: seq<Point>)
    requires Kinds(cmds) && i <= |cmds| && Run(cmds, i, points).Ok?
    ensures |Run(cmds, i, points).value| == |points| + |cmds| - i
    ensures Run(cmds, i, points).value[..|points|] == points
    decreases |cmds| - i
  {
    if i < |cmds| {
      var next := Step(points, cmds[i]).value;
      RunLength(cmds, i + 1, next);
      assert next[..|points|] == points;
    }
  }

  /** The point a command adds: the first two numbers of an M or L, the
      point `first` for a Z. */
  function PointOf(c: Command, first: Point): Point
    requires Readable(c)
  {
    if IsDraw(c) then Point(c.params[0], c.params[1]) else first
  }

  /** The point one command adds is `PointOf` that command, with the
      first point of the list for a Z. */
  lemma StepPoint(points: seq<Point>, c: Command)
    requires (IsDraw(c) || IsClose(c)) && Step(points, c).Ok?
    ensures Readable(c)
    ensures |Step(points, c).value| == |points| + 1
    ensures Step(points, c).value[..|points|] == points
    ensures Step(points, c).value[|points|] == PointOf(c, Step(points, c).value[0])
  {
  }

  /** Point `|points| + k - i` of the result is the point of command `k`;
      a Z repeats the first point of the whole list. */
  lemma {:induction false} RunPoints(cmds: seq<Command>, i: nat, points: seq<Point>, k: nat)
    requires Kinds(cmds) && i <= k < |cmds| && Run(cmds, i, points).Ok?
    requires RunSucceeds(cmds, i, points)
    ensures |Run(cmds, i, points).value| == |points| + |cmds| - i
    ensures Run(cmds, i, points).value[|points| + k - i] == PointOf(cmds[k], Run(cmds, i, points).value[0])
    decreases k - i
  {
    var next := Step(points, cmds[i]).value;
    var result := Run(cmds, i, points).value;
    StepPoint(points, cmds[i]);
    assert result == Run(cmds, i + 1, next).value;
    RunLength(cmds, i + 1, next);
    assert result[0] == next[0];
    if k == i {
      assert result[|points|] == next[|points|];
    } else {
      RunOutcome(cmds, i + 1, next);
      RunPoints(cmds, i + 1, next, k);
    }
  }

  /** The whole loop from no points: one point per command, point `k` from
      command `k`. */
  lemma RunFromStart(cmds: seq<Command>, k: nat)
    requires Kinds(cmds) && k < |cmds| && Run(cmds, 0, []).Ok?
    ensures Readable(cmds[k])
    ensures |Run(cmds, 0, []).value| == |cmds|
    ensures Run(cmds, 0, []).value[k] == PointOf(cmds[k], Run(cmds, 0, []).value[0])
  {
    RunOutcome(cmds, 0, []);
    RunPoints(cmds, 0, [], k);
  }

  /** `parse_svg_path` fails, always with IndexError, exactly when an M or L
      has fewer than two numbers or the first command is a Z. */
  lemma PathPointsOutcome(d: string)
    ensures WellFormed(Commands(d))
    ensures PathPoints(d).Ok? <==> RunSucceeds(ParseAll(Commands(d)), 0, [])
    ensures PathPoints(d).Err? ==> PathPoints(d).error == IndexError
  {
    ParsedKinds(d);
    RunOutcome(ParseAll(Commands(d)), 0, []);
  }

  /** The parsed points, command by command: their number is the number of
      command letters, and point `k` comes from command `k`. */
  lemma PathPointsOfCommands(d: string, k: nat)
    requires PathPoints(d).Ok? && k < |Commands(d)|
    ensures WellFormed(Commands(d))
    ensures |PathPoints(d).value| == |Commands(d)| == LetterCount(d)
    ensures Readable(Parse(Commands(d)[k]))
    ensures PathPoints(d).value[k] == PointOf(Parse(Commands(d)[k]), PathPoints(d).value[0])
  {
    ParsedKinds(d);
    CommandCount(d);
    RunFromStart(ParseAll(Commands(d)), k);
  }

  /** An empty `d` gives no points. */
  lemma EmptyPath()
    ensures PathPoints([]) == Ok([])
  {
  }

  /** A command reads the same whatever the case of its letter: "m 10 20"
      and "M 10 20" append the same point, with no offset from the current
      position. */
  lemma ParseIgnoresCase(c: char, body: string)
    requires IsCommandLetter(c)
    ensures Parse([c] + body) == Parse([UpperChar(c)] + body)
    ensures IsDraw(Parse([c] + body)) <==> (c == 'M' || c == 'm' || c == 'L' || c == 'l')
  {
    assert ([c] + body)[1..] == body;
    assert ([UpperChar(c)] + body)[1..] == body;
  }
}
