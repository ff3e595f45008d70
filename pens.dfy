/** Pen assignment in tool_paths.py: the stroke colour of a path is looked
    up in `color_to_pen`, and the visualizer maps a pen back to a colour
    with `pen_color_mapping`. */
module Pens {
  import opened Python

  /** `color_to_pen`. */
  const ColorToPen: map<string, int> := map[
    "#FF0000" := 1, "#0000FF" := 2, "#00FF00" := 3,
    "#000000" := 4, "#FFFF00" := 5, "#FF00FF" := 6]

  /** `pen_color_mapping`. */
  const PenColorMapping: map<int, string> := map[
    1 := "#FF0000", 2 := "#0000FF", 3 := "#00FF00",
    4 := "#000000", 5 := "#FFFF00", 6 := "#FF00FF"]

  /** The pen of a colour missing from the table: black. */
  const DefaultPen: int := 4

  // ---------------------------------------------------------------------
  // re.search(r'stroke:([^;]+);', style)

  const StrokeKey: string := "stroke:"

  predicate NoSemicolon(s: string) { forall i :: 0 <= i < |s| ==> s[i] != ';' }

  /** Length of the run of characters other than ';' at the start of `s`:
      what `[^;]+` takes, greedily. */
  function RunToSemicolon(s: string): (n: nat)
    ensures n <= |s|
  {
    if s == [] || s[0] == ';' then 0 else 1 + RunToSemicolon(s[1..])
  }

  /** The pattern matched at the start of `t`: "stroke:", at least one
      character other than ';', then ';'. The captured group, or None. */
  function MatchAt(t: string): Option<string>
  {
    if |t| >= |StrokeKey| && t[..|StrokeKey|] == StrokeKey then
      var body := t[|StrokeKey|..];
      var n := RunToSemicolon(body);
      if 0 < n < |body| then Some(body[..n]) else None
    else None
  }

  /** `re.search`: the match at the leftmost position where there is one. */
  function StrokeSearch(s: string): Option<string>
  {
    if MatchAt(s).Some? then MatchAt(s)
    else if s == [] then None
    else StrokeSearch(s[1..])
  }

  /** `color_to_pen.get(color.strip().upper(), 4)`. */
  function ColorPen(color: string): int
  {
    var key := Upper(Strip(color));
    if key in ColorToPen then ColorToPen[key] else DefaultPen
  }

  /** The pen a path's style selects, or None when its style has no stroke
      token and no `SP` line is written for it. */
  function StylePen(style: string): Option<int>
  {
    match StrokeSearch(style)
    case None => None
    case Some(color) => Some(ColorPen(color))
  }

  // ---------------------------------------------------------------------
  // What the tables promise

  /** `pen_color_mapping` is the exact inverse of `color_to_pen`: pens 1 to
      6 and the six colours, each way round. */
  lemma TablesInverse()
    ensures PenColorMapping.Keys == {1, 2, 3, 4, 5, 6}
    ensures forall p :: p in PenColorMapping ==>
      PenColorMapping[p] in ColorToPen && ColorToPen[PenColorMapping[p]] == p
    ensures forall c :: c in ColorToPen ==>
      ColorToPen[c] in PenColorMapping && PenColorMapping[ColorToPen[c]] == c
  {
    assert "#FF0000" != "#0000FF" && "#FF0000" != "#00FF00" && "#FF0000" != "#000000";
    assert "#FF0000" != "#FFFF00" && "#FF0000" != "#FF00FF" && "#0000FF" != "#00FF00";
    assert "#0000FF" != "#000000" && "#0000FF" != "#FFFF00" && "#0000FF" != "#FF00FF";
    assert "#00FF00" != "#000000" && "#00FF00" != "#FFFF00" && "#00FF00" != "#FF00FF";
    assert "#000000" != "#FFFF00" && "#000000" != "#FF00FF" && "#FFFF00" != "#FF00FF";
  }

  /** Every colour gets one of the six pens, and the pen always has a colour
      in `pen_color_mapping`. */
  lemma ColorPenRange(color: string)
    ensures 1 <= ColorPen(color) <= 6
    ensures ColorPen(color) in PenColorMapping
  {
  }

  /** Pen 4 is chosen exactly for black and for every colour not in the
      table. */
  lemma ColorPenDefault(color: string)
    ensures ColorPen(color) == DefaultPen <==>
      Upper(Strip(color)) !in ColorToPen || Upper(Strip(color)) == "#000000"
  {
    TablesInverse();
  }

  /** Lower-case hex is read as upper-case: "#ff0000" is the red pen. */
  lemma LowerCaseColor()
    ensures ColorPen("#ff0000") == 1
  {
    StripUnspaced("#ff0000");
    UpperRed();
  }

  lemma UpperRed()
    ensures Upper("#ff0000") == "#FF0000"
  {
    var u := Upper("#ff0000");
    assert u[0] == '#' && u[1] == 'F' && u[2] == 'F';
  }

  // ---------------------------------------------------------------------
  // What the search promises

  lemma {:induction false} RunToSemicolonOf(c: string, rest: string)
    requires NoSemicolon(c)
    ensures RunToSemicolon(c + ";" + rest) == |c|
  {
    if c != [] {
      assert (c + ";" + rest)[1..] == c[1..] + ";" + rest;
      RunToSemicolonOf(c[1..], rest);
    }
  }

  lemma {:induction false} RunToSemicolonIsRun(s: string)
    ensures NoSemicolon(s[..RunToSemicolon(s)])
    ensures RunToSemicolon(s) == |s| || s[RunToSemicolon(s)] == ';'
  {
    if s != [] && s[0] != ';' {
      RunToSemicolonIsRun(s[1..]);
      assert s[..RunToSemicolon(s)] == [s[0]] + s[1..][..RunToSemicolon(s[1..])];
    }
  }

  /** The pattern matches at the start of `t` exactly when `t` is
      "stroke:", a non-empty colour without ';', then ';'. */
  lemma MatchAtOf(c: string, rest: string)
    requires c != [] && NoSemicolon(c)
    ensures MatchAt(StrokeKey + c + ";" + rest) == Some(c)
  {
    var t := StrokeKey + c + ";" + rest;
    assert t[..|StrokeKey|] == StrokeKey;
    assert t[|StrokeKey|..] == c + ";" + rest;
    RunToSemicolonOf(c, rest);
    assert (c + ";" + rest)[..|c|] == c;
  }

  lemma MatchAtShape(t: string)
    requires MatchAt(t).Some?
    ensures MatchAt(t).value != [] && NoSemicolon(MatchAt(t).value)
    ensures |StrokeKey| + |MatchAt(t).value| < |t|
    ensures t[..|StrokeKey|] == StrokeKey
    ensures t[|StrokeKey|..|StrokeKey| + |MatchAt(t).value|] == MatchAt(t).value
    ensures t[|StrokeKey| + |MatchAt(t).value|] == ';'
  {
    var body := t[|StrokeKey|..];
    RunToSemicolonIsRun(body);
  }

  /** The search returns the match at the leftmost position that has one. */
  lemma {:induction false} SearchLeftmost(s: string, i: nat)
    requires i <= |s| && MatchAt(s[i..]).Some?
    requires forall j :: 0 <= j < i ==> MatchAt(s[j..]).None?
    ensures StrokeSearch(s) == MatchAt(s[i..])
  {
    assert s[0..] == s;
    if i > 0 {
      var r := s[1..];
      forall j | 0 <= j < i - 1
        ensures MatchAt(r[j..]).None?
      {
        assert r[j..] == s[j + 1..];
      }
      assert r[i - 1..] == s[i..];
      SearchLeftmost(r, i - 1);
    }
  }

  /** With no match at any position, the search finds nothing. */
  lemma {:induction false} SearchNone(s: string)
    requires forall j :: 0 <= j <= |s| ==> MatchAt(s[j..]).None?
    ensures StrokeSearch(s) == None
  {
    assert s[0..] == s;
    if s != [] {
      var r := s[1..];
      forall j | 0 <= j <= |r|
        ensures MatchAt(r[j..]).None?
      {
        assert r[j..] == s[j + 1..];
      }
      SearchNone(r);
    }
  }

  /** Whatever the search returns was matched at some position. */
  lemma {:induction false} SearchFound(s: string)
    requires StrokeSearch(s).Some?
    ensures exists i :: 0 <= i <= |s| && MatchAt(s[i..]) == StrokeSearch(s)
  {
    assert s[0..] == s;
    if MatchAt(s).None? {
      var r := s[1..];
      SearchFound(r);
      var i :| 0 <= i <= |r| && MatchAt(r[i..]) == StrokeSearch(r);
      assert r[i..] == s[i + 1..];
    }
  }

  /** A style that starts with a stroke token selects the pen of its
      colour, whatever follows. */
  lemma StylePenOf(c: string, rest: string)
    requires c != [] && NoSemicolon(c)
    ensures StylePen(StrokeKey + c + ";" + rest) == Some(ColorPen(c))
  {
    MatchAtOf(c, rest);
  }
}
