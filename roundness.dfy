/** `apply_bezier_roundness` of main.py: a polyline given as parallel x and
    y lists becomes, for each of its first n - 1 points, that point followed
    by a control point part of the way towards the midpoint of the next
    edge; the first point is appended at the end to close the outline. */
module Roundness {
  import opened Python

  /** The control point of one coordinate: `p1 + (mid - p1) * r` with
      `mid` the midpoint of `p1` and `p2`. */
  function Control(p1: real, p2: real, r: real): real
  {
    p1 + ((p1 + p2) / 2.0 - p1) * r
  }

  /** The first `n` loop passes over one coordinate list: point `i` and its
      control point, for each `i < n`. */
  function Corners(ps: seq<real>, n: nat, r: real): (c: seq<real>)
    requires n < |ps|
    ensures |c| == 2 * n
  {
    if n == 0 then [] else Corners(ps, n - 1, r) + [ps[n - 1], Control(ps[n - 1], ps[n], r)]
  }

  /** The list the function returns for one coordinate, from at least two
      points: all corners, then the first point again. */
  function Rounded(ps: seq<real>, r: real): seq<real>
    requires |ps| >= 2
  {
    Corners(ps, |ps| - 1, r) + [ps[0]]
  }

  /** What the function returns or raises: IndexError when there are fewer
      than two points (`new_x_points[0]` of an empty list) or when the y
      list is shorter than the x list; the extra y values are ignored. */
  function Roundness(xs: seq<real>, ys: seq<real>, r: real): Result<(seq<real>, seq<real>)>
  {
    if |xs| < 2 || |ys| < |xs| then Err(IndexError)
    else Ok((Rounded(xs, r), Rounded(ys[..|xs|], r)))
  }

  /** `apply_bezier_roundness`, written as the loop of the source. */
  method ApplyBezierRoundness(xPoints: seq<real>, yPoints: seq<real>, roundness: real)
    returns (res: Result<(seq<real>, seq<real>)>)
    ensures res == Roundness(xPoints, yPoints, roundness)
  {
    var newX: seq<real> := [];
    var newY: seq<real> := [];
    var numPoints := |xPoints|;
    var i := 0;
    while i < numPoints - 1
      invariant 0 <= i <= numPoints && (numPoints >= 1 ==> i <= numPoints - 1)
      invariant i > 0 ==> i < |yPoints|
      invariant i == 0 ==> newX == [] && newY == []
      invariant i < numPoints ==> newX == Corners(xPoints, i, roundness)
      invariant i < |yPoints| ==> newY == Corners(yPoints, i, roundness)
    {
      if i + 1 >= |yPoints| {
        return Err(IndexError);
      }
      var p1x, p1y := xPoints[i], yPoints[i];
      var p2x, p2y := xPoints[i + 1], yPoints[i + 1];
      var midX := (p1x + p2x) / 2.0;
      var midY := (p1y + p2y) / 2.0;
      var cpX := p1x + (midX - p1x) * roundness;
      var cpY := p1y + (midY - p1y) * roundness;
      newX := newX + [p1x, cpX];
      newY := newY + [p1y, cpY];
      assert cpX == Control(p1x, p2x, roundness) && cpY == Control(p1y, p2y, roundness);
      CornersStep(xPoints, i, roundness);
      CornersStep(yPoints, i, roundness);
      i := i + 1;
    }
    if newX == [] {
      return Err(IndexError);
    }
    RoundnessOfLoop(xPoints, yPoints, roundness);
    newX := newX + [newX[0]];
    newY := newY + [newY[0]];
    return Ok((newX, newY));
  }

  /** One pass of the loop appends a point and its control point. */
  lemma CornersStep(ps: seq<real>, i: nat, r: real)
    requires i + 1 < |ps|
    ensures Corners(ps, i + 1, r) == Corners(ps, i, r) + [ps[i], Control(ps[i], ps[i + 1], r)]
  {
  }

  /** After the loop, the result closes both corner lists with their first
      value. */
  lemma RoundnessOfLoop(xs: seq<real>, ys: seq<real>, r: real)
    requires 2 <= |xs| <= |ys|
    ensures Corners(xs, |xs| - 1, r)[0] == xs[0]
    ensures Corners(ys, |xs| - 1, r)[0] == ys[0]
    ensures Roundness(xs, ys, r) == Ok((Corners(xs, |xs| - 1, r) + [xs[0]], Corners(ys, |xs| - 1, r) + [ys[0]]))
  {
    CornersAt(xs, |xs| - 1, r, 0);
    CornersAt(ys, |xs| - 1, r, 0);
    CornersPrefix(ys, ys[..|xs|], |xs| - 1, r);
  }

  // ---------------------------------------------------------------------
  // What the function promises

  /** Pass `i` appends point `i` at `2 i` and its control point at `2 i + 1`. */
  lemma {:induction false} CornersAt(ps: seq<real>, n: nat, r: real, i: nat)
    requires n < |ps| && i < n
    ensures Corners(ps, n, r)[2 * i] == ps[i]
    ensures Corners(ps, n, r)[2 * i + 1] == Control(ps[i], ps[i + 1], r)
  {
    if i < n - 1 {
      CornersAt(ps, n - 1, r, i);
    } else if n > 1 {
      CornersAt(ps, n - 1, r, 0);
    }
  }

  /** The corners read only the first `n + 1` points. */
  lemma {:induction false} CornersPrefix(ps: seq<real>, qs: seq<real>, n: nat, r: real)
    requires n < |ps| && n < |qs| && ps[..n + 1] == qs[..n + 1]
    ensures Corners(ps, n, r) == Corners(qs, n, r)
  {
    if n > 0 {
      assert ps[n - 1] == ps[..n + 1][n - 1] && ps[n] == ps[..n + 1][n];
      assert ps[..n] == qs[..n] by {
        assert ps[..n] == ps[..n + 1][..n];
        assert qs[..n] == qs[..n + 1][..n];
      }
      CornersPrefix(ps, qs, n - 1, r);
    }
  }

  /** The function succeeds exactly when there are at least two x values
      and at least as many y values; the two lists it returns have the
      same length, 2 (n - 1) + 1 for n points. */
  lemma RoundnessOutcome(xs: seq<real>, ys: seq<real>, r: real)
    ensures Roundness(xs, ys, r).Ok? <==> |xs| >= 2 && |ys| >= |xs|
    ensures Roundness(xs, ys, r).Err? ==> Roundness(xs, ys, r).error == IndexError
    ensures Roundness(xs, ys, r).Ok? ==>
      |Roundness(xs, ys, r).value.0| == |Roundness(xs, ys, r).value.1| == 2 * (|xs| - 1) + 1
  {
    if |xs| >= 2 && |ys| >= |xs| {
      CornersAt(xs, |xs| - 1, r, 0);
      CornersAt(ys[..|xs|], |xs| - 1, r, 0);
    }
  }

  /** The rounded list of n points: point `i` at `2 i` and its control
      point at `2 i + 1` for every `i < n - 1`, and the first point again
      at the end, so the outline is closed. */
  lemma RoundedShape(ps: seq<real>, r: real, i: nat)
    requires |ps| >= 2 && i < |ps| - 1
    ensures |Rounded(ps, r)| == 2 * (|ps| - 1) + 1
    ensures Rounded(ps, r)[2 * i] == ps[i]
    ensures Rounded(ps, r)[2 * i + 1] == Control(ps[i], ps[i + 1], r)
    ensures Rounded(ps, r)[2 * (|ps| - 1)] == Rounded(ps, r)[0] == ps[0]
  {
    CornersAt(ps, |ps| - 1, r, i);
    CornersAt(ps, |ps| - 1, r, 0);
  }

  /** With factor 0 a control point repeats its point; with factor 1 it is
      the midpoint of the edge. */
  lemma ControlEnds(ps: seq<real>, i: nat)
    requires |ps| >= 2 && i < |ps| - 1
    ensures Rounded(ps, 0.0)[2 * i + 1] == ps[i]
    ensures Rounded(ps, 1.0)[2 * i + 1] == (ps[i] + ps[i + 1]) / 2.0
  {
    RoundedShape(ps, 0.0, i);
    RoundedShape(ps, 1.0, i);
  }

  /** The last input point is not copied: two points 0 and 1 with factor
      0 give 0, 0, 0. */
  lemma LastPointNotCopied()
    ensures Rounded([0.0, 1.0], 0.0) == [0.0, 0.0, 0.0]
    ensures 1.0 !in Rounded([0.0, 1.0], 0.0)
  {
    assert Corners([0.0, 1.0], 1, 0.0) == [0.0, 0.0];
  }
}
