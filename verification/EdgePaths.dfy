/** Smoothing of orthogonal edge paths (frontend/src/layout/edgePaths.ts). */
module EdgePaths {

  datatype Point = Point(x: real, y: real)

  const UTURN_THRESHOLD := 30.0

  function Abs(r: real): real { if r < 0.0 then -r else r }

  function Sign(r: real): int { if r < 0.0 then -1 else if r > 0.0 then 1 else 0 }

  predicate Near(a: real, b: real) { Abs(a - b) < 0.5 }

  /** Back and forth along `x`, with a short stub between. */
  predicate HorizontalUturn(a: Point, b: Point, c: Point, d: Point) {
    Near(a.y, b.y) && Near(b.x, c.x) && Near(c.y, d.y)
    && Sign(b.x - a.x) != 0 && Sign(d.x - c.x) != 0 && Sign(b.x - a.x) != Sign(d.x - c.x)
    && Abs(b.y - c.y) < UTURN_THRESHOLD
  }

  predicate VerticalUturn(a: Point, b: Point, c: Point, d: Point) {
    Near(a.x, b.x) && Near(b.y, c.y) && Near(c.x, d.x)
    && Sign(b.y - a.y) != 0 && Sign(d.y - c.y) != 0 && Sign(b.y - a.y) != Sign(d.y - c.y)
    && Abs(b.x - c.x) < UTURN_THRESHOLD
  }

  predicate UturnAt(ps: seq<Point>, i: nat)
    requires i + 3 < |ps|
  {
    HorizontalUturn(ps[i], ps[i + 1], ps[i + 2], ps[i + 3]) || VerticalUturn(ps[i], ps[i + 1], ps[i + 2], ps[i + 3])
  }

  /** What replaces the two middle points of a U-turn. */
  function Bridge(a: Point, b: Point, c: Point, d: Point): seq<Point> {
    if HorizontalUturn(a, b, c, d) then (if Near(a.x, d.x) then [] else [Point(a.x, c.y)])
    else (if Near(a.y, d.y) then [] else [Point(c.x, a.y)])
  }

  function Collapsed(ps: seq<Point>, i: nat): (r: seq<Point>)
    requires i + 3 < |ps|
    ensures |ps| - 2 <= |r| < |ps|
  {
    ps[..i + 1] + Bridge(ps[i], ps[i + 1], ps[i + 2], ps[i + 3]) + ps[i + 3..]
  }

  /** The first U-turn from `i` on, or `|ps|`. */
  function FirstUturn(ps: seq<Point>, i: nat): (k: nat)
    ensures k == |ps| || (i <= k && k + 3 < |ps| && UturnAt(ps, k))
    decreases |ps| - i
  {
    if i + 3 < |ps| then if UturnAt(ps, i) then i else FirstUturn(ps, i + 1) else |ps|
  }

  /** The path once no U-turn is left. */
  function Smooth(ps: seq<Point>): seq<Point>
    decreases |ps|
  {
    var i := FirstUturn(ps, 0);
    if i == |ps| then ps else Smooth(Collapsed(ps, i))
  }

  /** The inner loop: collapses the first U-turn, if there is one. */
  method CollapseFirst(ps: seq<Point>) returns (result: seq<Point>, changed: bool)
    ensures changed <==> FirstUturn(ps, 0) < |ps|
    ensures result == if changed then Collapsed(ps, FirstUturn(ps, 0)) else ps
  {
    result, changed := ps, false;
    var i := 0;
    while i + 3 < |ps|
      invariant result == ps && !changed
      invariant FirstUturn(ps, 0) == FirstUturn(ps, i)
      decreases |ps| - i
    {
      var a, b, c, d := ps[i], ps[i + 1], ps[i + 2], ps[i + 3];
      if Abs(a.y - b.y) < 0.5 && Abs(b.x - c.x) < 0.5 && Abs(c.y - d.y) < 0.5 {
        var abDir, cdDir, stubLen := Sign(b.x - a.x), Sign(d.x - c.x), Abs(b.y - c.y);
        if abDir != 0 && cdDir != 0 && abDir != cdDir && stubLen < UTURN_THRESHOLD {
          assert HorizontalUturn(a, b, c, d);
          if Abs(a.x - d.x) < 0.5 {
            result := ps[..i + 1] + [] + ps[i + 3..];
          } else {
            result := ps[..i + 1] + [Point(a.x, c.y)] + ps[i + 3..];
          }
          return result, true;
        }
      }
      if Abs(a.x - b.x) < 0.5 && Abs(b.y - c.y) < 0.5 && Abs(c.x - d.x) < 0.5 {
        var abDir, cdDir, stubLen := Sign(b.y - a.y), Sign(d.y - c.y), Abs(b.x - c.x);
        if abDir != 0 && cdDir != 0 && abDir != cdDir && stubLen < UTURN_THRESHOLD {
          assert VerticalUturn(a, b, c, d);
          if Abs(a.y - d.y) < 0.5 {
            result := ps[..i + 1] + [] + ps[i + 3..];
          } else {
            result := ps[..i + 1] + [Point(c.x, a.y)] + ps[i + 3..];
          }
          return result, true;
        }
      }
      i := i + 1;
    }
  }

  /** `smoothUturns`. */
  method SmoothUturns(points: seq<Point>) returns (result: seq<Point>)
    ensures result == Smooth(points)
  {
    result := points;
    var changed := true;
    while changed
      invariant Smooth(result) == Smooth(points)
      invariant !changed ==> FirstUturn(result, 0) == |result|
      decreases |result|, changed
    {
      result, changed := CollapseFirst(result);
    }
  }

  // ------------------------------------------------------- what smoothing keeps

  function Distance(a: Point, b: Point): real {
    Abs(a.x - b.x) + Abs(a.y - b.y)
  }

  /** The length of the path along the axes. */
  function Length(ps: seq<Point>): real {
    if |ps| < 2 then 0.0 else Length(ps[..|ps| - 1]) + Distance(ps[|ps| - 2], ps[|ps| - 1])
  }

  predicate Straight(a: Point, b: Point) {
    Near(a.x, b.x) || Near(a.y, b.y)
  }

  /** Every segment runs along an axis, within the tolerance. */
  predicate Orthogonal(ps: seq<Point>) {
    |ps| < 2 || (Straight(ps[|ps| - 2], ps[|ps| - 1]) && Orthogonal(ps[..|ps| - 1]))
  }

  lemma {:induction false} Joined(p: seq<Point>, q: seq<Point>)
    requires p != [] && q != []
    ensures Length(p + q) == Length(p) + Distance(p[|p| - 1], q[0]) + Length(q)
    ensures Orthogonal(p + q) <==> Orthogonal(p) && Straight(p[|p| - 1], q[0]) && Orthogonal(q)
  {
    var init := q[..|q| - 1];
    assert (p + q)[..|p + q| - 1] == p + init;
    if |q| == 1 {
      assert p + init == p;
    } else {
      Joined(p, init);
      assert (p + init)[|p + init| - 1] == init[|init| - 1];
    }
  }

  lemma Triangle(a: Point, b: Point, c: Point)
    ensures Distance(a, c) <= Distance(a, b) + Distance(b, c)
  {
  }

  /** Going by a corner level with either end is no detour. */
  lemma Corner(a: Point, c: Point)
    ensures var m := Point(a.x, c.y); Distance(a, m) + Distance(m, c) == Distance(a, c)
    ensures var m := Point(c.x, a.y); Distance(a, m) + Distance(m, c) == Distance(a, c)
  {
  }

  lemma Aside(a: Point, c: Point, d: Point)
    ensures var m := Point(a.x, c.y); Distance(m, d) <= Distance(m, c) + Distance(c, d)
    ensures var m := Point(c.x, a.y); Distance(m, d) <= Distance(m, c) + Distance(c, d)
  {
    Triangle(Point(a.x, c.y), c, d);
    Triangle(Point(c.x, a.y), c, d);
  }

  lemma BridgeIsStraight(a: Point, b: Point, c: Point, d: Point)
    requires HorizontalUturn(a, b, c, d) || VerticalUturn(a, b, c, d)
    ensures var m := Bridge(a, b, c, d);
            if m == [] then Straight(a, d) else Straight(a, m[0]) && Straight(m[0], d)
  {
  }

  /** What the bridge measures is no longer than the way it replaces. */
  lemma BridgeIsShorter(a: Point, b: Point, c: Point, d: Point, m: Point)
    requires m == Point(a.x, c.y) || m == Point(c.x, a.y)
    ensures Distance(a, d) <= Distance(a, b) + Distance(b, c) + Distance(c, d)
    ensures Distance(a, m) + Distance(m, d) <= Distance(a, b) + Distance(b, c) + Distance(c, d)
  {
    Triangle(a, b, c);
    Triangle(a, c, d);
    Corner(a, c);
    Aside(a, c, d);
  }

  lemma ThreeSegments(x: seq<Point>, a: Point, b: Point, c: Point, d: Point, y: seq<Point>)
    requires x != [] && x[|x| - 1] == a && y != [] && y[0] == d
    ensures Length(x + [b, c] + y) == Length(x) + Distance(a, b) + Distance(b, c) + Distance(c, d) + Length(y)
    ensures Orthogonal(x + [b, c] + y) ==> Orthogonal(x) && Orthogonal(y)
  {
    Joined(x, [b, c]);
    Joined(x + [b, c], y);
    Joined([b], [c]);
    assert [b] + [c] == [b, c];
  }

  lemma CollapseKeeps(ps: seq<Point>, i: nat)
    requires i + 3 < |ps| && UturnAt(ps, i)
    ensures var r := Collapsed(ps, i);
            r[0] == ps[0] && r[|r| - 1] == ps[|ps| - 1]
            && Length(r) <= Length(ps) && (Orthogonal(ps) ==> Orthogonal(r))
  {
    var x, y := ps[..i + 1], ps[i + 3..];
    var a, b, c, d := ps[i], ps[i + 1], ps[i + 2], ps[i + 3];
    assert ps == x + [b, c] + y;
    BridgeKeeps(x, a, b, c, d, y);
  }

  /** The way from `a` to `d` by the points of `m`, at most one. */
  function Way(a: Point, m: seq<Point>, d: Point): real {
    if m == [] then Distance(a, d) else Distance(a, m[0]) + Distance(m[0], d)
  }

  predicate StraightWay(a: Point, m: seq<Point>, d: Point) {
    if m == [] then Straight(a, d) else Straight(a, m[0]) && Straight(m[0], d)
  }

  lemma CornerJoins(x: seq<Point>, k: Point, y: seq<Point>)
    requires x != [] && y != []
    ensures Length(x + [k] + y) == Length(x) + Distance(x[|x| - 1], k) + Distance(k, y[0]) + Length(y)
    ensures Orthogonal(x + [k] + y) <==> Orthogonal(x) && Straight(x[|x| - 1], k) && Straight(k, y[0]) && Orthogonal(y)
  {
    Joined(x, [k]);
    Joined(x + [k], y);
  }

  lemma WayJoins(x: seq<Point>, m: seq<Point>, y: seq<Point>)
    requires x != [] && |m| <= 1 && y != []
    ensures Length(x + m + y) == Length(x) + Way(x[|x| - 1], m, y[0]) + Length(y)
    ensures Orthogonal(x + m + y) <==> Orthogonal(x) && StraightWay(x[|x| - 1], m, y[0]) && Orthogonal(y)
  {
    if m == [] {
      Joined(x, y);
      assert x + m == x;
    } else {
      CornerJoins(x, m[0], y);
      assert m == [m[0]];
    }
  }

  lemma WayIsShorter(a: Point, b: Point, c: Point, d: Point)
    ensures Way(a, Bridge(a, b, c, d), d) <= Distance(a, b) + Distance(b, c) + Distance(c, d)
  {
    BridgeIsShorter(a, b, c, d, Point(a.x, c.y));
    BridgeIsShorter(a, b, c, d, Point(c.x, a.y));
  }

  lemma BridgeKeeps(x: seq<Point>, a: Point, b: Point, c: Point, d: Point, y: seq<Point>)
    requires x != [] && x[|x| - 1] == a && y != [] && y[0] == d
    requires HorizontalUturn(a, b, c, d) || VerticalUturn(a, b, c, d)
    ensures Length(x + Bridge(a, b, c, d) + y) <= Length(x + [b, c] + y)
    ensures Orthogonal(x + [b, c] + y) ==> Orthogonal(x + Bridge(a, b, c, d) + y)
  {
    ThreeSegments(x, a, b, c, d, y);
    WayJoins(x, Bridge(a, b, c, d), y);
    WayIsShorter(a, b, c, d);
    BridgeIsStraight(a, b, c, d);
  }

  /** The smoothed path starts and ends where the path did, is no longer along
      the axes, and is as orthogonal. */
  lemma {:induction false} SmoothKeeps(ps: seq<Point>)
    requires ps != []
    ensures var r := Smooth(ps);
            r != [] && r[0] == ps[0] && r[|r| - 1] == ps[|ps| - 1]
            && Length(r) <= Length(ps) && (Orthogonal(ps) ==> Orthogonal(r))
    decreases |ps|
  {
    var i := FirstUturn(ps, 0);
    if i < |ps| {
      CollapseKeeps(ps, i);
      SmoothKeeps(Collapsed(ps, i));
    }
  }

  lemma {:induction false} FirstIsFirst(ps: seq<Point>, i: nat, k: nat)
    requires i <= k && k + 3 < |ps| && UturnAt(ps, k)
    ensures FirstUturn(ps, i) <= k
    decreases |ps| - i
  {
    if i < k && !UturnAt(ps, i) {
      FirstIsFirst(ps, i + 1, k);
    }
  }

  /** Level, within half a pixel. */
  predicate Level(a: real, b: real) { a < b + 0.5 && b < a + 0.5 }

  /** From `a` to `b` one way and from `c` to `d` the other, less than 30 apart. */
  predicate Turns(a: real, b: real, c: real, d: real, gap: real) {
    ((b > a && d < c) || (b < a && d > c)) && gap < 30.0 && -gap < 30.0
  }

  /** The four points go back and forth: along `x` over a short vertical stub, or
      along `y` over a short horizontal one. */
  predicate BackAndForth(a: Point, b: Point, c: Point, d: Point) {
    || (Level(a.y, b.y) && Level(b.x, c.x) && Level(c.y, d.y) && Turns(a.x, b.x, c.x, d.x, b.y - c.y))
    || (Level(a.x, b.x) && Level(b.y, c.y) && Level(c.x, d.x) && Turns(a.y, b.y, c.y, d.y, b.x - c.x))
  }

  lemma UturnExactly(a: Point, b: Point, c: Point, d: Point)
    ensures HorizontalUturn(a, b, c, d) || VerticalUturn(a, b, c, d) <==> BackAndForth(a, b, c, d)
  {
  }

  /** No four points of a smoothed path go back and forth over a short stub. */
  lemma NothingGoesBack(ps: seq<Point>, k: nat)
    ensures var r := Smooth(ps); k + 3 < |r| ==> !BackAndForth(r[k], r[k + 1], r[k + 2], r[k + 3])
  {
    var r := Smooth(ps);
    NoUturnLeft(ps, k);
    if k + 3 < |r| {
      UturnExactly(r[k], r[k + 1], r[k + 2], r[k + 3]);
    }
  }

  /** A path changes exactly when four of its points do. */
  lemma SmoothChangesExactly(ps: seq<Point>)
    ensures Smooth(ps) != ps <==> exists k: nat :: k + 3 < |ps| && BackAndForth(ps[k], ps[k + 1], ps[k + 2], ps[k + 3])
  {
    SmoothChangesOnlyUturns(ps);
    forall k: nat | k + 3 < |ps|
      ensures UturnAt(ps, k) <==> BackAndForth(ps[k], ps[k + 1], ps[k + 2], ps[k + 3])
    {
      UturnExactly(ps[k], ps[k + 1], ps[k + 2], ps[k + 3]);
    }
  }

  /** No short U-turn is left, and smoothing again changes nothing. */
  lemma {:induction false} NoUturnLeft(ps: seq<Point>, k: nat)
    ensures k + 3 < |Smooth(ps)| ==> !UturnAt(Smooth(ps), k)
    ensures Smooth(Smooth(ps)) == Smooth(ps)
    decreases |ps|
  {
    var i := FirstUturn(ps, 0);
    if i < |ps| {
      NoUturnLeft(Collapsed(ps, i), k);
    } else if k + 3 < |ps| && UturnAt(ps, k) {
      FirstIsFirst(ps, 0, k);
    }
  }

  /** Only a path with a U-turn changes. */
  lemma {:induction false} SmoothChangesOnlyUturns(ps: seq<Point>)
    ensures Smooth(ps) == ps <==> forall k: nat :: k + 3 < |ps| ==> !UturnAt(ps, k)
  {
    var i := FirstUturn(ps, 0);
    if i < |ps| {
      Shorter(Collapsed(ps, i));
    } else {
      forall k: nat | k + 3 < |ps| && UturnAt(ps, k) ensures false { FirstIsFirst(ps, 0, k); }
    }
  }

  lemma {:induction false} Shorter(ps: seq<Point>)
    ensures |Smooth(ps)| <= |ps|
    decreases |ps|
  {
    if FirstUturn(ps, 0) < |ps| {
      Shorter(Collapsed(ps, FirstUturn(ps, 0)));
    }
  }
}
