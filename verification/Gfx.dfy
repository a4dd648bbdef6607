/**
 The midpoint circle and Bresenham's line as the display library draws them, in 16-bit
 arithmetic.  Every assignment to an int16 is checked to be in range, so no value wraps.
 */
module Gfx {
  newtype int16 = x: int | -32768 <= x < 32768

  datatype Pixel = Pixel(x: int, y: int)

  const LIMIT := 16383

  // Circles

  /** The two sides of the circle's equation at a point. */
  function Off(x: int, y: int, r: int): int {
    x * x + y * y - r * r
  }

  /** y is the height of the circle over column x, rounded to the nearest pixel: y - 1/2 and
      y + 1/2 lie on different sides of it. */
  predicate Nearest(x: int, y: int, r: int) {
    -y <= Off(x, y, r) <= y
  }

  function Octants(x0: int, y0: int, x: int, y: int): seq<Pixel> {
    [Pixel(x0 + x, y0 + y), Pixel(x0 - x, y0 + y), Pixel(x0 + x, y0 - y), Pixel(x0 - x, y0 - y),
     Pixel(x0 + y, y0 + x), Pixel(x0 - y, y0 + x), Pixel(x0 + y, y0 - x), Pixel(x0 - y, y0 - x)]
  }

  function Poles(x0: int, y0: int, r: int): seq<Pixel> {
    [Pixel(x0, y0 + r), Pixel(x0, y0 - r), Pixel(x0 + r, y0), Pixel(x0 - r, y0)]
  }

  /** Everything that is drawn for the columns 0, 1, .. of one octant with these heights. */
  function Drawn(x0: int, y0: int, r: int, heights: seq<int>): seq<Pixel> {
    if |heights| <= 1 then Poles(x0, y0, r)
    else Drawn(x0, y0, r, heights[..|heights| - 1]) + Octants(x0, y0, |heights| - 1, heights[|heights| - 1])
  }

  lemma DrawnNext(x0: int, y0: int, r: int, heights: seq<int>, y: int)
    requires |heights| >= 1
    ensures Drawn(x0, y0, r, heights + [y]) == Drawn(x0, y0, r, heights) + Octants(x0, y0, |heights|, y)
  {
    assert (heights + [y])[..|heights|] == heights;
  }

  /** The heights of an octant, column by column. */
  ghost predicate Follows(heights: seq<int>, r: int) {
    && |heights| >= 1 && heights[0] == r
    && (r >= 0 ==> forall x :: 0 <= x < |heights| ==> Nearest(x, heights[x], r))
    && (forall x :: 0 < x < |heights| ==> heights[x - 1] - 1 <= heights[x] <= heights[x - 1])
    && (forall x :: 0 <= x < |heights| - 1 ==> x < heights[x])
  }

  /** A whole octant: the last column is the first at or past the diagonal. */
  ghost predicate Octant(heights: seq<int>, r: int) {
    Follows(heights, r) && heights[|heights| - 1] <= |heights| - 1
  }

  ghost predicate IsCircle(x0: int, y0: int, r: int, pixels: seq<Pixel>) {
    exists heights :: Octant(heights, r) && pixels == Drawn(x0, y0, r, heights)
  }

  lemma FollowsNext(heights: seq<int>, r: int, y: int)
    requires Follows(heights, r) && r >= 0 && Nearest(|heights|, y, r)
    requires heights[|heights| - 1] - 1 <= y <= heights[|heights| - 1] && |heights| - 1 < heights[|heights| - 1]
    ensures Follows(heights + [y], r)
  {
    hide Nearest;
  }

  /** The circle's equation at the midpoint between the two candidates of the next column. */
  function Decision(x: int, y: int, r: int): int {
    (x + 1) * (x + 1) + y * y - y - r * r
  }

  /** One column on: what the sign of f decides, and how f is carried along. */
  lemma Midpoint(x: int, y: int, r: int)
    requires 0 <= x < y <= r && Nearest(x, y, r) && Off(x, y, r) <= y - 1
    ensures var f := Decision(x, y, r);
      && -2 * y + 1 <= f <= 2 * x
      && (f < 0 ==> Nearest(x + 1, y, r) && Off(x + 1, y, r) <= y - 1)
      && (f >= 0 ==> Nearest(x + 1, y - 1, r) && (x + 1 < y - 1 ==> Off(x + 1, y - 1, r) <= y - 2))
      && Decision(x + 1, y, r) == f + 2 * x + 3
      && Decision(x + 1, y - 1, r) == f - 2 * (y - 1) + 2 * x + 3
  {}

  lemma AtPole(r: int)
    ensures Decision(0, r, r) == 1 - r && Off(0, r, r) == 0
  {}

  method PlotOctants(x0: int16, y0: int16, x: int16, y: int16, ghost r: int) returns (pixels: seq<Pixel>)
    requires 0 <= x as int <= r && 0 <= y as int <= r
    requires -32768 <= x0 as int - r && x0 as int + r <= 32767 && -32768 <= y0 as int - r && y0 as int + r <= 32767
    ensures pixels == Octants(x0 as int, y0 as int, x as int, y as int)
  {
    pixels := [
      Plot(x0 + x, y0 + y), Plot(x0 - x, y0 + y), Plot(x0 + x, y0 - y), Plot(x0 - x, y0 - y),
      Plot(x0 + y, y0 + x), Plot(x0 - y, y0 + x), Plot(x0 + y, y0 - x), Plot(x0 - y, y0 - x)];
  }

  /** The state of the loop at column x, inside the octant or just past its end. */
  ghost predicate AtColumn(x: int16, y: int16, f: int16, ddFx: int16, ddFy: int16, r: int) {
    && 0 <= x as int <= r && 0 <= y as int <= r
    && ddFx as int == 2 * (x as int) + 1 && ddFy as int == -2 * (y as int)
    && f as int == Decision(x as int, y as int, r)
    && Nearest(x as int, y as int, r)
    && (x < y ==> Off(x as int, y as int, r) <= y as int - 1)
  }

  method NextColumn(x: int16, y: int16, f: int16, ddFx: int16, ddFy: int16, ghost r: int)
    returns (x': int16, y': int16, f': int16, ddFx': int16, ddFy': int16)
    requires AtColumn(x, y, f, ddFx, ddFy, r) && x < y && r <= LIMIT
    ensures AtColumn(x', y', f', ddFx', ddFy', r) && x' == x + 1 && y as int - 1 <= y' as int <= y as int
  {
    hide Decision, Off, Nearest;
    Midpoint(x as int, y as int, r);
    y', ddFy', f' := y, ddFy, f;
    if f >= 0 {
      y' := y' - 1;
      ddFy' := ddFy' + 2;
      f' := f' + ddFy';
    }
    x' := x + 1;
    ddFx' := ddFx + 2;
    f' := f' + ddFx';
  }

  // What has been drawn, as a set of pixels

  /** Up to mirroring, this is the pixel of column x at height y. */
  predicate Mirrored(p: Pixel, x0: int, y0: int, x: int, y: int) {
    var a, b := Abs(p.x - x0), Abs(p.y - y0);
    (a == x && b == y) || (a == y && b == x)
  }

  lemma OctantsHave(x0: int, y0: int, x: int, y: int, p: Pixel)
    requires x >= 0 && y >= 0
    ensures p in Octants(x0, y0, x, y) <==> Mirrored(p, x0, y0, x, y)
  {
    var o := Octants(x0, y0, x, y);
    assert o[0] in o && o[1] in o && o[2] in o && o[3] in o && o[4] in o && o[5] in o && o[6] in o && o[7] in o;
  }

  lemma PolesHave(x0: int, y0: int, r: int, p: Pixel)
    requires r >= 0
    ensures p in Poles(x0, y0, r) <==> Mirrored(p, x0, y0, 0, r)
  {
    var o := Poles(x0, y0, r);
    assert o[0] in o && o[1] in o && o[2] in o && o[3] in o;
  }

  /** The pixels are exactly the mirror images of the columns. */
  lemma {:induction false} DrawnHave(x0: int, y0: int, r: int, heights: seq<int>, p: Pixel)
    requires |heights| >= 1 && heights[0] == r && forall k :: 0 <= k < |heights| ==> heights[k] >= 0
    ensures p in Drawn(x0, y0, r, heights) <==> exists k :: 0 <= k < |heights| && Mirrored(p, x0, y0, k, heights[k])
    decreases |heights|
  {
    hide Octants, Poles, Mirrored;
    if |heights| == 1 {
      PolesHave(x0, y0, r, p);
    } else {
      var n := |heights| - 1;
      DrawnHave(x0, y0, r, heights[..n], p);
      OctantsHave(x0, y0, n, heights[n], p);
      hide Drawn;
      assert forall k :: 0 <= k < n ==> heights[..n][k] == heights[k];
      DrawnSplits(x0, y0, r, heights, p);
    }
  }

  lemma DrawnSplits(x0: int, y0: int, r: int, heights: seq<int>, p: Pixel)
    requires |heights| > 1
    ensures var n := |heights| - 1;
      p in Drawn(x0, y0, r, heights) <==> p in Drawn(x0, y0, r, heights[..n]) || p in Octants(x0, y0, n, heights[n])
  {
    hide Octants, Poles;
  }

  /** On the circle, seen from its octant: the larger offset is the rounded height over the
      smaller one, or the other way round where the two differ by at most one. */
  predicate OnCircle(a: int, b: int, r: int) {
    var lo, hi := if a < b then a else b, if a < b then b else a;
    Nearest(lo, hi, r) || (hi - lo <= 1 && Nearest(hi, lo, r))
  }

  /** A circle as a set of pixels: every pixel is on it, it is its own mirror image along both
      axes and along the diagonal, and every column across it has a pixel. */
  ghost predicate Circle(x0: int, y0: int, r: int, pixels: seq<Pixel>) {
    && (forall p :: p in pixels ==> OnCircle(Abs(p.x - x0), Abs(p.y - y0), r))
    && (forall p :: p in pixels ==> Pixel(2 * x0 - p.x, p.y) in pixels)
    && (forall p :: p in pixels ==> Pixel(p.x, 2 * y0 - p.y) in pixels)
    && (forall p :: p in pixels ==> Pixel(x0 + p.y - y0, y0 + p.x - x0) in pixels)
    && (forall x :: x0 - r <= x <= x0 + r ==> HasColumn(pixels, x))
  }

  ghost predicate HasColumn(pixels: seq<Pixel>, x: int) {
    exists y :: Pixel(x, y) in pixels
  }

  // the last column is at the diagonal or one past it
  lemma Heights(heights: seq<int>, r: int)
    requires Octant(heights, r) && r >= 0
    ensures |heights| >= 1 && heights[0] == r
    ensures forall k :: 0 <= k < |heights| ==> heights[k] >= 0 && k - heights[k] <= 1
    ensures forall k :: 0 <= k < |heights| ==> OnCircle(k, heights[k], r)
  {
    forall k | 0 <= k < |heights|
      ensures heights[k] >= 0 && k - heights[k] <= 1 && OnCircle(k, heights[k], r)
    {
      assert Nearest(k, heights[k], r);
      hide Nearest;
      if k == |heights| - 1 && k > 0 {
        assert k - 1 < heights[k - 1];
      }
    }
  }

  lemma MirrorsStay(p: Pixel, x0: int, y0: int, x: int, y: int)
    requires Mirrored(p, x0, y0, x, y)
    ensures Mirrored(Pixel(2 * x0 - p.x, p.y), x0, y0, x, y) && Mirrored(Pixel(p.x, 2 * y0 - p.y), x0, y0, x, y)
    ensures Mirrored(Pixel(x0 + p.y - y0, y0 + p.x - x0), x0, y0, x, y)
  {}

  /** Falling by at most one per column, the heights leave out no value on their way down. */
  lemma {:induction false} HeightsHit(heights: seq<int>, r: int, a: int, n: nat) returns (k: nat)
    requires Follows(heights, r) && n < |heights| && heights[n] <= a <= r
    ensures k <= n && heights[k] == a
    decreases n
  {
    if heights[n] == a {
      k := n;
    } else {
      k := HeightsHit(heights, r, a, n - 1);
    }
  }

  lemma ColumnDrawn(x0: int, y0: int, r: int, heights: seq<int>, x: int)
    requires Octant(heights, r) && r >= 0 && x0 - r <= x <= x0 + r
    ensures HasColumn(Drawn(x0, y0, r, heights), x)
  {
    Heights(heights, r);
    var a := Abs(x - x0);
    var p: Pixel;
    if a < |heights| {
      p := Pixel(x, y0 + heights[a]);
      assert Mirrored(p, x0, y0, a, heights[a]);
    } else {
      var k := HeightsHit(heights, r, a, |heights| - 1);
      p := Pixel(x, y0 + k);
      assert Mirrored(p, x0, y0, k, heights[k]);
    }
    hide Octant, Mirrored;
    DrawnHave(x0, y0, r, heights, p);
    assert Pixel(x, p.y) in Drawn(x0, y0, r, heights);
  }

  /** The pixels of a whole octant and its mirror images make up a circle. */
  lemma DrawnIsCircle(x0: int, y0: int, r: int, heights: seq<int>)
    requires Octant(heights, r) && r >= 0
    ensures Circle(x0, y0, r, Drawn(x0, y0, r, heights))
  {
    Heights(heights, r);
    var pixels := Drawn(x0, y0, r, heights);
    hide Drawn, OnCircle, HasColumn;
    forall p | p in pixels
      ensures OnCircle(Abs(p.x - x0), Abs(p.y - y0), r)
      ensures Pixel(2 * x0 - p.x, p.y) in pixels && Pixel(p.x, 2 * y0 - p.y) in pixels
      ensures Pixel(x0 + p.y - y0, y0 + p.x - x0) in pixels
    {
      PixelOfCircle(x0, y0, r, heights, p);
    }
    forall x | x0 - r <= x <= x0 + r
      ensures HasColumn(pixels, x)
    {
      ColumnDrawn(x0, y0, r, heights, x);
    }
  }

  lemma PixelOfCircle(x0: int, y0: int, r: int, heights: seq<int>, p: Pixel)
    requires Octant(heights, r) && r >= 0 && p in Drawn(x0, y0, r, heights)
    ensures OnCircle(Abs(p.x - x0), Abs(p.y - y0), r)
    ensures var pixels := Drawn(x0, y0, r, heights);
      && Pixel(2 * x0 - p.x, p.y) in pixels && Pixel(p.x, 2 * y0 - p.y) in pixels
      && Pixel(x0 + p.y - y0, y0 + p.x - x0) in pixels
  {
    hide Drawn, Octant, Nearest, Mirrored, OnCircle, Abs;
    Heights(heights, r);
    DrawnHave(x0, y0, r, heights, p);
    var k :| 0 <= k < |heights| && Mirrored(p, x0, y0, k, heights[k]);
    MirrorsStay(p, x0, y0, k, heights[k]);
    MirroredIsOn(p, x0, y0, k, heights[k], r);
    DrawnHave(x0, y0, r, heights, Pixel(2 * x0 - p.x, p.y));
    DrawnHave(x0, y0, r, heights, Pixel(p.x, 2 * y0 - p.y));
    DrawnHave(x0, y0, r, heights, Pixel(x0 + p.y - y0, y0 + p.x - x0));
  }

  lemma MirroredIsOn(p: Pixel, x0: int, y0: int, x: int, y: int, r: int)
    requires Mirrored(p, x0, y0, x, y) && OnCircle(x, y, r)
    ensures OnCircle(Abs(p.x - x0), Abs(p.y - y0), r)
  {
    hide Nearest;
  }

  /** drawCircle.  Column by column through one octant, the height is the nearest one and
      falls by at most 1; the octant ends at the diagonal. */
  method DrawCircle(x0: int16, y0: int16, r: int16) returns (pixels: seq<Pixel>)
    requires -LIMIT <= r as int <= LIMIT
    requires -32768 <= x0 as int - Abs(r as int) && x0 as int + Abs(r as int) <= 32767
    requires -32768 <= y0 as int - Abs(r as int) && y0 as int + Abs(r as int) <= 32767
    ensures IsCircle(x0 as int, y0 as int, r as int, pixels)
    ensures r >= 0 ==> Circle(x0 as int, y0 as int, r as int, pixels)
    ensures r < 0 ==> pixels == [
      Pixel(x0 as int, y0 as int + r as int), Pixel(x0 as int, y0 as int - r as int),
      Pixel(x0 as int + r as int, y0 as int), Pixel(x0 as int - r as int, y0 as int)]
  {
    var f: int16 := 1 - r;
    var ddFx: int16 := 1;
    var ddFy: int16 := -2 * r;
    var x: int16, y: int16 := 0, r;
    pixels := [Plot(x0, y0 + r), Plot(x0, y0 - r), Plot(x0 + r, y0), Plot(x0 - r, y0)];
    ghost var heights := [r as int];
    AtPole(r as int);
    assert r >= 0 ==> AtColumn(x, y, f, ddFx, ddFy, r as int);
    hide Decision, Off, Nearest;
    while x < y
      invariant if r < 0 then x == 0 && y == r else AtColumn(x, y, f, ddFx, ddFy, r as int)
      invariant |heights| == x as int + 1 && heights[x as int] == y as int
      invariant Follows(heights, r as int)
      invariant pixels == Drawn(x0 as int, y0 as int, r as int, heights)
      decreases r as int - x as int
    {
      hide Follows, Drawn, Octants;
      x, y, f, ddFx, ddFy := NextColumn(x, y, f, ddFx, ddFy, r as int);
      var octants := PlotOctants(x0, y0, x, y, r as int);
      pixels := pixels + octants;
      FollowsNext(heights, r as int, y as int);
      DrawnNext(x0 as int, y0 as int, r as int, heights, y as int);
      heights := heights + [y as int];
    }
    assert Octant(heights, r as int);
    if r >= 0 {
      DrawnIsCircle(x0 as int, y0 as int, r as int, heights);
    }
  }

  function Plot(x: int16, y: int16): Pixel {
    Pixel(x as int, y as int)
  }

  function Abs(a: int): int {
    if a < 0 then -a else a
  }

  // Lines

  function Larger(a: int, b: int): int {
    if a < b then b else a
  }

  /** How far p is from the line through p0 and p1, times the length of the line. */
  function Cross(p0: Pixel, p1: Pixel, p: Pixel): int {
    (p1.x - p0.x) * (p.y - p0.y) - (p1.y - p0.y) * (p.x - p0.x)
  }

  /** The longer of the two extents. */
  function Extent(p0: Pixel, p1: Pixel): int {
    Larger(Abs(p1.x - p0.x), Abs(p1.y - p0.y))
  }

  function Turned(p: Pixel): Pixel {
    Pixel(p.y, p.x)
  }

  /** A line drawn along x from p to q: one pixel per column, each at most one up or down from
      the last, and none further than half a pixel from the ideal line. */
  ghost predicate LineOf(p: Pixel, q: Pixel, line: seq<Pixel>) {
    && |line| == Extent(p, q) + 1 && line[0] == p && line[|line| - 1] == q
    && (forall i :: 0 <= i < |line| ==> 2 * Abs(Cross(p, q, line[i])) <= Extent(p, q))
    && (forall i :: 0 <= i < |line| - 1 ==> Near(line[i], line[i + 1]))
  }

  /** Neighbours: one step along one axis, at most one along the other. */
  predicate Near(a: Pixel, b: Pixel) {
    Extent(a, b) == 1
  }

  /** Either direction of drawing counts as the same line. */
  ghost predicate IsLine(p: Pixel, q: Pixel, line: seq<Pixel>) {
    LineOf(p, q, line) || LineOf(q, p, line)
  }

  // exchanging the axes

  function TurnedAll(line: seq<Pixel>): seq<Pixel> {
    seq(|line|, i requires 0 <= i < |line| => Turned(line[i]))
  }

  /** The pixels of a line, with the axes exchanged if it is steep. */
  predicate Shows(pixels: seq<Pixel>, line: seq<Pixel>, steep: bool) {
    pixels == if steep then TurnedAll(line) else line
  }

  lemma ShowsNext(pixels: seq<Pixel>, line: seq<Pixel>, steep: bool, p: Pixel)
    requires Shows(pixels, line, steep)
    ensures Shows(pixels + [if steep then Turned(p) else p], line + [p], steep)
  {
    assert TurnedAll(line + [p]) == TurnedAll(line) + [Turned(p)];
  }

  lemma ShowsNothing(steep: bool)
    ensures Shows([], [], steep)
  {}

  lemma TurnedLine(p: Pixel, q: Pixel, line: seq<Pixel>)
    requires LineOf(p, q, line)
    ensures LineOf(Turned(p), Turned(q), TurnedAll(line))
  {
    forall i | 0 <= i < |line|
      ensures 2 * Abs(Cross(Turned(p), Turned(q), TurnedAll(line)[i])) <= Extent(Turned(p), Turned(q))
    {
      assert Cross(Turned(p), Turned(q), TurnedAll(line)[i]) == -Cross(p, q, line[i]);
    }
    forall i | 0 <= i < |line| - 1
      ensures Near(TurnedAll(line)[i], TurnedAll(line)[i + 1])
    {
      assert Near(line[i], line[i + 1]);
    }
  }

  /** The error term after j columns and k steps along y. */
  function Error(dx: int, dy: int, j: int, k: int): int {
    dx / 2 - j * dy + k * dx
  }

  lemma ErrorNext(dx: int, dy: int, j: int, k: int)
    ensures Error(dx, dy, j + 1, k) == Error(dx, dy, j, k) - dy
    ensures Error(dx, dy, j + 1, k + 1) == Error(dx, dy, j, k) - dy + dx
  {
    assert (j + 1) * dy == j * dy + dy && (k + 1) * dx == k * dx + dx;
  }

  /** With the error term in range, the pixel is within half a pixel of the line. */
  lemma WithinHalf(p: Pixel, q: Pixel, j: int, k: int, ystep: int)
    requires p.x <= q.x && Abs(q.y - p.y) <= q.x - p.x
    requires ystep == if p.y < q.y then 1 else -1
    requires var e := Error(q.x - p.x, Abs(q.y - p.y), j, k); 0 <= e && (e < q.x - p.x || (e == 0 && q.x == p.x))
    ensures 2 * Abs(Cross(p, q, Pixel(p.x + j, p.y + ystep * k))) <= q.x - p.x
  {
    var dx, dy := q.x - p.x, Abs(q.y - p.y);
    var c := Cross(p, q, Pixel(p.x + j, p.y + ystep * k));
    assert q.y - p.y == ystep * dy || (dy == 0 && q.y == p.y);
    assert c == ystep * (k * dx - j * dy) by {
      if ystep == 1 {
        assert c == dx * k - dy * j;
      } else {
        assert c == dx * -k - (-dy) * j;
      }
    }
    assert k * dx - j * dy == Error(dx, dy, j, k) - dx / 2;
  }

  lemma Multiples(dx: int, m: int)
    requires dx > 0
    ensures m >= 1 ==> dx * m >= dx
    ensures m <= -1 ==> dx * m <= -dx
    ensures m <= 0 ==> dx * m <= 0
  {}

  /** No column has more steps along y than the end, and the last column has as many. */
  lemma StepsToEnd(dx: int, dy: int, j: int, k: int)
    requires 0 <= dy <= dx && 0 < dx && 0 <= j <= dx && 0 <= Error(dx, dy, j, k) < dx
    ensures k <= dy && (j == dx ==> k == dy)
  {
    var m := dy - k;
    Multiples(dx, m);
    assert (dx - j) * dy >= 0;
    assert Error(dx, dy, j, k) == dx / 2 - dx * m + (dx - j) * dy by {
      assert dx * m == dx * dy - dx * k && (dx - j) * dy == dx * dy - j * dy;
    }
  }

  // the loop at column j with k steps made, in the coordinates of the longer axis
  ghost predicate LinePart(p: Pixel, q: Pixel, line: seq<Pixel>, j: int, y: int) {
    && |line| == j && (j > 0 ==> line[0] == p) && (j == 0 ==> y == p.y)
    && (forall i :: 0 <= i < j ==> line[i].x == p.x + i && 2 * Abs(Cross(p, q, line[i])) <= q.x - p.x)
    && (forall i :: 0 <= i < j - 1 ==> Near(line[i], line[i + 1]))
    && (j > 0 ==> Abs(y - line[j - 1].y) <= 1)
  }

  lemma LineNext(p: Pixel, q: Pixel, line: seq<Pixel>, j: int, y: int, y': int)
    requires LinePart(p, q, line, j, y) && 2 * Abs(Cross(p, q, Pixel(p.x + j, y))) <= q.x - p.x && Abs(y' - y) <= 1
    ensures LinePart(p, q, line + [Pixel(p.x + j, y)], j + 1, y')
  {
    hide Cross;
    var next := line + [Pixel(p.x + j, y)];
    forall i | 0 <= i < j
      ensures Near(next[i], next[i + 1])
    {
      if i < j - 1 {
        assert Near(line[i], line[i + 1]);
      }
    }
  }

  /** The state of the loop after j columns and k steps along y. */
  ghost predicate AtPoint(p: Pixel, q: Pixel, j: int, k: int, y: int, err: int) {
    var dx, dy := q.x - p.x, Abs(q.y - p.y);
    && 0 <= j && 0 <= k <= dy + 1 && (j <= dx ==> k <= dy)
    && y == p.y + (if p.y < q.y then k else -k)
    && err == Error(dx, dy, j, k) && 0 <= err && (err < dx || (dx == 0 && err == 0))
  }

  // the end of the loop body: err and y for the next column
  method NextPoint(y: int16, err: int16, dx: int16, dy: int16, ystep: int16,
                   ghost p: Pixel, ghost q: Pixel, ghost j: int, ghost k: int)
    returns (y': int16, err': int16, ghost k': int)
    requires dx as int == q.x - p.x && dy as int == Abs(q.y - p.y) && dy <= dx
        && -LIMIT <= p.y <= LIMIT && -LIMIT <= q.y <= LIMIT
    requires ystep == if p.y < q.y then 1 else -1
    requires AtPoint(p, q, j, k, y as int, err as int) && j <= dx as int
    ensures AtPoint(p, q, j + 1, k', y' as int, err' as int) && Abs(y' as int - y as int) <= 1
  {
    ErrorNext(dx as int, dy as int, j, k);
    hide Error;
    y', k' := y, k;
    err' := err - dy;
    if err' < 0 {
      y' := y' + ystep;
      k' := k' + 1;
      err' := err' + dx;
    }
    if dx > 0 && j < dx as int {
      StepsToEnd(dx as int, dy as int, j + 1, k');
    }
  }

  lemma PointFits(p: Pixel, q: Pixel, j: int, k: int, y: int, err: int)
    requires p.x <= q.x && Abs(q.y - p.y) <= q.x - p.x && j <= q.x - p.x && AtPoint(p, q, j, k, y, err)
    ensures 2 * Abs(Cross(p, q, Pixel(p.x + j, y))) <= q.x - p.x
    ensures j == q.x - p.x ==> y == q.y
  {
    hide Cross, Error;
    WithinHalf(p, q, j, k, if p.y < q.y then 1 else -1);
    if p.x < q.x {
      StepsToEnd(q.x - p.x, Abs(q.y - p.y), j, k);
    }
  }

  /** The loop of drawLine along the longer axis. */
  method DrawAlong(x0: int16, y0: int16, x1: int16, y1: int16, steep: bool) returns (pixels: seq<Pixel>)
    requires -LIMIT <= x0 as int <= x1 as int <= LIMIT && -LIMIT <= y0 as int <= LIMIT && -LIMIT <= y1 as int <= LIMIT
    requires Abs(y1 as int - y0 as int) <= x1 as int - x0 as int
    ensures exists line :: LineOf(Plot(x0, y0), Plot(x1, y1), line) && Shows(pixels, line, steep)
  {
    var dx: int16 := x1 - x0;
    var dy: int16 := if y1 < y0 then y0 - y1 else y1 - y0;
    var err: int16 := dx / 2;
    var ystep: int16 := if y0 < y1 then 1 else -1;
    var x: int16, y: int16 := x0, y0;
    pixels := [];
    ghost var p, q := Plot(x0, y0), Plot(x1, y1);
    ghost var line: seq<Pixel>, k := [], 0;
    hide Cross, Error, AtPoint, LinePart, LineOf, Near, Shows;
    Begins(p, q);
    ShowsNothing(steep);
    while x <= x1
      invariant x0 <= x && x as int <= x1 as int + 1
      invariant AtPoint(p, q, x as int - x0 as int, k, y as int, err as int)
      invariant LinePart(p, q, line, x as int - x0 as int, y as int)
      invariant x > x1 ==> line != [] && line[|line| - 1] == q
      invariant Shows(pixels, line, steep)
      decreases x1 as int - x as int
    {
      ghost var j, was, last, shown := x as int - x0 as int, y as int, line, pixels;
      PointFits(p, q, j, k, y as int, err as int);
      pixels := pixels + [if steep then Plot(y, x) else Plot(x, y)];
      line := line + [Plot(x, y)];
      ShowsNext(shown, last, steep, Plot(x, y));
      y, err, k := NextPoint(y, err, dx, dy, ystep, p, q, j, k);
      LineNext(p, q, last, j, was, y as int);
      x := x + 1;
    }
    Ends(p, q, line, y as int);
  }

  lemma Begins(p: Pixel, q: Pixel)
    requires p.x <= q.x && Abs(q.y - p.y) <= q.x - p.x
    ensures LinePart(p, q, [], 0, p.y) && AtPoint(p, q, 0, 0, p.y, (q.x - p.x) / 2)
  {}

  lemma Ends(p: Pixel, q: Pixel, line: seq<Pixel>, y: int)
    requires p.x <= q.x && Abs(q.y - p.y) <= q.x - p.x
    requires LinePart(p, q, line, q.x - p.x + 1, y) && line != [] && line[|line| - 1] == q
    ensures LineOf(p, q, line)
  {
    hide Cross;
  }

  /** drawLine: exactly one pixel per step of the longer axis, both ends included. */
  method DrawLine(x0: int16, y0: int16, x1: int16, y1: int16) returns (pixels: seq<Pixel>)
    requires -LIMIT <= x0 as int <= LIMIT && -LIMIT <= y0 as int <= LIMIT
    requires -LIMIT <= x1 as int <= LIMIT && -LIMIT <= y1 as int <= LIMIT
    ensures IsLine(Pixel(x0 as int, y0 as int), Pixel(x1 as int, y1 as int), pixels)
  {
    hide LineOf;
    var ux, uy, vx, vy := x0, y0, x1, y1;
    var steep := Abs(vy as int - uy as int) > Abs(vx as int - ux as int);
    if steep {
      ux, uy := uy, ux;
      vx, vy := vy, vx;
    }
    if ux > vx {
      ux, vx := vx, ux;
      uy, vy := vy, uy;
    }
    pixels := DrawAlong(ux, uy, vx, vy, steep);
    ghost var line :| LineOf(Plot(ux, uy), Plot(vx, vy), line) && Shows(pixels, line, steep);
    if steep {
      TurnedLine(Plot(ux, uy), Plot(vx, vy), line);
    }
  }
}
