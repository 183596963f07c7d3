/**
 * The TRAUMA minigame's nerve path (class NervePath of sprites.py): a jagged polyline generated
 * from random steps, and the deviation query that measures how far the pointer is from it.
 *
 * Distances are exact and SQUARED: the source takes a square root (math.hypot) and compares
 * with the limit 22; here the squared distance is compared with 22 * 22.
 */
module Nerve {
  import opened Settings
  import opened Geometry

  // ---------------------------------------------------------------------------
  // Path generation
  // ---------------------------------------------------------------------------

  const StartX: int := 50
  const StartY: int := ScreenHeight / 2
  /** The band the y-coordinate is clamped into after every step (the top third of the screen). */
  const MinY: int := 50
  const MaxY: int := ScreenHeight / 3
  /** The loop steps while x is left of this line. */
  const EndX: int := ScreenWidth - 50
  const MinStepX: int := 30
  const MaxStepX: int := 80
  const MaxStepY: int := 50
  /** Draws enough for any run of the loop: MinStepX * MaxSteps >= EndX - StartX. */
  const MaxSteps: int := 40
  /** The visual thickness of the path. */
  const PathWidth: int := 30

  /** One iteration's random draws: randint(30, 80) for x and randint(-50, 50) for y. */
  datatype Draw = Draw(dx: int, dy: int)

  predicate ValidDraws(ds: seq<Draw>) {
    forall i | 0 <= i < |ds| :: MinStepX <= ds[i].dx <= MaxStepX && -MaxStepY <= ds[i].dy <= MaxStepY
  }

  /** Enough draws remain for the loop to reach EndX from x. */
  predicate EnoughDraws(x: int, ds: seq<Draw>) {
    MinStepX * |ds| >= EndX - x
  }

  /** The random stream a whole generation may consume. */
  predicate PathDraws(ds: seq<Draw>) {
    ValidDraws(ds) && |ds| >= MaxSteps
  }

  /** The loop's y clamp, max(MinY, min(MaxY, y)): into the band, and y itself when already in it. */
  function ClampY(y: int): (r: int)
    ensures MinY <= r <= MaxY
    ensures MinY <= y <= MaxY ==> r == y
    ensures y < MinY ==> r == MinY
    ensures y > MaxY ==> r == MaxY
  {
    Max(MinY, Min(MaxY, y))
  }

  /** One loop iteration: step x forward, perturb y and clamp it into [MinY, MaxY]. */
  function Advance(p: Point, d: Draw): Point {
    Point(p.x + d.dx, ClampY(p.y + d.dy))
  }

  /** The points the loop still appends when it stands at p with the draws ds to come. */
  function Walk(p: Point, ds: seq<Draw>): seq<Point>
    requires ValidDraws(ds) && EnoughDraws(p.x, ds)
    decreases |ds|
  {
    if p.x >= EndX then []
    else
      var q := Advance(p, ds[0]);
      [q] + Walk(q, ds[1..])
  }

  /** The polyline generated from the draws ds. */
  function GeneratedPath(ds: seq<Draw>): seq<Point>
    requires PathDraws(ds)
  {
    [Point(StartX, StartY)] + Walk(Point(StartX, StartY), ds)
  }

  /** Consecutive x-coordinates grow by an amount in [MinStepX, MaxStepX]. */
  predicate XStepsInRange(pts: seq<Point>) {
    forall i | 0 <= i < |pts| - 1 :: MinStepX <= pts[i + 1].x - pts[i].x <= MaxStepX
  }

  /** Every point lies in the clamping band. */
  predicate InBand(pts: seq<Point>) {
    forall i | 0 <= i < |pts| :: MinY <= pts[i].y <= MaxY
  }

  /** The loop's exit condition: at least two points, only the last one at or past EndX. */
  predicate StopsAtEdge(pts: seq<Point>) {
    && |pts| >= 2
    && pts[|pts| - 1].x >= EndX
    && forall i | 0 <= i < |pts| - 1 :: pts[i].x < EndX
  }

  lemma ValidDrawsTail(ds: seq<Draw>)
    requires ValidDraws(ds) && |ds| > 0
    ensures ValidDraws(ds[1..])
  {
    forall i | 0 <= i < |ds| - 1
      ensures MinStepX <= ds[1..][i].dx <= MaxStepX && -MaxStepY <= ds[1..][i].dy <= MaxStepY
    {
      assert ds[1..][i] == ds[i + 1];
    }
  }

  /** One unfolding of Walk from a point left of the edge. */
  lemma WalkUnfold(p: Point, ds: seq<Draw>)
    requires ValidDraws(ds) && EnoughDraws(p.x, ds) && p.x < EndX
    ensures |ds| > 0 && ValidDraws(ds[1..]) && EnoughDraws(Advance(p, ds[0]).x, ds[1..])
    ensures Walk(p, ds) == [Advance(p, ds[0])] + Walk(Advance(p, ds[0]), ds[1..])
  {
    ValidDrawsTail(ds);
  }

  lemma {:induction false} WalkSteps(p: Point, ds: seq<Draw>)
    requires ValidDraws(ds) && EnoughDraws(p.x, ds) && p.x < EndX
    ensures XStepsInRange([p] + Walk(p, ds))
    decreases |ds|
  {
    WalkUnfold(p, ds);
    var q := Advance(p, ds[0]);
    var pts := [p] + Walk(p, ds);
    var tail := [q] + Walk(q, ds[1..]);
    assert pts == [p] + tail;
    if q.x < EndX {
      WalkSteps(q, ds[1..]);
    } else {
      assert tail == [q];
    }
    forall i | 0 <= i < |pts| - 1 ensures MinStepX <= pts[i + 1].x - pts[i].x <= MaxStepX {
      if i > 0 {
        assert pts[i] == tail[i - 1] && pts[i + 1] == tail[i];
      }
    }
  }

  lemma {:induction false} WalkInBand(p: Point, ds: seq<Draw>)
    requires ValidDraws(ds) && EnoughDraws(p.x, ds)
    ensures InBand(Walk(p, ds))
    decreases |ds|
  {
    if p.x < EndX {
      WalkUnfold(p, ds);
      var q := Advance(p, ds[0]);
      var w := Walk(p, ds);
      var rest := Walk(q, ds[1..]);
      WalkInBand(q, ds[1..]);
      forall i | 0 <= i < |w| ensures MinY <= w[i].y <= MaxY {
        if i > 0 {
          assert w[i] == rest[i - 1];
        }
      }
    }
  }

  lemma {:induction false} WalkStops(p: Point, ds: seq<Draw>)
    requires ValidDraws(ds) && EnoughDraws(p.x, ds) && p.x < EndX
    ensures StopsAtEdge([p] + Walk(p, ds))
    decreases |ds|
  {
    WalkUnfold(p, ds);
    var q := Advance(p, ds[0]);
    var pts := [p] + Walk(p, ds);
    var tail := [q] + Walk(q, ds[1..]);
    assert pts == [p] + tail;
    if q.x < EndX {
      WalkStops(q, ds[1..]);
      forall i | 0 <= i < |pts| - 1 ensures pts[i].x < EndX {
        if i > 0 {
          assert pts[i] == tail[i - 1];
        }
      }
      assert pts[|pts| - 1] == tail[|tail| - 1];
    } else {
      assert pts == [p, q];
    }
  }

  /**
   * The shape the generation loop guarantees: it starts at (50, SCREEN_HEIGHT // 2), every step
   * moves x forward by 30..80, every point after the first lies in the band [50, SCREEN_HEIGHT // 3],
   * and the loop stops at the first point at or past SCREEN_WIDTH - 50, after at least one step.
   */
  lemma GeneratedPathShape(ds: seq<Draw>)
    requires PathDraws(ds)
    ensures GeneratedPath(ds)[0] == Point(StartX, StartY)
    ensures XStepsInRange(GeneratedPath(ds))
    ensures InBand(GeneratedPath(ds)[1..])
    ensures StopsAtEdge(GeneratedPath(ds))
  {
    WalkSteps(Point(StartX, StartY), ds);
    WalkInBand(Point(StartX, StartY), ds);
    WalkStops(Point(StartX, StartY), ds);
    assert GeneratedPath(ds)[1..] == Walk(Point(StartX, StartY), ds);
  }

  /** The first point of every path lies below the band that all later points are clamped into. */
  lemma StartOutsideBand()
    ensures !(MinY <= StartY <= MaxY)
  {
  }

  /**
   * Because the start lies more than one y-step below the band, the first step always lands on the
   * band's lower edge, SCREEN_HEIGHT // 3.
   */
  lemma SecondPointOnBandEdge(ds: seq<Draw>)
    requires PathDraws(ds)
    ensures GeneratedPath(ds)[1].y == MaxY
  {
    assert Walk(Point(StartX, StartY), ds)[0] == Advance(Point(StartX, StartY), ds[0]);
  }

  /** generate_path: the while loop that appends one clamped step per iteration. */
  method GeneratePath(ds: seq<Draw>) returns (points: seq<Point>)
    requires PathDraws(ds)
    ensures points == GeneratedPath(ds)
  {
    points := [];
    var startX := StartX;
    var startY := StartY;
    points := points + [Point(startX, startY)];

    var currentX := startX;
    var currentY := startY;
    var i := 0;
    while currentX < EndX
      invariant 0 <= i <= |ds|
      invariant ValidDraws(ds[i..]) && EnoughDraws(currentX, ds[i..])
      invariant points + Walk(Point(currentX, currentY), ds[i..]) == GeneratedPath(ds)
      decreases EndX - currentX
    {
      var rest := ds[i..];
      var next := Advance(Point(currentX, currentY), rest[0]);
      assert Walk(Point(currentX, currentY), rest) == [next] + Walk(next, rest[1..]);
      assert rest[1..] == ds[i + 1..];
      currentX := currentX + ds[i].dx;
      currentY := currentY + ds[i].dy;
      currentY := ClampY(currentY);
      points := points + [Point(currentX, currentY)];
      i := i + 1;
    }
  }

  /** A nerve path: its polyline, its two ends and its drawing width. */
  datatype NervePath = NervePath(points: seq<Point>, startPoint: Point, endPoint: Point, width: int)

  /** What every generated nerve path satisfies. */
  predicate ValidNervePath(np: NervePath) {
    && StopsAtEdge(np.points)
    && np.points[0] == Point(StartX, StartY)
    && XStepsInRange(np.points)
    && InBand(np.points[1..])
    && np.startPoint == np.points[0]
    && np.endPoint == np.points[|np.points| - 1]
  }

  /** The nerve path built from the draws ds. */
  function PathOf(ds: seq<Draw>): NervePath
    requires PathDraws(ds)
  {
    var pts := GeneratedPath(ds);
    NervePath(pts, pts[0], pts[|pts| - 1], PathWidth)
  }

  lemma PathOfValid(ds: seq<Draw>)
    requires PathDraws(ds)
    ensures ValidNervePath(PathOf(ds))
    ensures PathOf(ds).startPoint == Point(StartX, StartY)
  {
    GeneratedPathShape(ds);
  }

  /** NervePath.__init__: generate the points and record the first and last as the path's ends. */
  method NewNervePath(ds: seq<Draw>) returns (np: NervePath)
    requires PathDraws(ds)
    ensures np == PathOf(ds)
    ensures np.startPoint == np.points[0] == Point(StartX, StartY)
    ensures np.endPoint == np.points[|np.points| - 1]
    ensures |np.points| >= 2
  {
    var points := GeneratePath(ds);
    GeneratedPathShape(ds);
    np := NervePath(points, points[0], points[|points| - 1], PathWidth);
  }

  // ---------------------------------------------------------------------------
  // Point-to-segment distance
  // ---------------------------------------------------------------------------

  function Sq(v: real): real { v * v }

  /** Squared distance from p to the point a + s * (b - a) of the line through a and b. */
  function DistSqAt(p: Point, a: Point, b: Point, s: real): real {
    Sq(p.x as real - (a.x as real + s * (b.x - a.x) as real))
    + Sq(p.y as real - (a.y as real + s * (b.y - a.y) as real))
  }

  /** (p - a) . (b - a), computed on integers as the source does. */
  function Dot(p: Point, a: Point, b: Point): real {
    ((p.x - a.x) * (b.x - a.x) + (p.y - a.y) * (b.y - a.y)) as real
  }

  /** |b - a|^2, computed on integers as the source does. */
  function LenSq(a: Point, b: Point): real {
    ((b.x - a.x) * (b.x - a.x) + (b.y - a.y) * (b.y - a.y)) as real
  }

  lemma LenSqPositive(a: Point, b: Point)
    requires a != b
    ensures LenSq(a, b) > 0.0
  {
    var dx, dy := b.x - a.x, b.y - a.y;
    if dx != 0 { assert dx * dx > 0; } else { assert dy * dy > 0; }
  }

  /** The projection parameter of p onto the line through a and b, before clamping. */
  function RawParam(p: Point, a: Point, b: Point): real
    requires a != b
  {
    LenSqPositive(a, b);
    Dot(p, a, b) / LenSq(a, b)
  }

  /**
   * get_distance_to_segment, squared: a zero-length segment gives the distance to its one point;
   * otherwise the projection parameter is clamped to [0, 1] and the distance to that point is taken.
   */
  function SegmentDistSq(p: Point, a: Point, b: Point): real {
    var dx := b.x - a.x;
    var dy := b.y - a.y;
    if dx == 0 && dy == 0 then
      Sq((p.x - a.x) as real) + Sq((p.y - a.y) as real)
    else
      var t := Clamp(0.0, 1.0, RawParam(p, a, b));
      DistSqAt(p, a, b, t)
  }

  lemma MulNonneg(u: real, v: real)
    requires u >= 0.0 && v >= 0.0
    ensures u * v >= 0.0
  {
  }

  lemma ExpandDistSq(p: Point, a: Point, b: Point, s: real)
    ensures DistSqAt(p, a, b, s)
            == Sq((p.x - a.x) as real) + Sq((p.y - a.y) as real) - 2.0 * s * Dot(p, a, b) + s * s * LenSq(a, b)
  {
    var wx, wy := (p.x - a.x) as real, (p.y - a.y) as real;
    var dx, dy := (b.x - a.x) as real, (b.y - a.y) as real;
    assert Dot(p, a, b) == wx * dx + wy * dy;
    assert LenSq(a, b) == dx * dx + dy * dy;
    assert p.x as real - (a.x as real + s * dx) == wx - s * dx;
    assert p.y as real - (a.y as real + s * dy) == wy - s * dy;
    assert (wx - s * dx) * (wx - s * dx) == wx * wx - 2.0 * s * (wx * dx) + s * s * (dx * dx);
    assert (wy - s * dy) * (wy - s * dy) == wy * wy - 2.0 * s * (wy * dy) + s * s * (dy * dy);
  }

  /**
   * On the line a + s * d, the squared distance to p is |w|^2 - 2 s (w . d) + s^2 |d|^2 with
   * w = p - a; over s in [0, 1] this is least at the clamped projection parameter w . d / |d|^2.
   */
  lemma QuadraticLeastAtClamp(s: real, w: real, d: real)
    requires d > 0.0 && 0.0 <= s <= 1.0
    ensures var t := Clamp(0.0, 1.0, w / d);
            -2.0 * t * w + t * t * d <= -2.0 * s * w + s * s * d
  {
    var raw := w / d;
    var t := Clamp(0.0, 1.0, raw);
    assert w == raw * d;
    assert (-2.0 * s * w + s * s * d) - (-2.0 * t * w + t * t * d) == (s - t) * ((s + t) * d - 2.0 * w);
    if raw <= 0.0 {
      assert t == 0.0;
      assert w <= 0.0;
      MulNonneg(s, s * d - 2.0 * w);
    } else if raw >= 1.0 {
      assert t == 1.0;
      assert w >= d;
      MulNonneg(1.0 - s, 2.0 * w - (s + 1.0) * d);
    } else {
      assert t == raw;
      assert (s - t) * ((s + t) * d - 2.0 * w) == (s - t) * (s - t) * d;
      MulNonneg((s - t) * (s - t), d);
    }
  }

  /** The clamped projection gives the point of the segment nearest to p. */
  lemma SegmentDistIsNearest(p: Point, a: Point, b: Point, s: real)
    requires 0.0 <= s <= 1.0
    ensures SegmentDistSq(p, a, b) <= DistSqAt(p, a, b, s)
  {
    if a == b {
      DegenerateDistSq(p, a, s);
    } else {
      LenSqPositive(a, b);
      var t := Clamp(0.0, 1.0, RawParam(p, a, b));
      assert SegmentDistSq(p, a, b) == DistSqAt(p, a, b, t);
      ExpandDistSq(p, a, b, s);
      ExpandDistSq(p, a, b, t);
      QuadraticLeastAtClamp(s, Dot(p, a, b), LenSq(a, b));
    }
  }

  /** On a zero-length segment every parameter names the same point. */
  lemma DegenerateDistSq(p: Point, a: Point, s: real)
    ensures DistSqAt(p, a, a, s) == SegmentDistSq(p, a, a)
  {
    assert s * (a.x - a.x) as real == 0.0;
    assert s * (a.y - a.y) as real == 0.0;
  }

  /** The nearest distance is reached: it is the distance to a point of the segment. */
  lemma SegmentDistAttained(p: Point, a: Point, b: Point) returns (t: real)
    ensures 0.0 <= t <= 1.0
    ensures SegmentDistSq(p, a, b) == DistSqAt(p, a, b, t)
  {
    if a == b {
      t := 0.0;
    } else {
      t := Clamp(0.0, 1.0, RawParam(p, a, b));
    }
  }

  /** The distance to a segment does not depend on the order of its ends. */
  lemma SegmentDistSymmetric(p: Point, a: Point, b: Point)
    ensures SegmentDistSq(p, a, b) == SegmentDistSq(p, b, a)
  {
    var t1 := SegmentDistAttained(p, a, b);
    var t2 := SegmentDistAttained(p, b, a);
    ReverseAt(p, a, b, t1);
    ReverseAt(p, b, a, t2);
    SegmentDistIsNearest(p, b, a, 1.0 - t1);
    SegmentDistIsNearest(p, a, b, 1.0 - t2);
  }

  lemma ReverseAt(p: Point, a: Point, b: Point, s: real)
    ensures DistSqAt(p, a, b, s) == DistSqAt(p, b, a, 1.0 - s)
  {
    assert a.x as real + s * (b.x - a.x) as real == b.x as real + (1.0 - s) * (a.x - b.x) as real;
    assert a.y as real + s * (b.y - a.y) as real == b.y as real + (1.0 - s) * (a.y - b.y) as real;
  }

  /**
   * The distance is never negative and is zero for every point of the segment, the two ends included.
   */
  lemma SegmentDistZeroOnSegment(p: Point, a: Point, b: Point, s: real)
    requires 0.0 <= s <= 1.0
    requires p.x as real == a.x as real + s * (b.x - a.x) as real
    requires p.y as real == a.y as real + s * (b.y - a.y) as real
    ensures SegmentDistSq(p, a, b) == 0.0
  {
    assert p.x as real - (a.x as real + s * (b.x - a.x) as real) == 0.0;
    assert p.y as real - (a.y as real + s * (b.y - a.y) as real) == 0.0;
    assert DistSqAt(p, a, b, s) == 0.0;
    SegmentDistIsNearest(p, a, b, s);
    SegmentDistNonneg(p, a, b);
  }

  lemma SqNonneg(v: real)
    ensures Sq(v) >= 0.0
  {
    if v < 0.0 { MulNonneg(-v, -v); } else { MulNonneg(v, v); }
  }

  lemma DistSqAtNonneg(p: Point, a: Point, b: Point, s: real)
    ensures DistSqAt(p, a, b, s) >= 0.0
  {
    SqNonneg(p.x as real - (a.x as real + s * (b.x - a.x) as real));
    SqNonneg(p.y as real - (a.y as real + s * (b.y - a.y) as real));
  }

  lemma SegmentDistNonneg(p: Point, a: Point, b: Point)
    ensures SegmentDistSq(p, a, b) >= 0.0
  {
    var t := SegmentDistAttained(p, a, b);
    DistSqAtNonneg(p, a, b, t);
  }

  lemma SegmentDistAtEnds(a: Point, b: Point)
    ensures SegmentDistSq(a, a, b) == 0.0
    ensures SegmentDistSq(b, a, b) == 0.0
  {
    SegmentDistZeroOnSegment(a, a, b, 0.0);
    SegmentDistZeroOnSegment(b, a, b, 1.0);
  }

  // ---------------------------------------------------------------------------
  // Deviation: the minimum over the path's segments
  // ---------------------------------------------------------------------------

  /** A squared distance, or the float('inf') the minimum starts from. */
  datatype Distance = Infinite | Finite(sq: real)

  /** Python's `dist < min_dist`, with infinity above every real. */
  predicate Below(v: real, d: Distance) {
    d.Infinite? || v < d.sq
  }

  /** The squared distance from m to segment i of the polyline. */
  function SegDist(points: seq<Point>, m: Point, i: int): real
    requires 0 <= i < |points| - 1
  {
    SegmentDistSq(m, points[i], points[i + 1])
  }

  /**
   * check_deviation: the least distance from m to a segment of the polyline, or infinity when
   * there is no segment. Defined by the segments in the loop's order: the last segment replaces
   * the minimum of the earlier ones only when it is strictly nearer.
   */
  function Deviation(points: seq<Point>, m: Point): (d: Distance)
    ensures d.Infinite? <==> |points| < 2
    ensures d.Finite? ==> forall i | 0 <= i < |points| - 1 :: d.sq <= SegDist(points, m, i)
    ensures d.Finite? ==> exists i | 0 <= i < |points| - 1 :: d.sq == SegDist(points, m, i)
    decreases |points|
  {
    if |points| < 2 then Infinite
    else
      var n := |points|;
      var prefix := points[..n - 1];
      var prev := Deviation(prefix, m);
      assert forall i | 0 <= i < n - 2 :: SegDist(prefix, m, i) == SegDist(points, m, i);
      var last := SegDist(points, m, n - 2);
      if Below(last, prev) then Finite(last) else prev
  }

  /** The loop of check_deviation: a running minimum with strict improvement. */
  method CheckDeviation(points: seq<Point>, mousePos: Point) returns (minDist: Distance)
    ensures minDist == Deviation(points, mousePos)
  {
    minDist := Infinite;
    if |points| < 1 {
      return;
    }
    for i := 0 to |points| - 1
      invariant minDist == Deviation(points[..i + 1], mousePos)
    {
      var dist := SegmentDistSq(mousePos, points[i], points[i + 1]);
      assert points[..i + 2][..i + 1] == points[..i + 1];
      if Below(dist, minDist) {
        minDist := Finite(dist);
      }
    }
    assert points[..|points|] == points;
  }

  /** Python's `distance > NERVE_DEVIATION_LIMIT`, compared squared; infinity is too far. */
  predicate TooFar(d: Distance) {
    d.Infinite? || d.sq > NerveDeviationLimitSq as real
  }

  /** On a generated path the deviation is always a real distance, never the starting infinity. */
  lemma DeviationFiniteOnPath(np: NervePath, m: Point)
    requires ValidNervePath(np)
    ensures Deviation(np.points, m).Finite?
    ensures Deviation(np.points, m).sq >= 0.0
  {
    var d := Deviation(np.points, m);
    var i :| 0 <= i < |np.points| - 1 && d.sq == SegDist(np.points, m, i);
    SegmentDistNonneg(m, np.points[i], np.points[i + 1]);
  }

  /** A pointer on a vertex of the path is at distance zero from it. */
  lemma DeviationZeroOnVertex(points: seq<Point>, k: int)
    requires |points| >= 2 && 0 <= k < |points|
    ensures Deviation(points, points[k]) == Finite(0.0)
  {
    var m := points[k];
    var d := Deviation(points, m);
    var j := if k < |points| - 1 then k else k - 1;
    SegmentDistAtEnds(points[j], points[j + 1]);
    var i :| 0 <= i < |points| - 1 && d.sq == SegDist(points, m, i);
    SegmentDistNonneg(m, points[i], points[i + 1]);
  }
}
