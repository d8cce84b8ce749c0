/**
 * The obstacle field: the live obstacles, how new ones are placed (rejection
 * sampling with an exclusion square, in bands chosen by the skier's
 * direction), how the render pass culls the ones that left the view, the
 * bottom-edge order of the initial field, and the skier-versus-obstacle
 * collision query.
 *
 * Every random draw is a parameter. A coordinate draw is a fraction u in
 * [0, 1] of the range it is drawn from; a placement is given a finite list of
 * such candidate pairs and takes the first one that is open.
 */
module Field {
  import opened Assets
  import opened Obstacles
  import Skiers

  datatype Option<T> = None | Some(value: T)

  // ---------------------------------------------------------------------------
  // Random draws and placement areas

  /** A placement area: x between minX and maxX, y between minY and maxY. */
  datatype Area = Area(minX: real, maxX: real, minY: real, maxY: real)

  /** One candidate: a uniform fraction for x and one for y. */
  datatype Sample = Sample(u: real, v: real)

  /** The draws of one placement: its candidates, in order, then the obstacle type. */
  datatype PlacementDraw = PlacementDraw(samples: seq<Sample>, kind: TypeIndex)

  /** Where an obstacle was placed and what it is. */
  datatype Placement = Placement(position: Point, kind: TypeIndex)

  predicate UnitSample(s: Sample) {
    0.0 <= s.u <= 1.0 && 0.0 <= s.v <= 1.0
  }

  predicate UnitSamples(samples: seq<Sample>) {
    forall i :: 0 <= i < |samples| ==> UnitSample(samples[i])
  }

  predicate ValidDraws(draws: seq<PlacementDraw>) {
    forall i :: 0 <= i < |draws| ==> UnitSamples(draws[i].samples)
  }

  /** The candidate point a sample stands for in an area. */
  function SamplePoint(a: Area, s: Sample): Point {
    Point(Lerp(a.minX, a.maxX, s.u), Lerp(a.minY, a.maxY, s.v))
  }

  predicate InArea(p: Point, a: Area) {
    Between(a.minX, a.maxX, p.x) && Between(a.minY, a.maxY, p.y)
  }

  // ---------------------------------------------------------------------------
  // The exclusion square

  /** Half the side of the exclusion square around every placed obstacle. */
  const Exclusion := 50.0

  function Abs(r: real): real {
    if r < 0.0 then -r else r
  }

  /** The candidate `p` lies strictly inside the exclusion square of an obstacle at `q`. */
  predicate Blocks(q: Point, p: Point) {
    p.x > q.x - Exclusion && p.x < q.x + Exclusion && p.y > q.y - Exclusion && p.y < q.y + Exclusion
  }

  /** Some obstacle position in `taken` blocks the candidate `p`. */
  predicate Collides(taken: seq<Point>, p: Point) {
    exists i :: 0 <= i < |taken| && Blocks(taken[i], p)
  }

  /** Two positions are at least 50 apart along some axis. */
  predicate Apart(p: Point, q: Point) {
    Abs(p.x - q.x) >= Exclusion || Abs(p.y - q.y) >= Exclusion
  }

  /**
   * The first candidate that no taken position blocks, if there is one. It
   * lies in the area and is at least 50 away, on some axis, from every taken
   * position (exactly 50 is allowed).
   */
  function CalculateOpenPosition(taken: seq<Point>, area: Area, samples: seq<Sample>): (r: Option<Point>)
    requires UnitSamples(samples)
    ensures r.Some? ==> InArea(r.value, area)
    ensures r.Some? ==> forall j :: 0 <= j < |taken| ==> Apart(r.value, taken[j])
    decreases |samples|
  {
    if samples == [] then None
    else
      var p := SamplePoint(area, samples[0]);
      if Collides(taken, p) then
        CalculateOpenPosition(taken, area, samples[1..])
      else
        LerpBetween(area.minX, area.maxX, samples[0].u);
        LerpBetween(area.minY, area.maxY, samples[0].v);
        Some(p)
  }

  /**
   * The search takes the first open candidate: there is no result exactly
   * when every candidate is blocked, and a result is a candidate that all
   * the earlier ones were blocked before.
   */
  lemma {:induction false} OpenPositionIsFirstOpen(taken: seq<Point>, area: Area, samples: seq<Sample>)
    requires UnitSamples(samples)
    ensures var r := CalculateOpenPosition(taken, area, samples);
      (r.None? <==> forall i :: 0 <= i < |samples| ==> Collides(taken, SamplePoint(area, samples[i]))) &&
      (r.Some? ==> exists i :: 0 <= i < |samples| && r.value == SamplePoint(area, samples[i]) &&
                     forall j :: 0 <= j < i ==> Collides(taken, SamplePoint(area, samples[j])))
    decreases |samples|
  {
    if samples != [] && Collides(taken, SamplePoint(area, samples[0])) {
      var rest := samples[1..];
      OpenPositionIsFirstOpen(taken, area, rest);
      assert forall i :: 1 <= i < |samples| ==> samples[i] == rest[i - 1];
      var r := CalculateOpenPosition(taken, area, samples);
      if r.Some? {
        var i :| 0 <= i < |rest| && r.value == SamplePoint(area, rest[i]) &&
          forall j :: 0 <= j < i ==> Collides(taken, SamplePoint(area, rest[j]));
        assert r.value == SamplePoint(area, samples[i + 1]);
        forall j | 0 <= j < i + 1 ensures Collides(taken, SamplePoint(area, samples[j])) {
          if j > 0 {
            assert samples[j] == rest[j - 1];
          }
        }
      }
    }
  }

  // ---------------------------------------------------------------------------
  // Spawning

  /** Where and what each of a sequence of obstacles is. */
  function Placements(s: seq<Obstacle>): (ps: seq<Placement>)
    ensures |ps| == |s|
    ensures forall i :: 0 <= i < |s| ==> ps[i] == Placement(Point(s[i].x, s[i].y), s[i].obstacleType)
  {
    seq(|s|, i requires 0 <= i < |s| => Placement(Point(s[i].x, s[i].y), s[i].obstacleType))
  }

  function PlacedPoints(ps: seq<Placement>): (pts: seq<Point>)
    ensures |pts| == |ps|
    ensures forall i :: 0 <= i < |ps| ==> pts[i] == ps[i].position
  {
    seq(|ps|, i requires 0 <= i < |ps| => ps[i].position)
  }

  /** The positions of a sequence of obstacles. */
  function Positions(s: seq<Obstacle>): (ps: seq<Point>)
    ensures |ps| == |s|
    ensures forall i :: 0 <= i < |s| ==> ps[i] == Point(s[i].x, s[i].y)
  {
    PlacedPoints(Placements(s))
  }

  lemma PlacedPointsAppend(a: seq<Placement>, b: seq<Placement>)
    ensures PlacedPoints(a + b) == PlacedPoints(a) + PlacedPoints(b)
  {
    var lhs, rhs := PlacedPoints(a + b), PlacedPoints(a) + PlacedPoints(b);
    forall i | 0 <= i < |a + b| ensures lhs[i] == rhs[i] {
      if i >= |a| {
        assert (a + b)[i] == b[i - |a|];
      }
    }
  }

  /**
   * What one placement in `area` with `draw` adds: an obstacle of the drawn
   * type at the first open candidate, or nothing when every candidate is
   * blocked by `taken`.
   */
  function Outcome(taken: seq<Point>, area: Area, draw: PlacementDraw): (r: seq<Placement>)
    requires UnitSamples(draw.samples)
  {
    match CalculateOpenPosition(taken, area, draw.samples)
    case None => []
    case Some(p) => [Placement(p, draw.kind)]
  }

  /**
   * A placement adds nothing exactly when every candidate is blocked; otherwise
   * it adds one obstacle of the drawn type at the first candidate that is not.
   */
  lemma OutcomeIsFirstOpen(taken: seq<Point>, area: Area, draw: PlacementDraw)
    requires UnitSamples(draw.samples)
    ensures var r := Outcome(taken, area, draw);
      var c := draw.samples;
      (r == [] <==> forall i :: 0 <= i < |c| ==> Collides(taken, SamplePoint(area, c[i]))) &&
      (r != [] ==> |r| == 1 && r[0].kind == draw.kind && InArea(r[0].position, area) &&
                   exists i :: 0 <= i < |c| && r[0].position == SamplePoint(area, c[i]) &&
                     forall j :: 0 <= j < i ==> Collides(taken, SamplePoint(area, c[j])))
  {
    OpenPositionIsFirstOpen(taken, area, draw.samples);
  }

  /**
   * The obstacles a run of placements adds, one attempt per area in order,
   * attempt i using draws[i]: each accepted position blocks the later attempts.
   */
  function Spawned(taken: seq<Point>, areas: seq<Area>, draws: seq<PlacementDraw>): seq<Placement>
    requires |areas| <= |draws| && ValidDraws(draws)
    decreases |areas|
  {
    if areas == [] then []
    else
      var n := |areas| - 1;
      var before := Spawned(taken, areas[..n], draws);
      before + Outcome(taken + PlacedPoints(before), areas[n], draws[n])
  }

  /**
   * Continuing a run: appending the outcome of one more attempt, against
   * everything there is, to `prior` and what the run added so far gives
   * `prior` and what the longer run adds.
   */
  lemma SpawnStep(prior: seq<Placement>, areas: seq<Area>, a: Area, draws: seq<PlacementDraw>)
    requires |areas| < |draws| && ValidDraws(draws)
    ensures var taken := PlacedPoints(prior);
      var s := Spawned(taken, areas, draws);
      prior + s + Outcome(PlacedPoints(prior + s), a, draws[|areas|]) == prior + Spawned(taken, areas + [a], draws)
  {
    var s := Spawned(PlacedPoints(prior), areas, draws);
    PlacedPointsAppend(prior, s);
    assert (areas + [a])[..|areas|] == areas;
  }

  /** A run over one area is that area's placement. */
  lemma SpawnedOne(prior: seq<Placement>, areas: seq<Area>, draws: seq<PlacementDraw>)
    requires |areas| == 1 && |areas| <= |draws| && ValidDraws(draws)
    ensures prior + Spawned(PlacedPoints(prior), areas, draws) ==
      prior + Outcome(PlacedPoints(prior), areas[0], draws[0])
  {
    var taken := PlacedPoints(prior);
    assert areas[..0] == [];
    assert Spawned(taken, areas[..0], draws) == [];
    assert PlacedPoints([]) == [];
    assert taken + [] == taken;
  }

  /**
   * A run over two areas is the first area's placement followed by the
   * second's, which sees the first one's result.
   */
  lemma SpawnedTwo(prior: seq<Placement>, areas: seq<Area>, draws: seq<PlacementDraw>)
    requires |areas| == 2 && |areas| <= |draws| && ValidDraws(draws)
    ensures var first := prior + Outcome(PlacedPoints(prior), areas[0], draws[0]);
      prior + Spawned(PlacedPoints(prior), areas, draws) ==
      first + Outcome(PlacedPoints(first), areas[1], draws[1])
  {
    SpawnedOne(prior, areas[..1], draws);
    var s := Spawned(PlacedPoints(prior), areas[..1], draws);
    PlacedPointsAppend(prior, s);
  }

  lemma PrefixSplit<T>(s: seq<T>, n: nat)
    requires n <= |s|
    ensures s == s[..n] + s[n..]
  {
  }

  /**
   * A run of placements adds at most one obstacle per area, each inside one of
   * the areas, each 50 away on some axis from everything already placed and
   * from every other one it adds.
   */
  lemma {:induction false} SpawnedSeparated(taken: seq<Point>, areas: seq<Area>, draws: seq<PlacementDraw>)
    requires |areas| <= |draws| && ValidDraws(draws)
    ensures var ps := Spawned(taken, areas, draws);
      |ps| <= |areas| &&
      (forall i :: 0 <= i < |ps| ==> exists a :: a in areas && InArea(ps[i].position, a)) &&
      (forall i, j :: 0 <= i < |ps| && 0 <= j < |taken| ==> Apart(ps[i].position, taken[j])) &&
      (forall i, j :: 0 <= j < i < |ps| ==> Apart(ps[i].position, ps[j].position))
    decreases |areas|
  {
    if areas != [] {
      var n := |areas| - 1;
      var before := Spawned(taken, areas[..n], draws);
      SpawnedSeparated(taken, areas[..n], draws);
      var all := taken + PlacedPoints(before);
      var r := CalculateOpenPosition(all, areas[n], draws[n].samples);
      if r.Some? {
        var ps := before + [Placement(r.value, draws[n].kind)];
        assert ps == Spawned(taken, areas, draws);
        forall j | 0 <= j < |taken| ensures Apart(r.value, taken[j]) {
          assert all[j] == taken[j];
        }
        forall j | 0 <= j < |before| ensures Apart(r.value, before[j].position) {
          assert all[|taken| + j] == before[j].position;
        }
        assert areas[n] in areas;
      }
    }
  }

  /**
   * The bands that a new obstacle is placed in, by the skier's direction:
   * each lies outside the view, left of it, right of it or below it; a
   * crashed or jumping skier gets none.
   */
  function SpawnAreas(direction: int, skierX: real, skierY: real, gameWidth: int, gameHeight: int): (areas: seq<Area>)
    ensures |areas| <= 2
    ensures areas == [] <==> direction < Skiers.LEFT || direction > Skiers.RIGHT
    ensures forall a :: a in areas ==>
      a.maxX <= skierX || a.minX >= skierX + gameWidth as real || a.minY >= skierY + gameHeight as real
  {
    var leftEdge := skierX;
    var rightEdge := skierX + gameWidth as real;
    var topEdge := skierY;
    var bottomEdge := skierY + gameHeight as real;
    var leftBand := Area(leftEdge - 50.0, leftEdge, topEdge, bottomEdge);
    var rightBand := Area(rightEdge, rightEdge + 50.0, topEdge, bottomEdge);
    var bottomBand := Area(leftEdge, rightEdge, bottomEdge, bottomEdge + 50.0);
    if direction == Skiers.LEFT then [leftBand]
    else if direction == Skiers.LEFT_DOWN then [leftBand, bottomBand]
    else if direction == Skiers.DOWN then [bottomBand]
    else if direction == Skiers.RIGHT_DOWN then [rightBand, bottomBand]
    else if direction == Skiers.RIGHT then [rightBand]
    else []
  }

  /**
   * One band for LEFT, DOWN and RIGHT, two for the diagonals, none otherwise.
   * Each band is 50 wide just outside the left or right edge of the view, over
   * its full height, or 50 high just below its bottom edge, over its full width.
   */
  lemma SpawnBands(direction: int, skierX: real, skierY: real, gameWidth: int, gameHeight: int)
    ensures var areas := SpawnAreas(direction, skierX, skierY, gameWidth, gameHeight);
      |areas| == (if direction in {Skiers.LEFT, Skiers.DOWN, Skiers.RIGHT} then 1
                  else if direction in {Skiers.LEFT_DOWN, Skiers.RIGHT_DOWN} then 2 else 0) &&
      forall a :: a in areas ==>
        (a.maxX - a.minX == 50.0 && a.minY == skierY && a.maxY == skierY + gameHeight as real &&
         (a.maxX == skierX || a.minX == skierX + gameWidth as real)) ||
        (a.maxY - a.minY == 50.0 && a.minY == skierY + gameHeight as real &&
         a.minX == skierX && a.maxX == skierX + gameWidth as real)
  {
  }

  /** The number of initial obstacles: ceil(k * (W / 800) * (H / 500)), none if that is not positive. */
  function InitialCount(k: int, gameWidth: int, gameHeight: int): nat {
    var n := CeilDiv(k * gameWidth * gameHeight, 800 * 500);
    if n > 0 then n else 0
  }

  /** The count scales with the view's area: k at 800 x 500, 4k at 1600 x 1000. */
  /**
   * The count is the least n with n * 800 * 500 >= k * W * H, that is,
   * ceil(k * (W / 800) * (H / 500)), when that is positive, and zero otherwise.
   */
  lemma InitialCountIsCeiling(k: int, gameWidth: int, gameHeight: int)
    ensures var n := InitialCount(k, gameWidth, gameHeight);
      (k * gameWidth * gameHeight <= 0 ==> n == 0) &&
      (k * gameWidth * gameHeight > 0 ==> (n - 1) * (800 * 500) < k * gameWidth * gameHeight <= n * (800 * 500))
  {
  }

  lemma InitialCounts(k: int)
    requires 5 <= k <= 7
    ensures InitialCount(k, 800, 500) == k && 5 <= InitialCount(k, 800, 500) <= 7
    ensures InitialCount(k, 1600, 1000) == 4 * k && 20 <= InitialCount(k, 1600, 1000) <= 28
  {
  }

  /** Where the initial obstacles go: the lower half of the view and a margin around it. */
  function InitialArea(gameWidth: int, gameHeight: int): Area {
    Area(-50.0, gameWidth as real + 50.0, gameHeight as real / 2.0 + 100.0, gameHeight as real + 50.0)
  }

  function Repeat(a: Area, n: nat): (r: seq<Area>)
    ensures |r| == n && forall i :: 0 <= i < n ==> r[i] == a
  {
    seq(n, _ => a)
  }

  // ---------------------------------------------------------------------------
  // The render pass's cull

  /** Where an obstacle is drawn: relative to the skier, less half its sprite. */
  function ScreenPosition(o: Obstacle, skierX: real, skierY: real, sizes: SpriteSizes): Point
  {
    var rect := o.ObstacleRect(sizes);
    Point(rect.x - skierX - rect.width / 2.0, rect.y - skierY - rect.height / 2.0)
  }

  /** The render pass drops an obstacle drawn at `p`. */
  predicate OutOfView(p: Point, gameWidth: int, gameHeight: int) {
    p.x < -100.0 || p.x > gameWidth as real + 50.0 || p.y < -100.0 || p.y > gameHeight as real + 50.0
  }

  /** `p` lies in [-100, W + 50] x [-100, H + 50], bounds included. */
  predicate InMargin(p: Point, gameWidth: int, gameHeight: int) {
    -100.0 <= p.x <= gameWidth as real + 50.0 && -100.0 <= p.y <= gameHeight as real + 50.0
  }

  /** The obstacles the render pass keeps, in their order; never more than there were. */
  function Culled(s: seq<Obstacle>, skierX: real, skierY: real, gameWidth: int, gameHeight: int, sizes: SpriteSizes): (c: seq<Obstacle>)
    ensures |c| <= |s|
  {
    if s == [] then []
    else
      var o := s[|s| - 1];
      Culled(s[..|s| - 1], skierX, skierY, gameWidth, gameHeight, sizes) +
        (if OutOfView(ScreenPosition(o, skierX, skierY, sizes), gameWidth, gameHeight) then [] else [o])
  }

  /** The cull keeps exactly the obstacles drawn inside the margin. */
  lemma {:induction false} CulledMembers(s: seq<Obstacle>, skierX: real, skierY: real, gameWidth: int, gameHeight: int, sizes: SpriteSizes)
    ensures forall o :: o in Culled(s, skierX, skierY, gameWidth, gameHeight, sizes) <==>
      o in s && InMargin(ScreenPosition(o, skierX, skierY, sizes), gameWidth, gameHeight)
  {
    if s != [] {
      CulledMembers(s[..|s| - 1], skierX, skierY, gameWidth, gameHeight, sizes);
      assert s == s[..|s| - 1] + [s[|s| - 1]];
    }
  }

  /** The cull works piece by piece, so it keeps the original order. */
  lemma {:induction false} CulledConcat(a: seq<Obstacle>, b: seq<Obstacle>, skierX: real, skierY: real, gameWidth: int, gameHeight: int, sizes: SpriteSizes)
    ensures Culled(a + b, skierX, skierY, gameWidth, gameHeight, sizes) ==
      Culled(a, skierX, skierY, gameWidth, gameHeight, sizes) + Culled(b, skierX, skierY, gameWidth, gameHeight, sizes)
    decreases |b|
  {
    if b == [] {
      assert a + b == a;
    } else {
      var n := |b| - 1;
      CulledConcat(a, b[..n], skierX, skierY, gameWidth, gameHeight, sizes);
      assert (a + b)[..|a + b| - 1] == a + b[..n];
    }
  }

  /** A second cull from the same skier position removes nothing more. */
  lemma {:induction false} CulledIdempotent(s: seq<Obstacle>, skierX: real, skierY: real, gameWidth: int, gameHeight: int, sizes: SpriteSizes)
    ensures var c := Culled(s, skierX, skierY, gameWidth, gameHeight, sizes);
      Culled(c, skierX, skierY, gameWidth, gameHeight, sizes) == c
  {
    if s != [] {
      var n := |s| - 1;
      var o := s[n];
      var front := Culled(s[..n], skierX, skierY, gameWidth, gameHeight, sizes);
      CulledIdempotent(s[..n], skierX, skierY, gameWidth, gameHeight, sizes);
      var kept := if OutOfView(ScreenPosition(o, skierX, skierY, sizes), gameWidth, gameHeight) then [] else [o];
      CulledConcat(front, kept, skierX, skierY, gameWidth, gameHeight, sizes);
      if kept == [o] {
        assert [o][..0] == [];
      }
    }
  }

  // ---------------------------------------------------------------------------
  // The initial order: a stable sort by bottom edge
  //
  // As lodash's sortBy does it: pair every obstacle with its criterion, sort
  // the pairs stably by criterion, and take the obstacles back out.

  /** An obstacle paired with its sort criterion. */
  datatype Keyed = Keyed(value: Obstacle, criterion: real)

  /** The sort criterion: the bottom edge of the sprite rectangle. */
  function Bottom(o: Obstacle, sizes: SpriteSizes): real
  {
    var rect := o.ObstacleRect(sizes);
    rect.y + rect.height
  }

  function Criteria(s: seq<Obstacle>, sizes: SpriteSizes): (r: seq<Keyed>)
    ensures |r| == |s| && forall i :: 0 <= i < |s| ==> r[i] == Keyed(s[i], Bottom(s[i], sizes))
  {
    if s == [] then [] else Criteria(s[..|s| - 1], sizes) + [Keyed(s[|s| - 1], Bottom(s[|s| - 1], sizes))]
  }

  function Values(t: seq<Keyed>): (r: seq<Obstacle>)
    ensures |r| == |t| && forall i :: 0 <= i < |t| ==> r[i] == t[i].value
  {
    if t == [] then [] else Values(t[..|t| - 1]) + [t[|t| - 1].value]
  }

  lemma ValuesAppend(t: seq<Keyed>, k: Keyed)
    ensures Values(t + [k]) == Values(t) + [k.value]
  {
    assert (t + [k])[..|t|] == t;
  }

  predicate SortedByCriterion(t: seq<Keyed>) {
    forall i, j :: 0 <= i < j < |t| ==> t[i].criterion <= t[j].criterion
  }

  /** Inserts `k` after every pair whose criterion is not above its own. */
  function InsertByCriterion(t: seq<Keyed>, k: Keyed): (r: seq<Keyed>)
    ensures multiset(r) == multiset(t) + multiset{k}
  {
    if t == [] then [k]
    else
      var n := |t| - 1;
      if k.criterion < t[n].criterion then
        assert t == t[..n] + [t[n]];
        InsertByCriterion(t[..n], k) + [t[n]]
      else
        t + [k]
  }

  /** Stable insertion sort by criterion; the same pairs in a new order. */
  function SortByCriterion(t: seq<Keyed>): (r: seq<Keyed>)
    ensures multiset(r) == multiset(t)
  {
    if t == [] then []
    else
      var n := |t| - 1;
      assert t == t[..n] + [t[n]];
      InsertByCriterion(SortByCriterion(t[..n]), t[n])
  }

  lemma {:induction false} InsertValues(t: seq<Keyed>, k: Keyed)
    ensures multiset(Values(InsertByCriterion(t, k))) == multiset(Values(t)) + multiset{k.value}
  {
    if t != [] {
      var n := |t| - 1;
      assert t == t[..n] + [t[n]];
      ValuesAppend(t[..n], t[n]);
      if k.criterion < t[n].criterion {
        InsertValues(t[..n], k);
        ValuesAppend(InsertByCriterion(t[..n], k), t[n]);
      } else {
        ValuesAppend(t, k);
      }
    }
  }

  lemma {:induction false} SortValues(t: seq<Keyed>)
    ensures multiset(Values(SortByCriterion(t))) == multiset(Values(t))
  {
    if t != [] {
      var n := |t| - 1;
      assert t == t[..n] + [t[n]];
      ValuesAppend(t[..n], t[n]);
      SortValues(t[..n]);
      InsertValues(SortByCriterion(t[..n]), t[n]);
    }
  }

  /** The obstacles ordered by bottom edge, equal bottoms in their original order; the same obstacles. */
  function SortByBottom(s: seq<Obstacle>, sizes: SpriteSizes): (r: seq<Obstacle>)
    ensures multiset(r) == multiset(s)
  {
    var keyed := Criteria(s, sizes);
    assert Values(keyed) == s;
    SortValues(keyed);
    Values(SortByCriterion(keyed))
  }

  /** The pairs of `t` whose criterion is `v`, in order. */
  function WithCriterion(t: seq<Keyed>, v: real): seq<Keyed> {
    if t == [] then []
    else WithCriterion(t[..|t| - 1], v) + (if t[|t| - 1].criterion == v then [t[|t| - 1]] else [])
  }

  /** Appending a pair whose criterion is at least every other keeps the order. */
  lemma SortedAppend(s: seq<Keyed>, x: Keyed)
    requires SortedByCriterion(s)
    requires forall i :: 0 <= i < |s| ==> s[i].criterion <= x.criterion
    ensures SortedByCriterion(s + [x])
  {
    var r := s + [x];
    forall i, j | 0 <= i < j < |r| ensures r[i].criterion <= r[j].criterion {
      assert r[i] == s[i];
      if j < |s| {
        assert r[j] == s[j];
      }
    }
  }

  /** Inserting never brings in a criterion above a bound that all the pairs respect. */
  lemma InsertBounded(t: seq<Keyed>, k: Keyed, b: real)
    requires forall i :: 0 <= i < |t| ==> t[i].criterion <= b
    requires k.criterion <= b
    ensures forall i :: 0 <= i < |InsertByCriterion(t, k)| ==> InsertByCriterion(t, k)[i].criterion <= b
  {
    var r := InsertByCriterion(t, k);
    forall i | 0 <= i < |r| ensures r[i].criterion <= b {
      assert r[i] in multiset(r);
      if r[i] != k {
        assert r[i] in multiset(t);
        var j :| 0 <= j < |t| && t[j] == r[i];
      }
    }
  }

  lemma {:induction false} InsertSorted(t: seq<Keyed>, k: Keyed)
    requires SortedByCriterion(t)
    ensures SortedByCriterion(InsertByCriterion(t, k))
  {
    if t != [] {
      var n := |t| - 1;
      var init := t[..n];
      assert SortedByCriterion(init) by {
        forall i, j | 0 <= i < j < |init| ensures init[i].criterion <= init[j].criterion {
          assert init[i] == t[i] && init[j] == t[j];
        }
      }
      if k.criterion < t[n].criterion {
        var front := InsertByCriterion(init, k);
        InsertSorted(init, k);
        forall i | 0 <= i < |init| ensures init[i].criterion <= t[n].criterion {
          assert init[i] == t[i];
        }
        InsertBounded(init, k, t[n].criterion);
        SortedAppend(front, t[n]);
        assert InsertByCriterion(t, k) == front + [t[n]];
      } else {
        forall i | 0 <= i < |t| ensures t[i].criterion <= k.criterion {
          if i < n {
            assert t[i].criterion <= t[n].criterion;
          }
        }
        SortedAppend(t, k);
        assert InsertByCriterion(t, k) == t + [k];
      }
    }
  }

  lemma {:induction false} InsertStable(t: seq<Keyed>, k: Keyed, v: real)
    ensures WithCriterion(InsertByCriterion(t, k), v) == WithCriterion(t, v) + (if k.criterion == v then [k] else [])
  {
    var mine := if k.criterion == v then [k] else [];
    if t == [] {
      assert [k][..0] == [];
    } else {
      var n := |t| - 1;
      var last := if t[n].criterion == v then [t[n]] else [];
      assert WithCriterion(t, v) == WithCriterion(t[..n], v) + last;
      if k.criterion < t[n].criterion {
        var front := InsertByCriterion(t[..n], k);
        InsertStable(t[..n], k, v);
        var r := front + [t[n]];
        assert InsertByCriterion(t, k) == r;
        assert r[..|r| - 1] == front;
        assert WithCriterion(r, v) == WithCriterion(t[..n], v) + mine + last;
        // k and t[n] differ in criterion, so at most one of them has criterion v
        if mine == [] {
          assert WithCriterion(t[..n], v) + mine == WithCriterion(t[..n], v);
          assert WithCriterion(t, v) + mine == WithCriterion(t, v);
        } else {
          assert last == [];
          assert WithCriterion(t[..n], v) + last == WithCriterion(t[..n], v);
        }
      } else {
        var r := t + [k];
        assert InsertByCriterion(t, k) == r;
        assert r[..|r| - 1] == t;
      }
    }
  }

  lemma {:induction false} SortByCriterionSorted(t: seq<Keyed>)
    ensures SortedByCriterion(SortByCriterion(t))
  {
    if t != [] {
      var n := |t| - 1;
      SortByCriterionSorted(t[..n]);
      InsertSorted(SortByCriterion(t[..n]), t[n]);
    }
  }

  lemma {:induction false} SortByCriterionStable(t: seq<Keyed>, v: real)
    ensures WithCriterion(SortByCriterion(t), v) == WithCriterion(t, v)
  {
    if t != [] {
      var n := |t| - 1;
      SortByCriterionStable(t[..n], v);
      InsertStable(SortByCriterion(t[..n]), t[n], v);
    }
  }

  ghost predicate SortedByBottom(s: seq<Obstacle>, sizes: SpriteSizes)
  {
    forall i, j :: 0 <= i < j < |s| ==> Bottom(s[i], sizes) <= Bottom(s[j], sizes)
  }

  /** The obstacles of `s` whose bottom edge is `v`, in order. */
  function WithBottom(s: seq<Obstacle>, v: real, sizes: SpriteSizes): seq<Obstacle>
  {
    if s == [] then []
    else WithBottom(s[..|s| - 1], v, sizes) + (if Bottom(s[|s| - 1], sizes) == v then [s[|s| - 1]] else [])
  }

  /** Every pair carries its obstacle's bottom edge as criterion. */
  ghost predicate Consistent(t: seq<Keyed>, sizes: SpriteSizes)
  {
    forall i :: 0 <= i < |t| ==> t[i].criterion == Bottom(t[i].value, sizes)
  }

  lemma {:induction false} WithBottomValues(t: seq<Keyed>, v: real, sizes: SpriteSizes)
    requires Consistent(t, sizes)
    ensures WithBottom(Values(t), v, sizes) == Values(WithCriterion(t, v))
  {
    if t != [] {
      var n := |t| - 1;
      WithBottomValues(t[..n], v, sizes);
      assert Values(t)[..n] == Values(t[..n]);
      ValuesAppend(WithCriterion(t[..n], v), t[n]);
    }
  }

  /** Sorting the keyed obstacles keeps every pair's criterion its obstacle's bottom edge. */
  lemma SortedConsistent(s: seq<Obstacle>, sizes: SpriteSizes)
    ensures Consistent(SortByCriterion(Criteria(s, sizes)), sizes)
  {
    var keyed := Criteria(s, sizes);
    var sorted := SortByCriterion(keyed);
    forall i | 0 <= i < |sorted| ensures sorted[i].criterion == Bottom(sorted[i].value, sizes) {
      assert sorted[i] in multiset(keyed);
    }
  }

  /** The sort orders the obstacles by bottom edge. */
  lemma SortByBottomSorted(s: seq<Obstacle>, sizes: SpriteSizes)
    ensures SortedByBottom(SortByBottom(s, sizes), sizes)
  {
    var sorted := SortByCriterion(Criteria(s, sizes));
    SortedConsistent(s, sizes);
    SortByCriterionSorted(Criteria(s, sizes));
    var r := Values(sorted);
    forall i, j | 0 <= i < j < |r| ensures Bottom(r[i], sizes) <= Bottom(r[j], sizes) {
      assert sorted[i].criterion <= sorted[j].criterion;
    }
  }

  /** The sort is stable: the obstacles sharing any one bottom edge keep their relative order. */
  lemma SortByBottomStable(s: seq<Obstacle>, sizes: SpriteSizes, v: real)
    ensures WithBottom(SortByBottom(s, sizes), v, sizes) == WithBottom(s, v, sizes)
  {
    var keyed := Criteria(s, sizes);
    var sorted := SortByCriterion(keyed);
    assert Values(keyed) == s;
    SortedConsistent(s, sizes);
    SortByCriterionStable(keyed, v);
    WithBottomValues(keyed, v, sizes);
    WithBottomValues(sorted, v, sizes);
  }

  // ---------------------------------------------------------------------------
  // Collision

  /**
   * The rectangles meet unless one lies strictly beyond the other on some
   * axis; rectangles that only touch along an edge meet.
   */
  function IntersectRect(r1: Bounds, r2: Bounds): (hit: bool)
    ensures hit <==> r2.left <= r1.right && r1.left <= r2.right && r2.top <= r1.bottom && r1.top <= r2.bottom
  {
    !(r2.left > r1.right || r2.right < r1.left || r2.top > r1.bottom || r2.bottom < r1.top)
  }

  lemma IntersectSymmetric(r1: Bounds, r2: Bounds)
    ensures IntersectRect(r1, r2) == IntersectRect(r2, r1)
  {
  }

  /** For well-formed rectangles the test holds exactly when the two closed rectangles share a point. */
  lemma IntersectIffCommonPoint(r1: Bounds, r2: Bounds)
    requires WellFormed(r1) && WellFormed(r2)
    ensures IntersectRect(r1, r2) <==> exists x, y :: Contains(r1, x, y) && Contains(r2, x, y)
  {
    if IntersectRect(r1, r2) {
      var x := if r1.left < r2.left then r2.left else r1.left;
      var y := if r1.top < r2.top then r2.top else r1.top;
      assert Contains(r1, x, y) && Contains(r2, x, y);
    }
  }

  /** Two rectangles side by side, sharing only part of an edge, count as intersecting. */
  lemma TouchingEdgesIntersect(r1: Bounds, r2: Bounds)
    requires WellFormed(r1) && WellFormed(r2)
    requires r1.right == r2.left && r2.top <= r1.bottom && r1.top <= r2.bottom
    ensures IntersectRect(r1, r2)
  {
  }

  /** The index of the first obstacle whose collision band meets `rect`, or |s| when none does. */
  function FirstHit(s: seq<Obstacle>, rect: Bounds, sizes: SpriteSizes): (i: nat)
    ensures i <= |s|
    ensures i < |s| ==> IntersectRect(rect, s[i].ObstacleBounds(sizes))
    ensures forall j :: 0 <= j < i ==> !IntersectRect(rect, s[j].ObstacleBounds(sizes))
  {
    if s == [] then 0
    else if IntersectRect(rect, s[0].ObstacleBounds(sizes)) then 0
    else 1 + FirstHit(s[1..], rect, sizes)
  }

  // ---------------------------------------------------------------------------
  // The handler

  /** Obstacle i of `s` is 50 away on some axis from every other obstacle of `s`. */
  ghost predicate ApartFromOthers(s: seq<Obstacle>, i: int)
    requires 0 <= i < |s|
  {
    forall j :: 0 <= j < |s| && s[j] != s[i] ==> Apart(Point(s[i].x, s[i].y), Point(s[j].x, s[j].y))
  }

  ghost predicate Separated(s: seq<Obstacle>) {
    forall i :: 0 <= i < |s| ==> ApartFromOthers(s, i)
  }

  /** Obstacles drawn from a separated sequence are separated. */
  lemma SeparatedSubset(s: seq<Obstacle>, t: seq<Obstacle>)
    requires Separated(s) && forall o :: o in t ==> o in s
    ensures Separated(t)
  {
    forall i | 0 <= i < |t| ensures ApartFromOthers(t, i) {
      assert t[i] in s;
      var i' :| 0 <= i' < |s| && s[i'] == t[i];
      assert ApartFromOthers(s, i');
      forall j | 0 <= j < |t| && t[j] != t[i]
        ensures Apart(Point(t[i].x, t[i].y), Point(t[j].x, t[j].y))
      {
        assert t[j] in s;
        var j' :| 0 <= j' < |s| && s[j'] == t[j];
      }
    }
  }

  /** Reordering keeps obstacles apart. */
  lemma SeparatedPermutation(s: seq<Obstacle>, t: seq<Obstacle>)
    requires Separated(s) && multiset(s) == multiset(t)
    ensures Separated(t)
  {
    forall o | o in t ensures o in s {
      assert o in multiset(t);
    }
    SeparatedSubset(s, t);
  }

  /** Adding an obstacle apart from all the others keeps them separated. */
  lemma PushSeparated(s: seq<Obstacle>, o: Obstacle)
    requires Separated(s) && o !in s
    requires forall j :: 0 <= j < |s| ==> Apart(Point(o.x, o.y), Point(s[j].x, s[j].y))
    ensures Separated(s + [o])
  {
    var t := s + [o];
    forall i | 0 <= i < |t| ensures ApartFromOthers(t, i) {
      if i < |s| {
        assert ApartFromOthers(s, i);
        forall j | 0 <= j < |t| && t[j] != t[i]
          ensures Apart(Point(t[i].x, t[i].y), Point(t[j].x, t[j].y))
        {
          if j < |s| {
            assert t[j] == s[j];
          }
        }
      } else {
        forall j | 0 <= j < |t| && t[j] != t[i]
          ensures Apart(Point(t[i].x, t[i].y), Point(t[j].x, t[j].y))
        {
          assert t[j] == s[j];
        }
      }
    }
  }

  lemma PushPlacements(s: seq<Obstacle>, o: Obstacle)
    ensures Placements(s + [o]) == Placements(s) + [Placement(Point(o.x, o.y), o.obstacleType)]
  {
    assert (s + [o])[..|s|] == s;
  }

  /** The placements past a prefix are what follows the prefix's placements. */
  lemma SuffixPlacements(s: seq<Obstacle>, start: seq<Obstacle>, prior: seq<Placement>, rest: seq<Placement>)
    requires |start| <= |s| && s[..|start|] == start && Placements(start) == prior
    requires Placements(s) == prior + rest
    ensures Placements(s[|start|..]) == rest
  {
    var added := s[|start|..];
    forall j | 0 <= j < |added| ensures Placements(added)[j] == rest[j] {
      assert added[j] == s[|start| + j];
      assert Placements(s)[|start| + j] == rest[j];
    }
  }

  class ObstacleHandler {
    var obstacles: seq<Obstacle>
    const mainSkier: Skiers.Skier
    const gameWidth: int
    const gameHeight: int
    const sizes: SpriteSizes

    /** No two live obstacles are within each other's exclusion square. */
    ghost predicate Valid()
      reads this
    {
      Separated(obstacles)
    }

    constructor (skier: Skiers.Skier, gameWidth: int, gameHeight: int, sizes: SpriteSizes)
      ensures Valid()
      ensures obstacles == [] && mainSkier == skier
      ensures this.gameWidth == gameWidth && this.gameHeight == gameHeight && this.sizes == sizes
    {
      obstacles := [];
      mainSkier := skier;
      this.gameWidth := gameWidth;
      this.gameHeight := gameHeight;
      this.sizes := sizes;
    }

    method Reset()
      modifies this
      ensures Valid()
      ensures obstacles == []
    {
      obstacles := [];
    }

    /**
     * Places one obstacle at the first open candidate of `draw` in `area`,
     * with the drawn type, after all the others; places nothing when every
     * candidate is blocked.
     */
    method PlaceRandomObstacle(area: Area, draw: PlacementDraw) returns (placed: bool)
      requires Valid() && UnitSamples(draw.samples)
      modifies this
      ensures Valid()
      ensures |obstacles| >= |old(obstacles)| && obstacles[..|old(obstacles)|] == old(obstacles)
      ensures Placements(obstacles) == old(Placements(obstacles)) + Outcome(PlacedPoints(old(Placements(obstacles))), area, draw)
      ensures placed <==> |obstacles| == |old(obstacles)| + 1
      ensures forall i :: |old(obstacles)| <= i < |obstacles| ==> fresh(obstacles[i])
    {
      var position := CalculateOpenPosition(Positions(obstacles), area, draw.samples);
      placed := position.Some?;
      ghost var taken := Positions(obstacles);
      ghost var prior := Placements(obstacles);
      if placed {
        ghost var before := obstacles;
        var o := new Obstacle(position.value, draw.kind);
        PushSeparated(before, o);
        PushPlacements(before, o);
        obstacles := obstacles + [o];
        assert Outcome(taken, area, draw) == [Placement(position.value, draw.kind)];
      } else {
        assert Outcome(taken, area, draw) == [];
      }
    }

    /**
     * One in eight: only a gate draw of 8 spawns. The bands come from the
     * skier's direction and position; attempt i uses draws[i].
     */
    method PlaceNewObstacle(direction: int, gate: int, draws: seq<PlacementDraw>)
      requires Valid() && 1 <= gate <= 8 && |draws| >= 2 && ValidDraws(draws)
      modifies this
      ensures Valid()
      ensures |obstacles| >= |old(obstacles)| && obstacles[..|old(obstacles)|] == old(obstacles)
      ensures gate != 8 ==> obstacles == old(obstacles)
      ensures gate == 8 ==>
        Placements(obstacles) == old(Placements(obstacles)) +
          Spawned(old(Positions(obstacles)), SpawnAreas(direction, mainSkier.x, mainSkier.y, gameWidth, gameHeight), draws)
    {
      if gate != 8 {
        return;
      }
      var bands := SpawnAreas(direction, mainSkier.x, mainSkier.y, gameWidth, gameHeight);
      ghost var prior := Placements(obstacles);
      ghost var start := obstacles;
      if |bands| == 0 {
        return;
      }
      var placed := PlaceRandomObstacle(bands[0], draws[0]);
      if |bands| == 1 {
        SpawnedOne(prior, bands, draws);
        return;
      }
      ghost var mid := obstacles;
      placed := PlaceRandomObstacle(bands[1], draws[1]);
      SpawnedTwo(prior, bands, draws);
      assert obstacles[..|start|] == obstacles[..|mid|][..|start|];
    }

    /** Spawns only while the skier moves downhill, in the bands of its direction. */
    method CheckToPlaceObstacle(gate: int, draws: seq<PlacementDraw>)
      requires Valid() && 1 <= gate <= 8 && |draws| >= 2 && ValidDraws(draws)
      modifies this
      ensures Valid()
      ensures |obstacles| >= |old(obstacles)| && obstacles[..|old(obstacles)|] == old(obstacles)
      ensures !mainSkier.IsMoving() || gate != 8 ==> obstacles == old(obstacles)
      ensures mainSkier.IsMoving() && gate == 8 ==>
        Placements(obstacles) == old(Placements(obstacles)) +
          Spawned(old(Positions(obstacles)), SpawnAreas(mainSkier.direction, mainSkier.x, mainSkier.y, gameWidth, gameHeight), draws)
    {
      if mainSkier.IsMoving() {
        PlaceNewObstacle(mainSkier.direction, gate, draws);
      }
    }

    /**
     * The cull of the render pass: keeps, in order, the obstacles drawn within
     * the margin around the view, as seen from the skier.
     */
    method Draw()
      requires Valid()
      modifies this
      ensures Valid()
      ensures obstacles == Culled(old(obstacles), mainSkier.x, mainSkier.y, gameWidth, gameHeight, sizes)
    {
      var newObstacles := [];
      var skierX, skierY := mainSkier.x, mainSkier.y;
      var i := 0;
      while i < |obstacles|
        invariant 0 <= i <= |obstacles|
        invariant newObstacles == Culled(obstacles[..i], skierX, skierY, gameWidth, gameHeight, sizes)
      {
        var obstacle := obstacles[i];
        var rect := obstacle.ObstacleRect(sizes);
        var x := rect.x - skierX - rect.width / 2.0;
        var y := rect.y - skierY - rect.height / 2.0;
        assert obstacles[..i + 1][..i] == obstacles[..i];
        if !(x < -100.0 || x > gameWidth as real + 50.0 || y < -100.0 || y > gameHeight as real + 50.0) {
          newObstacles := newObstacles + [obstacle];
        }
        i := i + 1;
      }
      assert obstacles[..i] == obstacles;
      CulledMembers(obstacles, skierX, skierY, gameWidth, gameHeight, sizes);
      SeparatedSubset(obstacles, newObstacles);
      obstacles := newObstacles;
    }

    /**
     * The initial field: ceil(k * (W / 800) * (H / 500)) attempts in the lower
     * half of the view, attempt i using draws[i], then everything re-ordered
     * by bottom edge.
     */
    method PlaceInitialObstacles(k: int, draws: seq<PlacementDraw>) returns (ghost added: seq<Obstacle>)
      requires Valid() && 5 <= k <= 7
      requires |draws| >= InitialCount(k, gameWidth, gameHeight) && ValidDraws(draws)
      modifies this
      ensures Valid()
      ensures Placements(added) ==
        Spawned(old(Positions(obstacles)), Repeat(InitialArea(gameWidth, gameHeight), InitialCount(k, gameWidth, gameHeight)), draws)
      ensures forall o :: o in added ==> fresh(o)
      ensures obstacles == SortByBottom(old(obstacles) + added, sizes)
    {
      var numberObstacles := InitialCount(k, gameWidth, gameHeight);
      var area := InitialArea(gameWidth, gameHeight);
      ghost var start := obstacles;
      ghost var prior := Placements(obstacles);
      var i := 0;
      while i < numberObstacles
        invariant 0 <= i <= numberObstacles
        invariant Valid()
        invariant |obstacles| >= |start| && obstacles[..|start|] == start
        invariant Placements(obstacles) == prior + Spawned(PlacedPoints(prior), Repeat(area, i), draws)
        invariant forall j :: |start| <= j < |obstacles| ==> fresh(obstacles[j])
      {
        ghost var before := obstacles;
        var placed := PlaceRandomObstacle(area, draws[i]);
        SpawnStep(prior, Repeat(area, i), area, draws);
        assert Repeat(area, i) + [area] == Repeat(area, i + 1);
        assert obstacles[..|start|] == obstacles[..|before|][..|start|];
        forall j | |start| <= j < |before| ensures fresh(obstacles[j]) {
          assert obstacles[j] == before[j];
        }
        i := i + 1;
      }
      added := obstacles[|start|..];
      SuffixPlacements(obstacles, start, prior, Spawned(PlacedPoints(prior), Repeat(area, i), draws));
      PrefixSplit(obstacles, |start|);
      assert obstacles == start + added;
      ghost var sorted := SortByBottom(obstacles, sizes);
      SeparatedPermutation(obstacles, sorted);
      obstacles := SortByBottom(obstacles, sizes);
    }

    /**
     * The collision query: the first obstacle in order whose band meets the
     * skier's rectangle decides, a jump ramp making the skier jump and
     * anything else crashing it; a jumping skier passes through everything.
     */
    method CheckIfSkierHitObstacle()
      requires mainSkier.Valid()
      modifies mainSkier
      ensures mainSkier.Valid()
      ensures var i := old(FirstHit(obstacles, mainSkier.SkierRect(gameWidth, gameHeight, sizes), sizes));
        (i == |obstacles| || old(mainSkier.IsJumping()) ==> unchanged(mainSkier)) &&
        (i < |obstacles| && !old(mainSkier.IsJumping()) ==>
          mainSkier.x == old(mainSkier.x) && mainSkier.y == old(mainSkier.y) &&
          mainSkier.jumpAsset == old(mainSkier.jumpAsset) &&
          if obstacles[i].IsJump() then
            mainSkier.direction == Skiers.JUMP && mainSkier.jumpTimerOn && mainSkier.jumpCounter == 0
          else
            mainSkier.direction == Skiers.CRASHED && mainSkier.jumpTimerOn == old(mainSkier.jumpTimerOn) &&
            mainSkier.jumpCounter == old(mainSkier.jumpCounter))
    {
      var skierRect := mainSkier.SkierRect(gameWidth, gameHeight, sizes);
      var i := FirstHit(obstacles, skierRect, sizes);
      if i < |obstacles| && !mainSkier.IsJumping() {
        if obstacles[i].IsJump() {
          mainSkier.JumpSkier();
        } else {
          mainSkier.SkierCrashed();
        }
      }
    }
  }
}
