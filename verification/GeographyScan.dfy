/** What the scan of backend/internal/geography/countries.go:209-269 decides, over exact
    reals: edges as sets of points, the crossings that are counted, holes, and a ring
    for which inside and outside are known beforehand. */
module GeographyScan {
  import opened Ordering
  import opened Geography

  // ---- Edges ----

  /** The point a fraction `t` of the way from `a` to `b`. */
  function Along(a: Point, b: Point, t: real): Point {
    Point(a.lon + t * (b.lon - a.lon), a.lat + t * (b.lat - a.lat))
  }

  lemma AlongIsOnSegment(a: Point, b: Point, t: real)
    requires 0.0 <= t <= 1.0
    ensures OnSegment(Along(a, b, t), a, b, 0.0)
  {
    var p, dx, dy := Along(a, b, t), b.lon - a.lon, b.lat - a.lat;
    Commutes(t, dx, dy);
    ScaleInUnit(dx, t, t * dx);
    ScaleInUnit(dy, t, t * dy);
  }

  lemma Commutes(t: real, dx: real, dy: real)
    ensures t * dx * dy - t * dy * dx == 0.0
  {
  }

  /** How far along a coordinate is. */
  lemma Fraction(x: real, a: real, b: real) returns (t: real)
    requires a != b && Min(a, b) <= x <= Max(a, b)
    ensures 0.0 <= t <= 1.0 && x - a == t * (b - a)
  {
    t := (x - a) / (b - a);
    if a < b { RatioInUnit(x - a, b - a); } else { RatioInUnit(a - x, a - b); NegateRatio(x - a, b - a); }
  }

  lemma OtherCoordinate(x: real, y: real, dx: real, dy: real, t: real)
    requires dx != 0.0 && x == t * dx && x * dy - y * dx == 0.0
    ensures y == t * dy
  {
    assert (t * dy - y) * dx == 0.0;
  }

  /** Without tolerance an edge claims exactly the points of the segment. */
  lemma OnSegmentIff(p: Point, a: Point, b: Point)
    ensures OnSegment(p, a, b, 0.0) <==> exists t :: 0.0 <= t <= 1.0 && p == Along(a, b, t)
  {
    if OnSegment(p, a, b, 0.0) {
      if a == b {
        assert p == Along(a, b, 0.0);
      } else if a.lon != b.lon {
        var t := Fraction(p.lon, a.lon, b.lon);
        OtherCoordinate(p.lon - a.lon, p.lat - a.lat, b.lon - a.lon, b.lat - a.lat, t);
        assert p == Along(a, b, t);
      } else {
        var t := Fraction(p.lat, a.lat, b.lat);
        assert p == Along(a, b, t);
      }
    }
    if t :| 0.0 <= t <= 1.0 && p == Along(a, b, t) { AlongIsOnSegment(a, b, t); }
  }

  /** `y` is in `lo..hi` and no further from `x` than the tolerance. */
  predicate Reaches(x: real, lo: real, hi: real, tolerance: real, y: real) {
    lo <= y <= hi && Abs(x - y) <= tolerance
  }

  lemma Slack(x: real, lo: real, hi: real, tolerance: real)
    requires lo <= hi && tolerance >= 0.0
    ensures lo - tolerance <= x <= hi + tolerance <==> exists y :: Reaches(x, lo, hi, tolerance, y)
  {
    var y := if x < lo then lo else if x > hi then hi else x;
    if lo - tolerance <= x <= hi + tolerance { assert Reaches(x, lo, hi, tolerance, y); }
  }

  /** With a tolerance it claims a point whose cross product is that small and which is
      that near, in each coordinate, to the box of the segment. */
  lemma OnSegmentWithin(p: Point, a: Point, b: Point, tolerance: real)
    requires tolerance >= 0.0
    ensures OnSegment(p, a, b, tolerance) <==>
            && -tolerance <= Cross(p, a, b) <= tolerance
            && (exists x :: Reaches(p.lon, Min(a.lon, b.lon), Max(a.lon, b.lon), tolerance, x))
            && (exists y :: Reaches(p.lat, Min(a.lat, b.lat), Max(a.lat, b.lat), tolerance, y))
    ensures OnSegment(p, a, b, 0.0) ==> OnSegment(p, a, b, tolerance)
  {
    Slack(p.lon, Min(a.lon, b.lon), Max(a.lon, b.lon), tolerance);
    Slack(p.lat, Min(a.lat, b.lat), Max(a.lat, b.lat), tolerance);
    hide Cross, Reaches;
  }

  lemma CrossingSolves(a: Point, b: Point, lat: real)
    requires Straddles(a, b, lat)
    ensures (CrossingLon(a, b, lat) - b.lon) * (a.lat - b.lat) == (a.lon - b.lon) * (lat - b.lat)
  {
    Cancel((a.lon - b.lon) * (lat - b.lat), a.lat - b.lat);
  }

  lemma Cancel(x: real, y: real)
    requires y != 0.0
    ensures x / y * y == x
  {
  }

  /** The crossing is the edge's one point on the parallel. */
  lemma CrossingIsOnEdge(a: Point, b: Point, lat: real, x: real)
    requires Straddles(a, b, lat)
    ensures OnSegment(Point(x, lat), a, b, 0.0) <==> x == CrossingLon(a, b, lat)
  {
    CrossingSolves(a, b, lat);
    CrossingBetween(a, b, lat);
    var c := CrossingLon(a, b, lat);
    CrossAt(a, b, Point(x, lat), c);
    ZeroProduct(x - c, b.lat - a.lat);
    hide CrossingLon, Cross;
    assert Abs(Cross(Point(x, lat), a, b)) <= 0.0 <==> Cross(Point(x, lat), a, b) == 0.0;
  }

  lemma ZeroProduct(x: real, y: real)
    requires y != 0.0
    ensures x * y == 0.0 <==> x == 0.0
  {
  }

  lemma CrossAt(a: Point, b: Point, p: Point, c: real)
    requires (c - b.lon) * (a.lat - b.lat) == (a.lon - b.lon) * (p.lat - b.lat)
    ensures Cross(p, a, b) == (p.lon - c) * (b.lat - a.lat)
  {
  }

  /** An edge counts exactly if one end is above the parallel and the other is not, and it
      has a point on the parallel to the east. */
  lemma CrossesEastIff(points: Ring, p: Point, i: nat)
    requires i < |points|
    ensures var a, b := Previous(points, i), points[i];
            CrossesEast(points, p, i) <==>
            (a.lat <= p.lat < b.lat || b.lat <= p.lat < a.lat) && exists x :: x > p.lon && OnSegment(Point(x, p.lat), a, b, 0.0)
  {
    var a, b := Previous(points, i), points[i];
    if Straddles(a, b, p.lat) {
      forall x ensures OnSegment(Point(x, p.lat), a, b, 0.0) <==> x == CrossingLon(a, b, p.lat) { CrossingIsOnEdge(a, b, p.lat, x); }
      if p.lon < CrossingLon(a, b, p.lat) { assert OnSegment(Point(CrossingLon(a, b, p.lat), p.lat), a, b, 0.0); }
    }
  }

  /** The edges that count. */
  function Counted(points: Ring, p: Point, n: nat): set<nat>
    requires n <= |points|
  {
    set i: nat | 0 <= i < n && CrossesEast(points, p, i)
  }

  lemma {:induction false} CrossingsAreCounted(points: Ring, p: Point, n: nat)
    requires n <= |points|
    ensures CrossingsEast(points, p, n) == |Counted(points, p, n)|
  {
    if n == 0 {
      assert Counted(points, p, 0) == {};
    } else {
      CrossingsAreCounted(points, p, n - 1);
      assert Counted(points, p, n) == Counted(points, p, n - 1) + if CrossesEast(points, p, n - 1) then {n - 1} else {};
    }
  }

  /** Where a point is of a ring: on an edge, or inside if an odd number of edges count,
      or outside. */
  lemma LocationIff(points: Ring, p: Point, centerLon: real, tolerance: real)
    ensures var q, location := Point(LongitudeNear(p.lon, centerLon), p.lat), RingLocation(points, p, centerLon, tolerance);
            && (location == 0 <==> exists i :: 0 <= i < |points| && OnSegment(q, Previous(points, i), points[i], tolerance))
            && (location == 1 <==> location != 0 && |Counted(points, q, |points|)| % 2 == 1)
            && (location == -1 <==> location != 0 && |Counted(points, q, |points|)| % 2 == 0)
  {
    var q := Point(LongitudeNear(p.lon, centerLon), p.lat);
    CrossingsAreCounted(points, q, |points|);
    if i :| 0 <= i < |points| && OnSegment(q, Previous(points, i), points[i], tolerance) { assert OnEdge(points, q, i, tolerance); }
    if OnBoundary(points, q, tolerance) {
      var i :| 0 <= i < |points| && OnEdge(points, q, i, tolerance);
      assert OnSegment(q, Previous(points, i), points[i], tolerance);
    }
  }

  // ---- Holes ----

  /** A hole that has the point inside shuts it out, unless an earlier hole has it on its
      border. */
  lemma {:induction false} HolesContainIff(holes: seq<Ring>, p: Point, centerLon: real, tolerance: real)
    ensures HolesContain(holes, p, centerLon, tolerance) <==>
            forall i :: 0 <= i < |holes| && RingLocation(holes[i], p, centerLon, tolerance) == 1 ==>
                          exists j :: 0 <= j < i && RingLocation(holes[j], p, centerLon, tolerance) == 0
  {
    hide RingLocation;
    if holes != [] {
      var rest := holes[1..];
      HolesContainIff(rest, p, centerLon, tolerance);
      var first := RingLocation(holes[0], p, centerLon, tolerance);
      if first == -1 || (first != 0 && first != 1) {
        forall i | 0 <= i < |rest| && RingLocation(rest[i], p, centerLon, tolerance) == 1
          ensures (exists j :: 0 <= j < i && RingLocation(rest[j], p, centerLon, tolerance) == 0)
             <==> exists j :: 0 <= j < i + 1 && RingLocation(holes[j], p, centerLon, tolerance) == 0
        {
          if j :| 0 <= j < i && RingLocation(rest[j], p, centerLon, tolerance) == 0 { assert holes[j + 1] == rest[j]; }
          if j :| 0 <= j < i + 1 && RingLocation(holes[j], p, centerLon, tolerance) == 0 { assert holes[j] == rest[j - 1]; }
        }
        forall i | 0 < i < |holes| ensures holes[i] == rest[i - 1] {}
        forall i | 0 <= i < |rest| ensures holes[i + 1] == rest[i] {}
      }
    }
  }

  /** A polygon contains the points of its outer border, and those inside it that no hole
      has strictly inside; borders of holes belong to it. */
  lemma ContainsIff(shape: Polygon, p: Point, tolerance: real)
    requires shape.rings != []
    ensures var outer, holes, center := RingLocation(shape.rings[0], p, shape.Center(), tolerance), shape.rings[1..], shape.Center();
            Contains(shape, p, tolerance) <==>
            outer == 0
            || (outer == 1
                && forall i :: 0 <= i < |holes| && RingLocation(holes[i], p, center, tolerance) == 1 ==>
                                 exists j :: 0 <= j < i && RingLocation(holes[j], p, center, tolerance) == 0)
  {
    HolesContainIff(shape.rings[1..], p, shape.Center(), tolerance);
    assert RingLocation(shape.rings[0], p, shape.Center(), tolerance) in {-1, 0, 1};
    hide RingLocation;
  }

  // ---- A ring whose inside is known ----

  function Rectangle(west: real, south: real, east: real, north: real): Ring {
    [Point(west, south), Point(east, south), Point(east, north), Point(west, north)]
  }

  lemma RectangleEdges(west: real, south: real, east: real, north: real)
    ensures var r := Rectangle(west, south, east, north);
            Previous(r, 0) == r[3] && Previous(r, 1) == r[0] && Previous(r, 2) == r[1] && Previous(r, 3) == r[2]
  {
    var r := Rectangle(west, south, east, north);
    PreviousIndex(r, 0); PreviousIndex(r, 1); PreviousIndex(r, 2); PreviousIndex(r, 3);
  }

  lemma VerticalEdge(p: Point, x: real, y: real, y': real)
    ensures OnSegment(p, Point(x, y), Point(x, y'), 0.0) <==> p.lon == x && Min(y, y') <= p.lat <= Max(y, y')
  {
  }

  lemma HorizontalEdge(p: Point, y: real, x: real, x': real)
    ensures OnSegment(p, Point(x, y), Point(x', y), 0.0) <==> p.lat == y && Min(x, x') <= p.lon <= Max(x, x')
  {
  }

  lemma VerticalCrossing(x: real, y: real, y': real, lat: real)
    requires Straddles(Point(x, y), Point(x, y'), lat)
    ensures CrossingLon(Point(x, y), Point(x, y'), lat) == x
  {
    CrossingBetween(Point(x, y), Point(x, y'), lat);
  }

  lemma RectangleCrossings(west: real, south: real, east: real, north: real, p: Point)
    requires west < east && south < north
    ensures CrossingsEast(Rectangle(west, south, east, north), p, 4)
         == if south <= p.lat < north then (if p.lon < east then 1 else 0) + (if p.lon < west then 1 else 0) else 0
  {
    var r := Rectangle(west, south, east, north);
    RectangleEdges(west, south, east, north);
    if Straddles(r[1], r[2], p.lat) { VerticalCrossing(east, south, north, p.lat); }
    if Straddles(r[3], r[0], p.lat) { VerticalCrossing(west, north, south, p.lat); }
    assert CrossesEast(r, p, 2) <==> south <= p.lat < north && p.lon < east;
    assert CrossesEast(r, p, 0) <==> south <= p.lat < north && p.lon < west;
    assert !CrossesEast(r, p, 1) && !CrossesEast(r, p, 3);
    hide CrossesEast;
    assert CrossingsEast(r, p, 1) == if CrossesEast(r, p, 0) then 1 else 0;
    assert CrossingsEast(r, p, 2) == CrossingsEast(r, p, 1);
    assert CrossingsEast(r, p, 3) == CrossingsEast(r, p, 2) + if CrossesEast(r, p, 2) then 1 else 0;
  }

  lemma RectangleBorder(west: real, south: real, east: real, north: real, p: Point)
    requires west < east && south < north
    ensures OnBoundary(Rectangle(west, south, east, north), p, 0.0) <==>
            ((p.lon == west || p.lon == east) && south <= p.lat <= north) || ((p.lat == south || p.lat == north) && west <= p.lon <= east)
  {
    var r := Rectangle(west, south, east, north);
    RectangleEdges(west, south, east, north);
    VerticalEdge(p, west, north, south);
    HorizontalEdge(p, south, west, east);
    VerticalEdge(p, east, south, north);
    HorizontalEdge(p, north, east, west);
    assert OnEdge(r, p, 0, 0.0) == OnSegment(p, r[3], r[0], 0.0) && OnEdge(r, p, 1, 0.0) == OnSegment(p, r[0], r[1], 0.0);
    assert OnEdge(r, p, 2, 0.0) == OnSegment(p, r[1], r[2], 0.0) && OnEdge(r, p, 3, 0.0) == OnSegment(p, r[2], r[3], 0.0);
    hide OnEdge, OnSegment;
  }

  /** A rectangle has inside what is strictly between its sides, and on its border its
      four sides. */
  lemma RectangleIsWhatItLooks(west: real, south: real, east: real, north: real, p: Point, centerLon: real)
    requires west < east && south < north && -180.0 <= p.lon - centerLon <= 180.0
    ensures RingLocation(Rectangle(west, south, east, north), p, centerLon, 0.0)
         == if west < p.lon < east && south < p.lat < north then 1
            else if west <= p.lon <= east && south <= p.lat <= north then 0
            else -1
  {
    RectangleCrossings(west, south, east, north, p);
    RectangleBorder(west, south, east, north, p);
    hide CrossingsEast, OnBoundary, Rectangle;
    assert |Rectangle(west, south, east, north)| == 4 by { RectangleEdges(west, south, east, north); FourCorners(west, south, east, north); }
  }

  lemma FourCorners(west: real, south: real, east: real, north: real)
    ensures |Rectangle(west, south, east, north)| == 4
  {
  }

  // ---- Answers ----

  /** The shape has the coordinate in its box, on its own turn of longitudes, and contains
      it. */
  predicate Claims(shape: Polygon, lat: real, lon: real, tolerance: real)
    requires shape.rings != []
  {
    var x := LongitudeNear(lon, (shape.minLon + shape.maxLon) / 2.0);
    && shape.minLat <= lat <= shape.maxLat && shape.minLon <= x <= shape.maxLon
    && Contains(shape, Point(x, lat), tolerance)
  }

  /** There is an answer exactly for coordinates in range that some shape claims, and then
      the country answered has such a shape and none before it in the index has. */
  lemma AnswerIff(countries: seq<Country>, lat: real, lon: real, tolerance: real, answer: Option<string>)
    requires ValidIndex(countries) && IsAnswer(countries, lat, lon, tolerance, true, answer)
    ensures answer.Some? <==> -90.0 <= lat <= 90.0 && -180.0 <= lon <= 180.0
                              && exists c, shape :: c in countries && shape in c.polygons && shape.rings != [] && Claims(shape, lat, lon, tolerance)
    ensures answer.Some? ==> exists i :: 0 <= i < |countries| && answer.value == countries[i].code && Claimed(countries[i], lat, lon, tolerance)
                                         && forall k :: 0 <= k < i ==> !Claimed(countries[k], lat, lon, tolerance)
  {
    forall c, shape | c in countries && shape in c.polygons ensures shape.Valid() && shape.rings != [] {}
    forall c | c in countries ensures Claimed(c, lat, lon, tolerance) <==> CountryAnswers(c, lat, lon, tolerance, true) { ClaimedAnswers(c, lat, lon, tolerance); }
    hide Claims, Contains, CountryAnswers;
    if answer.Some? {
      var i :| 0 <= i < |countries| && answer == Some(countries[i].code)
               && CountryAnswers(countries[i], lat, lon, tolerance, true)
               && forall k :: 0 <= k < i ==> !CountryAnswers(countries[k], lat, lon, tolerance, true);
      assert countries[i] in countries && Claimed(countries[i], lat, lon, tolerance);
      forall k | 0 <= k < i ensures !Claimed(countries[k], lat, lon, tolerance) { assert countries[k] in countries; }
    } else if c, shape :| c in countries && shape in c.polygons && shape.rings != [] && Claims(shape, lat, lon, tolerance) {
      assert Claimed(c, lat, lon, tolerance);
    }
  }

  ghost predicate Claimed(c: Country, lat: real, lon: real, tolerance: real) {
    exists shape :: shape in c.polygons && shape.rings != [] && Claims(shape, lat, lon, tolerance)
  }

  lemma ClaimedAnswers(c: Country, lat: real, lon: real, tolerance: real)
    requires forall s :: s in c.polygons ==> s.Valid()
    ensures Claimed(c, lat, lon, tolerance) <==> CountryAnswers(c, lat, lon, tolerance, true)
  {
    hide Contains;
    forall s | s in c.polygons ensures s.rings != [] && (Claims(s, lat, lon, tolerance) <==> Answers(s, lat, lon, tolerance, true)) { assert s.Valid(); }
    hide Claims, Answers;
  }
}
