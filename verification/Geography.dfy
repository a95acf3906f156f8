/** backend/internal/geography/countries.go over exact reals: polygon construction,
    the ray-casting test, and the bounding boxes in front of it. */
module Geography {
  import opened Ordering
  import opened Rounding

  datatype Point = Point(lon: real, lat: real)
  type Ring = seq<Point>

  datatype Polygon = Polygon(rings: seq<Ring>, minLon: real, minLat: real, maxLon: real, maxLat: real) {
    function Center(): real { (minLon + maxLon) / 2.0 }

    ghost predicate Valid() {
      && rings != []
      && (forall p :: p in rings[0] ==> minLon <= p.lon <= maxLon && minLat <= p.lat <= maxLat)
      && (forall r :: r in rings ==> |r| >= 4)
    }
  }

  datatype Country = Country(code: string, polygons: seq<Polygon>)

  /** The slack that onSegment grants. */
  const TOLERANCE: real := 0.0000000001

  function Abs(x: real): real { if x < 0.0 then -x else x }
  function Min(x: real, y: real): real { if x < y then x else y }
  function Max(x: real, y: real): real { if x < y then y else x }

  // ---- Longitudes modulo a full turn ----

  function Turned(lon: real, turns: int): real { lon + 360.0 * turns as real }

  ghost predicate SameMeridian(a: real, b: real) {
    exists turns :: a == Turned(b, turns)
  }

  lemma TurnOnce(a: real, b: real, c: real)
    requires SameMeridian(a, b) && (b == c + 360.0 || b == c - 360.0 || b == c)
    ensures SameMeridian(a, c)
  {
    var turns :| a == Turned(b, turns);
    var more := if b == c + 360.0 then 1 else if b == c then 0 else -1;
    assert a == Turned(c, turns + more);
  }

  lemma SameMeridianRefl(a: real)
    ensures SameMeridian(a, a)
  {
    assert a == Turned(a, 0);
  }

  /** The longitude of the same meridian within half a turn of `reference`. */
  function LongitudeNear(lon: real, reference: real): (r: real)
    ensures -180.0 <= r - reference <= 180.0
    ensures -180.0 <= lon - reference <= 180.0 ==> r == lon
    decreases if lon - reference > 180.0 then ((lon - reference - 180.0) / 360.0).Floor + 1
              else if lon - reference < -180.0 then ((reference - lon - 180.0) / 360.0).Floor + 1
              else 0
  {
    if lon - reference > 180.0 then LongitudeNear(lon - 360.0, reference)
    else if lon - reference < -180.0 then LongitudeNear(lon + 360.0, reference)
    else lon
  }

  lemma {:induction false} LongitudeNearSameMeridian(lon: real, reference: real)
    ensures SameMeridian(LongitudeNear(lon, reference), lon)
    decreases if lon - reference > 180.0 then ((lon - reference - 180.0) / 360.0).Floor + 1
              else if lon - reference < -180.0 then ((reference - lon - 180.0) / 360.0).Floor + 1
              else 0
  {
    if lon - reference > 180.0 {
      LongitudeNearSameMeridian(lon - 360.0, reference);
      TurnOnce(LongitudeNear(lon, reference), lon - 360.0, lon);
    } else if lon - reference < -180.0 {
      LongitudeNearSameMeridian(lon + 360.0, reference);
      TurnOnce(LongitudeNear(lon, reference), lon + 360.0, lon);
    } else {
      SameMeridianRefl(lon);
    }
  }

  method WrapLongitude(lon: real, reference: real) returns (r: real)
    ensures r == LongitudeNear(lon, reference)
  {
    r := lon;
    while r - reference > 180.0
      invariant LongitudeNear(r, reference) == LongitudeNear(lon, reference)
      decreases ((r - reference - 180.0) / 360.0).Floor
    {
      r := r - 360.0;
    }
    while r - reference < -180.0
      invariant LongitudeNear(r, reference) == LongitudeNear(lon, reference)
      invariant r - reference <= 180.0
      decreases ((reference - r - 180.0) / 360.0).Floor
    {
      r := r + 360.0;
    }
  }

  // ---- Point in ring ----

  function Cross(p: Point, a: Point, b: Point): real {
    (p.lon - a.lon) * (b.lat - a.lat) - (p.lat - a.lat) * (b.lon - a.lon)
  }

  predicate OnSegment(p: Point, a: Point, b: Point, tolerance: real) {
    && Abs(Cross(p, a, b)) <= tolerance
    && Min(a.lon, b.lon) - tolerance <= p.lon <= Max(a.lon, b.lon) + tolerance
    && Min(a.lat, b.lat) - tolerance <= p.lat <= Max(a.lat, b.lat) + tolerance
  }

  function Previous(points: Ring, i: nat): Point
    requires i < |points|
  {
    points[(i + |points| - 1) % |points|]
  }

  /** Edge `i` runs from the previous point to point `i`. */
  predicate OnEdge(points: Ring, p: Point, i: nat, tolerance: real)
    requires i < |points|
  {
    OnSegment(p, Previous(points, i), points[i], tolerance)
  }

  predicate OnBoundary(points: Ring, p: Point, tolerance: real) {
    exists i :: 0 <= i < |points| && OnEdge(points, p, i, tolerance)
  }

  predicate Straddles(a: Point, b: Point, lat: real) {
    (b.lat > lat) != (a.lat > lat)
  }

  function CrossingLon(a: Point, b: Point, lat: real): real
    requires Straddles(a, b, lat)
  {
    Interpolate(a.lon - b.lon, lat - b.lat, a.lat - b.lat, b.lon)
  }

  function Interpolate(run: real, rise: real, fullRise: real, base: real): real
    requires fullRise != 0.0
  {
    run * rise / fullRise + base
  }

  /** Edge `i` crosses the parallel of `p` east of it. */
  predicate CrossesEast(points: Ring, p: Point, i: nat)
    requires i < |points|
  {
    var a, b := Previous(points, i), points[i];
    Straddles(a, b, p.lat) && p.lon < CrossingLon(a, b, p.lat)
  }

  /** How many of the first `n` edges cross the parallel of `p` east of it. */
  function CrossingsEast(points: Ring, p: Point, n: nat): nat
    requires n <= |points|
  {
    if n == 0 then 0
    else CrossingsEast(points, p, n - 1) + if CrossesEast(points, p, n - 1) then 1 else 0
  }

  /** -1 outside, 0 on the boundary, 1 inside: the parity of the crossings. */
  function RingLocation(points: Ring, p: Point, centerLon: real, tolerance: real): int {
    var q := Point(LongitudeNear(p.lon, centerLon), p.lat);
    if OnBoundary(points, q, tolerance) then 0
    else if CrossingsEast(points, q, |points|) % 2 == 1 then 1
    else -1
  }

  method LocateInRing(points: Ring, p: Point, centerLon: real, tolerance: real) returns (location: int)
    ensures location == RingLocation(points, p, centerLon, tolerance)
  {
    hide OnSegment, Straddles, CrossingLon;
    var lon := WrapLongitude(p.lon, centerLon);
    var q := Point(lon, p.lat);
    var inside := false;
    for i := 0 to |points|
      invariant forall k :: 0 <= k < i ==> !OnEdge(points, q, k, tolerance)
      invariant inside == (CrossingsEast(points, q, i) % 2 == 1)
    {
      var current, previous := points[i], Previous(points, i);
      if OnSegment(q, previous, current, tolerance) {
        assert OnEdge(points, q, i, tolerance);
        return 0;
      }
      if Straddles(previous, current, q.lat) {
        var crossingLon := CrossingLon(previous, current, q.lat);
        if q.lon < crossingLon { inside := !inside; }
      }
    }
    location := if inside then 1 else -1;
  }

  // ---- Point in polygon, and the lookup ----

  function HolesContain(holes: seq<Ring>, p: Point, centerLon: real, tolerance: real): bool {
    if holes == [] then true
    else
      var location := RingLocation(holes[0], p, centerLon, tolerance);
      location == 0 || (location != 1 && HolesContain(holes[1..], p, centerLon, tolerance))
  }

  predicate Contains(shape: Polygon, p: Point, tolerance: real)
    requires shape.rings != []
  {
    var outer := RingLocation(shape.rings[0], p, shape.Center(), tolerance);
    outer == 0 || (outer > 0 && HolesContain(shape.rings[1..], p, shape.Center(), tolerance))
  }

  method PolygonContains(shape: Polygon, p: Point, tolerance: real) returns (contains: bool)
    requires shape.rings != []
    ensures contains == Contains(shape, p, tolerance)
  {
    var centerLon := (shape.minLon + shape.maxLon) / 2.0;
    var outer := LocateInRing(shape.rings[0], p, centerLon, tolerance);
    if outer < 0 { return false; }
    if outer == 0 { return true; }
    var holes := shape.rings[1..];
    for i := 0 to |holes|
      invariant HolesContain(holes, p, centerLon, tolerance) == HolesContain(holes[i..], p, centerLon, tolerance)
    {
      var location := LocateInRing(holes[i], p, centerLon, tolerance);
      assert holes[i..][0] == holes[i] && holes[i..][1..] == holes[i + 1..];
      if location == 1 { return false; }
      if location == 0 { return true; }
    }
    return true;
  }

  predicate InBox(shape: Polygon, p: Point) {
    shape.minLat <= p.lat <= shape.maxLat && shape.minLon <= p.lon <= shape.maxLon
  }

  /** The point as a shape's own turn of longitudes sees it. */
  function Seen(shape: Polygon, lat: real, lon: real): Point {
    Point(LongitudeNear(lon, shape.Center()), lat)
  }

  predicate InRange(lat: real, lon: real) {
    -90.0 <= lat <= 90.0 && -180.0 <= lon <= 180.0
  }

  ghost predicate ValidIndex(countries: seq<Country>) {
    forall c, s :: c in countries && s in c.polygons ==> s.Valid()
  }

  /** Whether a shape answers for a coordinate; `boxed` turns the fast path on. */
  predicate Answers(shape: Polygon, lat: real, lon: real, tolerance: real, boxed: bool)
    requires shape.rings != []
  {
    var p := Seen(shape, lat, lon);
    (boxed ==> InBox(shape, p)) && Contains(shape, p, tolerance)
  }

  ghost predicate CountryAnswers(c: Country, lat: real, lon: real, tolerance: real, boxed: bool) {
    exists s :: s in c.polygons && s.Valid() && Answers(s, lat, lon, tolerance, boxed)
  }

  /** The code of the first country, in index order, with a shape that answers. */
  ghost predicate IsAnswer(countries: seq<Country>, lat: real, lon: real, tolerance: real, boxed: bool, answer: Option<string>) {
    if !InRange(lat, lon) then answer == None
    else if answer.None? then forall c :: c in countries ==> !CountryAnswers(c, lat, lon, tolerance, boxed)
    else exists i :: 0 <= i < |countries| && answer == Some(countries[i].code)
                     && CountryAnswers(countries[i], lat, lon, tolerance, boxed)
                     && forall k :: 0 <= k < i ==> !CountryAnswers(countries[k], lat, lon, tolerance, boxed)
  }

  method CountryAt(countries: seq<Country>, lat: real, lon: real, tolerance: real) returns (answer: Option<string>)
    requires ValidIndex(countries)
    ensures IsAnswer(countries, lat, lon, tolerance, true, answer)
  {
    if lat < -90.0 || lat > 90.0 || lon < -180.0 || lon > 180.0 { return None; }
    for i := 0 to |countries|
      invariant forall k :: 0 <= k < i ==> !CountryAnswers(countries[k], lat, lon, tolerance, true)
    {
      var candidate := countries[i];
      assert candidate in countries;
      for j := 0 to |candidate.polygons|
        invariant forall k :: 0 <= k < j ==> candidate.polygons[k].Valid() && !Answers(candidate.polygons[k], lat, lon, tolerance, true)
      {
        var shape := candidate.polygons[j];
        assert shape in candidate.polygons && shape.Valid();
        if lat < shape.minLat || lat > shape.maxLat { continue; }
        var shapeLon := WrapLongitude(lon, (shape.minLon + shape.maxLon) / 2.0);
        if shapeLon < shape.minLon || shapeLon > shape.maxLon { continue; }
        var contains := PolygonContains(shape, Point(shapeLon, lat), tolerance);
        if contains { return Some(candidate.code); }
      }
    }
    return None;
  }

  // ---- The box test in front of the scan ----

  lemma CrossingFraction(a: real, b: real, lat: real)
    requires (b > lat) != (a > lat)
    ensures 0.0 <= (lat - b) / (a - b) <= 1.0
  {
    if a > b {
      RatioInUnit(lat - b, a - b);
    } else {
      RatioInUnit(b - lat, b - a);
      NegateRatio(lat - b, a - b);
    }
  }

  lemma InterpolateBetween(run: real, rise: real, fullRise: real, base: real)
    requires fullRise != 0.0 && 0.0 <= rise / fullRise <= 1.0
    ensures run >= 0.0 ==> base <= Interpolate(run, rise, fullRise, base) <= base + run
    ensures run <= 0.0 ==> base + run <= Interpolate(run, rise, fullRise, base) <= base
  {
    MoveFactor(run, rise, fullRise);
    ScaleInUnit(run, rise / fullRise, run * rise / fullRise);
  }

  lemma CrossingBetween(a: Point, b: Point, lat: real)
    requires Straddles(a, b, lat)
    ensures Min(a.lon, b.lon) <= CrossingLon(a, b, lat) <= Max(a.lon, b.lon)
  {
    CrossingFraction(a.lat, b.lat, lat);
    InterpolateBetween(a.lon - b.lon, lat - b.lat, a.lat - b.lat, b.lon);
  }

  lemma RatioInUnit(x: real, y: real)
    requires 0.0 <= x <= y && y > 0.0
    ensures 0.0 <= x / y <= 1.0
  {
  }

  lemma NegateRatio(x: real, y: real)
    requires y != 0.0
    ensures x / y == (-x) / (-y)
  {
  }

  lemma MoveFactor(d: real, x: real, y: real)
    requires y != 0.0
    ensures d * x / y == d * (x / y)
  {
  }

  lemma ScaleInUnit(d: real, t: real, x: real)
    requires 0.0 <= t <= 1.0 && x == d * t
    ensures d >= 0.0 ==> 0.0 <= x <= d
    ensures d <= 0.0 ==> d <= x <= 0.0
  {
  }

  /** How many of the first `n` edges cross a parallel at all. */
  function Straddling(points: Ring, lat: real, n: nat): nat
    requires n <= |points|
  {
    if n == 0 then 0
    else Straddling(points, lat, n - 1) + if Straddles(Previous(points, n - 1), points[n - 1], lat) then 1 else 0
  }

  lemma PreviousIndex(points: Ring, i: nat)
    requires i < |points|
    ensures Previous(points, i) == points[if i == 0 then |points| - 1 else i - 1]
  {
    if i > 0 { assert (i + |points| - 1) % |points| == i - 1 by { ModOnce(i - 1, |points|); } }
  }

  lemma ModOnce(r: nat, n: nat)
    requires r < n
    ensures (r + n) % n == r
  {
  }

  lemma {:induction false} StraddlingParity(points: Ring, lat: real, n: nat)
    requires 0 < n <= |points|
    ensures Straddling(points, lat, n) % 2 == 1 <==> (points[|points| - 1].lat > lat) != (points[n - 1].lat > lat)
  {
    PreviousIndex(points, n - 1);
    if n == 1 {
      assert Straddling(points, lat, 0) == 0;
    } else {
      StraddlingParity(points, lat, n - 1);
    }
  }

  /** A closed ring crosses any parallel an even number of times. */
  lemma ClosedRingCrossesEvenly(points: Ring, lat: real)
    ensures Straddling(points, lat, |points|) % 2 == 0
  {
    if points != [] { StraddlingParity(points, lat, |points|); }
  }

  lemma {:induction false} NoCrossings(points: Ring, p: Point, n: nat)
    requires n <= |points|
    requires forall i :: 0 <= i < n ==> !CrossesEast(points, p, i)
    ensures CrossingsEast(points, p, n) == 0
  {
    if n > 0 { NoCrossings(points, p, n - 1); }
  }

  lemma {:induction false} AllCrossings(points: Ring, p: Point, n: nat)
    requires n <= |points|
    requires forall i :: 0 <= i < |points| ==> p.lon < points[i].lon
    ensures CrossingsEast(points, p, n) == Straddling(points, p.lat, n)
  {
    if n > 0 {
      AllCrossings(points, p, n - 1);
      var a, b := Previous(points, n - 1), points[n - 1];
      if Straddles(a, b, p.lat) { CrossingBetween(a, b, p.lat); }
    }
  }

  /** Ray casting never counts a point outside a ring's box as inside. */
  lemma OutsideBoxEvenCrossings(shape: Polygon, p: Point)
    requires shape.Valid() && !InBox(shape, p)
    ensures CrossingsEast(shape.rings[0], p, |shape.rings[0]|) % 2 == 0
  {
    var points := shape.rings[0];
    if p.lon < shape.minLon {
      AllCrossings(points, p, |points|);
      ClosedRingCrossesEvenly(points, p.lat);
    } else {
      forall i | 0 <= i < |points| ensures !CrossesEast(points, p, i) {
        var a, b := Previous(points, i), points[i];
        assert a in points && b in points;
        if Straddles(a, b, p.lat) { CrossingBetween(a, b, p.lat); }
      }
      NoCrossings(points, p, |points|);
    }
  }

  /** Exactly when the box test is exact for a shape: the point is in the box, or no
      outer edge claims it within the tolerance. */
  lemma BoxTestExactIff(shape: Polygon, lat: real, lon: real, tolerance: real)
    requires shape.Valid()
    ensures (Answers(shape, lat, lon, tolerance, true) <==> Answers(shape, lat, lon, tolerance, false))
       <==> (InBox(shape, Seen(shape, lat, lon)) || !OnBoundary(shape.rings[0], Seen(shape, lat, lon), tolerance))
  {
    var p := Seen(shape, lat, lon);
    if !InBox(shape, p) { OutsideBoxEvenCrossings(shape, p); }
  }

  lemma NoToleranceNoOverhang(shape: Polygon, p: Point)
    requires shape.Valid() && OnBoundary(shape.rings[0], p, 0.0)
    ensures InBox(shape, p)
  {
    var points := shape.rings[0];
    var i :| 0 <= i < |points| && OnEdge(points, p, i, 0.0);
    assert Previous(points, i) in points && points[i] in points;
  }

  lemma BoxExactWithoutTolerance(s: Polygon, lat: real, lon: real)
    requires s.Valid()
    ensures Answers(s, lat, lon, 0.0, true) == Answers(s, lat, lon, 0.0, false)
  {
    var p := Seen(s, lat, lon);
    BoxTestExactIff(s, lat, lon, 0.0);
    if OnBoundary(s.rings[0], p, 0.0) { NoToleranceNoOverhang(s, p); }
  }

  lemma CountryBoxExact(c: Country, lat: real, lon: real)
    requires forall s :: s in c.polygons ==> s.Valid()
    ensures CountryAnswers(c, lat, lon, 0.0, true) <==> CountryAnswers(c, lat, lon, 0.0, false)
  {
    forall s | s in c.polygons ensures Answers(s, lat, lon, 0.0, true) == Answers(s, lat, lon, 0.0, false) {
      BoxExactWithoutTolerance(s, lat, lon);
    }
  }

  /** Without tolerance the fast lookup and the full scan always give one answer. */
  lemma BoxesChangeNothing(countries: seq<Country>, lat: real, lon: real, answer: Option<string>)
    requires ValidIndex(countries)
    ensures IsAnswer(countries, lat, lon, 0.0, true, answer) <==> IsAnswer(countries, lat, lon, 0.0, false, answer)
  {
    forall i | 0 <= i < |countries|
      ensures CountryAnswers(countries[i], lat, lon, 0.0, true) <==> CountryAnswers(countries[i], lat, lon, 0.0, false)
    {
      assert countries[i] in countries;
      CountryBoxExact(countries[i], lat, lon);
    }
    if InRange(lat, lon) && answer.Some? {
      FirstAnswerTransfers(countries, lat, lon, answer.value, true);
      FirstAnswerTransfers(countries, lat, lon, answer.value, false);
    }
  }

  lemma FirstAnswerTransfers(countries: seq<Country>, lat: real, lon: real, code: string, boxed: bool)
    requires ValidIndex(countries) && InRange(lat, lon)
    requires forall i :: 0 <= i < |countries| ==>
      (CountryAnswers(countries[i], lat, lon, 0.0, true) <==> CountryAnswers(countries[i], lat, lon, 0.0, false))
    ensures IsAnswer(countries, lat, lon, 0.0, boxed, Some(code)) ==> IsAnswer(countries, lat, lon, 0.0, !boxed, Some(code))
  {
    if IsAnswer(countries, lat, lon, 0.0, boxed, Some(code)) {
      var i :| 0 <= i < |countries| && code == countries[i].code
               && CountryAnswers(countries[i], lat, lon, 0.0, boxed)
               && forall k :: 0 <= k < i ==> !CountryAnswers(countries[k], lat, lon, 0.0, boxed);
      assert CountryAnswers(countries[i], lat, lon, 0.0, !boxed);
    }
  }

  /** With the shipped tolerance they differ just outside a box: a unit square and a
      point half a tolerance west of its western edge. */
  lemma ToleranceOverhangsTheBox() returns (shape: Polygon, lat: real, lon: real)
    ensures shape.Valid() && InRange(lat, lon)
    ensures !Answers(shape, lat, lon, TOLERANCE, true) && Answers(shape, lat, lon, TOLERANCE, false)
  {
    var square := [Point(0.0, 0.0), Point(1.0, 0.0), Point(1.0, 1.0), Point(0.0, 1.0)];
    shape := Polygon([square], 0.0, 0.0, 1.0, 1.0);
    lat, lon := 0.5, -TOLERANCE / 2.0;
    var p := Seen(shape, lat, lon);
    assert p == Point(lon, lat);
    assert Previous(square, 0) == Point(0.0, 1.0);
    assert OnEdge(square, p, 0, TOLERANCE);
    assert OnBoundary(square, p, TOLERANCE);
    BoxTestExactIff(shape, lat, lon, TOLERANCE);
  }

  // ---- Building the polygons ----

  datatype LoadError = FewPoints | BadCoordinate | NoGeometry
  datatype Loaded<+T> = Ok(value: T) | Err(error: LoadError)

  type RawRing = seq<seq<real>>

  predicate Readable(raw: RawRing) {
    |raw| >= 4 && forall c :: c in raw ==> |c| >= 2
  }

  predicate AllReadable(raw: seq<RawRing>) {
    forall r :: r in raw ==> Readable(r)
  }

  /** A ring drawn without jumps: every point on its own meridian, every step at most
      half a turn. */
  ghost predicate Unwrapped(raw: RawRing, points: Ring) {
    && |points| == |raw|
    && (forall i :: 0 <= i < |points| ==> |raw[i]| >= 2 && points[i].lat == raw[i][1] && SameMeridian(points[i].lon, raw[i][0]))
    && (forall i :: 0 < i < |points| ==> Abs(points[i].lon - points[i - 1].lon) <= 180.0)
  }

  method ReadRing(raw: RawRing) returns (result: Loaded<Ring>)
    ensures result.Ok? <==> |raw| >= 4 && forall c :: c in raw ==> |c| >= 2
    ensures result.Ok? ==> Unwrapped(raw, result.value)
    ensures result.Err? ==> result.error != NoGeometry
  {
    if |raw| < 4 { return Err(FewPoints); }
    var points: Ring := [];
    for i := 0 to |raw|
      invariant forall k :: 0 <= k < i ==> |raw[k]| >= 2
      invariant Unwrapped(raw[..i], points)
    {
      assert raw[i] in raw;
      if |raw[i]| < 2 { return Err(BadCoordinate); }
      var lon := raw[i][0];
      if |points| > 0 {
        var previousLon := points[|points| - 1].lon;
        lon := WrapLongitude(lon, previousLon);
        LongitudeNearSameMeridian(raw[i][0], previousLon);
      } else {
        SameMeridianRefl(lon);
      }
      points := points + [Point(lon, raw[i][1])];
    }
    assert raw[..|raw|] == raw;
    result := Ok(points);
  }

  /** The bounds are reached, and nothing lies beyond them. */
  ghost predicate Tight(points: Ring, minLon: real, maxLon: real) {
    && (forall p :: p in points ==> minLon <= p.lon <= maxLon)
    && (exists p :: p in points && p.lon == minLon) && (exists p :: p in points && p.lon == maxLon)
  }

  method LonRange(points: Ring) returns (minLon: real, maxLon: real)
    requires points != []
    ensures Tight(points, minLon, maxLon)
  {
    minLon, maxLon := points[0].lon, points[0].lon;
    for i := 1 to |points|
      invariant Tight(points[..i], minLon, maxLon)
    {
      assert points[..i + 1] == points[..i] + [points[i]];
      assert forall p :: p in points[..i] ==> p in points[..i + 1];
      assert points[i] in points[..i + 1];
      if points[i].lon < minLon { minLon := points[i].lon; }
      if points[i].lon > maxLon { maxLon := points[i].lon; }
    }
    assert points[..|points|] == points;
  }

  method LatRange(points: Ring) returns (minLat: real, maxLat: real)
    requires points != []
    ensures TightLat(points, minLat, maxLat)
  {
    minLat, maxLat := points[0].lat, points[0].lat;
    for i := 1 to |points|
      invariant forall k :: 0 <= k < i ==> minLat <= points[k].lat <= maxLat
      invariant (exists p :: p in points && p.lat == minLat) && (exists p :: p in points && p.lat == maxLat)
    {
      if points[i].lat < minLat { minLat := points[i].lat; }
      if points[i].lat > maxLat { maxLat := points[i].lat; }
    }
  }

  ghost predicate ShiftedBy(unwrapped: Ring, hole: Ring, turns: int) {
    |hole| == |unwrapped|
    && forall i :: 0 <= i < |hole| ==> hole[i] == Point(Turned(unwrapped[i].lon, turns), unwrapped[i].lat)
  }

  /** A hole moved by whole turns so that its middle is within half a turn of the
      outer ring's. */
  ghost predicate Recentred(unwrapped: Ring, hole: Ring, center: real) {
    && (exists turns :: ShiftedBy(unwrapped, hole, turns))
    && (exists lo, hi :: Tight(hole, lo, hi) && Abs(center - (lo + hi) / 2.0) <= 180.0)
  }

  method ShiftHole(unwrapped: Ring, centerLon: real) returns (hole: Ring)
    requires unwrapped != []
    ensures Recentred(unwrapped, hole, centerLon)
  {
    var minLon, maxLon := LonRange(unwrapped);
    var turns := Round((centerLon - (minLon + maxLon) / 2.0) / 360.0);
    hole := unwrapped;
    for i := 0 to |hole|
      invariant |hole| == |unwrapped|
      invariant forall k :: 0 <= k < i ==> hole[k] == Point(Turned(unwrapped[k].lon, turns), unwrapped[k].lat)
      invariant forall k :: i <= k < |hole| ==> hole[k] == unwrapped[k]
    {
      hole := hole[i := Point(hole[i].lon + turns as real * 360.0, hole[i].lat)];
    }
    assert ShiftedBy(unwrapped, hole, turns);
    TightShifts(unwrapped, hole, turns, minLon, maxLon);
    MiddleWithinHalfTurn(centerLon, minLon, maxLon, turns);
  }

  lemma MiddleWithinHalfTurn(center: real, lo: real, hi: real, turns: int)
    requires turns == Round((center - (lo + hi) / 2.0) / 360.0)
    ensures Abs(center - (Turned(lo, turns) + Turned(hi, turns)) / 2.0) <= 180.0
  {
    var x := (center - (lo + hi) / 2.0) / 360.0;
    assert -0.5 <= turns as real - x <= 0.5;
    assert center - (lo + hi) / 2.0 == 360.0 * x;
  }

  lemma TightShifts(before: Ring, after: Ring, turns: int, lo: real, hi: real)
    requires ShiftedBy(before, after, turns) && Tight(before, lo, hi)
    ensures Tight(after, Turned(lo, turns), Turned(hi, turns))
  {
    var p :| p in before && p.lon == lo;
    var i :| 0 <= i < |before| && before[i] == p;
    assert after[i] in after;
    var q :| q in before && q.lon == hi;
    var j :| 0 <= j < |before| && before[j] == q;
    assert after[j] in after;
    forall r | r in after ensures Turned(lo, turns) <= r.lon <= Turned(hi, turns) {
      var k :| 0 <= k < |after| && after[k] == r;
      assert before[k] in before;
    }
  }

  method ReadRings(raw: seq<RawRing>) returns (result: Loaded<seq<Ring>>)
    ensures result.Ok? <==> AllReadable(raw)
    ensures result.Ok? ==> |result.value| == |raw| && forall k :: 0 <= k < |raw| ==> |raw[k]| >= 4 && Unwrapped(raw[k], result.value[k])
    ensures result.Err? ==> result.error != NoGeometry
  {
    var rings: seq<Ring> := [];
    for i := 0 to |raw|
      invariant |rings| == i && forall k :: 0 <= k < i ==> Readable(raw[k]) && Unwrapped(raw[k], rings[k])
    {
      var points := ReadRing(raw[i]);
      assert raw[i] in raw;
      if points.Err? { return Err(points.error); }
      rings := rings + [points.value];
    }
    result := Ok(rings);
  }

  method ShiftHoles(unwrapped: seq<Ring>, centerLon: real) returns (rings: seq<Ring>)
    requires unwrapped != [] && forall r :: r in unwrapped ==> r != []
    ensures |rings| == |unwrapped| && rings[0] == unwrapped[0]
    ensures forall k :: 0 < k < |rings| ==> Recentred(unwrapped[k], rings[k], centerLon)
  {
    rings := unwrapped;
    for i := 1 to |rings|
      invariant |rings| == |unwrapped| && rings[0] == unwrapped[0]
      invariant forall k :: i <= k < |rings| ==> rings[k] == unwrapped[k]
      invariant forall k :: 0 < k < i ==> Recentred(unwrapped[k], rings[k], centerLon)
    {
      assert rings[i] in unwrapped;
      var hole := ShiftHole(rings[i], centerLon);
      rings := rings[i := hole];
    }
  }

  ghost predicate HoleFrom(raw: RawRing, hole: Ring, center: real) {
    exists unwrapped :: Unwrapped(raw, unwrapped) && Recentred(unwrapped, hole, center)
  }

  ghost predicate TightLat(points: Ring, minLat: real, maxLat: real) {
    && (forall p :: p in points ==> minLat <= p.lat <= maxLat)
    && (exists p :: p in points && p.lat == minLat) && (exists p :: p in points && p.lat == maxLat)
  }

  /** The polygon a raw list of rings describes, with the box of its outer ring. */
  ghost predicate Describes(raw: seq<RawRing>, shape: Polygon) {
    && raw != [] && |shape.rings| == |raw|
    && Unwrapped(raw[0], shape.rings[0])
    && (forall r :: r in shape.rings ==> |r| >= 4)
    && Tight(shape.rings[0], shape.minLon, shape.maxLon) && TightLat(shape.rings[0], shape.minLat, shape.maxLat)
    && (forall h :: 0 < h < |raw| ==> HoleFrom(raw[h], shape.rings[h], shape.Center()))
  }

  /** Construction establishes what the lookup and its box theorem rely on. */
  lemma DescribedIsValid(raw: seq<RawRing>, shape: Polygon)
    requires Describes(raw, shape)
    ensures shape.Valid()
  {
  }

  method ReadPolygon(raw: seq<RawRing>) returns (result: Loaded<Polygon>)
    requires raw != []
    ensures result.Ok? <==> AllReadable(raw)
    ensures result.Ok? ==> Describes(raw, result.value)
    ensures result.Err? ==> result.error != NoGeometry
  {
    var unwrapped := ReadRings(raw);
    if unwrapped.Err? { return Err(unwrapped.error); }
    var outer := unwrapped.value[0];
    var minLon, maxLon := LonRange(outer);
    var minLat, maxLat := LatRange(outer);
    var rings := ShiftHoles(unwrapped.value, (minLon + maxLon) / 2.0);
    var shape := Polygon(rings, minLon, minLat, maxLon, maxLat);
    forall h | 0 < h < |raw| ensures HoleFrom(raw[h], rings[h], shape.Center()) && |rings[h]| >= 4 {
      assert Recentred(unwrapped.value[h], rings[h], shape.Center());
    }
    result := Ok(shape);
  }

  function NonEmpty(raw: seq<seq<RawRing>>): (r: seq<seq<RawRing>>)
    ensures forall p :: p in r <==> p in raw && p != []
  {
    if raw == [] then []
    else if raw[|raw| - 1] == [] then NonEmpty(raw[..|raw| - 1])
    else NonEmpty(raw[..|raw| - 1]) + [raw[|raw| - 1]]
  }

  /** Fails on any unreadable ring and on an empty geometry; otherwise one valid,
      tightly boxed polygon per non-empty ring list, in order. */
  method MakePolygons(raw: seq<seq<RawRing>>) returns (result: Loaded<seq<Polygon>>)
    ensures result.Ok? <==> (forall p :: p in raw ==> AllReadable(p)) && NonEmpty(raw) != []
    ensures result == Err(NoGeometry) <==> (forall p :: p in raw ==> AllReadable(p)) && NonEmpty(raw) == []
    ensures result.Ok? ==> |result.value| == |NonEmpty(raw)| && forall i :: 0 <= i < |result.value| ==> Describes(NonEmpty(raw)[i], result.value[i])
  {
    hide Describes;
    var polygons: seq<Polygon> := [];
    for i := 0 to |raw|
      invariant forall k :: 0 <= k < i ==> AllReadable(raw[k])
      invariant |polygons| == |NonEmpty(raw[..i])|
      invariant forall k :: 0 <= k < |polygons| ==> Describes(NonEmpty(raw[..i])[k], polygons[k])
    {
      assert raw[..i + 1][..i] == raw[..i] && raw[i] in raw;
      if raw[i] == [] { continue; }
      var polygon := ReadPolygon(raw[i]);
      if polygon.Err? { return Err(polygon.error); }
      polygons := polygons + [polygon.value];
    }
    assert raw[..|raw|] == raw;
    if polygons == [] { return Err(NoGeometry); }
    result := Ok(polygons);
  }
}
