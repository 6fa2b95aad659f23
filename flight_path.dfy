/** The coverage-path planner (src/lib/FlightPathGenerator.ts): grid spacing from
    sensor footprint and overlap, alignment to the polygon's longest edge,
    scan-line clipping, boustrophedon ordering, the SNAKE / CROSSHATCH / PERIMETER
    patterns with the perimeter fallback, and the distance-derived estimates. */
module FlightPath {
  import opened Types
  import opened JsMath
  import opened Seqs
  import opened Geometry

  const DefaultFovDeg: real := 84.0
  const DefaultSpeedKmh: real := 30.0
  /** Overshoot of each horizontal probe beyond the bounding box, in degrees. */
  const ProbeMarginDeg: real := 0.001
  /** Photos captured per second of flight. */
  const CaptureFrequencyHz: real := 2.0

  datatype FlightPathConfig = FlightPathConfig(
    altitudeM: real,
    overlapPercent: real,
    cameraFovDeg: Option<real>,
    pattern: Option<SurveyPattern>,
    sidelapPercent: Option<real>,
    speedKmh: Option<real>)

  datatype FlightPathResult = FlightPathResult(
    waypoints: seq<Position>,
    totalDistanceKm: real,
    estimatedDurationMin: int,
    numWaypoints: nat,
    gridSpacingM: real,
    estimatedPhotos: int,
    areaSqKm: real)

  /** Why no plan was produced: the polygon has fewer than three vertices (turf
      refuses a ring of fewer than four positions), or the grid spacing is not
      positive so the scan lines could never advance. */
  datatype PlanError = InvalidPolygon | DegenerateSpacing

  // ============ Grid spacing ============

  /** Width of the ground strip one photo covers: 2 · altitude · tan(fov / 2). */
  function GroundCoverage(altitudeM: real, fovDeg: real, turf: Turf): real
  {
    2.0 * altitudeM * turf.tanHalfAngle(fovDeg)
  }

  /** Distance between neighbouring scan lines: the footprint reduced by the overlap. */
  function CalculateGridSpacing(altitudeM: real, overlapPercent: real, fovDeg: real, turf: Turf): (r: real)
    ensures overlapPercent == 100.0 ==> r == 0.0
  {
    var groundCoverage := GroundCoverage(altitudeM, fovDeg, turf);
    var overlapFactor := 1.0 - overlapPercent / 100.0;
    groundCoverage * overlapFactor
  }

  lemma ProductOrdered(c: real, f1: real, f2: real, p1: real, p2: real)
    requires p1 == c * f1 && p2 == c * f2
    requires c >= 0.0 && f1 <= f2
    ensures p1 <= p2
  {
    assert c * f2 - c * f1 == c * (f2 - f1);
    assert 0.0 <= c * (f2 - f1);
  }

  lemma ProductSign(c: real, f: real, p: real)
    requires p == c * f && c > 0.0
    ensures p > 0.0 <==> f > 0.0
  {
    if f > 0.0 {
      assert c * f > 0.0;
    } else {
      assert c * f <= 0.0;
    }
  }

  /** More overlap never widens the spacing when the footprint is non-negative. */
  lemma {:induction false} GridSpacingAntitone(altitudeM: real, o1: real, o2: real, fovDeg: real, turf: Turf)
    requires GroundCoverage(altitudeM, fovDeg, turf) >= 0.0
    requires o1 <= o2
    ensures CalculateGridSpacing(altitudeM, o2, fovDeg, turf) <= CalculateGridSpacing(altitudeM, o1, fovDeg, turf)
  {
    var c := GroundCoverage(altitudeM, fovDeg, turf);
    ProductOrdered(c, 1.0 - o2 / 100.0, 1.0 - o1 / 100.0,
      CalculateGridSpacing(altitudeM, o2, fovDeg, turf), CalculateGridSpacing(altitudeM, o1, fovDeg, turf));
  }

  /** With a positive footprint, the spacing is positive exactly when the overlap is
      below 100 percent. */
  lemma {:induction false} GridSpacingPositive(altitudeM: real, overlapPercent: real, fovDeg: real, turf: Turf)
    requires GroundCoverage(altitudeM, fovDeg, turf) > 0.0
    ensures CalculateGridSpacing(altitudeM, overlapPercent, fovDeg, turf) > 0.0 <==> overlapPercent < 100.0
  {
    ProductSign(GroundCoverage(altitudeM, fovDeg, turf), 1.0 - overlapPercent / 100.0,
      CalculateGridSpacing(altitudeM, overlapPercent, fovDeg, turf));
  }

  // ============ Principal axis ============

  function EdgeCount(ring: seq<Position>): nat
  {
    if |ring| == 0 then 0 else |ring| - 1
  }

  function EdgeLength(ring: seq<Position>, turf: Turf, i: nat): real
    requires i < EdgeCount(ring)
  {
    turf.distance(ring[i], ring[i + 1])
  }

  function EdgeBearing(ring: seq<Position>, turf: Turf, i: nat): real
    requires i < EdgeCount(ring)
  {
    turf.bearing(ring[i], ring[i + 1])
  }

  /** The (longest length, its bearing) pair after looking at the first n edges,
      replacing the pair only on a strictly longer edge. */
  function PrincipalScan(ring: seq<Position>, turf: Turf, n: nat): (real, real)
    requires n <= EdgeCount(ring)
  {
    if n == 0 then (0.0, 0.0)
    else
      var (maxLength, bearing) := PrincipalScan(ring, turf, n - 1);
      var length := EdgeLength(ring, turf, n - 1);
      if length > maxLength then (length, EdgeBearing(ring, turf, n - 1)) else (maxLength, bearing)
  }

  function PrincipalBearing(ring: seq<Position>, turf: Turf): real
  {
    PrincipalScan(ring, turf, EdgeCount(ring)).1
  }

  /** Edge k is the first edge of maximal, positive length. */
  ghost predicate IsFirstLongestEdge(ring: seq<Position>, turf: Turf, k: nat)
  {
    k < EdgeCount(ring) &&
    EdgeLength(ring, turf, k) > 0.0 &&
    (forall j: nat :: j < k ==> EdgeLength(ring, turf, j) < EdgeLength(ring, turf, k)) &&
    (forall j: nat :: j < EdgeCount(ring) ==> EdgeLength(ring, turf, j) <= EdgeLength(ring, turf, k))
  }

  /** Edge k, among the first n, has length m and bearing b, and every earlier edge
      is strictly shorter. */
  ghost predicate FirstEdgeOfLength(ring: seq<Position>, turf: Turf, n: nat, k: nat, m: real, b: real)
    requires n <= EdgeCount(ring)
  {
    k < n && EdgeLength(ring, turf, k) == m && b == EdgeBearing(ring, turf, k) &&
    forall j: nat :: j < k ==> EdgeLength(ring, turf, j) < m
  }

  lemma {:induction false} PrincipalScanInvariant(ring: seq<Position>, turf: Turf, n: nat)
    requires n <= EdgeCount(ring)
    ensures var (m, b) := PrincipalScan(ring, turf, n);
      m >= 0.0 &&
      (forall j: nat :: j < n ==> EdgeLength(ring, turf, j) <= m) &&
      (m == 0.0 ==> b == 0.0) &&
      (m > 0.0 ==> exists k: nat :: FirstEdgeOfLength(ring, turf, n, k, m, b))
  {
    if n > 0 {
      PrincipalScanInvariant(ring, turf, n - 1);
      var (m, b) := PrincipalScan(ring, turf, n - 1);
      if EdgeLength(ring, turf, n - 1) > m {
        assert EdgeLength(ring, turf, n - 1) > 0.0;
        assert FirstEdgeOfLength(ring, turf, n, n - 1, EdgeLength(ring, turf, n - 1), EdgeBearing(ring, turf, n - 1));
      } else if m > 0.0 {
        var k: nat :| FirstEdgeOfLength(ring, turf, n - 1, k, m, b);
        assert FirstEdgeOfLength(ring, turf, n, k, m, b);
      }
    }
  }

  /** The principal bearing is that of the first longest edge, or 0 when no edge
      has positive length. */
  lemma {:induction false} PrincipalBearingIsFirstLongestEdge(ring: seq<Position>, turf: Turf)
    ensures (forall j: nat :: j < EdgeCount(ring) ==> EdgeLength(ring, turf, j) <= 0.0) ==>
      PrincipalBearing(ring, turf) == 0.0
    ensures (exists j: nat :: j < EdgeCount(ring) && EdgeLength(ring, turf, j) > 0.0) ==>
      exists k: nat :: IsFirstLongestEdge(ring, turf, k) && PrincipalBearing(ring, turf) == EdgeBearing(ring, turf, k)
  {
    var n := EdgeCount(ring);
    PrincipalScanInvariant(ring, turf, n);
    var (m, b) := PrincipalScan(ring, turf, n);
    if m > 0.0 {
      var k: nat :| FirstEdgeOfLength(ring, turf, n, k, m, b);
      assert IsFirstLongestEdge(ring, turf, k);
    }
  }

  /** `findPrincipalAxisBearing` over the closed ring of a polygon. */
  method FindPrincipalAxisBearing(ring: seq<Position>, turf: Turf) returns (principalBearing: real)
    ensures principalBearing == PrincipalBearing(ring, turf)
  {
    var maxLength := 0.0;
    principalBearing := 0.0;
    var i := 0;
    while i < |ring| - 1
      invariant 0 <= i <= EdgeCount(ring)
      invariant (maxLength, principalBearing) == PrincipalScan(ring, turf, i)
    {
      var length := turf.distance(ring[i], ring[i + 1]);
      if length > maxLength {
        maxLength := length;
        principalBearing := turf.bearing(ring[i], ring[i + 1]);
      }
      i := i + 1;
    }
  }

  // ============ Rotation ============

  /** `coords.map(c => transformRotate(c, angle, {pivot}))`. */
  function RotateCoordinates(coords: seq<Position>, angle: real, pivot: Position, turf: Turf): (r: seq<Position>)
    ensures |r| == |coords|
    ensures forall i :: 0 <= i < |r| ==> r[i] == turf.rotate(coords[i], angle, pivot)
  {
    if coords == [] then []
    else
      RotateCoordinates(coords[..|coords| - 1], angle, pivot, turf) +
        [turf.rotate(coords[|coords| - 1], angle, pivot)]
  }

  /** Rotating a concatenation rotates each part. */
  lemma {:induction false} RotateAppend(a: seq<Position>, b: seq<Position>, angle: real, pivot: Position, turf: Turf)
    ensures RotateCoordinates(a + b, angle, pivot, turf) ==
      RotateCoordinates(a, angle, pivot, turf) + RotateCoordinates(b, angle, pivot, turf)
  {
    if b != [] {
      assert (a + b)[..|a + b| - 1] == a + b[..|b| - 1];
      RotateAppend(a, b[..|b| - 1], angle, pivot, turf);
    }
  }

  /** `rotatePolygon`: every vertex rotated about the ring's centroid. */
  function RotatePolygon(ring: seq<Position>, angle: real, turf: Turf): seq<Position>
  {
    RotateCoordinates(ring, angle, turf.centroid(ring), turf)
  }

  // ============ Scan lines ============

  /** Latitude of the k-th horizontal probe. */
  function ProbeY(box: BBox, stepDeg: real, k: nat): real
  {
    if k == 0 then box.minY else ProbeY(box, stepDeg, k - 1) + stepDeg
  }

  /** k steps of `y += step` from minY reach minY + k·step. */
  lemma {:induction false} ProbeYClosedForm(box: BBox, stepDeg: real, k: nat)
    ensures ProbeY(box, stepDeg, k) == box.minY + k as real * stepDeg
  {
    if k > 0 {
      ProbeYClosedForm(box, stepDeg, k - 1);
      assert k as real * stepDeg == (k - 1) as real * stepDeg + stepDeg;
    }
  }

  /** Number of probes `for (y = minY; y <= maxY; y += step)` visits. */
  function ProbeCount(box: BBox, stepDeg: real): nat
    requires stepDeg > 0.0
  {
    if box.maxY < box.minY then 0 else ((box.maxY - box.minY) / stepDeg).Floor + 1
  }

  lemma ScaledCompare(s: real, kr: real, q: real, p: real, d: real)
    requires s > 0.0 && p == kr * s && d == q * s
    ensures p <= d <==> kr <= q
  {
    assert q * s - kr * s == (q - kr) * s;
    if kr <= q {
      assert 0.0 <= (q - kr) * s;
    } else {
      assert (q - kr) * s < 0.0;
    }
  }

  /** Probe k is visited exactly when k is below the probe count. */
  lemma ProbeCountExact(box: BBox, stepDeg: real, k: nat)
    requires stepDeg > 0.0
    ensures ProbeY(box, stepDeg, k) <= box.maxY <==> k < ProbeCount(box, stepDeg)
  {
    var d := box.maxY - box.minY;
    var q := d / stepDeg;
    var p := k as real * stepDeg;
    ProbeYClosedForm(box, stepDeg, k);
    assert q * stepDeg == d;
    ScaledCompare(stepDeg, k as real, q, p, d);
    assert 0.0 <= p by {
      assert 0.0 <= k as real * stepDeg;
    }
  }

  /** `[points[0], points[1]], [points[2], points[3]], …`; an odd last point is dropped. */
  function PairUp(points: seq<Position>): (r: seq<seq<Position>>)
    ensures |r| == |points| / 2
    ensures forall j :: 0 <= j < |r| ==> r[j] == [points[2 * j], points[2 * j + 1]]
  {
    seq(|points| / 2, j requires 0 <= j < |points| / 2 => [points[2 * j], points[2 * j + 1]])
  }

  /** The segments one probe contributes: none when the intersection call threw or
      found fewer than two crossings, otherwise the crossings sorted by longitude
      and paired. */
  function ClipProbe(clipped: Option<seq<Position>>): (r: seq<seq<Position>>)
    ensures clipped.None? || |clipped.value| < 2 ==> r == []
    ensures clipped.Some? && |clipped.value| >= 2 ==> |r| == |clipped.value| / 2
  {
    if clipped.None? || |clipped.value| < 2 then [] else PairUp(SortByLon(clipped.value))
  }

  /** A segment: two crossing points, west end first. */
  ghost predicate IsSegment(line: seq<Position>)
  {
    |line| == 2 && line[0].lon <= line[1].lon
  }

  /** Pairing a sorted sequence gives segments that follow each other west to east. */
  lemma PairUpOfSorted(points: seq<Position>)
    requires SortedByLon(points)
    ensures forall j :: 0 <= j < |PairUp(points)| ==> IsSegment(PairUp(points)[j])
    ensures forall j :: 0 <= j < |PairUp(points)| - 1 ==> PairUp(points)[j][1].lon <= PairUp(points)[j + 1][0].lon
  {
    var r := PairUp(points);
    forall j | 0 <= j < |r|
      ensures IsSegment(r[j])
    {
      assert points[2 * j].lon <= points[2 * j + 1].lon;
    }
    forall j | 0 <= j < |r| - 1
      ensures r[j][1].lon <= r[j + 1][0].lon
    {
      assert points[2 * j + 1].lon <= points[2 * j + 2].lon;
    }
  }

  /** The ends of every pair are points of the sequence. */
  lemma PairUpMembers(points: seq<Position>)
    ensures forall j :: 0 <= j < |PairUp(points)| ==>
      PairUp(points)[j][0] in points && PairUp(points)[j][1] in points
  {
    var r := PairUp(points);
    forall j | 0 <= j < |r|
      ensures r[j][0] in points && r[j][1] in points
    {
      assert r[j][0] == points[2 * j] && r[j][1] == points[2 * j + 1];
    }
  }

  lemma ClipProbeSegments(clipped: Option<seq<Position>>)
    ensures forall j :: 0 <= j < |ClipProbe(clipped)| ==>
      IsSegment(ClipProbe(clipped)[j]) &&
      ClipProbe(clipped)[j][0] in clipped.value && ClipProbe(clipped)[j][1] in clipped.value
    ensures forall j :: 0 <= j < |ClipProbe(clipped)| - 1 ==>
      ClipProbe(clipped)[j][1].lon <= ClipProbe(clipped)[j + 1][0].lon
  {
    if clipped.Some? && |clipped.value| >= 2 {
      var points := SortByLon(clipped.value);
      SortByLonSorts(clipped.value);
      PairUpOfSorted(points);
      PairUpMembers(points);
      forall x | x in points
        ensures x in clipped.value
      {
        assert x in multiset(points);
      }
    }
  }

  function ProbeStart(box: BBox, y: real): Position
  {
    Position(box.minX - ProbeMarginDeg, y)
  }

  function ProbeEnd(box: BBox, y: real): Position
  {
    Position(box.maxX + ProbeMarginDeg, y)
  }

  function ProbeSegments(ring: seq<Position>, turf: Turf, box: BBox, stepDeg: real, k: nat): seq<seq<Position>>
  {
    var y := ProbeY(box, stepDeg, k);
    ClipProbe(turf.crossings(ring, ProbeStart(box, y), ProbeEnd(box, y)))
  }

  /** The segments of every probe, by probe index. */
  function Probes(ring: seq<Position>, turf: Turf, box: BBox, stepDeg: real): nat -> seq<seq<Position>>
  {
    (k: nat) => ProbeSegments(ring, turf, box, stepDeg, k)
  }

  /** Segments of the first n probes, probe by probe from the lowest latitude up. */
  function SegmentsUpTo(probe: nat -> seq<seq<Position>>, n: nat): seq<seq<Position>>
  {
    if n == 0 then [] else SegmentsUpTo(probe, n - 1) + probe(n - 1)
  }

  function StepDegrees(box: BBox, spacingM: real, turf: Turf): (r: real)
    requires spacingM > 0.0
    ensures r > 0.0
  {
    var metersPerDegree := turf.metersPerDegree((box.minY + box.maxY) / 2.0);
    spacingM / metersPerDegree
  }

  /** `generateScanLines` as a value. */
  function ScanLines(ring: seq<Position>, spacingM: real, turf: Turf): seq<seq<Position>>
    requires spacingM > 0.0
  {
    var box := turf.bbox(ring);
    var stepDeg := StepDegrees(box, spacingM, turf);
    SegmentsUpTo(Probes(ring, turf, box, stepDeg), ProbeCount(box, stepDeg))
  }

  /** Probes come in increasing latitude: the segments of the first m probes are a
      prefix of those of the first n. */
  lemma {:induction false} SegmentsInProbeOrder(probe: nat -> seq<seq<Position>>, m: nat, n: nat)
    requires m <= n
    ensures SegmentsUpTo(probe, m) <= SegmentsUpTo(probe, n)
  {
    if m < n {
      SegmentsInProbeOrder(probe, m, n - 1);
      PrefixOfAppend(SegmentsUpTo(probe, m), SegmentsUpTo(probe, n - 1), probe(n - 1));
    }
  }

  lemma {:induction false} SegmentsUpToAreSegments(probe: nat -> seq<seq<Position>>, n: nat)
    requires forall k: nat, j :: k < n && 0 <= j < |probe(k)| ==> IsSegment(probe(k)[j])
    ensures forall j :: 0 <= j < |SegmentsUpTo(probe, n)| ==> IsSegment(SegmentsUpTo(probe, n)[j])
  {
    if n > 0 {
      SegmentsUpToAreSegments(probe, n - 1);
      var a := SegmentsUpTo(probe, n - 1);
      var b := probe(n - 1);
      forall j | 0 <= j < |a + b|
        ensures IsSegment((a + b)[j])
      {
        if j >= |a| {
          assert (a + b)[j] == b[j - |a|];
        }
      }
    }
  }

  lemma SegmentsUpToNext(probe: nat -> seq<seq<Position>>, k: nat)
    ensures SegmentsUpTo(probe, k + 1) == SegmentsUpTo(probe, k) + probe(k)
  {
  }

  lemma ProbeSegmentsAt(ring: seq<Position>, turf: Turf, box: BBox, stepDeg: real, k: nat, y: real)
    requires y == ProbeY(box, stepDeg, k)
    ensures Probes(ring, turf, box, stepDeg)(k) == ClipProbe(turf.crossings(ring, ProbeStart(box, y), ProbeEnd(box, y)))
  {
  }

  /** Every scan line has exactly two points, west end first. */
  lemma ScanLinesAreSegments(ring: seq<Position>, spacingM: real, turf: Turf)
    requires spacingM > 0.0
    ensures forall j :: 0 <= j < |ScanLines(ring, spacingM, turf)| ==> IsSegment(ScanLines(ring, spacingM, turf)[j])
  {
    var box := turf.bbox(ring);
    var stepDeg := StepDegrees(box, spacingM, turf);
    var probe := Probes(ring, turf, box, stepDeg);
    forall k: nat | k < ProbeCount(box, stepDeg)
      ensures forall j :: 0 <= j < |probe(k)| ==> IsSegment(probe(k)[j])
    {
      var y := ProbeY(box, stepDeg, k);
      ProbeSegmentsAt(ring, turf, box, stepDeg, k, y);
      ClipProbeSegments(turf.crossings(ring, ProbeStart(box, y), ProbeEnd(box, y)));
    }
    SegmentsUpToAreSegments(probe, ProbeCount(box, stepDeg));
  }

  /** The points held by a sequence of arrays. */
  ghost function Contents(lines: seq<array<Position>>): (r: seq<seq<Position>>)
    reads lines
    ensures |r| == |lines|
    ensures forall i :: 0 <= i < |lines| ==> r[i] == lines[i][..]
  {
    if lines == [] then [] else Contents(lines[..|lines| - 1]) + [lines[|lines| - 1][..]]
  }

  lemma ContentsAppend(a: seq<array<Position>>, b: seq<array<Position>>)
    ensures Contents(a + b) == Contents(a) + Contents(b)
  {
    assert forall i :: 0 <= i < |a + b| ==> (a + b)[i] == if i < |a| then a[i] else b[i - |a|];
  }

  /** No array occurs twice. */
  ghost predicate Distinct(lines: seq<array<Position>>)
  {
    forall i, j :: 0 <= i < j < |lines| ==> lines[i] != lines[j]
  }

  lemma DistinctAppend(a: seq<array<Position>>, b: seq<array<Position>>)
    requires Distinct(a) && Distinct(b)
    requires forall x :: x in b ==> x !in a
    ensures Distinct(a + b)
  {
    forall i, j | 0 <= i < j < |a + b|
      ensures (a + b)[i] != (a + b)[j]
    {
      if j >= |a| {
        assert (a + b)[j] == b[j - |a|];
        if i >= |a| {
          assert (a + b)[i] == b[i - |a|];
        } else {
          assert (a + b)[j] in b;
        }
      }
    }
  }

  /** `generateScanLines`: each segment is a freshly allocated two-element array. */
  method GenerateScanLines(ring: seq<Position>, spacingM: real, turf: Turf) returns (lines: seq<array<Position>>)
    requires spacingM > 0.0
    ensures Contents(lines) == ScanLines(ring, spacingM, turf)
    ensures fresh(lines)
    ensures Distinct(lines)
  {
    var box := turf.bbox(ring);
    var centerLat := (box.minY + box.maxY) / 2.0;
    var metersPerDegree := turf.metersPerDegree(centerLat);
    var spacingDeg := spacingM / metersPerDegree;
    assert spacingDeg == StepDegrees(box, spacingM, turf);

    lines := [];
    var y := box.minY;
    ghost var k: nat := 0;
    while y <= box.maxY
      invariant k <= ProbeCount(box, spacingDeg)
      invariant y == ProbeY(box, spacingDeg, k)
      invariant Contents(lines) == SegmentsUpTo(Probes(ring, turf, box, spacingDeg), k)
      invariant fresh(lines)
      invariant Distinct(lines)
      decreases ProbeCount(box, spacingDeg) - k
    {
      ProbeCountExact(box, spacingDeg, k);
      var segments := ScanProbe(lines, ring, turf, box, spacingDeg, k, y);
      lines := lines + segments;
      SegmentsUpToNext(Probes(ring, turf, box, spacingDeg), k);
      y := y + spacingDeg;
      k := k + 1;
    }
    ProbeCountExact(box, spacingDeg, k);
  }

  /** One iteration of `generateScanLines`'s probe loop: the probe at latitude y
      from just west to just east of the box is clipped to the ring and its
      segments are pushed, as new arrays, after the lines found so far. */
  method ScanProbe(lines: seq<array<Position>>, ring: seq<Position>, turf: Turf, box: BBox, stepDeg: real, ghost k: nat, y: real)
    returns (segments: seq<array<Position>>)
    requires y == ProbeY(box, stepDeg, k)
    requires Distinct(lines)
    ensures fresh(segments)
    ensures Contents(lines + segments) == old(Contents(lines)) + Probes(ring, turf, box, stepDeg)(k)
    ensures Distinct(lines + segments)
  {
    var lineStart := ProbeStart(box, y);
    var lineEnd := ProbeEnd(box, y);
    var clipped := turf.crossings(ring, lineStart, lineEnd);
    segments := ClipSegments(clipped);
    ProbeSegmentsAt(ring, turf, box, stepDeg, k, y);
    ContentsAppend(lines, segments);
    DistinctAppend(lines, segments);
  }

  /** The body of `generateScanLines`'s probe loop after the intersection call: no
      segment unless there are two crossings, otherwise the crossings sorted by
      longitude and paired. */
  method ClipSegments(clipped: Option<seq<Position>>) returns (segments: seq<array<Position>>)
    ensures Contents(segments) == ClipProbe(clipped)
    ensures fresh(segments)
    ensures Distinct(segments)
  {
    segments := [];
    if clipped.Some? && |clipped.value| >= 2 {
      var points := SortByLon(clipped.value);
      segments := PairSegments(points);
    }
  }

  /** The inner loop of `generateScanLines`: one fresh two-element array for each
      consecutive pair of sorted crossings. */
  method PairSegments(points: seq<Position>) returns (segments: seq<array<Position>>)
    ensures Contents(segments) == PairUp(points)
    ensures fresh(segments)
    ensures Distinct(segments)
  {
    segments := [];
    var i := 0;
    while i + 1 < |points|
      invariant i == 2 * |segments| && i <= |points|
      invariant forall j :: 0 <= j < |segments| ==> segments[j][..] == [points[2 * j], points[2 * j + 1]]
      invariant fresh(segments)
      invariant Distinct(segments)
    {
      var segment := new Position[2] [points[i], points[i + 1]];
      segments := segments + [segment];
      i := i + 2;
    }
  }

  // ============ Boustrophedon ordering ============

  /** Line `index` as flown: odd-numbered lines are flown backwards. */
  function Oriented(line: seq<Position>, index: nat): seq<Position>
  {
    if index % 2 == 1 then Reverse(line) else line
  }

  /** `applySnakePattern` as a value: the lines concatenated in order, odd ones reversed. */
  function SnakeOrder(lines: seq<seq<Position>>): seq<Position>
  {
    if lines == [] then []
    else SnakeOrder(lines[..|lines| - 1]) + Oriented(lines[|lines| - 1], |lines| - 1)
  }

  function TotalPoints(lines: seq<seq<Position>>): nat
  {
    if lines == [] then 0 else TotalPoints(lines[..|lines| - 1]) + |lines[|lines| - 1]|
  }

  /** The snake path visits every point of every line once: its length is the sum
      of the line lengths. */
  lemma {:induction false} SnakeOrderLength(lines: seq<seq<Position>>)
    ensures |SnakeOrder(lines)| == TotalPoints(lines)
  {
    if lines != [] {
      SnakeOrderLength(lines[..|lines| - 1]);
    }
  }

  /** On two-point segments, point 2j and 2j+1 of the path are the ends of segment j:
      west then east on even segments, east then west on odd ones. */
  lemma {:induction false} SnakeOrderOfSegments(lines: seq<seq<Position>>)
    requires forall j :: 0 <= j < |lines| ==> |lines[j]| == 2
    ensures |SnakeOrder(lines)| == 2 * |lines|
    ensures forall j :: 0 <= j < |lines| ==>
      SnakeOrder(lines)[2 * j] == (if j % 2 == 1 then lines[j][1] else lines[j][0]) &&
      SnakeOrder(lines)[2 * j + 1] == (if j % 2 == 1 then lines[j][0] else lines[j][1])
  {
    if lines != [] {
      var n := |lines|;
      var init := lines[..n - 1];
      SnakeOrderOfSegments(init);
      assert lines == init + [lines[n - 1]];
      SnakePairsAppend(init, lines[n - 1], SnakeOrder(init));
    }
  }

  /** The step of SnakeOrderOfSegments: appending one oriented two-point line. */
  lemma SnakePairsAppend(init: seq<seq<Position>>, line: seq<Position>, prefix: seq<Position>)
    requires |line| == 2 && |prefix| == 2 * |init|
    requires forall j :: 0 <= j < |init| ==> |init[j]| == 2
    requires forall j :: 0 <= j < |init| ==>
      prefix[2 * j] == (if j % 2 == 1 then init[j][1] else init[j][0]) &&
      prefix[2 * j + 1] == (if j % 2 == 1 then init[j][0] else init[j][1])
    ensures var lines := init + [line];
      var r := prefix + Oriented(line, |init|);
      |r| == 2 * |lines| &&
      forall j :: 0 <= j < |lines| ==>
        r[2 * j] == (if j % 2 == 1 then lines[j][1] else lines[j][0]) &&
        r[2 * j + 1] == (if j % 2 == 1 then lines[j][0] else lines[j][1])
  {
    var n := |init| + 1;
    var lines := init + [line];
    var last := Oriented(line, n - 1);
    OrientedPair(line, n - 1);
    forall j | 0 <= j < n
      ensures (prefix + last)[2 * j] == (if j % 2 == 1 then lines[j][1] else lines[j][0])
      ensures (prefix + last)[2 * j + 1] == (if j % 2 == 1 then lines[j][0] else lines[j][1])
    {
      if j < n - 1 {
        assert lines[j] == init[j];
        assert (prefix + last)[2 * j] == prefix[2 * j];
        assert (prefix + last)[2 * j + 1] == prefix[2 * j + 1];
      } else {
        assert lines[j] == line;
        assert (prefix + last)[2 * j] == last[0];
        assert (prefix + last)[2 * j + 1] == last[1];
      }
    }
  }

  /** A two-point line flown backwards swaps its ends. */
  lemma OrientedPair(line: seq<Position>, index: nat)
    requires |line| == 2
    ensures Oriented(line, index) == if index % 2 == 1 then [line[1], line[0]] else line
  {
    if index % 2 == 1 {
      var r := Reverse(line);
      assert r[0] == line[1] && r[1] == line[0];
    }
  }

  /** Flying one more line appends it, oriented by its index. */
  lemma SnakeOrderNext(lines: seq<seq<Position>>, k: nat)
    requires k < |lines|
    ensures SnakeOrder(lines[..k + 1]) == SnakeOrder(lines[..k]) + Oriented(lines[k], k)
  {
    assert lines[..k + 1][..k] == lines[..k];
  }

  /** The lines after the first n have been flown: those are oriented, the rest
      untouched. */
  ghost function Flown(lines: seq<seq<Position>>, n: nat): (r: seq<seq<Position>>)
    ensures |r| == |lines|
  {
    seq(|lines|, i requires 0 <= i < |lines| => if i < n then Oriented(lines[i], i) else lines[i])
  }

  /** Line `index` as flown: an odd-numbered array is reversed in place, the others
      are left alone. */
  method OrientLine(lines: seq<array<Position>>, index: nat)
    requires index < |lines| && Distinct(lines)
    modifies lines[index]
    ensures Contents(lines) == old(Contents(lines))[index := Oriented(old(lines[index][..]), index)]
  {
    var line := lines[index];
    if index % 2 == 1 {
      ReverseInPlace(line);
    }
    assert forall i :: 0 <= i < |lines| && i != index ==> lines[i] != line;
  }

  /** `applySnakePattern`: appends each line's points, reversing the odd lines in
      place first (as `line.reverse()` does to the caller's arrays). */
  method ApplySnakePattern(lines: seq<array<Position>>) returns (waypoints: seq<Position>)
    requires Distinct(lines)
    modifies lines
    ensures waypoints == SnakeOrder(old(Contents(lines)))
    ensures Contents(lines) == Flown(old(Contents(lines)), |lines|)
  {
    ghost var before := Contents(lines);
    waypoints := [];
    var index := 0;
    while index < |lines|
      invariant 0 <= index <= |lines|
      invariant waypoints == SnakeOrder(before[..index])
      invariant Contents(lines) == Flown(before, index)
    {
      OrientLine(lines, index);
      assert Flown(before, index)[index := Oriented(before[index], index)] == Flown(before, index + 1);
      SnakeOrderNext(before, index);
      waypoints := waypoints + lines[index][..];
      index := index + 1;
    }
    assert before[..|lines|] == before;
  }

  // ============ Patterns ============

  /** `generatePerimeterPath`: the vertices in order, then the first one again. */
  function GeneratePerimeterPath(coords: seq<Position>): (r: seq<Position>)
    requires |coords| > 0
    ensures |r| == |coords| + 1
    ensures r[..|coords|] == coords
    ensures r[|coords|] == coords[0]
  {
    CloseRing(coords)
  }

  /** One pass in the frame turned by frameAngle: rotate the ring by −frameAngle,
      cut it into scan lines, order them as a snake and rotate the points back. */
  function Sweep(ring: seq<Position>, spacingM: real, pivot: Position, turf: Turf, frameAngle: real): seq<Position>
    requires spacingM > 0.0
  {
    var scanLines := ScanLines(RotatePolygon(ring, -frameAngle, turf), spacingM, turf);
    RotateCoordinates(SnakeOrder(scanLines), frameAngle, pivot, turf)
  }

  /** `generateSnakePath` as a value: one pass along the principal axis. Its early
      return of `[]` when there is no scan line gives the same value as rotating
      the empty snake ordering back (see SnakePathLength). */
  function SnakePath(ring: seq<Position>, spacingM: real, pivot: Position, turf: Turf): seq<Position>
    requires spacingM > 0.0
  {
    Sweep(ring, spacingM, pivot, turf, PrincipalBearing(ring, turf))
  }

  /** A pass flies two waypoints per scan line: no scan line, no waypoint. */
  lemma SweepLength(ring: seq<Position>, spacingM: real, pivot: Position, turf: Turf, frameAngle: real)
    requires spacingM > 0.0
    ensures |Sweep(ring, spacingM, pivot, turf, frameAngle)| ==
      2 * |ScanLines(RotatePolygon(ring, -frameAngle, turf), spacingM, turf)|
  {
    var rotated := RotatePolygon(ring, -frameAngle, turf);
    ScanLinesAreSegments(rotated, spacingM, turf);
    SnakeOrderOfSegments(ScanLines(rotated, spacingM, turf));
  }

  /** The snake path has two waypoints per scan line along the principal axis. */
  lemma SnakePathLength(ring: seq<Position>, spacingM: real, pivot: Position, turf: Turf)
    requires spacingM > 0.0
    ensures var scanLines := ScanLines(RotatePolygon(ring, -PrincipalBearing(ring, turf), turf), spacingM, turf);
      |SnakePath(ring, spacingM, pivot, turf)| == 2 * |scanLines|
  {
    SweepLength(ring, spacingM, pivot, turf, PrincipalBearing(ring, turf));
  }

  /** The frame of the crosshatch's second pass: a quarter turn from the first, so
      the ring is turned by −bearing + 90 and the points back by bearing − 90. */
  function CrossAngle(bearing: real): real
  {
    bearing - 90.0
  }

  /** `generateCrosshatchPath` as a value: the snake pass along the principal axis,
      then a pass across it. */
  function CrosshatchPath(ring: seq<Position>, spacingM: real, pivot: Position, turf: Turf): (r: seq<Position>)
    requires spacingM > 0.0
  {
    var principalBearing := PrincipalBearing(ring, turf);
    Sweep(ring, spacingM, pivot, turf, principalBearing) + Sweep(ring, spacingM, pivot, turf, CrossAngle(principalBearing))
  }

  /** A crosshatch flies the snake path first and then the cross pass. */
  lemma CrosshatchIsSnakeThenCross(ring: seq<Position>, spacingM: real, pivot: Position, turf: Turf)
    requires spacingM > 0.0
    ensures CrosshatchPath(ring, spacingM, pivot, turf) ==
      SnakePath(ring, spacingM, pivot, turf) + Sweep(ring, spacingM, pivot, turf, CrossAngle(PrincipalBearing(ring, turf)))
  {
  }

  /** So its length is two waypoints for every scan line of either pass. */
  lemma CrosshatchPathLength(ring: seq<Position>, spacingM: real, pivot: Position, turf: Turf)
    requires spacingM > 0.0
    ensures var bearing := PrincipalBearing(ring, turf);
      var crossAngle := CrossAngle(bearing);
      |CrosshatchPath(ring, spacingM, pivot, turf)| ==
        2 * |ScanLines(RotatePolygon(ring, -bearing, turf), spacingM, turf)| +
        2 * |ScanLines(RotatePolygon(ring, -crossAngle, turf), spacingM, turf)|
  {
    var bearing := PrincipalBearing(ring, turf);
    var crossAngle := CrossAngle(bearing);
    var first := Sweep(ring, spacingM, pivot, turf, bearing);
    var cross := Sweep(ring, spacingM, pivot, turf, crossAngle);
    CrosshatchIsSnakeThenCross(ring, spacingM, pivot, turf);
    assert |CrosshatchPath(ring, spacingM, pivot, turf)| == |first| + |cross|;
    SweepLength(ring, spacingM, pivot, turf, bearing);
    SweepLength(ring, spacingM, pivot, turf, crossAngle);
  }

  /** `generateSnakePath`. The early return when there is no scan line is the
      sweep's empty result. */
  method GenerateSnakePath(ring: seq<Position>, spacingM: real, pivot: Position, turf: Turf) returns (waypoints: seq<Position>)
    requires spacingM > 0.0
    ensures waypoints == SnakePath(ring, spacingM, pivot, turf)
  {
    var principalBearing := FindPrincipalAxisBearing(ring, turf);
    waypoints := GenerateSweep(ring, spacingM, pivot, turf, principalBearing);
  }

  method GenerateCrosshatchPath(ring: seq<Position>, spacingM: real, pivot: Position, turf: Turf) returns (waypoints: seq<Position>)
    requires spacingM > 0.0
    ensures waypoints == CrosshatchPath(ring, spacingM, pivot, turf)
  {
    var bearing := FindPrincipalAxisBearing(ring, turf);
    var waypoints1 := GenerateSweep(ring, spacingM, pivot, turf, bearing);
    var waypoints2 := GenerateSweep(ring, spacingM, pivot, turf, CrossAngle(bearing));
    waypoints := waypoints1 + waypoints2;
  }

  /** One crosshatch pass: rotate the ring by −frameAngle, clip, order as a snake,
      rotate the points back by frameAngle. */
  method GenerateSweep(ring: seq<Position>, spacingM: real, pivot: Position, turf: Turf, frameAngle: real)
    returns (waypoints: seq<Position>)
    requires spacingM > 0.0
    ensures waypoints == Sweep(ring, spacingM, pivot, turf, frameAngle)
  {
    var rotatedPolygon := RotatePolygon(ring, -frameAngle, turf);
    var scanLines := GenerateScanLines(rotatedPolygon, spacingM, turf);
    var snakePattern := ApplySnakePattern(scanLines);
    waypoints := RotateCoordinates(snakePattern, frameAngle, pivot, turf);
  }

  // ============ Estimates ============

  /** `estimatePhotoCount`: photos taken at captureFrequency per second over the
      flight time, rounded up; none for no distance, and at least one for any
      positive flight that captures at all. */
  function EstimatePhotoCount(distanceKm: real, speedKmh: real, captureFrequency: real): (r: int)
    requires speedKmh != 0.0
    ensures distanceKm == 0.0 ==> r == 0
    ensures distanceKm >= 0.0 && speedKmh > 0.0 && captureFrequency >= 0.0 ==> r >= 0
    ensures distanceKm > 0.0 && speedKmh > 0.0 && captureFrequency > 0.0 ==> r >= 1
  {
    var durationHours := distanceKm / speedKmh;
    var durationSeconds := durationHours * 3600.0;
    Ceil(durationSeconds * captureFrequency)
  }

  /** Minutes of flight, rounded up: a flight of any positive length is reported
      as at least one minute. */
  function EstimateDurationMin(distanceKm: real, speedKmh: real): (r: int)
    requires speedKmh != 0.0
    ensures distanceKm == 0.0 ==> r == 0
    ensures distanceKm > 0.0 && speedKmh > 0.0 ==> r >= 1
  {
    Ceil(distanceKm / speedKmh * 60.0)
  }

  /** At two photos per second the photo estimate never exceeds two photos for each
      second of the (rounded-up) duration estimate, and neither is negative. */
  lemma PhotosWithinDuration(distanceKm: real, speedKmh: real)
    requires distanceKm >= 0.0 && speedKmh > 0.0
    ensures 0 <= EstimatePhotoCount(distanceKm, speedKmh, CaptureFrequencyHz)
    ensures EstimatePhotoCount(distanceKm, speedKmh, CaptureFrequencyHz) <= 120 * EstimateDurationMin(distanceKm, speedKmh)
  {
    var hours := distanceKm / speedKmh;
    assert hours >= 0.0;
    var minutes := EstimateDurationMin(distanceKm, speedKmh);
    assert hours * 60.0 <= minutes as real;
    assert hours * 3600.0 * CaptureFrequencyHz <= (120 * minutes) as real;
  }

  /** `estimateBatteryConsumption`: two percent per kilometre, rounded up. */
  function EstimateBatteryConsumption(distanceKm: real): (r: int)
    ensures distanceKm * 2.0 <= r as real < distanceKm * 2.0 + 1.0
  {
    Ceil(distanceKm * 2.0)
  }

  /** `checkRangeValidity`: the maximum range itself may be flown, nothing beyond it. */
  function CheckRangeValidity(distanceKm: real, maxRangeKm: real): (r: bool)
    ensures distanceKm == maxRangeKm ==> r
    ensures distanceKm > maxRangeKm ==> !r
  {
    distanceKm <= maxRangeKm
  }

  /** `getPatternDisplayName`: every name is non-empty, so the `|| pattern`
      fallback never applies. */
  function GetPatternDisplayName(pattern: SurveyPattern): (r: string)
    ensures |r| > 0
  {
    match pattern
    case Snake => "Snake (Lawnmower)"
    case Crosshatch => "Crosshatch (Grid)"
    case Perimeter => "Perimeter Only"
    case Spiral => "Spiral Inward"
  }

  /** Different patterns are shown under different names. */
  lemma DisplayNamesDistinct(p: SurveyPattern, q: SurveyPattern)
    requires p != q
    ensures GetPatternDisplayName(p) != GetPatternDisplayName(q)
  {
  }

  // ============ generateFlightPath ============

  function PatternOrDefault(pattern: Option<SurveyPattern>): SurveyPattern
  {
    pattern.GetOr(Snake)
  }

  /** `config.camera_fov_deg || 84`: an absent or zero field of view means 84. */
  function FovOrDefault(fovDeg: Option<real>): real
  {
    if fovDeg.None? || fovDeg.value == 0.0 then DefaultFovDeg else fovDeg.value
  }

  /** `config.speed_kmh || 30`: an absent or zero speed means 30 km/h. */
  function SpeedOrDefault(speedKmh: Option<real>): (r: real)
    ensures r != 0.0
  {
    if speedKmh.None? || speedKmh.value == 0.0 then DefaultSpeedKmh else speedKmh.value
  }

  /** The waypoints the selected pattern produces (SPIRAL falls back to SNAKE). */
  function PatternWaypoints(coords: seq<Position>, pattern: SurveyPattern, spacingM: real, turf: Turf): seq<Position>
    requires |coords| >= 3
    requires pattern != Perimeter ==> spacingM > 0.0
  {
    var ring := CloseRing(coords);
    var pivot := turf.centroid(ring);
    match pattern
    case Perimeter => GeneratePerimeterPath(coords)
    case Crosshatch => CrosshatchPath(ring, spacingM, pivot, turf)
    case Spiral => SnakePath(ring, spacingM, pivot, turf)
    case Snake => SnakePath(ring, spacingM, pivot, turf)
  }

  /** The pattern's waypoints, replaced by the perimeter when fewer than two. */
  function PlannedWaypoints(coords: seq<Position>, pattern: SurveyPattern, spacingM: real, turf: Turf): seq<Position>
    requires |coords| >= 3
    requires pattern != Perimeter ==> spacingM > 0.0
  {
    var waypoints := PatternWaypoints(coords, pattern, spacingM, turf);
    if |waypoints| < 2 then GeneratePerimeterPath(coords) else waypoints
  }

  /** The report on a flight path: its length, duration, waypoint count, spacing,
      photo count and the surveyed area in square kilometres rounded to three
      decimals. */
  function PathReport(coords: seq<Position>, waypoints: seq<Position>, spacing: real, speedKmh: real, turf: Turf): FlightPathResult
    requires |coords| > 0 && speedKmh != 0.0
  {
    var totalDistanceKm := turf.lineLength(waypoints);
    var areaSqKm := turf.area(CloseRing(coords)) / 1000000.0;
    FlightPathResult(
      waypoints,
      totalDistanceKm,
      EstimateDurationMin(totalDistanceKm, speedKmh),
      |waypoints|,
      spacing,
      EstimatePhotoCount(totalDistanceKm, speedKmh, CaptureFrequencyHz),
      Round(areaSqKm * 1000.0) as real / 1000.0)
  }

  /** The report for a polygon of at least three vertices once the pattern and the
      spacing are known. */
  function SurveyReport(coords: seq<Position>, pattern: SurveyPattern, spacing: real, speedKmh: real, turf: Turf): FlightPathResult
    requires |coords| >= 3 && speedKmh != 0.0
    requires pattern != Perimeter ==> spacing > 0.0
  {
    PathReport(coords, PlannedWaypoints(coords, pattern, spacing, turf), spacing, speedKmh, turf)
  }

  /** `generateFlightPath` as a value. A plan fails on fewer than three vertices,
      and otherwise only for a scan pattern with a non-positive grid spacing; every
      plan has at least two waypoints and reports their number. */
  function FlightPlan(coords: seq<Position>, config: FlightPathConfig, turf: Turf): (r: Result<FlightPathResult, PlanError>)
    ensures r == Failure(InvalidPolygon) <==> |coords| < 3
    ensures r == Failure(DegenerateSpacing) <==>
      |coords| >= 3 && PatternOrDefault(config.pattern) != Perimeter &&
      CalculateGridSpacing(config.altitudeM, config.overlapPercent, FovOrDefault(config.cameraFovDeg), turf) <= 0.0
    ensures r.Success? ==> r.value.numWaypoints == |r.value.waypoints| >= 2
  {
    if |coords| < 3 then Failure(InvalidPolygon)
    else
      var pattern := PatternOrDefault(config.pattern);
      var spacing := CalculateGridSpacing(config.altitudeM, config.overlapPercent, FovOrDefault(config.cameraFovDeg), turf);
      if pattern != Perimeter && spacing <= 0.0 then Failure(DegenerateSpacing)
      else Success(SurveyReport(coords, pattern, spacing, SpeedOrDefault(config.speedKmh), turf))
  }

  /** `generateFlightPath`. */
  method GenerateFlightPath(coords: seq<Position>, config: FlightPathConfig, turf: Turf)
    returns (result: Result<FlightPathResult, PlanError>)
    ensures result == FlightPlan(coords, config, turf)
  {
    if |coords| < 3 {
      return Failure(InvalidPolygon);
    }
    var polygon := CloseRing(coords);
    var pivotCoord := turf.centroid(polygon);
    var pattern := PatternOrDefault(config.pattern);
    var spacing := CalculateGridSpacing(config.altitudeM, config.overlapPercent, FovOrDefault(config.cameraFovDeg), turf);
    if pattern != Perimeter && spacing <= 0.0 {
      return Failure(DegenerateSpacing);
    }

    var waypoints: seq<Position>;
    match pattern {
      case Perimeter =>
        waypoints := GeneratePerimeterPath(coords);
      case Crosshatch =>
        waypoints := GenerateCrosshatchPath(polygon, spacing, pivotCoord, turf);
      case Spiral =>
        waypoints := GenerateSnakePath(polygon, spacing, pivotCoord, turf);
      case Snake =>
        waypoints := GenerateSnakePath(polygon, spacing, pivotCoord, turf);
    }
    assert waypoints == PatternWaypoints(coords, pattern, spacing, turf);
    if |waypoints| < 2 {
      waypoints := GeneratePerimeterPath(coords);
    }
    assert waypoints == PlannedWaypoints(coords, pattern, spacing, turf);

    result := Success(PathReport(coords, waypoints, spacing, SpeedOrDefault(config.speedKmh), turf));
  }

  // ============ Properties of the plan ============

  /** A PERIMETER plan flies the vertices in order and closes the loop. */
  lemma PerimeterPlan(coords: seq<Position>, config: FlightPathConfig, turf: Turf)
    requires |coords| >= 3 && config.pattern == Some(Perimeter)
    ensures FlightPlan(coords, config, turf).Success?
    ensures FlightPlan(coords, config, turf).value.waypoints == coords + [coords[0]]
  {
  }

  /** SPIRAL and a missing pattern both plan exactly what SNAKE plans. */
  lemma SpiralAndDefaultAreSnake(coords: seq<Position>, config: FlightPathConfig, turf: Turf)
    ensures FlightPlan(coords, config.(pattern := Some(Spiral)), turf) == FlightPlan(coords, config.(pattern := Some(Snake)), turf)
    ensures FlightPlan(coords, config.(pattern := None), turf) == FlightPlan(coords, config.(pattern := Some(Snake)), turf)
  {
    if |coords| >= 3 {
      var spacing := CalculateGridSpacing(config.altitudeM, config.overlapPercent, FovOrDefault(config.cameraFovDeg), turf);
      if spacing > 0.0 {
        assert PatternWaypoints(coords, Spiral, spacing, turf) == PatternWaypoints(coords, Snake, spacing, turf);
      }
    }
  }

  /** A SNAKE plan falls back to the perimeter exactly when no scan line survives
      clipping; otherwise it flies the snake path. */
  lemma SnakeFallsBackIffNoScanLines(coords: seq<Position>, spacingM: real, turf: Turf)
    requires |coords| >= 3 && spacingM > 0.0
    ensures var ring := CloseRing(coords);
      var rotated := RotatePolygon(ring, -PrincipalBearing(ring, turf), turf);
      PlannedWaypoints(coords, Snake, spacingM, turf) ==
        if ScanLines(rotated, spacingM, turf) == [] then GeneratePerimeterPath(coords)
        else SnakePath(ring, spacingM, turf.centroid(ring), turf)
  {
    var ring := CloseRing(coords);
    var path := SnakePath(ring, spacingM, turf.centroid(ring), turf);
    assert PatternWaypoints(coords, Snake, spacingM, turf) == path;
    SnakePathLength(ring, spacingM, turf.centroid(ring), turf);
  }

  /** With non-positive spacing, the probe latitude of `generateScanLines`'s loop
      never rises above its start, so the loop `y <= maxY` never ends: every
      iteration k still satisfies the loop condition. */
  lemma {:induction false} ProbeNeverPassesTop(box: BBox, stepDeg: real, k: nat)
    requires stepDeg <= 0.0 && box.minY <= box.maxY
    ensures ProbeY(box, stepDeg, k) <= box.minY <= box.maxY
  {
    if k > 0 {
      ProbeNeverPassesTop(box, stepDeg, k - 1);
    }
  }
}
