/** Geometry primitives. The planner and the validator call into turf and into
    `Math.tan`/`Math.cos`; those computations are not modelled, so they are the
    fields of a `Turf` record of functions that every planning and validation
    operation receives as a parameter. Everything built on top of them (ring
    closure, sorting by longitude, pairing, ordering) is modelled exactly. */
module Geometry {
  import opened Types

  type PosReal = r: real | r > 0.0 witness 1.0

  /** turf's `[minX, minY, maxX, maxY]` bounding box. */
  datatype BBox = BBox(minX: real, minY: real, maxX: real, maxY: real)

  datatype Turf = Turf(
    /** `turf.distance(p, q)` in kilometres. */
    distance: (Position, Position) -> real,
    /** `turf.bearing(p, q)` in degrees. */
    bearing: (Position, Position) -> real,
    /** `turf.transformRotate(point, angle, {pivot})`: one point rotated about a pivot. */
    rotate: (Position, real, Position) -> Position,
    /** `turf.centroid` of a closed ring. */
    centroid: seq<Position> -> Position,
    /** `turf.bbox` of a closed ring. */
    bbox: seq<Position> -> BBox,
    /** `turf.lineIntersect(turf.polygonToLine(ring), lineString([start, end]))`:
        the points where the probe crosses the ring's boundary, or None when the
        call throws. */
    crossings: (seq<Position>, Position, Position) -> Option<seq<Position>>,
    /** `turf.length` of a line string, in kilometres. */
    lineLength: seq<Position> -> real,
    /** `turf.area` of a closed ring, in square metres. */
    area: seq<Position> -> real,
    /** `turf.booleanIntersects(lineString, polygon)`. */
    intersects: (seq<Position>, seq<seq<Position>>) -> bool,
    /** `Math.tan(fov · π / 180 / 2)` for a field of view in degrees. */
    tanHalfAngle: real -> real,
    /** `111320 · Math.cos(lat · π / 180)`: metres per degree at a latitude; positive
        for every latitude strictly between the poles. */
    metersPerDegree: real -> PosReal)

  /** `[...ps, ps[0]]`: closes a ring by repeating its first position, as a GeoJSON
      linear ring requires (section 3.1.6 of RFC 7946). */
  function CloseRing(ps: seq<Position>): (r: seq<Position>)
    requires |ps| > 0
    ensures |r| == |ps| + 1
    ensures r[..|ps|] == ps
    ensures r[0] == r[|r| - 1]
  {
    ps + [ps[0]]
  }

  ghost predicate SortedByLon(s: seq<Position>)
  {
    forall i, j :: 0 <= i < j < |s| ==> s[i].lon <= s[j].lon
  }

  /** Inserts p before the first element whose longitude is not smaller. */
  function InsertByLon(p: Position, s: seq<Position>): (r: seq<Position>)
    ensures |r| == |s| + 1
    ensures multiset(r) == multiset(s) + multiset{p}
  {
    if s == [] then [p]
    else if p.lon <= s[0].lon then [p] + s
    else
      assert s == [s[0]] + s[1..];
      [s[0]] + InsertByLon(p, s[1..])
  }

  /** Putting in front of a sorted sequence an element no further east than its
      head keeps it sorted. */
  lemma ConsSorted(x: Position, rest: seq<Position>)
    requires SortedByLon(rest)
    requires rest != [] ==> x.lon <= rest[0].lon
    ensures SortedByLon([x] + rest)
  {
    var r := [x] + rest;
    forall i, j | 0 <= i < j < |r|
      ensures r[i].lon <= r[j].lon
    {
      if i == 0 && j > 1 {
        assert rest[0].lon <= rest[j - 1].lon;
      }
    }
  }

  /** Inserting into a sorted sequence keeps it sorted; the result starts with p or
      with the old first element. */
  lemma {:induction false} InsertByLonSorted(p: Position, s: seq<Position>)
    requires SortedByLon(s)
    ensures SortedByLon(InsertByLon(p, s))
    ensures InsertByLon(p, s)[0] == p || (s != [] && InsertByLon(p, s)[0] == s[0])
  {
    if s == [] {
    } else if p.lon <= s[0].lon {
      ConsSorted(p, s);
    } else {
      var tail := s[1..];
      assert SortedByLon(tail);
      InsertByLonSorted(p, tail);
      ConsSorted(s[0], InsertByLon(p, tail));
    }
  }

  /** `points.sort((a, b) => a[0] - b[0])`: a stable sort by longitude. */
  function SortByLon(s: seq<Position>): (r: seq<Position>)
    ensures |r| == |s|
  {
    if s == [] then [] else InsertByLon(s[0], SortByLon(s[1..]))
  }

  /** The sort orders by longitude and only rearranges. */
  lemma {:induction false} SortByLonSorts(s: seq<Position>)
    ensures SortedByLon(SortByLon(s))
    ensures multiset(SortByLon(s)) == multiset(s)
  {
    if s != [] {
      SortByLonSorts(s[1..]);
      InsertByLonSorted(s[0], SortByLon(s[1..]));
      assert s == [s[0]] + s[1..];
    }
  }
}
