/** The feature-table assembly of fetch.py: the representative coordinate of an
    Overpass element (addFeaturetoGDF), the flat record built from it, the
    append-only table, the driver loop over the `power` selectors with its
    `type=site` filter, and the point geometry built from the table. */
module Fetch {
  import opened Coords
  import opened Averages

  datatype ElementType = Node | Way | Relation

  /** An Overpass element as addFeaturetoGDF reads it: `e.id()`, `e.type()`,
      `e.lat()`, `e.lon()`, `e.timestamp()`, `e.tags()` and
      `e.geometry()['coordinates']`. */
  datatype Element = Element(
    id: int,
    kind: ElementType,
    lat: real,
    lon: real,
    timestamp: string,
    tags: map<string, string>,
    coordinates: Coord)

  /** The `Lat`/`Lon` pair written into an element's record. */
  datatype Centroid = Centroid(lat: real, lon: real)

  // ---------------------------------------------------------------------------
  // The points of a way or relation

  /** The loop of fetch.py that concatenates, part by part, the first ring of
      every part of a relation, continuing from the points `acc` gathered so far.
      `p[0]` raises on a number or an empty part, and `points + p` raises when
      the first ring is a number. */
  function FirstRingsFrom(acc: seq<Coord>, parts: seq<Coord>): (r: Result<seq<Coord>>)
    ensures r.Ok? ==> |acc| <= |r.value| && r.value[..|acc|] == acc
    ensures r.Err? ==> r.error == TypeError || r.error == IndexError
    decreases |parts|
  {
    if parts == [] then Ok(acc)
    else
      var ring :- Index(parts[0], 0);
      if ring.Num? then Err(TypeError)
      else
        var acc' := acc + ring.items;
        var rest := FirstRingsFrom(acc', parts[1..]);
        assert rest.Ok? ==> rest.value[..|acc|] == rest.value[..|acc'|][..|acc|];
        rest
  }

  /** The combined points of a relation; iterating over a number raises. */
  function FirstRings(polys: Coord): (r: Result<seq<Coord>>)
    ensures r.Ok? <==> polys.List? && forall i :: 0 <= i < |polys.items| ==> IsPart(polys.items[i])
    ensures r.Ok? ==> r.value == ConcatOuterRings(polys.items)
    ensures r.Err? ==> r.error == TypeError || r.error == IndexError
  {
    match polys
    case Num(_) => Err(TypeError)
    case List(parts) =>
      FirstRingsFromMeaning([], parts);
      if FirstRingsFrom([], parts).Ok? then
        assert [] + ConcatOuterRings(parts) == ConcatOuterRings(parts);
        FirstRingsFrom([], parts)
      else FirstRingsFrom([], parts)
  }

  /** The points a way or relation is summarised by: the first ring of a way,
      the concatenated first rings of a relation. */
  function Points(e: Element): (r: Result<Coord>)
    requires e.kind != Node
    ensures e.kind == Way ==> (r.Ok? <==> e.coordinates.List? && |e.coordinates.items| > 0)
    ensures e.kind == Way && r.Ok? ==> r.value == e.coordinates.items[0]
    ensures e.kind == Relation ==>
      (r.Ok? <==> e.coordinates.List? && forall i :: 0 <= i < |e.coordinates.items| ==> IsPart(e.coordinates.items[i]))
    ensures e.kind == Relation && r.Ok? ==> r.value == List(ConcatOuterRings(e.coordinates.items))
    ensures r.Err? ==> r.error == TypeError || r.error == IndexError
  {
    if e.kind == Relation then
      var combined :- FirstRings(e.coordinates);
      Ok(List(combined))
    else
      Index(e.coordinates, 0)
  }

  /** A relation part whose first ring is a list. */
  predicate IsPart(p: Coord) {
    p.List? && |p.items| > 0 && p.items[0].List?
  }

  /** `p[0]` of a relation part. */
  function OuterRing(p: Coord): seq<Coord>
    requires IsPart(p)
  {
    p.items[0].items
  }

  /** The first rings of all parts, concatenated in part order. */
  function ConcatOuterRings(parts: seq<Coord>): seq<Coord>
    requires forall i :: 0 <= i < |parts| ==> IsPart(parts[i])
  {
    if parts == [] then [] else OuterRing(parts[0]) + ConcatOuterRings(parts[1..])
  }

  /** The relation loop succeeds exactly when every part has a list as its
      first ring, and then yields those first rings concatenated in part order. */
  lemma {:induction false} FirstRingsFromMeaning(acc: seq<Coord>, parts: seq<Coord>)
    ensures FirstRingsFrom(acc, parts).Ok? <==> forall i :: 0 <= i < |parts| ==> IsPart(parts[i])
    ensures FirstRingsFrom(acc, parts).Ok? ==>
      FirstRingsFrom(acc, parts).value == acc + ConcatOuterRings(parts)
    decreases |parts|
  {
    if parts == [] {
      assert acc + [] == acc;
    } else {
      var rest := parts[1..];
      assert forall i :: 1 <= i < |parts| ==> parts[i] == rest[i - 1];
      if IsPart(parts[0]) {
        FirstRingsFromMeaning(acc + OuterRing(parts[0]), rest);
        if forall i :: 0 <= i < |parts| ==> IsPart(parts[i]) {
          assert acc + OuterRing(parts[0]) + ConcatOuterRings(rest) == acc + ConcatOuterRings(parts);
        }
      }
    }
  }

  // ---------------------------------------------------------------------------
  // Averaging

  /** The loop of fetch.py that appends `p[0]` to the lon list and `p[1]` to the
      lat list for every point, continuing from the lists built so far. */
  function ColumnsFrom(lon: seq<Coord>, lat: seq<Coord>, points: seq<Coord>): (r: Result<(seq<Coord>, seq<Coord>)>)
    ensures r.Ok? <==> forall i :: 0 <= i < |points| ==> points[i].List? && |points[i].items| >= 2
    ensures r.Ok? ==> |r.value.0| == |lon| + |points| && |r.value.1| == |lat| + |points|
    ensures r.Err? ==> r.error == TypeError || r.error == IndexError
    decreases |points|
  {
    if points == [] then Ok((lon, lat))
    else
      assert forall i :: 1 <= i < |points| ==> points[i] == points[1..][i - 1];
      var x :- Index(points[0], 0);
      var y :- Index(points[0], 1);
      ColumnsFrom(lon + [x], lat + [y], points[1..])
  }

  /** Python's builtin `sum` continuing from `acc`: adding a list to a number
      raises TypeError. */
  function PySumFrom(acc: real, xs: seq<Coord>): (r: Result<real>)
    ensures r.Ok? <==> forall i :: 0 <= i < |xs| ==> xs[i].Num?
    ensures r.Err? ==> r.error == TypeError
    decreases |xs|
  {
    if xs == [] then Ok(acc)
    else
      assert forall i :: 1 <= i < |xs| ==> xs[i] == xs[1..][i - 1];
      match xs[0]
      case Num(x) => PySumFrom(acc + x, xs[1..])
      case List(_) => Err(TypeError)
  }

  /** The averaging branch: lat is `sum(lat)/len(lat)`, then lon likewise.
      The lists have one entry per point, so the division is never by zero;
      only malformed points raise. */
  function AverageOf(points: seq<Coord>): (r: Result<Centroid>)
    requires |points| > 0
    ensures r.Err? ==> r.error == TypeError || r.error == IndexError
  {
    var columns :- ColumnsFrom([], [], points);
    var latSum :- PySumFrom(0.0, columns.1);
    var lonSum :- PySumFrom(0.0, columns.0);
    Ok(Centroid(latSum / (|columns.1| as real), lonSum / (|columns.0| as real)))
  }

  /** The branch for a single pair: `lon = points[0]`, `lat = points[1]`. */
  function PairOf(points: Coord, d: nat): (r: Result<Centroid>)
    requires Depth(points) == Ok(d) && d <= 1
    ensures r.Ok? <==> IsPosition(points)
    ensures r.Err? ==> r.error == TypeError || r.error == IndexError
  {
    var lon :- Index(points, 0);
    var lat :- Index(points, 1);
    DepthAtMostOne(points, d);
    Ok(Centroid(lat.x, lon.x))
  }

  /** The representative coordinate addFeaturetoGDF writes for an element: a
      node keeps its own; otherwise the points are averaged when they nest
      deeper than one level, and taken as one `[lon, lat]` pair when not. */
  function CentroidOf(e: Element): (r: Result<Centroid>)
    ensures e.kind == Node ==> r == Ok(Centroid(e.lat, e.lon))
    ensures e.kind != Node && r.Ok? ==> Points(e).Ok? && !HasEmptyList(Points(e).value)
    ensures r.Err? ==> r.error != AttributeError
  {
    if e.kind == Node then Ok(Centroid(e.lat, e.lon))
    else
      var points :- Points(e);
      DepthFailsIffEmptyList(points);
      var d :- Depth(points);
      if d > 1 then AverageOf(points.items) else PairOf(points, d)
  }

  /** The longitude (`p[0]`) and latitude (`p[1]`) of a position; they are
      only ever taken of positions, so other shapes get any value (0.0). */
  function LonOf(p: Coord): (r: real)
    ensures IsPosition(p) ==> r == p.items[0].x
  {
    if p.List? && |p.items| >= 1 && p.items[0].Num? then p.items[0].x else 0.0
  }

  function LatOf(p: Coord): (r: real)
    ensures IsPosition(p) ==> r == p.items[1].x
  {
    if p.List? && |p.items| >= 2 && p.items[1].Num? then p.items[1].x else 0.0
  }

  /** The longitude and latitude columns of a list of positions, in point order. */
  function Lons(pts: seq<Coord>): (r: seq<real>)
    ensures |r| == |pts| && forall i :: 0 <= i < |pts| ==> r[i] == LonOf(pts[i])
  {
    seq(|pts|, i requires 0 <= i < |pts| => LonOf(pts[i]))
  }

  function Lats(pts: seq<Coord>): (r: seq<real>)
    ensures |r| == |pts| && forall i :: 0 <= i < |pts| ==> r[i] == LatOf(pts[i])
  {
    seq(|pts|, i requires 0 <= i < |pts| => LatOf(pts[i]))
  }

  /** `p[j]` of every position, as the append loop collects it. */
  function Component(pts: seq<Coord>, j: nat): (r: seq<Coord>)
    requires j <= 1 && forall i :: 0 <= i < |pts| ==> IsPosition(pts[i])
    ensures |r| == |pts|
  {
    if pts == [] then [] else assert IsPosition(pts[0]); [Index(pts[0], j).value] + Component(pts[1..], j)
  }

  /** Over positions the append loop succeeds and collects the `p[0]` and
      `p[1]` values in point order. */
  lemma {:induction false} ColumnsOfPositions(lon: seq<Coord>, lat: seq<Coord>, pts: seq<Coord>)
    requires forall i :: 0 <= i < |pts| ==> IsPosition(pts[i])
    ensures ColumnsFrom(lon, lat, pts).Ok?
    ensures ColumnsFrom(lon, lat, pts).value == (lon + Component(pts, 0), lat + Component(pts, 1))
    decreases |pts|
  {
    if pts == [] {
      assert lon + [] == lon && lat + [] == lat;
    } else {
      var rest := pts[1..];
      assert forall i :: 0 <= i < |rest| ==> IsPosition(pts[i + 1]) && rest[i] == pts[i + 1];
      assert IsPosition(pts[0]);
      var x, y := Index(pts[0], 0).value, Index(pts[0], 1).value;
      ColumnsOfPositions(lon + [x], lat + [y], rest);
      assert lon + [x] + Component(rest, 0) == lon + Component(pts, 0);
      assert lat + [y] + Component(rest, 1) == lat + Component(pts, 1);
    }
  }

  /** `sum` over the longitudes of positions is their mathematical sum. */
  lemma {:induction false} PySumOfLons(acc: real, pts: seq<Coord>)
    requires forall i :: 0 <= i < |pts| ==> IsPosition(pts[i])
    ensures PySumFrom(acc, Component(pts, 0)).Ok?
    ensures PySumFrom(acc, Component(pts, 0)).value == acc + Sum(Lons(pts))
    decreases |pts|
  {
    if pts != [] {
      var rest := pts[1..];
      assert forall i :: 0 <= i < |rest| ==> IsPosition(pts[i + 1]) && rest[i] == pts[i + 1];
      assert IsPosition(pts[0]);
      PySumOfLons(acc + LonOf(pts[0]), rest);
      assert Component(pts, 0)[1..] == Component(rest, 0);
      assert Lons(pts)[1..] == Lons(rest);
    }
  }

  /** `sum` over the latitudes of positions is their mathematical sum. */
  lemma {:induction false} PySumOfLats(acc: real, pts: seq<Coord>)
    requires forall i :: 0 <= i < |pts| ==> IsPosition(pts[i])
    ensures PySumFrom(acc, Component(pts, 1)).Ok?
    ensures PySumFrom(acc, Component(pts, 1)).value == acc + Sum(Lats(pts))
    decreases |pts|
  {
    if pts != [] {
      var rest := pts[1..];
      assert forall i :: 0 <= i < |rest| ==> IsPosition(pts[i + 1]) && rest[i] == pts[i + 1];
      assert IsPosition(pts[0]);
      PySumOfLats(acc + LatOf(pts[0]), rest);
      assert Component(pts, 1)[1..] == Component(rest, 1);
      assert Lats(pts)[1..] == Lats(rest);
    }
  }

  /** When a way's or relation's points are one or more positions, the record's
      Lat is the mean of every `p[1]` and its Lon the mean of every `p[0]`. */
  lemma AveragedCentroid(e: Element, pts: seq<Coord>)
    requires e.kind != Node && Points(e) == Ok(List(pts))
    requires |pts| > 0 && forall i :: 0 <= i < |pts| ==> IsPosition(pts[i])
    ensures CentroidOf(e) == Ok(Centroid(Mean(Lats(pts)), Mean(Lons(pts))))
  {
    PositionsDepthTwo(pts);
    AverageOfPositions(pts);
  }

  /** The averaging branch over positions computes the two means. */
  lemma AverageOfPositions(pts: seq<Coord>)
    requires |pts| > 0 && forall i :: 0 <= i < |pts| ==> IsPosition(pts[i])
    ensures AverageOf(pts) == Ok(Centroid(Mean(Lats(pts)), Mean(Lons(pts))))
  {
    SplitPositions(pts);
    PySumOfLats(0.0, pts);
    PySumOfLons(0.0, pts);
    AverageOfSums(pts);
  }

  /** The append loop, started from empty lists, over positions. */
  lemma SplitPositions(pts: seq<Coord>)
    requires forall i :: 0 <= i < |pts| ==> IsPosition(pts[i])
    ensures ColumnsFrom([], [], pts).Ok?
    ensures ColumnsFrom([], [], pts).value == (Component(pts, 0), Component(pts, 1))
  {
    ColumnsOfPositions([], [], pts);
    assert [] + Component(pts, 0) == Component(pts, 0);
    assert [] + Component(pts, 1) == Component(pts, 1);
  }

  /** The averaging branch divides each column's `sum` by its `len`. */
  lemma AverageOfSums(pts: seq<Coord>)
    requires |pts| > 0 && forall i :: 0 <= i < |pts| ==> IsPosition(pts[i])
    requires ColumnsFrom([], [], pts).Ok?
    requires ColumnsFrom([], [], pts).value == (Component(pts, 0), Component(pts, 1))
    requires PySumFrom(0.0, Component(pts, 1)).Ok?
    requires PySumFrom(0.0, Component(pts, 1)).value == 0.0 + Sum(Lats(pts))
    requires PySumFrom(0.0, Component(pts, 0)).Ok?
    requires PySumFrom(0.0, Component(pts, 0)).value == 0.0 + Sum(Lons(pts))
    ensures AverageOf(pts) == Ok(Centroid(Mean(Lats(pts)), Mean(Lons(pts))))
  {
  }

  /** A closed way: its points are the first ring of its coordinates, and the
      coordinate is the mean over that ring. */
  lemma WayCentroid(e: Element, ring: seq<Coord>)
    requires e.kind == Way && e.coordinates.List? && |e.coordinates.items| > 0
    requires e.coordinates.items[0] == List(ring)
    requires |ring| > 0 && forall i :: 0 <= i < |ring| ==> IsPosition(ring[i])
    ensures CentroidOf(e) == Ok(Centroid(Mean(Lats(ring)), Mean(Lons(ring))))
  {
    AveragedCentroid(e, ring);
  }

  /** A relation: the mean is taken over the first ring of every part,
      concatenated in part order. */
  lemma RelationCentroid(e: Element, parts: seq<Coord>)
    requires e.kind == Relation && e.coordinates == List(parts)
    requires forall i :: 0 <= i < |parts| ==> IsPart(parts[i])
    requires var pts := ConcatOuterRings(parts);
      |pts| > 0 && forall i :: 0 <= i < |pts| ==> IsPosition(pts[i])
    ensures var pts := ConcatOuterRings(parts);
      Points(e) == Ok(List(pts)) &&
      CentroidOf(e) == Ok(Centroid(Mean(Lats(pts)), Mean(Lons(pts))))
  {
    FirstRingsFromMeaning([], parts);
    assert [] + ConcatOuterRings(parts) == ConcatOuterRings(parts);
    AveragedCentroid(e, ConcatOuterRings(parts));
  }

  /** When the extracted points are a single flat `[lon, lat, ...]` list (depth
      1) nothing is averaged: Lon is `points[0]` and Lat is `points[1]`. */
  lemma SinglePositionCentroid(e: Element, p: seq<Coord>)
    requires e.kind != Node && Points(e) == Ok(List(p))
    requires IsPosition(List(p))
    ensures CentroidOf(e) == Ok(Centroid(p[1].x, p[0].x))
  {
    DepthOneIffFlat(List(p));
  }

  /** A way or relation whose points contain an empty list (an empty ring, an
      empty position) raises ValueError in `depth`, before any division. */
  lemma EmptyListRaises(e: Element)
    requires e.kind != Node && Points(e).Ok? && HasEmptyList(Points(e).value)
    ensures CentroidOf(e) == Err(ValueError)
  {
    DepthFailsIffEmptyList(Points(e).value);
  }

  predicate InWgs84(lat: real, lon: real) {
    -90.0 <= lat <= 90.0 && -180.0 <= lon <= 180.0
  }

  /** Averaged positions that lie in the WGS84 range give a coordinate in range. */
  lemma AveragedCentroidInRange(e: Element, pts: seq<Coord>)
    requires e.kind != Node && Points(e) == Ok(List(pts))
    requires |pts| > 0 && forall i :: 0 <= i < |pts| ==> IsPosition(pts[i])
    requires forall i :: 0 <= i < |pts| ==> InWgs84(Lats(pts)[i], Lons(pts)[i])
    ensures CentroidOf(e).Ok? && InWgs84(CentroidOf(e).value.lat, CentroidOf(e).value.lon)
  {
    AveragedCentroid(e, pts);
    MeanBounds(Lats(pts), -90.0, 90.0);
    MeanBounds(Lons(pts), -180.0, 180.0);
  }

  /** Reordering the points keeps them positions. */
  lemma PositionsPermutation(a: seq<Coord>, b: seq<Coord>)
    requires forall i :: 0 <= i < |a| ==> IsPosition(a[i])
    requires multiset(a) == multiset(b)
    ensures forall i :: 0 <= i < |b| ==> IsPosition(b[i])
  {
    forall i | 0 <= i < |b|
      ensures IsPosition(b[i])
    {
      assert b[i] in multiset(a);
      assert b[i] in a;
    }
  }

  /** Reordering the points reorders the `p[0]` and `p[1]` columns alike. */
  lemma {:induction false} ColumnsPermutation(a: seq<Coord>, b: seq<Coord>)
    requires multiset(a) == multiset(b)
    ensures multiset(Lats(a)) == multiset(Lats(b))
    ensures multiset(Lons(a)) == multiset(Lons(b))
    decreases |a|
  {
    if a == [] {
      assert |b| == |multiset(b)| == 0;
    } else {
      assert a[0] in multiset(b);
      var j :| 0 <= j < |b| && b[j] == a[0];
      MultisetRemove(b, j);
      assert multiset(a[1..]) == multiset(a) - multiset{a[0]} by {
        assert a == [a[0]] + a[1..];
      }
      ColumnsPermutation(a[1..], b[..j] + b[j + 1..]);
      ColumnRemove(b, j);
      ColumnsCons(a);
      assert Lats(b)[j] == LatOf(a[0]) && Lons(b)[j] == LonOf(a[0]);
      Reinsert(LatOf(a[0]), multiset(Lats(a[1..])), multiset(Lats(b)));
      Reinsert(LonOf(a[0]), multiset(Lons(a[1..])), multiset(Lons(b)));
    }
  }

  /** The columns of a non-empty list start with those of its first point. */
  lemma ColumnsCons(a: seq<Coord>)
    requires |a| > 0
    ensures multiset(Lats(a)) == multiset{LatOf(a[0])} + multiset(Lats(a[1..]))
    ensures multiset(Lons(a)) == multiset{LonOf(a[0])} + multiset(Lons(a[1..]))
  {
    var lats, lons := [LatOf(a[0])] + Lats(a[1..]), [LonOf(a[0])] + Lons(a[1..]);
    forall i | 0 <= i < |a|
      ensures Lats(a)[i] == lats[i] && Lons(a)[i] == lons[i]
    {
      if i > 0 {
        assert a[1..][i - 1] == a[i];
      }
    }
    assert Lats(a) == lats && Lons(a) == lons;
  }

  /** Taking the `j`-th point out takes its values out of both columns. */
  lemma ColumnRemove(b: seq<Coord>, j: nat)
    requires j < |b|
    ensures multiset(Lats(b[..j] + b[j + 1..])) == multiset(Lats(b)) - multiset{LatOf(b[j])}
    ensures multiset(Lons(b[..j] + b[j + 1..])) == multiset(Lons(b)) - multiset{LonOf(b[j])}
  {
    var rest, lats, lons := b[..j] + b[j + 1..], Lats(b), Lons(b);
    forall i | 0 <= i < |rest|
      ensures Lats(rest)[i] == (lats[..j] + lats[j + 1..])[i]
      ensures Lons(rest)[i] == (lons[..j] + lons[j + 1..])[i]
    {
      CutIndex(b, j, i);
      CutIndex(lats, j, i);
      CutIndex(lons, j, i);
    }
    assert Lats(rest) == lats[..j] + lats[j + 1..];
    assert Lons(rest) == lons[..j] + lons[j + 1..];
    MultisetRemove(lats, j);
    MultisetRemove(lons, j);
  }

  /** The coordinate of a way or relation does not depend on the order of its
      points: two elements whose points are the same positions in any order
      get the same Lat and Lon. */
  lemma CentroidOrderIndependent(e1: Element, e2: Element, p1: seq<Coord>, p2: seq<Coord>)
    requires e1.kind != Node && Points(e1) == Ok(List(p1))
    requires e2.kind != Node && Points(e2) == Ok(List(p2))
    requires |p1| > 0 && forall i :: 0 <= i < |p1| ==> IsPosition(p1[i])
    requires multiset(p1) == multiset(p2)
    ensures CentroidOf(e1).Ok? && CentroidOf(e1) == CentroidOf(e2)
  {
    assert |p1| == |multiset(p1)| == |multiset(p2)| == |p2|;
    PositionsPermutation(p1, p2);
    ColumnsPermutation(p1, p2);
    AveragedCentroid(e1, p1);
    AveragedCentroid(e2, p2);
    MeanPermutation(Lats(p1), Lats(p2));
    MeanPermutation(Lons(p1), Lons(p2));
  }

  // ---------------------------------------------------------------------------
  // The record and the table

  /** A table cell: the id is an integer, Lat and Lon are numbers, the
      timestamp and every tag are strings. */
  datatype Value = IntVal(i: int) | RealVal(r: real) | StrVal(s: string)

  /** One row: column name to value; a column a row lacks is NaN in pandas. */
  type Record = map<string, Value>

  const Reserved: set<string> := {"id", "Lat", "Lon", "timestamp"}

  /** `{'id': ..., 'Lat': ..., 'Lon': ..., 'timestamp': ..., **e.tags()}`: the
      tags are unpacked last, so a tag named like a reserved column replaces it. */
  function BuildRecord(e: Element, c: Centroid): (r: Record)
    ensures r.Keys == Reserved + e.tags.Keys
    ensures forall k :: k in e.tags ==> r[k] == StrVal(e.tags[k])
    ensures "id" !in e.tags ==> r["id"] == IntVal(e.id)
    ensures "Lat" !in e.tags ==> r["Lat"] == RealVal(c.lat)
    ensures "Lon" !in e.tags ==> r["Lon"] == RealVal(c.lon)
    ensures "timestamp" !in e.tags ==> r["timestamp"] == StrVal(e.timestamp)
  {
    var reserved := map["id" := IntVal(e.id), "Lat" := RealVal(c.lat),
                        "Lon" := RealVal(c.lon), "timestamp" := StrVal(e.timestamp)];
    reserved + map k | k in e.tags :: StrVal(e.tags[k])
  }

  /** A DataFrame: its column set and its rows, row i having index i. */
  datatype Table = Table(columns: set<string>, rows: seq<Record>)

  /** `pd.DataFrame()`: no columns, no rows. */
  const EmptyTable := Table({}, [])

  function RowKeys(rows: seq<Record>): set<string> {
    if rows == [] then {} else RowKeys(rows[..|rows| - 1]) + rows[|rows| - 1].Keys
  }

  /** The columns of a table are exactly the keys its rows have. */
  predicate Valid(t: Table) {
    t.columns == RowKeys(t.rows)
  }

  /** `pd.concat([df, pd.DataFrame([edict])], ignore_index=True, sort=False)`:
      one row at the end, earlier rows untouched, new keys become columns. */
  function Append(t: Table, rec: Record): (r: Table)
    ensures |r.rows| == |t.rows| + 1 && r.rows[..|t.rows|] == t.rows && r.rows[|t.rows|] == rec
    ensures r.columns == t.columns + rec.Keys
    ensures Valid(t) ==> Valid(r)
  {
    var rows := t.rows + [rec];
    assert rows[..|rows| - 1] == t.rows;
    Table(t.columns + rec.Keys, rows)
  }

  /** The loop of `addFeaturetoGDF` over a relation's parts. */
  method ConcatFirstRings(polys: Coord) returns (r: Result<seq<Coord>>)
    ensures r == FirstRings(polys)
  {
    if polys.Num? {
      return Err(TypeError);
    }
    var points: seq<Coord> := [];
    for i := 0 to |polys.items|
      invariant FirstRingsFrom(points, polys.items[i..]) == FirstRings(polys)
    {
      assert polys.items[i..][1..] == polys.items[i + 1..];
      var p := Index(polys.items[i], 0);
      if p.Err? {
        return Err(p.error);
      }
      if p.value.Num? {
        return Err(TypeError);
      }
      points := points + p.value.items;
    }
    return Ok(points);
  }

  /** The loop of `addFeaturetoGDF` that splits the points into a lon list and
      a lat list. */
  method SplitColumns(points: seq<Coord>) returns (r: Result<(seq<Coord>, seq<Coord>)>)
    ensures r == ColumnsFrom([], [], points)
  {
    var lon: seq<Coord> := [];
    var lat: seq<Coord> := [];
    for i := 0 to |points|
      invariant ColumnsFrom(lon, lat, points[i..]) == ColumnsFrom([], [], points)
    {
      assert points[i..][1..] == points[i + 1..];
      var p := points[i];
      var x := Index(p, 0);
      if x.Err? {
        return Err(x.error);
      }
      var y := Index(p, 1);
      if y.Err? {
        return Err(y.error);
      }
      lon := lon + [x.value];
      lat := lat + [y.value];
    }
    assert points[|points|..] == [];
    return Ok((lon, lat));
  }

  /** `addFeaturetoGDF(df, e)`: the table with the element's record appended,
      or the exception the element's geometry raises. */
  method AddFeature(df: Table, e: Element) returns (r: Result<Table>)
    ensures r == (var c :- CentroidOf(e); Ok(Append(df, BuildRecord(e, c))))
  {
    var lat, lon := e.lat, e.lon;
    if e.kind == Way || e.kind == Relation {
      var points: Coord;
      if e.kind == Relation {
        var combined := ConcatFirstRings(e.coordinates);
        if combined.Err? {
          return Err(combined.error);
        }
        points := List(combined.value);
      } else {
        var first := Index(e.coordinates, 0);
        if first.Err? {
          return Err(first.error);
        }
        points := first.value;
      }
      var d := Depth(points);
      if d.Err? {
        return Err(d.error);
      }
      if d.value > 1 {
        var columns := SplitColumns(points.items);
        if columns.Err? {
          return Err(columns.error);
        }
        var latSum := PySumFrom(0.0, columns.value.1);
        if latSum.Err? {
          return Err(latSum.error);
        }
        lat := latSum.value / (|columns.value.1| as real);
        var lonSum := PySumFrom(0.0, columns.value.0);
        if lonSum.Err? {
          return Err(lonSum.error);
        }
        lon := lonSum.value / (|columns.value.0| as real);
      } else {
        var lonC := Index(points, 0);
        if lonC.Err? {
          return Err(lonC.error);
        }
        var latC := Index(points, 1);
        if latC.Err? {
          return Err(latC.error);
        }
        DepthAtMostOne(points, d.value);
        lon, lat := lonC.value.x, latC.value.x;
      }
    }
    if e.kind == Relation {
      // The relation's points are gathered a second time and never read again;
      // the second pass cannot raise, since the first one did not.
      var again := ConcatFirstRings(e.coordinates);
      assert again.Ok?;
    }
    r := Ok(Append(df, BuildRecord(e, Centroid(lat, lon))));
  }

  // ---------------------------------------------------------------------------
  // The driver loop of main

  /** `e.tag('type') == 'site'`. */
  predicate IsSite(e: Element) {
    "type" in e.tags && e.tags["type"] == "site"
  }

  /** The elements that reach addFeaturetoGDF, in order. */
  function Kept(es: seq<Element>): (r: seq<Element>)
    ensures forall e :: e in r <==> e in es && !IsSite(e)
  {
    if es == [] then [] else (if IsSite(es[0]) then [] else [es[0]]) + Kept(es[1..])
  }

  /** One element's record, or the exception its geometry raises. */
  function Row(e: Element): (r: Result<Record>)
    ensures r.Ok? <==> CentroidOf(e).Ok?
    ensures r.Ok? ==> r.value.Keys == Reserved + e.tags.Keys
  {
    var c :- CentroidOf(e);
    Ok(BuildRecord(e, c))
  }

  /** The element loop of main folded over `es` from table `t`, for any way
      `row` of turning an element into a record (or raising). */
  function ProcessWith(row: Element -> Result<Record>, t: Table, es: seq<Element>): Result<Table>
    decreases |es|
  {
    if es == [] then Ok(t)
    else if IsSite(es[0]) then ProcessWith(row, t, es[1..])
    else
      var rec :- row(es[0]);
      ProcessWith(row, Append(t, rec), es[1..])
  }

  /** An exception that ends the loop is the one raised for some non-site
      element. */
  lemma {:induction false} ProcessError(row: Element -> Result<Record>, t: Table, es: seq<Element>)
    requires ProcessWith(row, t, es).Err?
    ensures exists k :: 0 <= k < |Kept(es)| && row(Kept(es)[k]) == Err(ProcessWith(row, t, es).error)
    decreases |es|
  {
    var err := ProcessWith(row, t, es).error;
    if IsSite(es[0]) {
      assert Kept(es) == [] + Kept(es[1..]) == Kept(es[1..]);
      ProcessError(row, t, es[1..]);
    } else {
      assert Kept(es) == [es[0]] + Kept(es[1..]);
      if row(es[0]).Err? {
        assert row(Kept(es)[0]) == Err(err);
      } else {
        var t1 := Append(t, row(es[0]).value);
        assert ProcessWith(row, t1, es[1..]) == ProcessWith(row, t, es);
        ProcessError(row, t1, es[1..]);
        var k :| 0 <= k < |Kept(es[1..])| && row(Kept(es[1..])[k]) == Err(err);
        assert Kept(es)[k + 1] == Kept(es[1..])[k];
      }
    }
  }

  /** The element loop of main, building each record with addFeaturetoGDF:
      it completes exactly when every non-site element has a coordinate. */
  function Process(t: Table, es: seq<Element>): (r: Result<Table>)
    ensures r.Ok? <==> forall k :: 0 <= k < |Kept(es)| ==> CentroidOf(Kept(es)[k]).Ok?
    ensures r.Err? ==> exists k :: 0 <= k < |Kept(es)| && CentroidOf(Kept(es)[k]) == Err(r.error)
  {
    ProcessOk(Row, t, es);
    if ProcessWith(Row, t, es).Err? then
      ProcessError(Row, t, es);
      ProcessWith(Row, t, es)
    else ProcessWith(Row, t, es)
  }

  function TagUnion(es: seq<Element>): set<string> {
    if es == [] then {} else es[0].tags.Keys + TagUnion(es[1..])
  }

  /** Processing `a + b` is processing `a`, then `b` from where `a` left off. */
  lemma {:induction false} ProcessConcat(row: Element -> Result<Record>, t: Table, a: seq<Element>, b: seq<Element>)
    ensures ProcessWith(row, t, a + b) == (var t' :- ProcessWith(row, t, a); ProcessWith(row, t', b))
    decreases |a|
  {
    if a == [] {
      assert a + b == b;
    } else {
      assert (a + b)[1..] == a[1..] + b;
      if IsSite(a[0]) {
        ProcessConcat(row, t, a[1..], b);
      } else if row(a[0]).Ok? {
        ProcessConcat(row, Append(t, row(a[0]).value), a[1..], b);
      }
    }
  }

  /** The loop succeeds exactly when every non-site element yields a record. */
  lemma {:induction false} ProcessOk(row: Element -> Result<Record>, t: Table, es: seq<Element>)
    ensures ProcessWith(row, t, es).Ok? <==>
      forall k :: 0 <= k < |Kept(es)| ==> row(Kept(es)[k]).Ok?
    decreases |es|
  {
    if es != [] {
      var kept := Kept(es);
      var restKept := Kept(es[1..]);
      if IsSite(es[0]) {
        assert kept == [] + restKept == restKept;
        ProcessOk(row, t, es[1..]);
      } else {
        assert kept == [es[0]] + restKept;
        if row(es[0]).Ok? {
          var t1 := Append(t, row(es[0]).value);
          assert ProcessWith(row, t, es) == ProcessWith(row, t1, es[1..]);
          ProcessOk(row, t1, es[1..]);
          assert ProcessWith(row, t1, es[1..]).Ok? ==> forall k :: 0 <= k < |Kept(es[1..])| ==> row(Kept(es[1..])[k]).Ok?;
          assert (forall k :: 0 <= k < |Kept(es[1..])| ==> row(Kept(es[1..])[k]).Ok?) ==> ProcessWith(row, t1, es[1..]).Ok?;
          if forall k :: 0 <= k < |restKept| ==> row(restKept[k]).Ok? {
            forall k | 0 <= k < |kept| ensures row(kept[k]).Ok? {
              if k > 0 {
                assert kept[k] == restKept[k - 1];
              }
            }
          } else {
            var k :| 0 <= k < |restKept| && row(restKept[k]).Err?;
            assert kept[k + 1] == restKept[k];
            assert row(kept[k + 1]).Err?;
            assert !ProcessWith(row, t1, es[1..]).Ok?;
          }
        } else {
          assert kept[0] == es[0];
        }
      }
    }
  }

  /** One row per non-site element, in element order, appended after the
      existing rows, which are unchanged; no de-duplication by id; the columns
      grow by the keys of the new records. */
  lemma ProcessRows(row: Element -> Result<Record>, t: Table, es: seq<Element>)
    requires ProcessWith(row, t, es).Ok?
    ensures var t' := ProcessWith(row, t, es).value;
      && |t'.rows| == |t.rows| + |Kept(es)|
      && t'.rows[..|t.rows|] == t.rows
      && (forall k :: 0 <= k < |Kept(es)| ==>
            row(Kept(es)[k]).Ok? && t'.rows[|t.rows| + k] == row(Kept(es)[k]).value)
      && t'.columns == t.columns + RowKeys(t'.rows[|t.rows|..])
  {
    ProcessShape(row, t, es);
    ProcessColumns(row, t, es);
  }

  /** The records `row` gives the elements of `kept`, in order, or the first
      exception. */
  function RecordsOf(row: Element -> Result<Record>, kept: seq<Element>): (r: Result<seq<Record>>)
    ensures r.Ok? ==> |r.value| == |kept|
    decreases |kept|
  {
    if kept == [] then Ok([])
    else
      var rec :- row(kept[0]);
      var rest :- RecordsOf(row, kept[1..]);
      Ok([rec] + rest)
  }

  /** The loop leaves the earlier rows and appends the records of the non-site
      elements, in element order. */
  lemma {:induction false} ProcessAppends(row: Element -> Result<Record>, t: Table, es: seq<Element>)
    requires ProcessWith(row, t, es).Ok?
    ensures RecordsOf(row, Kept(es)).Ok?
    ensures ProcessWith(row, t, es).value.rows == t.rows + RecordsOf(row, Kept(es)).value
    decreases |es|
  {
    if es == [] {
      assert t.rows + [] == t.rows;
    } else if IsSite(es[0]) {
      SiteStep(row, t, es);
      ProcessAppends(row, t, es[1..]);
    } else {
      RowStep(row, t, es);
      ProcessAppends(row, Append(t, row(es[0]).value), es[1..]);
      AppendsRowCase(row, t, es);
    }
  }

  /** The step of ProcessAppends for an element whose record is appended. */
  lemma AppendsRowCase(row: Element -> Result<Record>, t: Table, es: seq<Element>)
    requires es != [] && !IsSite(es[0]) && row(es[0]).Ok?
    requires ProcessWith(row, Append(t, row(es[0]).value), es[1..]).Ok?
    requires RecordsOf(row, Kept(es[1..])).Ok?
    requires ProcessWith(row, Append(t, row(es[0]).value), es[1..]).value.rows ==
      Append(t, row(es[0]).value).rows + RecordsOf(row, Kept(es[1..])).value
    ensures ProcessWith(row, t, es).Ok?
    ensures RecordsOf(row, Kept(es)).Ok?
    ensures ProcessWith(row, t, es).value.rows == t.rows + RecordsOf(row, Kept(es)).value
  {
    var rec := row(es[0]).value;
    var rs := RecordsOf(row, Kept(es[1..])).value;
    var after := ProcessWith(row, Append(t, rec), es[1..]).value;
    RowStep(row, t, es);
    RecordsCons(row, es[0], Kept(es[1..]));
    assert RecordsOf(row, Kept(es)) == Ok([rec] + rs);
    assert ProcessWith(row, t, es) == Ok(after);
    ConcatAssoc(t.rows, rec, rs);
  }

  lemma ConcatAssoc(a: seq<Record>, x: Record, b: seq<Record>)
    ensures a + [x] + b == a + ([x] + b)
  {
  }

  /** A site is passed over. */
  lemma SiteStep(row: Element -> Result<Record>, t: Table, es: seq<Element>)
    requires es != [] && IsSite(es[0])
    ensures ProcessWith(row, t, es) == ProcessWith(row, t, es[1..])
    ensures Kept(es) == Kept(es[1..])
  {
    assert Kept(es) == [] + Kept(es[1..]);
  }

  /** Any other element whose record is built is appended before the rest. */
  lemma RowStep(row: Element -> Result<Record>, t: Table, es: seq<Element>)
    requires es != [] && !IsSite(es[0]) && row(es[0]).Ok?
    ensures ProcessWith(row, t, es) == ProcessWith(row, Append(t, row(es[0]).value), es[1..])
    ensures Kept(es) == [es[0]] + Kept(es[1..])
  {
  }

  /** The records of `[e] + rest` are the record of `e`, then those of `rest`. */
  lemma RecordsCons(row: Element -> Result<Record>, e: Element, rest: seq<Element>)
    requires row(e).Ok? && RecordsOf(row, rest).Ok?
    ensures RecordsOf(row, [e] + rest) == Ok([row(e).value] + RecordsOf(row, rest).value)
  {
    assert ([e] + rest)[0] == e;
    assert ([e] + rest)[1..] == rest;
  }

  /** Entry k of the records of `kept` is the record of `kept[k]`. */
  lemma {:induction false} RecordsOfIndex(row: Element -> Result<Record>, kept: seq<Element>)
    requires RecordsOf(row, kept).Ok?
    ensures forall k :: 0 <= k < |kept| ==>
      row(kept[k]).Ok? && RecordsOf(row, kept).value[k] == row(kept[k]).value
    decreases |kept|
  {
    if kept != [] {
      assert forall k :: 1 <= k < |kept| ==> kept[k] == kept[1..][k - 1];
      RecordsOfIndex(row, kept[1..]);
    }
  }

  /** The row part of ProcessRows: the record of the k-th kept element sits at
      row |t.rows| + k, after the unchanged earlier rows. */
  lemma ProcessShape(row: Element -> Result<Record>, t: Table, es: seq<Element>)
    requires ProcessWith(row, t, es).Ok?
    ensures var t' := ProcessWith(row, t, es).value;
      && |t'.rows| == |t.rows| + |Kept(es)|
      && t'.rows[..|t.rows|] == t.rows
      && (forall k :: 0 <= k < |Kept(es)| ==>
            row(Kept(es)[k]).Ok? && t'.rows[|t.rows| + k] == row(Kept(es)[k]).value)
  {
    ProcessAppends(row, t, es);
    RecordsOfIndex(row, Kept(es));
    var added := RecordsOf(row, Kept(es)).value;
    var rows := ProcessWith(row, t, es).value.rows;
    assert rows[..|t.rows|] == t.rows;
    assert forall k :: 0 <= k < |added| ==> rows[|t.rows| + k] == added[k];
  }

  /** The column part of ProcessRows. */
  lemma {:induction false} ProcessColumns(row: Element -> Result<Record>, t: Table, es: seq<Element>)
    requires ProcessWith(row, t, es).Ok?
    ensures var t' := ProcessWith(row, t, es).value;
      && |t'.rows| >= |t.rows|
      && t'.columns == t.columns + RowKeys(t'.rows[|t.rows|..])
    decreases |es|
  {
    if es == [] {
      var t' := ProcessWith(row, t, es).value;
      assert t'.rows[|t.rows|..] == [];
    } else if IsSite(es[0]) {
      ProcessColumns(row, t, es[1..]);
    } else {
      var t1 := Append(t, row(es[0]).value);
      var t' := ProcessWith(row, t1, es[1..]).value;
      assert ProcessWith(row, t, es).value == t';
      ProcessColumns(row, t1, es[1..]);
      ProcessShape(row, t1, es[1..]);
      var added := t'.rows[|t.rows|..];
      assert added[0] == t'.rows[|t.rows|] == t'.rows[..|t1.rows|][|t.rows|] == row(es[0]).value;
      assert added[1..] == t'.rows[|t1.rows|..];
      RowKeysSplit(added);
    }
  }

  /** The keys of a sequence of rows are those of its first row and the rest. */
  lemma {:induction false} RowKeysSplit(rows: seq<Record>)
    requires rows != []
    ensures RowKeys(rows) == rows[0].Keys + RowKeys(rows[1..])
    decreases |rows|
  {
    if |rows| > 1 {
      var init := rows[..|rows| - 1];
      RowKeysSplit(init);
      assert init[1..] == rows[1..][..|rows[1..]| - 1];
    } else {
      assert rows[..0] == [] && rows[1..] == [];
    }
  }

  /** The column invariant is kept by the whole loop. */
  lemma {:induction false} ProcessValid(row: Element -> Result<Record>, t: Table, es: seq<Element>)
    requires Valid(t) && ProcessWith(row, t, es).Ok?
    ensures Valid(ProcessWith(row, t, es).value)
    decreases |es|
  {
    if es != [] {
      if IsSite(es[0]) {
        ProcessValid(row, t, es[1..]);
      } else {
        ProcessValid(row, Append(t, row(es[0]).value), es[1..]);
      }
    }
  }

  /** For the records fetch.py builds: each row holds its element's id,
      coordinate, timestamp and tags, and after processing the columns are the
      reserved names plus every tag key seen (when any row was added). */
  lemma ProcessRecords(t: Table, es: seq<Element>)
    requires Process(t, es).Ok?
    ensures var t' := Process(t, es).value;
      && |t'.rows| == |t.rows| + |Kept(es)|
      && t'.rows[..|t.rows|] == t.rows
      && (forall k :: 0 <= k < |Kept(es)| ==>
            CentroidOf(Kept(es)[k]).Ok? &&
            t'.rows[|t.rows| + k] == BuildRecord(Kept(es)[k], CentroidOf(Kept(es)[k]).value))
      && t'.columns == t.columns + (if Kept(es) == [] then {} else Reserved) + TagUnion(Kept(es))
  {
    ProcessRows(Row, t, es);
    var t' := Process(t, es).value;
    RecordKeys(Kept(es), t'.rows[|t.rows|..]);
  }

  /** The keys of the records of `kept`, row for row, are the reserved names
      and the union of the tags. */
  lemma {:induction false} RecordKeys(kept: seq<Element>, rows: seq<Record>)
    requires |rows| == |kept|
    requires forall k :: 0 <= k < |kept| ==>
      CentroidOf(kept[k]).Ok? && rows[k] == BuildRecord(kept[k], CentroidOf(kept[k]).value)
    ensures RowKeys(rows) == (if kept == [] then {} else Reserved) + TagUnion(kept)
    decreases |kept|
  {
    if kept != [] {
      RowKeysSplit(rows);
      assert rows[0].Keys == Reserved + kept[0].tags.Keys;
      forall k | 0 <= k < |kept[1..]|
        ensures CentroidOf(kept[1..][k]).Ok?
        ensures rows[1..][k] == BuildRecord(kept[1..][k], CentroidOf(kept[1..][k]).value)
      {
        assert kept[1..][k] == kept[k + 1] && rows[1..][k] == rows[k + 1];
      }
      RecordKeys(kept[1..], rows[1..]);
    }
  }

  /** The innermost loop of main over one query's elements, skipping sites. */
  method AddElements(df: Table, es: seq<Element>) returns (r: Result<Table>)
    ensures r == Process(df, es)
  {
    var t := df;
    for i := 0 to |es|
      invariant Process(t, es[i..]) == Process(df, es)
    {
      assert es[i..][1..] == es[i + 1..];
      var e := es[i];
      if IsSite(e) {
        continue;
      }
      var next := AddFeature(t, e);
      if next.Err? {
        return next;
      }
      t := next.value;
    }
    assert es[|es|..] == [];
    return Ok(t);
  }

  /** The selector dictionary of main: one tag key and its values, in order. */
  const PowerSelectors: seq<(string, seq<string>)> := [("power", ["plant", "generator"])]

  /** The elements the queries for `key` = each of `values` return, in order. */
  function ValueElements(fetch: (string, string) -> seq<Element>, key: string, values: seq<string>): (r: seq<Element>)
    ensures forall e :: e in r <==> exists j :: 0 <= j < |values| && e in fetch(key, values[j])
    decreases |values|
  {
    if values == [] then []
    else
      assert forall j :: 1 <= j < |values| ==> values[j] == values[1..][j - 1];
      fetch(key, values[0]) + ValueElements(fetch, key, values[1..])
  }

  /** The elements all selectors' queries return, in selector order. */
  function SelectorElements(fetch: (string, string) -> seq<Element>, selectors: seq<(string, seq<string>)>): (r: seq<Element>)
    ensures forall e :: e in r <==>
      exists i, j :: 0 <= i < |selectors| && 0 <= j < |selectors[i].1| && e in fetch(selectors[i].0, selectors[i].1[j])
    decreases |selectors|
  {
    if selectors == [] then []
    else
      assert forall i :: 1 <= i < |selectors| ==> selectors[i] == selectors[1..][i - 1];
      ValueElements(fetch, selectors[0].0, selectors[0].1) + SelectorElements(fetch, selectors[1..])
  }

  /** The `power` run sees the `plant` results first, then the `generator` ones. */
  lemma PowerSelectorOrder(fetch: (string, string) -> seq<Element>)
    ensures SelectorElements(fetch, PowerSelectors) == fetch("power", "plant") + fetch("power", "generator")
  {
    var sels := PowerSelectors;
    assert sels[1..] == [];
    assert sels[0].1[1..] == ["generator"];
    assert sels[0].1[1..][1..] == [];
  }

  /** The two outer loops of main (selector keys, then values); `fetch` stands
      for the Overpass query of one key/value pair. */
  method CollectFeatures(selectors: seq<(string, seq<string>)>, fetch: (string, string) -> seq<Element>)
    returns (r: Result<Table>)
    ensures r == Process(EmptyTable, SelectorElements(fetch, selectors))
  {
    var df := EmptyTable;
    for k := 0 to |selectors|
      invariant Process(df, SelectorElements(fetch, selectors[k..])) ==
                Process(EmptyTable, SelectorElements(fetch, selectors))
    {
      var osmkey := selectors[k].0;
      var osmvalues := selectors[k].1;
      var rest := SelectorElements(fetch, selectors[k + 1..]);
      SelectorStep(fetch, selectors, k);
      for j := 0 to |osmvalues|
        invariant Process(df, ValueElements(fetch, osmkey, osmvalues[j..]) + rest) ==
                  Process(EmptyTable, SelectorElements(fetch, selectors))
      {
        var data := fetch(osmkey, osmvalues[j]);
        var later := ValueElements(fetch, osmkey, osmvalues[j + 1..]);
        ValueStep(fetch, osmkey, osmvalues, j, rest);
        ProcessConcat(Row, df, data, later + rest);
        var next := AddElements(df, data);
        if next.Err? {
          return next;
        }
        df := next.value;
      }
      ValuesDone(fetch, osmkey, osmvalues, rest);
    }
    assert selectors[|selectors|..] == [];
    return Ok(df);
  }

  /** One step of the selector loop: the key's values come before the later
      selectors. */
  lemma SelectorStep(fetch: (string, string) -> seq<Element>, selectors: seq<(string, seq<string>)>, k: nat)
    requires k < |selectors|
    ensures SelectorElements(fetch, selectors[k..]) ==
      ValueElements(fetch, selectors[k].0, selectors[k].1[0..]) + SelectorElements(fetch, selectors[k + 1..])
  {
    assert selectors[k..][1..] == selectors[k + 1..];
    assert selectors[k].1[0..] == selectors[k].1;
  }

  /** One step of the value loop: this value's elements come before the later
      values'. */
  lemma ValueStep(fetch: (string, string) -> seq<Element>, key: string, values: seq<string>, j: nat, rest: seq<Element>)
    requires j < |values|
    ensures ValueElements(fetch, key, values[j..]) + rest ==
      fetch(key, values[j]) + (ValueElements(fetch, key, values[j + 1..]) + rest)
  {
    assert values[j..][1..] == values[j + 1..];
  }

  /** After the last value only the later selectors' elements remain. */
  lemma ValuesDone(fetch: (string, string) -> seq<Element>, key: string, values: seq<string>, rest: seq<Element>)
    ensures ValueElements(fetch, key, values[|values|..]) + rest == rest
  {
    assert values[|values|..] == [];
  }

  // ---------------------------------------------------------------------------
  // The geometry column

  /** A shapely point: x is the longitude, y the latitude. */
  datatype Point = Point(x: real, y: real)

  /** The layer handed to saveData: the attribute table, one point per row, and
      a constant CRS. */
  datatype GeoLayer = GeoLayer(table: Table, geometry: seq<Point>, crs: string)

  const Crs := "epsg:4326"

  /** A cell read as a float64; a missing cell (NaN) and a string are not
      turned into a coordinate. */
  function AsFloat(v: Option<Value>): (r: Result<real>)
    ensures r.Ok? <==> v.Some? && !v.value.StrVal?
    ensures r.Err? ==> r.error == ValueError
  {
    match v
    case Some(IntVal(i)) => Ok(i as real)
    case Some(RealVal(x)) => Ok(x)
    case Some(StrVal(_)) => Err(ValueError)
    case None => Err(ValueError)
  }

  function Cell(row: Record, col: string): Option<Value> {
    if col in row then Some(row[col]) else None
  }

  /** One column of the table as numbers, row by row. */
  function ColumnReals(rows: seq<Record>, col: string): (r: Result<seq<real>>)
    ensures r.Ok? <==> forall i :: 0 <= i < |rows| ==> AsFloat(Cell(rows[i], col)).Ok?
    ensures r.Ok? ==> |r.value| == |rows|
    ensures r.Ok? ==> forall i :: 0 <= i < |rows| ==> AsFloat(Cell(rows[i], col)) == Ok(r.value[i])
  {
    if rows == [] then Ok([])
    else
      var x :- AsFloat(Cell(rows[0], col));
      var xs :- ColumnReals(rows[1..], col);
      assert forall i :: 1 <= i < |rows| ==> rows[i] == rows[1..][i - 1];
      Ok([x] + xs)
  }

  /** `gpd.points_from_xy(df.Lon, df.Lat)`; `df.Lon` raises on a table that has
      no such column. */
  function PointsFromXY(t: Table): (r: Result<seq<Point>>)
    ensures "Lon" !in t.columns || "Lat" !in t.columns ==> r == Err(AttributeError)
    ensures r.Ok? ==> |r.value| == |t.rows|
    ensures r.Ok? ==> forall i :: 0 <= i < |t.rows| ==>
        AsFloat(Cell(t.rows[i], "Lon")) == Ok(r.value[i].x) &&
        AsFloat(Cell(t.rows[i], "Lat")) == Ok(r.value[i].y)
  {
    if "Lon" !in t.columns || "Lat" !in t.columns then Err(AttributeError)
    else
      var xs :- ColumnReals(t.rows, "Lon");
      var ys :- ColumnReals(t.rows, "Lat");
      Ok(seq(|t.rows|, i requires 0 <= i < |t.rows| => Point(xs[i], ys[i])))
  }

  /** `gpd.GeoDataFrame(df, geometry=...)` with the CRS set. */
  function BuildLayer(t: Table): (r: Result<GeoLayer>)
    ensures r.Ok? <==> PointsFromXY(t).Ok?
    ensures r.Ok? ==> r.value.table == t && r.value.crs == Crs && |r.value.geometry| == |t.rows|
  {
    var pts :- PointsFromXY(t);
    Ok(GeoLayer(t, pts, Crs))
  }

  /** The geometry has one point per row, in row order, at that row's element's
      coordinate (x = Lon, y = Lat), when no tag overrides Lat or Lon. */
  lemma LayerMatchesRows(es: seq<Element>)
    requires Process(EmptyTable, es).Ok?
    requires |Kept(es)| > 0
    requires forall k :: 0 <= k < |Kept(es)| ==> "Lat" !in Kept(es)[k].tags && "Lon" !in Kept(es)[k].tags
    ensures var t := Process(EmptyTable, es).value;
      && BuildLayer(t).Ok?
      && BuildLayer(t).value.crs == Crs
      && |BuildLayer(t).value.geometry| == |t.rows| == |Kept(es)|
      && forall k :: 0 <= k < |Kept(es)| ==>
           CentroidOf(Kept(es)[k]).Ok? &&
           BuildLayer(t).value.geometry[k] ==
             Point(CentroidOf(Kept(es)[k]).value.lon, CentroidOf(Kept(es)[k]).value.lat)
  {
    ProcessRecords(EmptyTable, es);
    var t := Process(EmptyTable, es).value;
    assert t.rows == t.rows[0..];
    LayerOfRecords(t, Kept(es));
  }

  /** The points of a table whose rows are the records of `kept` sit at the
      elements' coordinates. */
  lemma LayerOfRecords(t: Table, kept: seq<Element>)
    requires |t.rows| == |kept| && "Lon" in t.columns && "Lat" in t.columns
    requires forall k :: 0 <= k < |kept| ==>
      && CentroidOf(kept[k]).Ok?
      && t.rows[k] == BuildRecord(kept[k], CentroidOf(kept[k]).value)
      && "Lat" !in kept[k].tags && "Lon" !in kept[k].tags
    ensures BuildLayer(t).Ok? && BuildLayer(t).value.crs == Crs
    ensures |BuildLayer(t).value.geometry| == |t.rows|
    ensures forall k :: 0 <= k < |kept| ==>
      BuildLayer(t).value.geometry[k] == Point(CentroidOf(kept[k]).value.lon, CentroidOf(kept[k]).value.lat)
  {
    forall i | 0 <= i < |t.rows|
      ensures AsFloat(Cell(t.rows[i], "Lon")) == Ok(CentroidOf(kept[i]).value.lon)
      ensures AsFloat(Cell(t.rows[i], "Lat")) == Ok(CentroidOf(kept[i]).value.lat)
    {
      RecordCoordinates(kept[i], CentroidOf(kept[i]).value);
    }
  }

  /** A record whose element has no Lat or Lon tag reads back its centroid. */
  lemma RecordCoordinates(e: Element, c: Centroid)
    requires "Lat" !in e.tags && "Lon" !in e.tags
    ensures AsFloat(Cell(BuildRecord(e, c), "Lon")) == Ok(c.lon)
    ensures AsFloat(Cell(BuildRecord(e, c), "Lat")) == Ok(c.lat)
  {
  }

  /** A run in which every element is a site (or none came back) leaves
      `pd.DataFrame()` without columns, and `df.Lon` raises. */
  lemma NothingKeptRaises(es: seq<Element>)
    requires Kept(es) == []
    ensures Process(EmptyTable, es) == Ok(EmptyTable)
    ensures BuildLayer(EmptyTable) == Err(AttributeError)
  {
    ProcessRows(Row, EmptyTable, es);
  }

  /** main without the network and the files: the layer built from every
      element the `power=plant` and `power=generator` queries return. */
  method Run(fetch: (string, string) -> seq<Element>) returns (r: Result<GeoLayer>)
    ensures r == (var t :- Process(EmptyTable, fetch("power", "plant") + fetch("power", "generator")); BuildLayer(t))
  {
    PowerSelectorOrder(fetch);
    var df := CollectFeatures(PowerSelectors, fetch);
    if df.Err? {
      return Err(df.error);
    }
    r := BuildLayer(df.value);
  }
}
