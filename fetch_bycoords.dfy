/** fetch_byCoords.py: the bounding box handed to the Overpass query, and the
    loop that turns each returned way into a polygon (directly, or from its
    first ring), skipping the ways that cannot be turned into one. */
module FetchByCoords {
  import opened Coords

  // ---------------------------------------------------------------------------
  // The bounding box (fetch_byCoords.py:47-49)

  /** One row of `sps.geometry.bounds`: the extent of one feature. */
  datatype Bounds = Bounds(minx: real, miny: real, maxx: real, maxy: real)

  predicate IsMin(x: real, s: seq<real>) {
    x in s && forall i :: 0 <= i < |s| ==> x <= s[i]
  }

  predicate IsMax(x: real, s: seq<real>) {
    x in s && forall i :: 0 <= i < |s| ==> s[i] <= x
  }

  /** The minimum of a non-empty column, as `DataFrame.min()` computes it. */
  function Min(s: seq<real>): (r: real)
    requires |s| > 0
    ensures IsMin(r, s)
  {
    if |s| == 1 then s[0]
    else
      var m := Min(s[1..]);
      assert forall i :: 1 <= i < |s| ==> s[i] == s[1..][i - 1];
      if s[0] <= m then s[0] else m
  }

  /** The maximum of a non-empty column, as `DataFrame.max()` computes it. */
  function Max(s: seq<real>): (r: real)
    requires |s| > 0
    ensures IsMax(r, s)
  {
    if |s| == 1 then s[0]
    else
      var m := Max(s[1..]);
      assert forall i :: 1 <= i < |s| ==> s[i] == s[1..][i - 1];
      if s[0] >= m then s[0] else m
  }

  function MinXs(layer: seq<Bounds>): (r: seq<real>)
    ensures |r| == |layer| && forall i :: 0 <= i < |layer| ==> r[i] == layer[i].minx
  {
    seq(|layer|, i requires 0 <= i < |layer| => layer[i].minx)
  }

  function MinYs(layer: seq<Bounds>): (r: seq<real>)
    ensures |r| == |layer| && forall i :: 0 <= i < |layer| ==> r[i] == layer[i].miny
  {
    seq(|layer|, i requires 0 <= i < |layer| => layer[i].miny)
  }

  function MaxXs(layer: seq<Bounds>): (r: seq<real>)
    ensures |r| == |layer| && forall i :: 0 <= i < |layer| ==> r[i] == layer[i].maxx
  {
    seq(|layer|, i requires 0 <= i < |layer| => layer[i].maxx)
  }

  function MaxYs(layer: seq<Bounds>): (r: seq<real>)
    ensures |r| == |layer| && forall i :: 0 <= i < |layer| ==> r[i] == layer[i].maxy
  {
    seq(|layer|, i requires 0 <= i < |layer| => layer[i].maxy)
  }

  /** `[mi.miny, mi.minx, mx.miny, mx.minx]` as written: the smallest southern
      edge, the smallest western edge, the LARGEST SOUTHERN edge and the
      LARGEST WESTERN edge of the layer's features. An empty layer has no
      bounds (pandas gives NaN there). */
  function BoundingBox(layer: seq<Bounds>): (r: Option<seq<real>>)
    ensures r.Some? <==> |layer| > 0
    ensures r.Some? ==> |r.value| == 4
    ensures r.Some? ==> IsMin(r.value[0], MinYs(layer)) && IsMin(r.value[1], MinXs(layer))
    ensures r.Some? ==> IsMax(r.value[2], MinYs(layer)) && IsMax(r.value[3], MinXs(layer))
  {
    if layer == [] then None
    else Some([Min(MinYs(layer)), Min(MinXs(layer)), Max(MinYs(layer)), Max(MinXs(layer))])
  }

  /** The box `(south, west, north, east)` the query evidently wants: the
      largest northern and eastern edges close it. */
  function CoveringBoundingBox(layer: seq<Bounds>): (r: Option<seq<real>>)
    ensures r.Some? <==> |layer| > 0
    ensures r.Some? ==> |r.value| == 4
    ensures r.Some? ==> IsMin(r.value[0], MinYs(layer)) && IsMin(r.value[1], MinXs(layer))
    ensures r.Some? ==> IsMax(r.value[2], MaxYs(layer)) && IsMax(r.value[3], MaxXs(layer))
  {
    if layer == [] then None
    else Some([Min(MinYs(layer)), Min(MinXs(layer)), Max(MaxYs(layer)), Max(MaxXs(layer))])
  }

  /** The feature lies within the box `[south, west, north, east]`. */
  predicate Inside(f: Bounds, box: seq<real>)
    requires |box| == 4
  {
    box[0] <= f.miny && box[1] <= f.minx && f.maxy <= box[2] && f.maxx <= box[3]
  }

  /** The corrected box covers every feature of the layer. */
  lemma CoveringBoxCoversLayer(layer: seq<Bounds>)
    requires |layer| > 0
    ensures forall i :: 0 <= i < |layer| ==> Inside(layer[i], CoveringBoundingBox(layer).value)
  {
    var box := CoveringBoundingBox(layer).value;
    forall i | 0 <= i < |layer| ensures Inside(layer[i], box) {
      assert MinYs(layer)[i] == layer[i].miny && MinXs(layer)[i] == layer[i].minx;
      assert MaxYs(layer)[i] == layer[i].maxy && MaxXs(layer)[i] == layer[i].maxx;
    }
  }

  /** The corrected box is the smallest one covering the layer: every
      covering box contains it. */
  lemma CoveringBoxIsTight(layer: seq<Bounds>, box: seq<real>)
    requires |layer| > 0 && |box| == 4
    requires forall i :: 0 <= i < |layer| ==> Inside(layer[i], box)
    ensures var c := CoveringBoundingBox(layer).value;
      box[0] <= c[0] && box[1] <= c[1] && c[2] <= box[2] && c[3] <= box[3]
  {
    var c := CoveringBoundingBox(layer).value;
    var i0 :| 0 <= i0 < |layer| && MinYs(layer)[i0] == c[0];
    var i1 :| 0 <= i1 < |layer| && MinXs(layer)[i1] == c[1];
    var i2 :| 0 <= i2 < |layer| && MaxYs(layer)[i2] == c[2];
    var i3 :| 0 <= i3 < |layer| && MaxXs(layer)[i3] == c[3];
    assert Inside(layer[i0], box) && Inside(layer[i1], box);
    assert Inside(layer[i2], box) && Inside(layer[i3], box);
  }

  /** The box as written can cut features off: a single feature spanning
      (0, 0) to (1, 1) gets the degenerate box [0, 0, 0, 0], which does not
      contain it. */
  lemma BoundingBoxMissesFeature()
    ensures var layer := [Bounds(0.0, 0.0, 1.0, 1.0)];
      && BoundingBox(layer) == Some([0.0, 0.0, 0.0, 0.0])
      && !Inside(layer[0], BoundingBox(layer).value)
  {
    var layer := [Bounds(0.0, 0.0, 1.0, 1.0)];
    assert MinYs(layer) == [0.0] && MinXs(layer) == [0.0];
  }

  // ---------------------------------------------------------------------------
  // The polygon loop (fetch_byCoords.py:60-75)

  /** The body of the loop for one way's coordinates `poly`, with shapely's
      `Polygon` abstracted as `build`: None is the `continue`, Some the
      geometry to append, Err an exception that escapes the loop. */
  function Attempt<G>(poly: Coord, build: Coord -> Result<G>): (r: Result<Option<G>>)
    // Polygon(poly) succeeded: use it; poly[0] is never consulted
    ensures build(poly).Ok? ==> r == Ok(Some(build(poly).value))
    // Polygon(poly) failed: look at the first ring, in the except handler
    ensures build(poly).Err? && Index(poly, 0).Err? ==> r == Err(Index(poly, 0).error)
    ensures build(poly).Err? && Index(poly, 0).Ok? && Length(poly.items[0]).Err? ==> r == Err(TypeError)
    ensures build(poly).Err? && Index(poly, 0).Ok? && Length(poly.items[0]).Ok? ==>
      if |poly.items[0].items| < 6 then r == Ok(None)
      else r == (if build(poly.items[0]).Ok? then Ok(Some(build(poly.items[0]).value))
                 else Err(build(poly.items[0]).error))
  {
    match build(poly)
    case Ok(geom) => Ok(Some(geom))
    case Err(_) =>
      var first :- Index(poly, 0);
      var n :- Length(first);
      if n < 6 then Ok(None)
      else
        var geom :- build(first);
        Ok(Some(geom))
  }

  /** What one iteration can do, stated on the outcome: a way is skipped
      exactly when direct construction fails and its first ring is a list of
      fewer than six entries; an appended geometry was built from the whole
      structure or, when that failed, from a first ring of six or more
      entries; an escaping exception means direct construction failed. */
  lemma AttemptOutcomes<G>(poly: Coord, build: Coord -> Result<G>)
    ensures Attempt(poly, build) == Ok(None) <==>
      && build(poly).Err?
      && poly.List? && |poly.items| > 0
      && poly.items[0].List? && |poly.items[0].items| < 6
    ensures Attempt(poly, build).Ok? && Attempt(poly, build).value.Some? ==>
      || build(poly) == Ok(Attempt(poly, build).value.value)
      || (&& build(poly).Err?
          && poly.List? && |poly.items| > 0
          && poly.items[0].List? && |poly.items[0].items| >= 6
          && build(poly.items[0]) == Ok(Attempt(poly, build).value.value))
    ensures Attempt(poly, build).Err? ==> build(poly).Err?
  {
  }

  /** What one iteration adds to the collection: its geometry, or nothing. */
  function Contribution<G>(g: Option<G>): seq<G> {
    if g.Some? then [g.value] else []
  }

  /** `gdf = pd.concat([gdf, gdfr], ...)` when the iteration yields a
      geometry; after `continue`, `gdf` as it was. */
  function Push<G>(gdf: seq<G>, g: Option<G>): (r: seq<G>)
    ensures r == gdf + Contribution(g)
  {
    if g.Some? then gdf + [g.value] else assert gdf + [] == gdf; gdf
  }

  /** The loop folded over the remaining ways' coordinates, from the
      collection `acc` built so far. */
  function Polygons<G>(acc: seq<G>, polys: seq<Coord>, build: Coord -> Result<G>): (r: Result<seq<G>>)
    ensures r.Ok? ==> |acc| <= |r.value| <= |acc| + |polys|
    decreases |polys|
  {
    if polys == [] then Ok(acc)
    else
      var g :- Attempt(polys[0], build);
      Polygons(Push(acc, g), polys[1..], build)
  }

  /** `for n in range(0, num)` over the returned ways, with `gdf` the growing
      GeoDataFrame (one geometry per row, rows re-indexed 0..k-1). */
  method CollectPolygons<G>(polys: seq<Coord>, build: Coord -> Result<G>) returns (r: Result<seq<G>>)
    ensures r == Polygons([], polys, build)
  {
    var gdf: seq<G> := [];
    for n := 0 to |polys|
      invariant Polygons(gdf, polys[n..], build) == Polygons([], polys, build)
    {
      assert polys[n..][1..] == polys[n + 1..];
      var poly := polys[n];
      var geom: G;
      var direct := build(poly);
      if direct.Ok? {
        geom := direct.value;
      } else {
        var first := Index(poly, 0);
        if first.Err? {
          return Err(first.error);
        }
        var len := Length(first.value);
        if len.Err? {
          return Err(len.error);
        }
        if len.value < 6 {
          continue;
        }
        var retry := build(first.value);
        if retry.Err? {
          return Err(retry.error);
        }
        geom := retry.value;
      }
      gdf := gdf + [geom];
    }
    assert polys[|polys|..] == [];
    return Ok(gdf);
  }

  /** Reference description of the collection: the geometries of the ways
      whose attempt yields one, in way order. */
  function Accepted<G>(polys: seq<Coord>, build: Coord -> Result<G>): seq<G>
    requires forall i :: 0 <= i < |polys| ==> Attempt(polys[i], build).Ok?
    decreases |polys|
  {
    if polys == [] then []
    else Contribution(Attempt(polys[0], build).value) + Accepted(polys[1..], build)
  }

  /** The number of ways whose attempt yields a geometry. */
  function Successes<G>(polys: seq<Coord>, build: Coord -> Result<G>): (n: nat)
    ensures n <= |polys|
    decreases |polys|
  {
    if polys == [] then 0
    else
      var here := if Attempt(polys[0], build).Ok? && Attempt(polys[0], build).value.Some? then 1 else 0;
      here + Successes(polys[1..], build)
  }

  /** The loop ends without an exception exactly when no attempt raises. */
  lemma {:induction false} PolygonsOk<G>(acc: seq<G>, polys: seq<Coord>, build: Coord -> Result<G>)
    ensures Polygons(acc, polys, build).Ok? <==>
      forall i :: 0 <= i < |polys| ==> Attempt(polys[i], build).Ok?
    decreases |polys|
  {
    if polys != [] {
      var g := Attempt(polys[0], build);
      if g.Ok? {
        var acc' := Push(acc, g.value);
        assert Polygons(acc, polys, build) == Polygons(acc', polys[1..], build);
        PolygonsOk(acc', polys[1..], build);
        if forall i :: 0 <= i < |polys[1..]| ==> Attempt(polys[1..][i], build).Ok? {
          forall i | 0 <= i < |polys| ensures Attempt(polys[i], build).Ok? {
            if i > 0 {
              assert polys[i] == polys[1..][i - 1];
            }
          }
        } else {
          var i :| 0 <= i < |polys[1..]| && Attempt(polys[1..][i], build).Err?;
          assert polys[i + 1] == polys[1..][i];
        }
      }
    }
  }

  /** Without an exception, the collection is the one built so far followed
      by the accepted geometries, in order; the earlier entries are untouched. */
  lemma {:induction false} PolygonsMeaning<G>(acc: seq<G>, polys: seq<Coord>, build: Coord -> Result<G>)
    requires Polygons(acc, polys, build).Ok?
    ensures forall i :: 0 <= i < |polys| ==> Attempt(polys[i], build).Ok?
    ensures Polygons(acc, polys, build).value == acc + Accepted(polys, build)
    decreases |polys|
  {
    PolygonsOk(acc, polys, build);
    if polys == [] {
      assert acc + [] == acc;
    } else {
      var extra := Contribution(Attempt(polys[0], build).value);
      var acc' := Push(acc, Attempt(polys[0], build).value);
      assert Polygons(acc, polys, build) == Polygons(acc', polys[1..], build);
      PolygonsMeaning(acc', polys[1..], build);
      assert Accepted(polys, build) == extra + Accepted(polys[1..], build);
      assert (acc + extra) + Accepted(polys[1..], build) == acc + (extra + Accepted(polys[1..], build));
    }
  }

  /** An exception from the loop is that of the first attempt that raises. */
  lemma {:induction false} PolygonsError<G>(acc: seq<G>, polys: seq<Coord>, build: Coord -> Result<G>)
    requires Polygons(acc, polys, build).Err?
    ensures exists i ::
      && 0 <= i < |polys|
      && Attempt(polys[i], build) == Err(Polygons(acc, polys, build).error)
      && forall j :: 0 <= j < i ==> Attempt(polys[j], build).Ok?
    decreases |polys|
  {
    var g := Attempt(polys[0], build);
    if g.Err? {
      assert Attempt(polys[0], build) == Err(Polygons(acc, polys, build).error);
    } else {
      var acc' := Push(acc, g.value);
      PolygonsError(acc', polys[1..], build);
      var i :| 0 <= i < |polys[1..]| &&
        Attempt(polys[1..][i], build) == Err(Polygons(acc', polys[1..], build).error) &&
        forall j :: 0 <= j < i ==> Attempt(polys[1..][j], build).Ok?;
      assert polys[i + 1] == polys[1..][i];
      forall j | 0 <= j < i + 1 ensures Attempt(polys[j], build).Ok? {
        if j > 0 {
          assert polys[j] == polys[1..][j - 1];
        }
      }
    }
  }

  /** Accepting is compositional: the ways of `a` contribute first, then
      those of `b`; a skipped way contributes nothing. */
  lemma {:induction false} AcceptedConcat<G>(a: seq<Coord>, b: seq<Coord>, build: Coord -> Result<G>)
    requires forall i :: 0 <= i < |a| ==> Attempt(a[i], build).Ok?
    requires forall i :: 0 <= i < |b| ==> Attempt(b[i], build).Ok?
    ensures forall i :: 0 <= i < |a + b| ==> Attempt((a + b)[i], build).Ok?
    ensures Accepted(a + b, build) == Accepted(a, build) + Accepted(b, build)
    decreases |a|
  {
    AttemptsConcat(a, b, build);
    if a == [] {
      assert a + b == b;
    } else {
      var g := Attempt(a[0], build).value;
      AttemptsTail(a, build);
      ConcatTail(a, b);
      AcceptedConcat(a[1..], b, build);
      assert Accepted(a + b, build) == Contribution(g) + Accepted(a[1..] + b, build);
      assert Accepted(a, build) == Contribution(g) + Accepted(a[1..], build);
    }
  }

  /** Every attempt over a concatenation succeeds when every attempt over
      each part does. */
  lemma AttemptsConcat<G>(a: seq<Coord>, b: seq<Coord>, build: Coord -> Result<G>)
    requires forall i :: 0 <= i < |a| ==> Attempt(a[i], build).Ok?
    requires forall i :: 0 <= i < |b| ==> Attempt(b[i], build).Ok?
    ensures forall i :: 0 <= i < |a + b| ==> Attempt((a + b)[i], build).Ok?
  {
    forall i | 0 <= i < |a + b| ensures Attempt((a + b)[i], build).Ok? {
      if i < |a| { assert (a + b)[i] == a[i]; } else { assert (a + b)[i] == b[i - |a|]; }
    }
  }

  /** Every attempt over the tail of a sequence succeeds when every attempt
      over the sequence does. */
  lemma AttemptsTail<G>(a: seq<Coord>, build: Coord -> Result<G>)
    requires a != []
    requires forall i :: 0 <= i < |a| ==> Attempt(a[i], build).Ok?
    ensures forall i :: 0 <= i < |a[1..]| ==> Attempt(a[1..][i], build).Ok?
  {
    forall i | 0 <= i < |a[1..]| ensures Attempt(a[1..][i], build).Ok? {
      assert a[1..][i] == a[i + 1];
    }
  }

  /** Head and tail of a concatenation with a non-empty front. */
  lemma ConcatTail(a: seq<Coord>, b: seq<Coord>)
    requires a != []
    ensures (a + b)[0] == a[0]
    ensures (a + b)[1..] == a[1..] + b
  {
  }

  /** Each way yields at most one geometry: the collection never has more
      entries than there were ways, and exactly as many as attempts that
      succeeded. */
  lemma {:induction false} AcceptedCount<G>(polys: seq<Coord>, build: Coord -> Result<G>)
    requires forall i :: 0 <= i < |polys| ==> Attempt(polys[i], build).Ok?
    ensures |Accepted(polys, build)| == Successes(polys, build) <= |polys|
    decreases |polys|
  {
    if polys != [] {
      assert forall i :: 1 <= i < |polys| ==> polys[i] == polys[1..][i - 1];
      AcceptedCount(polys[1..], build);
    }
  }

  /** Every collected geometry came from some way, by direct construction or
      from its first ring. */
  lemma {:induction false} AcceptedProvenance<G>(polys: seq<Coord>, build: Coord -> Result<G>)
    requires forall i :: 0 <= i < |polys| ==> Attempt(polys[i], build).Ok?
    ensures forall g :: g in Accepted(polys, build) ==>
      exists i :: 0 <= i < |polys| && Attempt(polys[i], build) == Ok(Some(g))
    decreases |polys|
  {
    if polys != [] {
      assert forall i :: 1 <= i < |polys| ==> polys[i] == polys[1..][i - 1];
      AcceptedProvenance(polys[1..], build);
      forall g | g in Accepted(polys, build)
        ensures exists i :: 0 <= i < |polys| && Attempt(polys[i], build) == Ok(Some(g))
      {
        var head := Attempt(polys[0], build).value;
        if head.Some? && g == head.value {
          assert Attempt(polys[0], build) == Ok(Some(g));
        } else {
          assert g in Accepted(polys[1..], build);
          var i :| 0 <= i < |polys[1..]| && Attempt(polys[1..][i], build) == Ok(Some(g));
          assert Attempt(polys[i + 1], build) == Ok(Some(g));
        }
      }
    }
  }

  /** When Polygon(poly) succeeds for every way, each way gives its own
      geometry at its own position. */
  lemma {:induction false} AllDirect<G>(polys: seq<Coord>, build: Coord -> Result<G>)
    requires forall i :: 0 <= i < |polys| ==> build(polys[i]).Ok?
    ensures Polygons([], polys, build).Ok?
    ensures |Polygons([], polys, build).value| == |polys|
    ensures forall i :: 0 <= i < |polys| ==> Polygons([], polys, build).value[i] == build(polys[i]).value
  {
    DirectAccepted(polys, build);
    PolygonsOk([], polys, build);
    PolygonsMeaning([], polys, build);
    DirectAccepted(polys, build);
    assert [] + Accepted(polys, build) == Accepted(polys, build);
  }

  lemma {:induction false} DirectAccepted<G>(polys: seq<Coord>, build: Coord -> Result<G>)
    requires forall i :: 0 <= i < |polys| ==> build(polys[i]).Ok?
    ensures forall i :: 0 <= i < |polys| ==> Attempt(polys[i], build).Ok?
    ensures |Accepted(polys, build)| == |polys|
    ensures forall i :: 0 <= i < |polys| ==> Accepted(polys, build)[i] == build(polys[i]).value
    decreases |polys|
  {
    if polys != [] {
      assert forall i :: 1 <= i < |polys| ==> polys[i] == polys[1..][i - 1];
      DirectAccepted(polys[1..], build);
      var rest := Accepted(polys[1..], build);
      assert Accepted(polys, build) == [build(polys[0]).value] + rest;
    }
  }

  /** A short ring is skipped: the iteration leaves the collection as it was. */
  lemma SkipLeavesCollection<G>(acc: seq<G>, poly: Coord, rest: seq<Coord>, build: Coord -> Result<G>)
    requires build(poly).Err? && poly.List? && |poly.items| > 0 && poly.items[0].List?
    requires |poly.items[0].items| < 6
    ensures Polygons(acc, [poly] + rest, build) == Polygons(acc, rest, build)
  {
    assert ([poly] + rest)[1..] == rest;
  }
}
