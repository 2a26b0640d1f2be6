# OSMFetch core in Dafny

OSMFetch pulls OpenStreetMap features from the Overpass service and turns them
into tables and layers. This project models two of its scripts.

- **fetch.py** goes through the answers to the `power=plant` and
  `power=generator` queries. It turns every element into one flat record:
  `id`, `Lat`, `Lon` and `timestamp`, followed by all of the element's tags.
  For a node, `Lat`/`Lon` is the node's own coordinate. For a way or a
  relation, it is the mean of the points of the first ring (of every part,
  for a relation), or a single `[lon, lat]` pair when a runtime depth probe
  finds no nesting. Elements tagged `type=site` are skipped. The records are
  appended to a growing table. At the end, a point geometry is built from
  the table's `Lon`/`Lat` columns.
- **fetch_byCoords.py** computes a bounding box from the bounds of an input
  layer. It then turns each returned way into a polygon. If building the
  polygon from the whole coordinate structure fails, it retries with the
  first ring. If that first ring has fewer than six entries, the way is
  skipped instead.

How the model is organised:

- `coords.dfy` (module `Coords`) holds the nested GeoJSON coordinate value
  (a number or a list) and the Python operations the scripts apply to it:
  indexing, `len`, and the recursive `depth` lambda. It also holds the
  exceptions they raise, as a `Result`.
- `averages.dfy` (module `Averages`) holds the sum and the arithmetic mean
  over exact reals, and their permutation and bound properties.
- `fetch.dfy` (module `Fetch`) models the centroid, the record, the table,
  the driver loops and `points_from_xy`. Loops in the source are methods
  with loop invariants. Each method is proved equal to a tail-recursive
  function over the same accumulator, and the properties are proved about
  those functions.
- `fetch_bycoords.dfy` (module `FetchByCoords`) models the bounding box as
  written and as corrected, and the polygon try/retry/skip/append loop.
  Shapely's `Polygon` constructor is the function parameter `build`.

The query services are the function parameter `fetch(key, value)`. It maps a
selector to the element sequence the query returns.

The model keeps this behaviour of the code:

- When the retry `Polygon(poly[0])` fails in fetch_byCoords.py, the exception
  escapes the loop and ends the run. The way is not skipped.
- An exception from `poly[0]` or `len(poly[0])` escapes the loop in the same
  way.
- The skip test is `len(poly[0]) < 6`: it counts the entries of `poly[0]`.
- Only nodes, ways and relations are queried, so `ElementType` has exactly
  these three constructors and the centroid has no branch for any other.
- A point structure nested too deeply or too shallowly raises the exception
  the code raises on it: `TypeError`, `IndexError` or, from `max` over an
  empty list in `depth`, `ValueError`.
- When no element survives the `type=site` filter, the table is
  `pd.DataFrame()`. It has no `Lon` column, so `df.Lon` raises
  `AttributeError`.

## Model

| member | source | states |
|---|---|---|
| Coords.Index | fetch.py:38 | `c[i]` succeeds exactly on a list with `i` in range and gives that item; a number raises TypeError |
| Coords.Length | fetch_byCoords.py:70 | `len(c)` succeeds exactly on a list and gives its length |
| Coords.MaxDepth | fetch.py:46 | `max` over child depths raises iff some child raises; otherwise its value bounds every child and is attained by one |
| Coords.Depth | fetch.py:46 | `depth` of a number is 0 (False); a list with a depth is non-empty and has depth at least 1 |
| Coords.DepthFailsIffEmptyList | fetch.py:46 | `depth` raises exactly when some list in the structure is empty, and then it raises ValueError |
| Coords.MaxDepthError | fetch.py:46 | when every child error is ValueError, so is the error of `max` |
| Coords.DepthAtMostOne | fetch.py:50-58 | a list of depth at most 1 holds only numbers (the single-pair branch) |
| Coords.DepthOneIffFlat | fetch.py:46 | depth 1 holds exactly for non-empty flat lists of numbers |
| Coords.FlatDepthOne | fetch.py:46 | a non-empty flat list of numbers has depth 1 |
| Coords.PositionsDepthTwo | fetch.py:46-50 | a non-empty list of positions has depth 2, so the averaging branch is taken |
| Fetch.FirstRingsFrom | fetch.py:36-39 | the relation loop keeps the points gathered so far as a prefix and raises only TypeError or IndexError |
| Fetch.FirstRings | fetch.py:35-39 | a relation's points exist exactly when its coordinates are a list of parts whose first ring is a list, and are those rings concatenated in part order; otherwise TypeError or IndexError |
| Fetch.Points | fetch.py:33-41 | a way's points are `coordinates[0]`, present exactly when the coordinates are a non-empty list; a relation's are its concatenated first rings; failures are TypeError or IndexError |
| Fetch.FirstRingsFromMeaning | fetch.py:34-39 | the relation loop succeeds iff every part's first ring is a list; it then yields those rings concatenated in part order, after what was gathered |
| Fetch.ColumnsFrom | fetch.py:51-53 | the append loop adds one lon and one lat entry per point |
| Fetch.PySumFrom | fetch.py:54-55 | `sum` succeeds exactly when every collected value is a number, and otherwise raises TypeError |
| Fetch.AverageOf | fetch.py:50-55 | the averaging branch never divides by zero: it raises only TypeError or IndexError, from malformed points |
| Fetch.PairOf | fetch.py:56-58 | the single-pair branch succeeds exactly when the points are a list of at least two numbers; otherwise TypeError or IndexError |
| Fetch.CentroidOf | fetch.py:31-58 | a node keeps `e.lat()` / `e.lon()`; a way or relation summarised without error has points with no empty list in them; the centroid never raises AttributeError |
| Fetch.ConcatFirstRings | fetch.py:35-39 | the loop with repeated `points = points + p` computes the relation's combined points, failing where the fold fails |
| Fetch.SplitColumns | fetch.py:42-53 | the `lon.append(p[0])` / `lat.append(p[1])` loop computes the column split, failing where it fails |
| Fetch.ColumnsOfPositions | fetch.py:51-53 | over positions the append loop succeeds and collects every `p[0]` and every `p[1]`, in point order |
| Fetch.PySumOfLons | fetch.py:55 | `sum` over the collected `p[0]` values is their mathematical sum |
| Fetch.PySumOfLats | fetch.py:54 | `sum` over the collected `p[1]` values is their mathematical sum |
| Fetch.AverageOfPositions | fetch.py:50-55 | over one or more positions, the averaging branch yields Lat = mean of `p[1]`, Lon = mean of `p[0]` |
| Fetch.AveragedCentroid | fetch.py:33-55 | a way or relation whose points are positions gets Lat = mean of every `p[1]` and Lon = mean of every `p[0]` |
| Fetch.WayCentroid | fetch.py:40-41 | a way's points are `coordinates[0]`, and the coordinate is the mean over that ring |
| Fetch.RelationCentroid | fetch.py:34-39 | a relation's points are the first ring of every part, concatenated in part order; the mean is taken over the combined sequence |
| Fetch.SinglePositionCentroid | fetch.py:56-58 | a flat `[lon, lat, ...]` list is not averaged: Lon = `points[0]`, Lat = `points[1]` |
| Fetch.EmptyListRaises | fetch.py:46-54 | an empty list among the points raises ValueError in `depth`, before any division |
| Averages.SumConcat | fetch.py:54-55 | the sum over a concatenation is the sum of the sums |
| Averages.SumPermutation | fetch.py:54-55 | the sum does not depend on the order of the values |
| Averages.MeanPermutation | fetch.py:54-55 | the mean does not depend on the order of the points |
| Averages.SumBounds | fetch.py:54-55 | a sum of values within bounds lies between count times each bound |
| Averages.MeanBounds | fetch.py:54-55 | the mean lies within any bounds of the values |
| Averages.MeanConstant | fetch.py:54-55 | copies of one position average to that position |
| Fetch.AveragedCentroidInRange | fetch.py:50-55 | positions in the WGS84 range give a coordinate in that range |
| Fetch.ColumnsPermutation | fetch.py:51-53 | points that are a reordering of each other give lon and lat columns that are reorderings of each other |
| Fetch.CentroidOrderIndependent | fetch.py:50-55 | two ways or relations whose points are the same positions in any order get the same Lat and Lon |
| Fetch.BuildRecord | fetch.py:67 | the record's keys are `id`, `Lat`, `Lon`, `timestamp` plus every tag; a tag wins over a reserved key of the same name; otherwise the reserved keys hold the element's values |
| Fetch.Append | fetch.py:68-70 | exactly one row is added at the end, earlier rows are unchanged, the columns become old columns ∪ record keys, and the column invariant is kept |
| Fetch.AddFeature | fetch.py:30-74 | `addFeaturetoGDF` with both branches and the second relation pass appends the element's record with its centroid, or raises what the geometry raises; the second pass changes nothing |
| Fetch.Kept | fetch.py:113-114 | the elements reaching `addFeaturetoGDF` are exactly the non-site elements |
| Fetch.IsSite | fetch.py:113 | an element is skipped when its `type` tag is `site` (no contract of its own; Fetch.Kept states what it filters) |
| Fetch.Row | fetch.py:118 | `addFeaturetoGDF` yields a record exactly when the centroid exists; its keys are the reserved names plus the tags |
| Fetch.ProcessWith | fetch.py:111-118 | the element loop with its `continue` as a fold (no contract of its own; Fetch.ProcessOk, Fetch.ProcessError and Fetch.ProcessAppends state what it computes) |
| Fetch.ProcessError | fetch.py:111-118 | an exception that ends the loop is the one the record of some non-site element raises |
| Fetch.Process | fetch.py:111-118 | the loop completes exactly when every non-site element has a centroid; otherwise it raises the centroid error of some non-site element |
| Fetch.ProcessAppends | fetch.py:111-118 | on completion the rows are the old rows followed by one record per non-site element, in element order |
| Fetch.ProcessConcat | fetch.py:106-118 | folding over `a + b` is folding over `a` and then over `b` from where it stopped |
| Fetch.ProcessOk | fetch.py:111-118 | the loop completes iff every non-site element yields a record |
| Fetch.ProcessRows | fetch.py:111-118 | one row per non-site element in element order after the unchanged earlier rows, no de-duplication; columns grow by the new rows' keys |
| Fetch.ProcessShape | fetch.py:111-118 | the k-th non-site element's record is row `|t.rows| + k` |
| Fetch.ProcessColumns | fetch.py:111-118 | the columns become the old columns plus the keys of the added rows |
| Fetch.ProcessValid | fetch.py:111-118 | the loop keeps the column set equal to the union of the row keys |
| Fetch.ProcessRecords | fetch.py:111-118 | each added row is its element's record; the columns become the reserved names plus every tag key seen |
| Fetch.RecordKeys | fetch.py:67 | the keys of the records of a run are the reserved names plus the union of their tags |
| Fetch.AddElements | fetch.py:111-118 | the element loop with its `continue` computes the fold over the query's elements |
| Fetch.PowerSelectorOrder | fetch.py:100-107 | the selector loops visit `power=plant` before `power=generator` |
| Fetch.ValueElements | fetch.py:107-109 | an element is visited exactly when the query of some value returns it |
| Fetch.SelectorElements | fetch.py:106-109 | an element is visited exactly when the query of some selector key and value returns it |
| Fetch.CollectFeatures | fetch.py:104-118 | the nested selector loops fold every queried element, in selector, then value, then element order, into `pd.DataFrame()` |
| Fetch.ColumnReals | fetch.py:124 | a column reads as floats iff every row's cell does, one number per row |
| Fetch.AsFloat | fetch.py:124 | a cell reads as a float exactly when it is present and numeric; otherwise ValueError |
| Fetch.PointsFromXY | fetch.py:124 | a missing `Lon`/`Lat` column raises AttributeError; otherwise one point per row with x = Lon, y = Lat |
| Fetch.BuildLayer | fetch.py:124-125 | the layer exists exactly when `points_from_xy` succeeds; it keeps the table, has one point per row and the constant CRS |
| Fetch.LayerMatchesRows | fetch.py:124-125 | the geometry has one point per row, in row order, at each kept element's coordinate, with the constant CRS |
| Fetch.NothingKeptRaises | fetch.py:104-124 | when nothing survives the filter the table is `pd.DataFrame()` and building the points raises AttributeError |
| Fetch.Run | fetch.py:100-125 | main computes the layer from the `plant` then `generator` results |
| FetchByCoords.Min | fetch_byCoords.py:47 | the column minimum is attained and bounds every entry from below |
| FetchByCoords.Max | fetch_byCoords.py:48 | the column maximum is attained and bounds every entry from above |
| FetchByCoords.BoundingBox | fetch_byCoords.py:47-49 | as written: `[min miny, min minx, max miny, max minx]` in that order; no box for an empty layer |
| FetchByCoords.BoundingBoxMissesFeature | fetch_byCoords.py:49 | the box as written does not contain a single feature from (0,0) to (1,1) |
| FetchByCoords.CoveringBoundingBox | fetch_byCoords.py:47-49 | corrected: `[min miny, min minx, max maxy, max maxx]` |
| FetchByCoords.CoveringBoxCoversLayer | fetch_byCoords.py:47-49 | the corrected box contains every feature of the layer |
| FetchByCoords.CoveringBoxIsTight | fetch_byCoords.py:47-49 | every box containing all features contains the corrected box |
| FetchByCoords.Attempt | fetch_byCoords.py:65-72 | direct success gives that geometry without reading `poly[0]`; otherwise a short first ring is skipped, a long one is retried, and exceptions from `poly[0]`, `len` and the retry escape |
| FetchByCoords.AttemptOutcomes | fetch_byCoords.py:67-72 | a way is skipped iff direct construction fails and its first ring has fewer than six entries; an appended geometry comes from direct construction or from a first ring of at least six entries |
| FetchByCoords.Push | fetch_byCoords.py:71-75 | an iteration that yields a geometry appends exactly one entry at the end; after `continue` the collection is unchanged |
| FetchByCoords.CollectPolygons | fetch_byCoords.py:60-75 | the loop with `continue` computes the fold over the returned ways |
| FetchByCoords.Polygons | fetch_byCoords.py:61-75 | each way adds at most one geometry: on completion the collection has between the earlier count and the earlier count plus the number of ways |
| FetchByCoords.Successes | fetch_byCoords.py:61-75 | the number of ways that yield a geometry is at most the number of ways |
| FetchByCoords.PolygonsOk | fetch_byCoords.py:61-75 | the loop completes iff no way's attempt raises |
| FetchByCoords.PolygonsMeaning | fetch_byCoords.py:74-75 | on completion the collection is the earlier entries followed by the accepted geometries in way order |
| FetchByCoords.PolygonsError | fetch_byCoords.py:61-75 | an escaping exception is that of the first way whose attempt raises |
| FetchByCoords.AcceptedConcat | fetch_byCoords.py:74-75 | the geometries of `a + b` are those of `a` followed by those of `b` |
| FetchByCoords.AcceptedCount | fetch_byCoords.py:57-75 | each way yields at most one geometry: as many entries as successful attempts, never more than the ways |
| FetchByCoords.AcceptedProvenance | fetch_byCoords.py:65-75 | every collected geometry is the outcome of some way's attempt |
| FetchByCoords.AllDirect | fetch_byCoords.py:67-68 | when every direct construction succeeds, entry i is way i's geometry |
| FetchByCoords.DirectAccepted | fetch_byCoords.py:67-68 | when every direct construction succeeds, each way contributes its own geometry at its own position |
| FetchByCoords.SkipLeavesCollection | fetch_byCoords.py:69-71 | a skipped way leaves the collection exactly as it was |

## Left out

- The Overpass, Nominatim and OSM API queries (`fetchFeatures`, `fetchFeatureVersion`, `countElements`) are not modelled. Their results are the function parameter `fetch`, or the sequence of coordinate structures passed to `CollectPolygons`. Timeouts are not modelled.
- The area lookup and the query built from the bounding box are left out, because they are network calls.
- `saveData`, `to_file`, `to_csv` and `read_file` are not modelled, because they are file I/O. The layer reprojection `to_crs` is left out for the same reason. The layer's bounds are an input.
- The click command line, logging and `print` are not modelled, because they are plumbing.
- Shapely's `Polygon` constructor is the abstract parameter `build`. Its validity rules are not modelled.
- `e.geometry()` is the `coordinates` field of an element. OSMPythonTools' conversion of Overpass geometry is not modelled.
- Floating-point arithmetic is modelled with exact reals. IEEE rounding in `sum(...)/len(...)` and NaN are not modelled.
- BoundingBox: an empty layer gives no box, while pandas produces NaN bounds there.
- Duplicated vertices are not treated specially. A closed ring repeats its first vertex, and the mean counts that vertex twice, as the code does.
- Tag values are strings. pandas dtype coercion of mixed columns is not modelled.
- AsFloat: a numeric-looking string cell is not parsed, and a missing cell (NaN) is not turned into a coordinate. Both raise ValueError. This can only happen when a tag named `Lat` or `Lon` overrides the computed coordinate.
- Table column order is not modelled: the columns are a set. The row index is the position in the sequence, so `ignore_index=True` renumbering is implicit.
- `gdf.crs` is the constant `Crs`. pyproj's interpretation of `{'init': 'epsg:4326'}` is not modelled.
- Element timestamps and ids are carried through without interpretation.

## Findings

| source | as written | input that shows it | evidently intended | confidence | as-written member | corrected member |
|---|---|---|---|---|---|---|
| fetch_byCoords.py:49 | `bbox = [mi.miny, mi.minx, mx.miny, mx.minx]` closes the box at the largest southern and western edges | one feature with bounds minx = miny = 0, maxx = maxy = 1 gives the box [0, 0, 0, 0], which does not contain it | `[mi.miny, mi.minx, mx.maxy, mx.maxx]` (south, west, north, east), which contains every feature | high; not executed | FetchByCoords.BoundingBox, FetchByCoords.BoundingBoxMissesFeature | FetchByCoords.CoveringBoundingBox, FetchByCoords.CoveringBoxCoversLayer |
