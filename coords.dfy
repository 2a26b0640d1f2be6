/** The nested coordinate arrays of a GeoJSON geometry, as the Overpass client
    hands them to both scripts, and the few Python operations the scripts apply
    to them: indexing, `len`, and the `depth` probe of fetch.py. */
module Coords {

  /** A GeoJSON coordinate value: a number or a (possibly nested) list. */
  datatype Coord = Num(x: real) | List(items: seq<Coord>)

  /** The Python exceptions the modelled code can raise. */
  datatype Error =
    | TypeError       // indexing or iterating a number, `list + number`, `sum` over lists
    | IndexError      // `c[i]` past the end of a list
    | ValueError      // `max()` of an empty sequence, a non-numeric string as a coordinate
    | AttributeError  // a DataFrame column that does not exist

  /** A computation that either yields a value or raises. */
  datatype Result<T> = Ok(value: T) | Err(error: Error) {
    predicate IsFailure() { Err? }
    function PropagateFailure<U>(): Result<U> requires Err? { Err(error) }
    function Extract(): T requires Ok? { value }
  }

  datatype Option<T> = None | Some(value: T)

  /** Python's `c[i]` for a non-negative index. */
  function Index(c: Coord, i: nat): (r: Result<Coord>)
    ensures r.Ok? <==> c.List? && i < |c.items|
    ensures r.Ok? ==> r.value == c.items[i]
    ensures c.Num? ==> r == Err(TypeError)
    ensures c.List? && i >= |c.items| ==> r == Err(IndexError)
  {
    match c
    case Num(_) => Err(TypeError)
    case List(items) => if i < |items| then Ok(items[i]) else Err(IndexError)
  }

  /** Python's `len(c)`. */
  function Length(c: Coord): (r: Result<nat>)
    ensures r.Ok? <==> c.List?
    ensures r.Ok? ==> r.value == |c.items|
  {
    match c
    case Num(_) => Err(TypeError)
    case List(items) => Ok(|items|)
  }

  /** Python's `max` over the depths of a list's children: the children are
      consumed in order, and the first one whose depth raises makes `max` raise. */
  function MaxDepth(ds: seq<Result<nat>>): (r: Result<nat>)
    requires |ds| > 0
    ensures r.Err? <==> exists i :: 0 <= i < |ds| && ds[i].Err?
    ensures r.Ok? ==> forall i :: 0 <= i < |ds| ==> ds[i].value <= r.value
    ensures r.Ok? ==> exists i :: 0 <= i < |ds| && ds[i].value == r.value
  {
    if |ds| == 1 then ds[0]
    else
      var h :- ds[0];
      var t :- MaxDepth(ds[1..]);
      assert forall i :: 1 <= i < |ds| ==> ds[i] == ds[1..][i - 1];
      Ok(if h >= t then h else t)
  }

  /** The `depth` lambda of fetch.py: `False` (that is, 0) for a number, and one
      more than the largest child depth for a list. `max` of an empty list raises,
      so a list that is empty anywhere in the structure has no depth. */
  function Depth(c: Coord): (r: Result<nat>)
    ensures c.Num? ==> r == Ok(0)
    ensures c.List? && r.Ok? ==> |c.items| > 0 && r.value >= 1
  {
    match c
    case Num(_) => Ok(0)
    case List(items) =>
      if items == [] then Err(ValueError)
      else
        var m :- MaxDepth(seq(|items|, i requires 0 <= i < |items| => Depth(items[i])));
        Ok(m + 1)
  }

  /** Independent description of when `depth` raises: some list in the
      structure is empty. */
  predicate HasEmptyList(c: Coord) {
    match c
    case Num(_) => false
    case List(items) => items == [] || exists i :: 0 <= i < |items| && HasEmptyList(items[i])
  }

  /** `depth` raises exactly when the structure contains an empty list, and
      then it raises ValueError (from `max`). */
  lemma {:induction false} DepthFailsIffEmptyList(c: Coord)
    ensures Depth(c).Err? <==> HasEmptyList(c)
    ensures Depth(c).Err? ==> Depth(c).error == ValueError
    decreases c
  {
    match c
    case Num(_) =>
    case List(items) =>
      if items != [] {
        var ds := seq(|items|, i requires 0 <= i < |items| => Depth(items[i]));
        forall i | 0 <= i < |items|
          ensures ds[i].Err? <==> HasEmptyList(items[i])
          ensures ds[i].Err? ==> ds[i].error == ValueError
        {
          DepthFailsIffEmptyList(items[i]);
        }
        MaxDepthError(ds);
      }
  }

  /** When `max` over child depths raises, it raises the error of some child. */
  lemma {:induction false} MaxDepthError(ds: seq<Result<nat>>)
    requires |ds| > 0
    requires forall i :: 0 <= i < |ds| && ds[i].Err? ==> ds[i].error == ValueError
    ensures MaxDepth(ds).Err? ==> MaxDepth(ds).error == ValueError
  {
    if |ds| > 1 && ds[0].Ok? {
      assert forall i :: 1 <= i < |ds| ==> ds[i] == ds[1..][i - 1];
      MaxDepthError(ds[1..]);
    }
  }

  /** A structure of depth at most 1 that is a list is a flat list of numbers:
      the single `[lon, lat]` pair case of fetch.py. */
  lemma DepthAtMostOne(c: Coord, d: nat)
    requires Depth(c) == Ok(d) && d <= 1 && c.List?
    ensures forall i :: 0 <= i < |c.items| ==> c.items[i].Num?
  {
    var ds := seq(|c.items|, i requires 0 <= i < |c.items| => Depth(c.items[i]));
    assert MaxDepth(ds) == Ok(d - 1);
    forall i | 0 <= i < |c.items| ensures c.items[i].Num? {
      assert ds[i] == Ok(0);
    }
  }

  /** Depth classifies the three expected shapes: 0 is a number, 1 a non-empty
      flat list of numbers (one position). */
  lemma DepthOneIffFlat(c: Coord)
    ensures Depth(c) == Ok(1) <==>
      c.List? && |c.items| > 0 && forall i :: 0 <= i < |c.items| ==> c.items[i].Num?
  {
    if c.List? && |c.items| > 0 && forall i :: 0 <= i < |c.items| ==> c.items[i].Num? {
      FlatDepthOne(c.items);
    }
    if Depth(c) == Ok(1) {
      DepthAtMostOne(c, 1);
    }
  }

  /** A non-empty flat list of numbers has depth 1. */
  lemma FlatDepthOne(items: seq<Coord>)
    requires |items| > 0 && forall i :: 0 <= i < |items| ==> items[i].Num?
    ensures Depth(List(items)) == Ok(1)
  {
    var ds := seq(|items|, i requires 0 <= i < |items| => Depth(items[i]));
    assert forall i :: 0 <= i < |ds| ==> ds[i] == Ok(0);
    assert MaxDepth(ds) == Ok(0);
  }

  /** A GeoJSON position: a list of at least two numbers, `[lon, lat, ...]`. */
  predicate IsPosition(p: Coord) {
    p.List? && |p.items| >= 2 && forall j :: 0 <= j < |p.items| ==> p.items[j].Num?
  }

  /** A non-empty list of positions (a ring, or the combined points of a
      relation) has depth 2, the case fetch.py averages. */
  lemma PositionsDepthTwo(points: seq<Coord>)
    requires |points| > 0
    requires forall i :: 0 <= i < |points| ==> IsPosition(points[i])
    ensures Depth(List(points)) == Ok(2)
  {
    var ds := seq(|points|, i requires 0 <= i < |points| => Depth(points[i]));
    forall i | 0 <= i < |points| ensures ds[i] == Ok(1) {
      assert points[i] == List(points[i].items);
      FlatDepthOne(points[i].items);
    }
    MaxDepthConstant(ds, 1);
  }

  /** `max` over equal depths is that depth. */
  lemma {:induction false} MaxDepthConstant(ds: seq<Result<nat>>, d: nat)
    requires |ds| > 0
    requires forall i :: 0 <= i < |ds| ==> ds[i] == Ok(d)
    ensures MaxDepth(ds) == Ok(d)
  {
    assert ds[0] == Ok(d);
  }
}
