/**
 * The shape registry (src/model/ShapesModel.ts): random metadata from
 * injected draws and the module-level id counter, and the live list of
 * shape records with append, remove-by-handle, count and total area.
 */
module Model {
  import opened Wrappers
  import opened ShapesFactory

  /** The module-level `idCounter`, a single cell shared by every caller. */
  class IdCounter {
    var value: int

    constructor ()
      ensures value == 0
    {
      value := 0;
    }
  }

  /** The `Math.random()` values generateRandomShape consumes, in call order. */
  datatype Draws = Draws(kind: RandomDraw, color: RandomDraw, size: RandomDraw, x: RandomDraw)

  /** The colour range `0xffffff` and the fixed spawn width `800`. */
  const COLOR_RANGE: int := 0xffffff
  const SPAWN_WIDTH: real := 800.0

  /**
   * The record generateRandomShape builds for a given id.  A supplied x or y
   * is used as it is (`??` keeps 0); the x draw is consumed only when x is
   * missing.
   */
  function RandomShape(id: int, draws: Draws, x: Option<real>, y: Option<real>): (t: TypeShape)
    ensures t.id == id
    ensures 0 <= t.kind < 7 && KindOf(t.kind).Some?
    ensures 0 <= t.color < COLOR_RANGE
    ensures 30.0 <= t.size < 90.0
    ensures x.Some? ==> t.position.x == x.value
    ensures x.None? ==> 0.0 <= t.position.x < SPAWN_WIDTH
    ensures y.Some? ==> t.position.y == y.value
    ensures y.None? ==> t.position.y == -t.size && -90.0 < t.position.y <= -30.0
  {
    var kind := (draws.kind * 7.0).Floor;
    var color := (draws.color * COLOR_RANGE as real).Floor;
    var size := 30.0 + draws.size * 60.0;
    var px := if x.Some? then x.value else draws.x * SPAWN_WIDTH;
    var py := if y.Some? then y.value else -size;
    TypeShape(id, kind, color, Point(px, py), size)
  }

  /** The handles of a list of records. */
  ghost function Handles(s: seq<ShapeData>): set<Graphic>
  {
    set d | d in s :: d.shape
  }

  /** No handle occurs twice in the list. */
  predicate DistinctHandles(s: seq<ShapeData>)
  {
    forall a, b :: 0 <= a < b < |s| ==> s[a].shape != s[b].shape
  }

  /** Ids grow strictly along the list (so no id occurs twice). */
  predicate IdsIncreasing(s: seq<ShapeData>)
  {
    forall a, b :: 0 <= a < b < |s| ==> s[a].meta.id < s[b].meta.id
  }

  /** `reduce((sum, s) => sum + s.area, 0)`: areas added from the front. */
  function AreaSum(s: seq<ShapeData>): real
  {
    if s == [] then 0.0 else AreaSum(s[..|s| - 1]) + s[|s| - 1].area
  }

  /** `findIndex(s => s.shape === g)`: the first position holding the handle, or -1. */
  function IndexOfHandle(s: seq<ShapeData>, g: Graphic): (r: int)
    ensures -1 <= r < |s|
    ensures r == -1 <==> forall k :: 0 <= k < |s| ==> s[k].shape != g
    ensures r >= 0 ==> s[r].shape == g && forall k :: 0 <= k < r ==> s[k].shape != g
  {
    if s == [] then -1
    else if s[0].shape == g then 0
    else
      var r := IndexOfHandle(s[1..], g);
      if r == -1 then -1 else r + 1
  }

  /** The list without position i: what `splice(i, 1)` leaves. */
  function Without(s: seq<ShapeData>, i: nat): (r: seq<ShapeData>)
    requires i < |s|
    ensures |r| == |s| - 1
    ensures forall k :: 0 <= k < i ==> r[k] == s[k]
    ensures forall k :: i <= k < |r| ==> r[k] == s[k + 1]
  {
    s[..i] + s[i + 1..]
  }

  lemma {:induction false} AreaSumConcat(a: seq<ShapeData>, b: seq<ShapeData>)
    ensures AreaSum(a + b) == AreaSum(a) + AreaSum(b)
  {
    if b != [] {
      var b' := b[..|b| - 1];
      assert (a + b)[..|a + b| - 1] == a + b';
      AreaSumConcat(a, b');
    } else {
      assert a + b == a;
    }
  }

  /** Appending a record adds its area. */
  lemma AreaSumSnoc(a: seq<ShapeData>, d: ShapeData)
    ensures AreaSum(a + [d]) == AreaSum(a) + d.area
  {
    assert (a + [d])[..|a|] == a;
  }

  /** A list is its part before i, the record at i, and its part after i. */
  lemma SplitAt(s: seq<ShapeData>, i: nat)
    requires i < |s|
    ensures s == (s[..i] + [s[i]]) + s[i + 1..]
  {
    assert s[i..] == [s[i]] + s[i + 1..];
    assert s == s[..i] + s[i..];
  }

  lemma AreaSumWithout(s: seq<ShapeData>, i: nat)
    requires i < |s|
    ensures AreaSum(Without(s, i)) == AreaSum(s) - s[i].area
  {
    var a, b := s[..i], s[i + 1..];
    SplitAt(s, i);
    AreaSumConcat(a + [s[i]], b);
    AreaSumSnoc(a, s[i]);
    AreaSumConcat(a, b);
  }

  lemma {:induction false} AreaSumNonNegative(s: seq<ShapeData>)
    requires forall k :: 0 <= k < |s| ==> s[k].area >= 0.0
    ensures AreaSum(s) >= 0.0
  {
    if s != [] {
      AreaSumNonNegative(s[..|s| - 1]);
    }
  }

  /** A handle appended after a list that lacks it is found at the end. */
  lemma {:induction false} IndexAfterAppend(s: seq<ShapeData>, d: ShapeData)
    requires forall k :: 0 <= k < |s| ==> s[k].shape != d.shape
    ensures IndexOfHandle(s + [d], d.shape) == |s|
  {
    if s != [] {
      assert (s + [d])[1..] == s[1..] + [d];
      IndexAfterAppend(s[1..], d);
    }
  }

  lemma WithoutKeepsInvariants(s: seq<ShapeData>, i: nat)
    requires i < |s|
    ensures DistinctHandles(s) ==> DistinctHandles(Without(s, i))
    ensures IdsIncreasing(s) ==> IdsIncreasing(Without(s, i))
    ensures DistinctHandles(s) ==> forall k :: 0 <= k < |Without(s, i)| ==> Without(s, i)[k].shape != s[i].shape
  {
  }

  class ShapesModel {
    /** The live records, in insertion order. */
    var shapes: seq<ShapeData>

    constructor ()
      ensures shapes == []
    {
      shapes := [];
    }

    /**
     * `generateRandomShape(x?, y?)`: the record for the counter's current
     * value, after which the counter has moved on by one.
     */
    method GenerateRandomShape(ids: IdCounter, draws: Draws, x: Option<real>, y: Option<real>) returns (t: TypeShape)
      modifies ids
      ensures t == RandomShape(old(ids.value), draws, x, y)
      ensures ids.value == old(ids.value) + 1
    {
      var kind := (draws.kind * 7.0).Floor;
      var color := (draws.color * COLOR_RANGE as real).Floor;
      var size := 30.0 + draws.size * 60.0;
      var id := ids.value;
      ids.value := ids.value + 1;
      var px := if x.Some? then x.value else draws.x * SPAWN_WIDTH;
      var py := if y.Some? then y.value else -size;
      t := TypeShape(id, kind, color, Point(px, py), size);
    }

    /** `add`: append at the end. */
    method Add(d: ShapeData)
      modifies this
      ensures shapes == old(shapes) + [d]
      ensures GetCount() == old(GetCount()) + 1
      ensures GetTotalArea() == old(GetTotalArea()) + d.area
      ensures DistinctHandles(old(shapes)) && d.shape !in Handles(old(shapes)) ==> DistinctHandles(shapes)
    {
      shapes := shapes + [d];
      assert shapes[..|shapes| - 1] == old(shapes);
    }

    /**
     * `remove`: find the first record holding the handle and splice it out;
     * a handle that is not there changes nothing.
     */
    method Remove(g: Graphic)
      modifies this
      ensures IndexOfHandle(old(shapes), g) == -1 ==> shapes == old(shapes)
      ensures var i := IndexOfHandle(old(shapes), g);
        i >= 0 ==>
          && shapes == Without(old(shapes), i)
          && GetCount() == old(GetCount()) - 1
          && GetTotalArea() == old(GetTotalArea()) - old(shapes)[i].area
      ensures DistinctHandles(old(shapes)) ==> DistinctHandles(shapes) && g !in Handles(shapes)
      ensures IdsIncreasing(old(shapes)) ==> IdsIncreasing(shapes)
    {
      var index := IndexOfHandle(shapes, g);
      if index != -1 {
        AreaSumWithout(shapes, index);
        WithoutKeepsInvariants(shapes, index);
        shapes := shapes[..index] + shapes[index + 1..];
      }
    }

    /** `getAll`: the live list (as a value; see README). */
    function GetAll(): (r: seq<ShapeData>)
      reads this
      ensures |r| == GetCount()
      ensures forall k :: 0 <= k < |r| ==> r[k] == shapes[k]
    {
      shapes
    }

    /** `getCount`: the number of live records. */
    function GetCount(): (n: nat)
      reads this
      ensures n == 0 <==> shapes == []
    {
      |shapes|
    }

    /** `getTotalArea`: the sum of the live records' areas. */
    function GetTotalArea(): (r: real)
      reads this
      ensures shapes == [] ==> r == 0.0
      ensures (forall k :: 0 <= k < |shapes| ==> shapes[k].area >= 0.0) ==> r >= 0.0
    {
      AreaSumNonNegativeIf(shapes);
      AreaSum(shapes)
    }
  }

  lemma AreaSumNonNegativeIf(s: seq<ShapeData>)
    ensures (forall k :: 0 <= k < |s| ==> s[k].area >= 0.0) ==> AreaSum(s) >= 0.0
  {
    if forall k :: 0 <= k < |s| ==> s[k].area >= 0.0 {
      AreaSumNonNegative(s);
    }
  }

  /**
   * Adding a record with a handle not yet present and then removing that
   * handle restores the list, its count and its total area.  The handle is
   * then absent, so by Remove's first clause a second removal of it changes
   * nothing.
   */
  method AddThenRemove(model: ShapesModel, d: ShapeData)
    requires d.shape !in Handles(model.shapes)
    modifies model
    ensures model.shapes == old(model.shapes)
    ensures model.GetCount() == old(model.GetCount())
    ensures model.GetTotalArea() == old(model.GetTotalArea())
    ensures d.shape !in Handles(model.shapes) && IndexOfHandle(model.shapes, d.shape) == -1
  {
    var before := model.shapes;
    model.Add(d);
    IndexAfterAppend(before, d);
    model.Remove(d.shape);
    assert model.shapes == before;
    assert forall k :: 0 <= k < |before| ==> before[k] in before;
  }
}
