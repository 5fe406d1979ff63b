/**
  The narrow phase of the SAT strategy (src/sat/strategy.ts): world-space
  polygons, edges, the per-axis overlap test, the Separating Axis Theorem test
  with its minimum push vector, and the centre displacement that orients it.

  Each function or method of the source is given together with the
  specification it is proved against: the loops of `toEdges`,
  `isSeparatingAxis` and `SAT` are methods whose results equal the ghost
  functions `Edges`, `AxisPush` and `SatSpec`, and the lemmas below state what
  those functions mean.
*/
module Sat {
  import opened Wrappers
  import opened Vectors

  /** An ordered list of vertices; convexity and winding are not checked. */
  type Polygon = seq<Vector2>

  /** The stabilising term added to every per-axis push scale (1e-10). */
  const EPSILON: real := 0.0000000001

  // ---------------------------------------------------------------------------
  // Polygons and edges
  // ---------------------------------------------------------------------------

  /** The index after i in a cycle of n, `(i + 1) % n`: the last index wraps to 0. */
  function Next(i: nat, n: nat): (j: nat)
    requires i < n
    ensures j == if i + 1 < n then i + 1 else 0
  {
    (i + 1) % n
  }

  /** Edge i runs from vertex i to vertex i + 1, the last one back to vertex 0. */
  ghost function Edges(polygon: Polygon): (edges: seq<Vector2>)
    ensures |edges| == |polygon|
  {
    seq(|polygon|, i requires 0 <= i < |polygon| => Sub(polygon[Next(i, |polygon|)], polygon[i]))
  }

  /**
    What the SAT test needs of a polygon: at least one vertex (the projection
    bounds exist) and no edge of zero length (no axis divides by zero).
  */
  ghost predicate WellFormed(polygon: Polygon) {
    |polygon| > 0 && forall i :: 0 <= i < |polygon| ==> SqLength(Edges(polygon)[i]) > 0.0
  }

  /** `toWorldPolygon`: every vertex moved by the offset. */
  function ToWorldPolygon(polygon: Polygon, offset: Vector2): (world: Polygon)
    ensures |world| == |polygon|
    ensures Edges(world) == Edges(polygon)
    ensures WellFormed(world) <==> WellFormed(polygon)
  {
    var world := seq(|polygon|, i requires 0 <= i < |polygon| => Add(polygon[i], offset));
    assert forall i :: 0 <= i < |polygon| ==> Edges(world)[i] == Edges(polygon)[i];
    world
  }

  lemma WorldPolygonWellFormed(polygon: Polygon, offset: Vector2)
    requires WellFormed(polygon)
    ensures WellFormed(ToWorldPolygon(polygon, offset))
  {
  }

  /** Moving a polygon by an offset and back again gives the polygon back. */
  lemma ToWorldPolygonRoundTrip(polygon: Polygon, offset: Vector2)
    ensures ToWorldPolygon(ToWorldPolygon(polygon, offset), Neg(offset)) == polygon
  {
  }

  /** `toEdges`: fills an array with one edge per vertex. */
  method ToEdges(polygon: Polygon) returns (edges: seq<Vector2>)
    ensures edges == Edges(polygon)
    ensures |edges| == |polygon|
    ensures forall i :: 0 <= i < |polygon| - 1 ==> edges[i] == Sub(polygon[i + 1], polygon[i])
    ensures |polygon| > 0 ==> edges[|polygon| - 1] == Sub(polygon[0], polygon[|polygon| - 1])
  {
    var length := |polygon|;
    var a := new Vector2[length];
    for i := 0 to length
      invariant forall j :: 0 <= j < i ==> a[j] == Sub(polygon[Next(j, length)], polygon[j])
    {
      a[i] := Sub(polygon[Next(i, length)], polygon[i]);
    }
    edges := a[..];
  }

  /**
    Walking the first k edges from vertex 0 reaches vertex k (vertex 0 again
    after all of them): the edges describe the polygon, and they close up.
  */
  lemma {:induction false} EdgesWalk(polygon: Polygon, k: nat)
    requires 0 < |polygon| && k <= |polygon|
    ensures Add(polygon[0], Sum(Edges(polygon)[..k])) == polygon[if k < |polygon| then k else 0]
  {
    var edges := Edges(polygon);
    if k > 0 {
      EdgesWalk(polygon, k - 1);
      assert edges[..k][..k - 1] == edges[..k - 1];
    }
  }

  lemma EdgesClose(polygon: Polygon)
    requires 0 < |polygon|
    ensures Sum(Edges(polygon)) == Zero
  {
    EdgesWalk(polygon, |polygon|);
    assert Edges(polygon)[..|polygon|] == Edges(polygon);
  }

  // ---------------------------------------------------------------------------
  // Projections and the per-axis test
  // ---------------------------------------------------------------------------

  /** The running minimum of the vertex projections, as the loop accumulates it. */
  ghost function MinProjection(polygon: Polygon, axis: Vector2): real
    requires |polygon| > 0
    decreases |polygon|
  {
    var last := Dot(polygon[|polygon| - 1], axis);
    if |polygon| == 1 then last else Min(MinProjection(polygon[..|polygon| - 1], axis), last)
  }

  /** The running maximum of the vertex projections, as the loop accumulates it. */
  ghost function MaxProjection(polygon: Polygon, axis: Vector2): real
    requires |polygon| > 0
    decreases |polygon|
  {
    var last := Dot(polygon[|polygon| - 1], axis);
    if |polygon| == 1 then last else Max(MaxProjection(polygon[..|polygon| - 1], axis), last)
  }

  /** The accumulators end as the true least and greatest projections. */
  lemma {:induction false} ProjectionBounds(polygon: Polygon, axis: Vector2)
    requires |polygon| > 0
    ensures forall i :: 0 <= i < |polygon| ==>
      MinProjection(polygon, axis) <= Dot(polygon[i], axis) <= MaxProjection(polygon, axis)
    ensures exists i :: 0 <= i < |polygon| && MinProjection(polygon, axis) == Dot(polygon[i], axis)
    ensures exists i :: 0 <= i < |polygon| && MaxProjection(polygon, axis) == Dot(polygon[i], axis)
    decreases |polygon|
  {
    var n := |polygon|;
    if n > 1 {
      var init := polygon[..n - 1];
      ProjectionBounds(init, axis);
      var last := Dot(polygon[n - 1], axis);
      var low, high := MinProjection(polygon, axis), MaxProjection(polygon, axis);
      assert low == Min(MinProjection(init, axis), last) && high == Max(MaxProjection(init, axis), last);
      forall i | 0 <= i < n - 1
        ensures MinProjection(init, axis) <= Dot(polygon[i], axis) <= MaxProjection(init, axis)
      {
        assert init[i] == polygon[i];
      }
      var a :| 0 <= a < n - 1 && MinProjection(init, axis) == Dot(init[a], axis);
      var b :| 0 <= b < n - 1 && MaxProjection(init, axis) == Dot(init[b], axis);
      assert init[a] == polygon[a] && init[b] == polygon[b];
      var lowest := if low == last then n - 1 else a;
      var highest := if high == last then n - 1 else b;
      assert low == Dot(polygon[lowest], axis) && high == Dot(polygon[highest], axis);
    }
  }

  /** The projected intervals [min1, max1] of left and [min2, max2] of right meet. */
  ghost predicate Overlap(axis: Vector2, left: Polygon, right: Polygon)
    requires |left| > 0 && |right| > 0
  {
    MaxProjection(left, axis) >= MinProjection(right, axis) &&
    MaxProjection(right, axis) >= MinProjection(left, axis)
  }

  /** The penetration depth on an axis: how far the shallower side of the overlap reaches. */
  ghost function Depth(axis: Vector2, left: Polygon, right: Polygon): real
    requires |left| > 0 && |right| > 0
  {
    Min(MaxProjection(right, axis) - MinProjection(left, axis),
        MaxProjection(left, axis) - MinProjection(right, axis))
  }

  /** Penetration depth divided by the squared axis length, plus EPSILON. */
  ghost function PushScale(axis: Vector2, left: Polygon, right: Polygon): real
    requires |left| > 0 && |right| > 0 && SqLength(axis) > 0.0
  {
    Depth(axis, left, right) / SqLength(axis) + EPSILON
  }

  /** The result of `isSeparatingAxis`: a push vector along the axis, or none. */
  ghost function AxisPush(axis: Vector2, left: Polygon, right: Polygon): Option<Vector2>
    requires |left| > 0 && |right| > 0 && SqLength(axis) > 0.0
  {
    if Overlap(axis, left, right) then Some(Scale(PushScale(axis, left, right), axis)) else None
  }

  /** On overlap the push scale is strictly positive, so the push vector is never zero. */
  lemma AxisPushPositive(axis: Vector2, left: Polygon, right: Polygon)
    requires |left| > 0 && |right| > 0 && SqLength(axis) > 0.0
    requires Overlap(axis, left, right)
    ensures PushScale(axis, left, right) > 0.0
    ensures SqLength(AxisPush(axis, left, right).value) > 0.0
  {
    DivideNonNegative(Depth(axis, left, right), SqLength(axis));
    ScalePositive(PushScale(axis, left, right), axis);
  }

  /** `isSeparatingAxis`: min/max of both projections, then the push vector. */
  method IsSeparatingAxis(orthogonal: Vector2, left: Polygon, right: Polygon) returns (pv: Option<Vector2>)
    requires |left| > 0 && |right| > 0 && SqLength(orthogonal) > 0.0
    ensures pv == AxisPush(orthogonal, left, right)
  {
    var min1 := Dot(left[0], orthogonal);
    var max1 := min1;
    for i := 1 to |left|
      invariant min1 == MinProjection(left[..i], orthogonal)
      invariant max1 == MaxProjection(left[..i], orthogonal)
    {
      assert left[..i + 1][..i] == left[..i];
      var product := Dot(left[i], orthogonal);
      min1 := Min(min1, product);
      max1 := Max(max1, product);
    }
    var min2 := Dot(right[0], orthogonal);
    var max2 := min2;
    for i := 1 to |right|
      invariant min2 == MinProjection(right[..i], orthogonal)
      invariant max2 == MaxProjection(right[..i], orthogonal)
    {
      assert right[..i + 1][..i] == right[..i];
      var product := Dot(right[i], orthogonal);
      min2 := Min(min2, product);
      max2 := Max(max2, product);
    }
    assert left[..|left|] == left && right[..|right|] == right;
    if max1 >= min2 && max2 >= min1 {
      var distance := Min(max2 - min1, max1 - min2);
      var doVSqr := distance / Dot(orthogonal, orthogonal) + EPSILON;
      pv := Some(Scale(doVSqr, orthogonal));
    } else {
      pv := None;
    }
  }

  /** Every vertex of `low` projects strictly below every vertex of `high`. */
  ghost predicate StrictlyBelow(low: Polygon, high: Polygon, axis: Vector2) {
    forall i, j :: 0 <= i < |low| && 0 <= j < |high| ==> Dot(low[i], axis) < Dot(high[j], axis)
  }

  /** The axis test finds no overlap exactly when the axis separates the vertices. */
  lemma AxisPushNoneIffSeparated(axis: Vector2, left: Polygon, right: Polygon)
    requires |left| > 0 && |right| > 0 && SqLength(axis) > 0.0
    ensures AxisPush(axis, left, right).None? <==>
            StrictlyBelow(left, right, axis) || StrictlyBelow(right, left, axis)
  {
    ProjectionBounds(left, axis);
    ProjectionBounds(right, axis);
    var min1, max1 := MinProjection(left, axis), MaxProjection(left, axis);
    var min2, max2 := MinProjection(right, axis), MaxProjection(right, axis);
    var a :| 0 <= a < |left| && max1 == Dot(left[a], axis);
    var b :| 0 <= b < |right| && min2 == Dot(right[b], axis);
    var c :| 0 <= c < |right| && max2 == Dot(right[c], axis);
    var d :| 0 <= d < |left| && min1 == Dot(left[d], axis);
    if StrictlyBelow(left, right, axis) {
      assert Dot(left[a], axis) < Dot(right[b], axis);
    }
    if StrictlyBelow(right, left, axis) {
      assert Dot(right[c], axis) < Dot(left[d], axis);
    }
  }

  /** The push vector's projection onto its own axis: depth plus EPSILON times |axis|². */
  lemma PushAlongAxis(axis: Vector2, left: Polygon, right: Polygon)
    requires |left| > 0 && |right| > 0 && SqLength(axis) > 0.0
    requires Overlap(axis, left, right)
    ensures Dot(AxisPush(axis, left, right).value, axis) ==
            Depth(axis, left, right) + EPSILON * SqLength(axis)
  {
    ProjectScaled(Depth(axis, left, right), EPSILON, axis);
  }

  /**
    Moving `left` by the axis push vector, against the side where the overlap
    is shallower, separates the two polygons on that axis.
  */
  lemma AxisPushSeparates(axis: Vector2, left: Polygon, right: Polygon)
    requires |left| > 0 && |right| > 0 && SqLength(axis) > 0.0
    requires Overlap(axis, left, right)
    ensures var pv := AxisPush(axis, left, right).value;
      if MaxProjection(left, axis) - MinProjection(right, axis) <=
         MaxProjection(right, axis) - MinProjection(left, axis)
      then StrictlyBelow(ToWorldPolygon(left, Neg(pv)), right, axis)
      else StrictlyBelow(right, ToWorldPolygon(left, pv), axis)
  {
    var pv := AxisPush(axis, left, right).value;
    MulPositive(EPSILON, SqLength(axis));
    PushAlongAxis(axis, left, right);
    ProjectionBounds(left, axis);
    ProjectionBounds(right, axis);
    var push := Dot(pv, axis);
    var min1, max1 := MinProjection(left, axis), MaxProjection(left, axis);
    var min2, max2 := MinProjection(right, axis), MaxProjection(right, axis);
    if max1 - min2 <= max2 - min1 {
      assert push > max1 - min2;
      var moved := ToWorldPolygon(left, Neg(pv));
      forall i, j | 0 <= i < |moved| && 0 <= j < |right|
        ensures Dot(moved[i], axis) < Dot(right[j], axis)
      {
        DotLinear(left[i], pv, axis);
      }
    } else {
      assert push > max2 - min1;
      var moved := ToWorldPolygon(left, pv);
      forall i, j | 0 <= i < |right| && 0 <= j < |moved|
        ensures Dot(right[i], axis) < Dot(moved[j], axis)
      {
        DotLinear(left[j], pv, axis);
      }
    }
  }

  // ---------------------------------------------------------------------------
  // Centre displacement
  // ---------------------------------------------------------------------------

  /**
    `centerDisplacement`, as written: both coordinate sums, those of `right`
    included, are divided by the vertex count of `left`.
  */
  function CenterDisplacement(left: Polygon, right: Polygon): (displacement: Vector2)
    requires |left| > 0
    ensures |right| == 0 ==> displacement == Centroid(left)
    ensures |right| > 0 ==>
      displacement == Sub(Centroid(left), Scale(|right| as real / |left| as real, Centroid(right)))
  {
    var n := |left| as real;
    var c1 := Vector2(Sum(left).x / n, Sum(left).y / n);
    var c2 := Vector2(Sum(right).x / n, Sum(right).y / n);
    if |right| > 0 then
      RescaleMean(Sum(right).x, |right| as real, n);
      RescaleMean(Sum(right).y, |right| as real, n);
      Sub(c1, c2)
    else
      Sub(c1, c2)
  }

  /** The arithmetic mean of the vertices. */
  ghost function Centroid(polygon: Polygon): Vector2
    requires |polygon| > 0
  {
    var n := |polygon| as real;
    Vector2(Sum(polygon).x / n, Sum(polygon).y / n)
  }

  /** With equal vertex counts the displacement is the difference of the centroids. */
  lemma CenterDisplacementOfEqualCounts(left: Polygon, right: Polygon)
    requires |left| == |right| > 0
    ensures CenterDisplacement(left, right) == Sub(Centroid(left), Centroid(right))
  {
  }

  /**
    With different vertex counts it is not: a two-vertex `left` centred at
    (1, 0) and a three-vertex `right` centred at (1, 1) are displaced by
    (0, -1), but the source computes (-1/2, -3/2).
  */
  lemma CenterDisplacementOfUnequalCounts()
    ensures Sub(Centroid([Vector2(0.0, 0.0), Vector2(2.0, 0.0)]),
                Centroid([Vector2(0.0, 0.0), Vector2(2.0, 0.0), Vector2(1.0, 3.0)])) == Vector2(0.0, -1.0)
    ensures CenterDisplacement([Vector2(0.0, 0.0), Vector2(2.0, 0.0)],
                               [Vector2(0.0, 0.0), Vector2(2.0, 0.0), Vector2(1.0, 3.0)]) == Vector2(-0.5, -1.5)
  {
    assert Sum([Vector2(0.0, 0.0), Vector2(2.0, 0.0)]) == Vector2(2.0, 0.0);
    assert [Vector2(0.0, 0.0), Vector2(2.0, 0.0), Vector2(1.0, 3.0)][..2] == [Vector2(0.0, 0.0), Vector2(2.0, 0.0)];
    assert Sum([Vector2(0.0, 0.0), Vector2(2.0, 0.0), Vector2(1.0, 3.0)]) == Vector2(3.0, 3.0);
  }

  // ---------------------------------------------------------------------------
  // The SAT test
  // ---------------------------------------------------------------------------

  /** The candidate axes: the normal of every edge of left, then of right; none is zero. */
  ghost function Axes(left: Polygon, right: Polygon): (axes: seq<Vector2>)
    ensures |axes| == |left| + |right|
    ensures WellFormed(left) && WellFormed(right) ==>
      forall i :: 0 <= i < |axes| ==> SqLength(axes[i]) > 0.0
  {
    var edges := Edges(left) + Edges(right);
    assert forall i :: 0 <= i < |left| ==> edges[i] == Edges(left)[i];
    assert forall i :: |left| <= i < |edges| ==> edges[i] == Edges(right)[i - |left|];
    seq(|edges|, i requires 0 <= i < |edges| => Orthogonal(edges[i]))
  }

  ghost predicate AllAxesOverlap(left: Polygon, right: Polygon)
    requires WellFormed(left) && WellFormed(right)
  {
    forall i :: 0 <= i < |Axes(left, right)| ==> AxisPush(Axes(left, right)[i], left, right).Some?
  }

  /** The per-axis push vectors, in axis order. */
  ghost function PushVectors(left: Polygon, right: Polygon): (pushes: seq<Vector2>)
    requires WellFormed(left) && WellFormed(right) && AllAxesOverlap(left, right)
    ensures |pushes| == |left| + |right|
  {
    var axes := Axes(left, right);
    seq(|axes|, i requires 0 <= i < |axes| => AxisPush(axes[i], left, right).value)
  }

  /** No per-axis push vector is zero. */
  lemma PushVectorsPositive(left: Polygon, right: Polygon)
    requires WellFormed(left) && WellFormed(right) && AllAxesOverlap(left, right)
    ensures forall i :: 0 <= i < |left| + |right| ==> SqLength(PushVectors(left, right)[i]) > 0.0
  {
    forall i | 0 <= i < |left| + |right|
      ensures SqLength(PushVectors(left, right)[i]) > 0.0
    {
      AxisPushPositive(Axes(left, right)[i], left, right);
    }
  }

  /**
    The index the argmin loop of `SAT` ends with: a push vector of least
    squared length, the earliest one on ties because the comparison is strict.
  */
  ghost function MinPushIndex(pushes: seq<Vector2>): (k: nat)
    requires |pushes| > 0
    ensures k < |pushes|
    decreases |pushes|
  {
    if |pushes| == 1 then 0
    else
      var k := MinPushIndex(pushes[..|pushes| - 1]);
      if SqLength(pushes[|pushes| - 1]) < SqLength(pushes[k]) then |pushes| - 1 else k
  }

  /** The chosen push vector is a shortest one, and no earlier one is as short. */
  lemma {:induction false} MinPushIndexMinimal(pushes: seq<Vector2>)
    requires |pushes| > 0
    ensures var k := MinPushIndex(pushes);
      && (forall j :: 0 <= j < |pushes| ==> SqLength(pushes[k]) <= SqLength(pushes[j]))
      && (forall j :: 0 <= j < k ==> SqLength(pushes[k]) < SqLength(pushes[j]))
    decreases |pushes|
  {
    if |pushes| > 1 {
      var init := pushes[..|pushes| - 1];
      MinPushIndexMinimal(init);
      assert forall j :: 0 <= j < |init| ==> init[j] == pushes[j];
    }
  }

  /** Negate the push vector when it points along the displacement. */
  ghost function Orient(push: Vector2, displacement: Vector2): Vector2 {
    if Dot(displacement, push) > 0.0 then Neg(push) else push
  }

  /** A non-zero vector is kept exactly when it does not point along the displacement. */
  lemma OrientFacts(push: Vector2, displacement: Vector2)
    requires SqLength(push) > 0.0
    ensures Orient(push, displacement) == push <==> Dot(displacement, push) <= 0.0
    ensures Orient(push, displacement) == Neg(push) <==> Dot(displacement, push) > 0.0
    ensures SqLength(Orient(push, displacement)) == SqLength(push)
    ensures Dot(displacement, Orient(push, displacement)) <= 0.0
  {
    NegFacts(push, displacement);
    NegFixesOnlyZero(push);
    if Dot(displacement, push) > 0.0 {
      assert Orient(push, displacement) == Neg(push);
    } else {
      assert Orient(push, displacement) == push;
    }
  }

  /** The result of `SAT(left, right)`. */
  ghost function SatSpec(left: Polygon, right: Polygon): Option<Vector2>
    requires WellFormed(left) && WellFormed(right)
  {
    if AllAxesOverlap(left, right) then
      var pushes := PushVectors(left, right);
      Some(Orient(pushes[MinPushIndex(pushes)], CenterDisplacement(left, right)))
    else
      None
  }

  /**
    The argmin loop of `SAT`: the first push vector of least squared length
    (a later one replaces the current choice only when strictly shorter).
  */
  method ShortestPush(pushVectors: seq<Vector2>) returns (minIndex: nat)
    requires |pushVectors| > 0
    ensures minIndex == MinPushIndex(pushVectors)
  {
    var minValue := Dot(pushVectors[0], pushVectors[0]);
    minIndex := 0;
    for k := 1 to |pushVectors|
      invariant minIndex == MinPushIndex(pushVectors[..k])
      invariant minValue == SqLength(pushVectors[minIndex])
    {
      assert pushVectors[..k + 1][..k] == pushVectors[..k];
      var value := Dot(pushVectors[k], pushVectors[k]);
      if value < minValue {
        minIndex := k;
        minValue := value;
      }
    }
    assert pushVectors[..|pushVectors|] == pushVectors;
  }

  /** One axis without overlap decides the test: there is no result. */
  lemma SatSpecOfSeparatingAxis(left: Polygon, right: Polygon, i: nat)
    requires WellFormed(left) && WellFormed(right) && i < |left| + |right|
    requires AxisPush(Axes(left, right)[i], left, right).None?
    ensures SatSpec(left, right) == None
  {
  }

  /** When every axis overlaps, the result is built from the push vectors in axis order. */
  lemma SatSpecOfPushes(left: Polygon, right: Polygon, pushes: seq<Vector2>)
    requires WellFormed(left) && WellFormed(right) && |pushes| == |left| + |right|
    requires forall j :: 0 <= j < |pushes| ==> AxisPush(Axes(left, right)[j], left, right) == Some(pushes[j])
    ensures AllAxesOverlap(left, right) && PushVectors(left, right) == pushes
    ensures SatSpec(left, right) == Some(Orient(pushes[MinPushIndex(pushes)], CenterDisplacement(left, right)))
  {
    assert AllAxesOverlap(left, right);
    assert PushVectors(left, right) == pushes;
  }

  /**
    `SAT`: tests the axes in order and stops at the first that separates; if
    none does, picks the shortest push vector and orients it. `examined` counts
    the axes examined.
  */
  method SAT(left: Polygon, right: Polygon) returns (result: Option<Vector2>, ghost examined: nat)
    requires WellFormed(left) && WellFormed(right)
    ensures result == SatSpec(left, right)
    ensures result.Some? ==> examined == |left| + |right|
    ensures result.None? ==>
      && 0 < examined <= |left| + |right|
      && AxisPush(Axes(left, right)[examined - 1], left, right).None?
      && forall j :: 0 <= j < examined - 1 ==> AxisPush(Axes(left, right)[j], left, right).Some?
  {
    var leftEdges := ToEdges(left);
    var rightEdges := ToEdges(right);
    var edges := leftEdges + rightEdges;
    var orthogonals := seq(|edges|, i requires 0 <= i < |edges| => Orthogonal(edges[i]));
    assert orthogonals == Axes(left, right);
    var pushVectors: seq<Vector2> := [];
    var i := 0;
    while i < |orthogonals|
      invariant 0 <= i <= |orthogonals|
      invariant |pushVectors| == i
      invariant forall j :: 0 <= j < i ==> AxisPush(orthogonals[j], left, right) == Some(pushVectors[j])
    {
      var pv := IsSeparatingAxis(orthogonals[i], left, right);
      if pv.None? {
        SatSpecOfSeparatingAxis(left, right, i);
        return None, i + 1;
      }
      pushVectors := pushVectors + [pv.value];
      i := i + 1;
    }

    var minIndex := ShortestPush(pushVectors);
    SatSpecOfPushes(left, right, pushVectors);
    var minPushVector := pushVectors[minIndex];
    var displacement := CenterDisplacement(left, right);
    if Dot(displacement, minPushVector) > 0.0 {
      return Some(Neg(minPushVector)), |orthogonals|;
    }
    return Some(minPushVector), |orthogonals|;
  }

  // ---------------------------------------------------------------------------
  // What SAT promises
  // ---------------------------------------------------------------------------

  /** No result exactly when some edge normal separates the vertices. */
  lemma SatNoneIffSeparatingAxis(left: Polygon, right: Polygon)
    requires WellFormed(left) && WellFormed(right)
    ensures SatSpec(left, right).None? <==>
      exists i :: 0 <= i < |left| + |right| &&
        (StrictlyBelow(left, right, Axes(left, right)[i]) || StrictlyBelow(right, left, Axes(left, right)[i]))
  {
    var axes := Axes(left, right);
    forall i | 0 <= i < |axes|
      ensures AxisPush(axes[i], left, right).None? <==>
        StrictlyBelow(left, right, axes[i]) || StrictlyBelow(right, left, axes[i])
    {
      AxisPushNoneIffSeparated(axes[i], left, right);
    }
  }

  /** Which polygon is called left does not change whether SAT finds a collision. */
  lemma SatSymmetric(left: Polygon, right: Polygon)
    requires WellFormed(left) && WellFormed(right)
    ensures SatSpec(left, right).None? <==> SatSpec(right, left).None?
  {
    var lr, rl := Axes(left, right), Axes(right, left);
    if AllAxesOverlap(left, right) {
      forall j | 0 <= j < |rl|
        ensures Overlap(rl[j], right, left)
      {
        var i := if j < |right| then j + |left| else j - |right|;
        if j < |right| {
          assert rl[j] == Orthogonal(Edges(right)[j]) == lr[i];
        } else {
          assert rl[j] == Orthogonal(Edges(left)[j - |right|]) == lr[i];
        }
        assert AxisPush(lr[i], left, right).Some?;
      }
      assert AllAxesOverlap(right, left);
    }
    if AllAxesOverlap(right, left) {
      forall i | 0 <= i < |lr|
        ensures Overlap(lr[i], left, right)
      {
        var j := if i < |left| then i + |right| else i - |left|;
        if i < |left| {
          assert lr[i] == Orthogonal(Edges(left)[i]) == rl[j];
        } else {
          assert lr[i] == Orthogonal(Edges(right)[i - |left|]) == rl[j];
        }
        assert AxisPush(rl[j], right, left).Some?;
      }
      assert AllAxesOverlap(left, right);
    }
  }

  /**
    A result is the shortest per-axis push vector (the earliest on ties) or its
    negation: negated exactly when the shortest one points along the centre
    displacement, so that the result never does. It is never the zero vector.
  */
  lemma SatResult(left: Polygon, right: Polygon)
    requires WellFormed(left) && WellFormed(right)
    requires SatSpec(left, right).Some?
    ensures var v := SatSpec(left, right).value;
      var pushes := PushVectors(left, right);
      var displacement := CenterDisplacement(left, right);
      exists k :: 0 <= k < |pushes|
        && (forall j :: 0 <= j < |pushes| ==> SqLength(pushes[k]) <= SqLength(pushes[j]))
        && (forall j :: 0 <= j < k ==> SqLength(pushes[k]) < SqLength(pushes[j]))
        && (v == pushes[k] <==> Dot(displacement, pushes[k]) <= 0.0)
        && (v == Neg(pushes[k]) <==> Dot(displacement, pushes[k]) > 0.0)
  {
    var pushes := PushVectors(left, right);
    var k := MinPushIndex(pushes);
    var v, d := SatSpec(left, right).value, CenterDisplacement(left, right);
    assert v == Orient(pushes[k], d);
    MinPushIndexMinimal(pushes);
    PushVectorsPositive(left, right);
    OrientFacts(pushes[k], d);
  }

  /** The result is no longer than any per-axis push vector, and is never zero. */
  lemma SatMinimal(left: Polygon, right: Polygon)
    requires WellFormed(left) && WellFormed(right)
    requires SatSpec(left, right).Some?
    ensures var v := SatSpec(left, right).value;
      && SqLength(v) > 0.0
      && forall i :: 0 <= i < |left| + |right| ==>
           SqLength(v) <= SqLength(AxisPush(Axes(left, right)[i], left, right).value)
  {
    var pushes := PushVectors(left, right);
    var k := MinPushIndex(pushes);
    MinPushIndexMinimal(pushes);
    PushVectorsPositive(left, right);
    OrientFacts(pushes[k], CenterDisplacement(left, right));
    assert forall i :: 0 <= i < |pushes| ==> pushes[i] == AxisPush(Axes(left, right)[i], left, right).value;
  }

  /** The result points against the centre displacement. */
  lemma SatOpposesDisplacement(left: Polygon, right: Polygon)
    requires WellFormed(left) && WellFormed(right)
    requires SatSpec(left, right).Some?
    ensures Dot(CenterDisplacement(left, right), SatSpec(left, right).value) <= 0.0
  {
    var pushes := PushVectors(left, right);
    var push := pushes[MinPushIndex(pushes)];
    PushVectorsPositive(left, right);
    OrientFacts(push, CenterDisplacement(left, right));
  }
}
