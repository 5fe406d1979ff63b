# SAT collision resolution and the collider registry

This project models the two cooperating parts of a small 2-D physics library:

- the separating-axis narrow phase and its correction loop (`SATStrategy` in
  `src/sat/strategy.ts`);
- the collider registry that owns the colliders and receives the corrections
  (`PhysicsServer` and `CollisionFilter` in `src/server/server.ts`).

Modules:

- `Vectors`: the 2-D vector helpers over `real`.
- `Sat`: the pure narrow phase. It covers `toWorldPolygon`, `toEdges`,
  `isSeparatingAxis`, `centerDisplacement` and `SAT`. Each loop of the source
  is a method proved equal to a ghost function (`Edges`, `AxisPush`,
  `MinPushIndex`, `SatSpec`). Lemmas state what those functions mean:
  - one edge per vertex, wrapping back to vertex 0;
  - no push vector exactly when some edge normal separates the vertices;
  - the shortest push vector wins, the earliest one on ties;
  - the result never points along the centre displacement, and is never zero.
- `ResolutionSpec`: what `collisionStep` and `checkCollision` compute, stated on
  polygons:
  - `Scan` is one step: count the overlaps, keep the first longest push vector.
  - `Resolve` is the correction loop: move the collider against the kept
    vector, then scan again.
  - Lemmas cover the step count, where the loop stops, and where the collider
    rests.
- `Physics`: the imperative part.
  - `Collider` is a class whose `offset` and `enabled` change in place.
  - `PhysicsServer` holds the collider list, the id map and the event table.
  - `SATStrategy` holds a back-reference to the server, set by the server's
    constructor, and calls its `ApplyCollision`.
  - `SATStrategy.CollisionStep` and `SATStrategy.CheckCollision` are proved
    against `Scan` and `Resolve`. `PhysicsServer.UpdateOffset` and
    `PhysicsServer.CheckCollision` carry those results through to the
    registry.

Numbers are `real`, and `1e-10` is the positive constant `EPSILON`.
`orthogonal` turns a vector a quarter turn counter-clockwise, `(-y, x)`. A
polygon is well formed when it has a vertex and no zero-length edge. This
stands in for the source's reliance on floating-point sentinels and
division.

`centerDisplacement` (src/sat/strategy.ts:88-91) divides the coordinate sums
of `right` by the vertex count of `left`. The model keeps that arithmetic, so
`SAT`'s sign choice is the source's:

- `Sat.CenterDisplacementOfEqualCounts` shows that with equal vertex counts
  the result is the difference of the centroids.
- `Sat.CenterDisplacementOfUnequalCounts` gives two polygons of 2 and 3
  vertices where it is not.

The event record follows the code. Each entry holds `offset` and
`isCollided`, and no `deltaOffset` key is written (src/server/server.ts:73-74).

## Model

| member | source | states |
|---|---|---|
| Sat.ToWorldPolygon | src/sat/strategy.ts:48-50 | the moved polygon has as many vertices, the same edges, and is well formed exactly when the original is |
| Sat.ToWorldPolygonRoundTrip | src/sat/strategy.ts:48-50 | moving by an offset and then by its negation gives the polygon back |
| Sat.ToEdges | src/sat/strategy.ts:95-102 | one edge per vertex; edge i is vertex i+1 minus vertex i, and the last edge runs back to vertex 0 |
| Sat.EdgesWalk | src/sat/strategy.ts:95-102 | adding the first k edges to vertex 0 reaches vertex k (vertex 0 after all of them) |
| Sat.EdgesClose | src/sat/strategy.ts:95-102 | the edges of a polygon sum to zero |
| Sat.ProjectionBounds | src/sat/strategy.ts:106-121 | the running min/max accumulators end as the least and greatest vertex projection, each attained by a vertex |
| Sat.IsSeparatingAxis | src/sat/strategy.ts:105-130 | the loops compute the projection bounds; the result is the push vector (depth / axis² + EPSILON)·axis when the intervals overlap, and none otherwise |
| Sat.AxisPushPositive | src/sat/strategy.ts:123-127 | on overlap the scale factor is strictly positive and the push vector is not zero |
| Sat.AxisPushNoneIffSeparated | src/sat/strategy.ts:123-129 | no push vector exactly when every vertex of one polygon projects strictly below every vertex of the other |
| Sat.PushAlongAxis | src/sat/strategy.ts:124-126 | the push vector projects onto its axis as depth + EPSILON·axis² |
| Sat.AxisPushSeparates | src/sat/strategy.ts:123-127 | moving left by the push vector against the shallower side separates the polygons on that axis |
| Sat.CenterDisplacement | src/sat/strategy.ts:83-93 | the value is centroid(left) − (\|right\| / \|left\|)·centroid(right), and centroid(left) when right is empty |
| Sat.CenterDisplacementOfEqualCounts | src/sat/strategy.ts:83-93 | with equal vertex counts the displacement is centroid(left) − centroid(right) |
| Sat.CenterDisplacementOfUnequalCounts | src/sat/strategy.ts:88-91 | a 2-vertex and a 3-vertex polygon whose centroid difference is (0, −1), but whose computed displacement is (−1/2, −3/2) |
| Sat.Axes | src/sat/strategy.ts:55 | one axis per edge of left and of right; none is zero for well-formed polygons |
| Sat.PushVectorsPositive | src/sat/strategy.ts:58-63 | when every axis overlaps, no per-axis push vector is zero |
| Sat.MinPushIndexMinimal | src/sat/strategy.ts:65-73 | the chosen index has the least squared length, and every earlier index is strictly longer |
| Sat.OrientFacts | src/sat/strategy.ts:78-80 | the vector is kept iff dot(displacement, v) ≤ 0 and negated iff > 0; the length is kept; the result never points along the displacement |
| Sat.ShortestPush | src/sat/strategy.ts:65-73 | the argmin loop ends at the first index of least squared length |
| Sat.SatSpecOfSeparatingAxis | src/sat/strategy.ts:58-61 | one axis without overlap makes the result null |
| Sat.SatSpecOfPushes | src/sat/strategy.ts:58-80 | when all axes overlap, the result is built from the push vectors in axis order |
| Sat.SAT | src/sat/strategy.ts:54-81 | returns the SAT result; on a hit all \|left\|+\|right\| axes were examined, on a miss it stopped at the first separating axis and all earlier ones overlapped |
| Sat.SatNoneIffSeparatingAxis | src/sat/strategy.ts:55-63 | null exactly when some edge normal of either polygon separates the vertices |
| Sat.SatSymmetric | src/sat/strategy.ts:55-63 | swapping left and right does not change whether a collision is found |
| Sat.SatResult | src/sat/strategy.ts:65-80 | the result is the first shortest push vector or its negation, negated exactly when it points along the displacement |
| Sat.SatMinimal | src/sat/strategy.ts:65-80 | the result is non-zero and no longer than any per-axis push vector |
| Sat.SatOpposesDisplacement | src/sat/strategy.ts:76-80 | dot(displacement, result) ≤ 0 |
| ResolutionSpec.ScanExtend | src/sat/strategy.ts:27-38 | loop-step unfolding used by CollisionStep's loop: extending the scanned prefix by one result unfolds CountOverlaps and Longest by one step |
| ResolutionSpec.ScanCount | src/sat/strategy.ts:27-32 | the count is the number of obstacles SAT reports a push vector for |
| ResolutionSpec.ScanBestNone | src/sat/strategy.ts:22-23 | a vector is kept exactly when some obstacle overlaps; its kept length is its squared length, or 0 when none is kept |
| ResolutionSpec.ScanBest | src/sat/strategy.ts:33-37 | the kept vector is the first push vector of greatest squared length |
| ResolutionSpec.PushesNonZero | src/sat/strategy.ts:29 | no push vector a step sees is zero |
| ResolutionSpec.ScanMoves | src/sat/strategy.ts:39-42 | a step applies a correction exactly when it counts an overlap |
| ResolutionSpec.ScanFindsNothing | src/sat/strategy.ts:27-31 | a step counts 0 exactly when SAT separates the polygon from every obstacle |
| ResolutionSpec.WalkExtend | src/sat/strategy.ts:15 | a run of steps extended by a step at the reached offset is still a run |
| ResolutionSpec.WalkResolves | src/sat/strategy.ts:13-17 | a run that stops at the first step counting 0, or after budget + 1 steps, is the loop Resolve describes |
| ResolutionSpec.ResolveSteps | src/sat/strategy.ts:13-17 | between 1 and budget + 1 steps run; all but the last counted an overlap; the last counted none unless the budget ran out |
| ResolutionSpec.ResolveEndsQuiet | src/sat/strategy.ts:15 | if the last step counted 0, a step at the final offset counts 0 |
| ResolutionSpec.ResolveSettles | src/sat/strategy.ts:13-17 | when the loop stops on a step counting 0, SAT finds no obstacle overlapping the collider where it rests |
| ResolutionSpec.ResolveAtRest | src/sat/strategy.ts:13-17 | a collider that overlaps nothing is not moved and is stepped once |
| ResolutionSpec.ResolveCollided | src/sat/strategy.ts:39-41 | a correction is recorded exactly when the first step counts an overlap |
| Physics.Collider.constructor | src/server/collider.ts:10-17 | the record holds exactly the given fields |
| Physics.WithField | src/server/server.ts:80 | the given key is overwritten and the other key kept |
| Physics.CollisionFilter | src/server/server.ts:88-90 | the active collider never passes, and only enabled colliders pass; CandidatesMembers gives the full iff |
| Physics.Candidates | src/server/server.ts:67 | the filtered list is no longer than the registry list, holds only listed colliders, and never the active one |
| Physics.CandidatesMembers | src/server/server.ts:88-90 | a collider is a candidate exactly when it is listed, enabled and not the active collider |
| Physics.CandidatesInOrder | src/server/server.ts:67 | filtering keeps the registry order: the filter of a concatenation is the concatenation of the filters |
| Physics.FirstIndex | src/server/server.ts:38 | −1 when no listed collider has the uuid, otherwise the first index that does |
| Physics.AddRegistered | src/server/server.ts:33-34 | appending and mapping keeps the list/map invariant exactly when the uuid is new |
| Physics.RemoveRegistered | src/server/server.ts:37-43 | under the invariant, findIndex finds the uuid exactly when it is mapped, and splicing plus deleting keeps the invariant |
| Physics.SpliceRegistered | src/server/server.ts:41-42 | splicing out a listed collider and deleting its key keeps the invariant |
| Physics.FindAgreesWithList | src/server/server.ts:17-19 | under the invariant the map lookup finds the uuid exactly when findIndex does, and both give the same collider |
| Physics.SATStrategy.constructor | src/sat/strategy.ts:9-11 | a new strategy has no server yet |
| Physics.SATStrategy.CollisionStep | src/sat/strategy.ts:19-43 | returns the Scan count of the world polygon against the candidates' world polygons; moves the collider by the kept vector and records the event only when one is kept; when the active collider is not a candidate, the candidates' world polygons are unchanged |
| Physics.SATStrategy.TrackedStep | src/sat/strategy.ts:15 | one collisionStep of the loop extends the run of steps taken so far |
| Physics.SATStrategy.CheckCollision | src/sat/strategy.ts:13-17 | 1 to 17 steps run; every step but the last counted an overlap; the last counted 0 unless 17 ran; when the collider is not a candidate, counts, final offset and events are Resolve's |
| Physics.PhysicsServer.constructor | src/server/server.ts:11-15 | the registry starts empty and installs itself as the strategy's server |
| Physics.PhysicsServer.Find | src/server/server.ts:17-19 | returns a collider exactly when the uuid is mapped; under the invariant it is the listed collider with that uuid |
| Physics.PhysicsServer.Add | src/server/server.ts:21-35 | appends one fresh collider with the given fields and the defaults Dynamic, 0, enabled; maps the uuid to it; find returns it; the invariant holds afterwards iff the uuid was new |
| Physics.PhysicsServer.Remove | src/server/server.ts:37-43 | splices out the first entry with the uuid and deletes the key; an unknown uuid changes nothing; under the invariant find then returns nothing |
| Physics.PhysicsServer.UpdateEnabled | src/server/server.ts:53-58 | sets only the found collider's flag; an unknown uuid changes nothing |
| Physics.PhysicsServer.UpdateOffset | src/server/server.ts:45-51 | an unknown uuid changes nothing; a Static or disabled collider is only moved; otherwise the loop runs from the new offset, as Resolve states |
| Physics.PhysicsServer.CheckCollision | src/server/server.ts:60-69 | a Static or disabled collider is left alone; otherwise the outcome is Resolve against the enabled other colliders in registry order |
| Physics.PhysicsServer.ApplyCollision | src/server/server.ts:71-75 | offset becomes offset − push; the entry becomes {offset: new offset, isCollided: true}; other entries are untouched |
| Physics.PhysicsServer.AddEvent | src/server/server.ts:77-81 | creates the entry if missing and overwrites only the given key; other entries are untouched |
| Physics.PhysicsServer.ClearEvents | src/server/server.ts:83-85 | the event table is empty |
| Physics.RegistryScenario | tests/server.test.ts:19-45 | after adding uuids 0 and 1 both are found with their shapes, offsets and defaults; after removing 0 it is not found |

## Left out

- Floating-point behaviour is not modelled: rounding, NaN, and the Infinity from dividing by a zero-length axis. Numbers are `real`.
- The `MAX_SAFE_INTEGER`/`MIN_SAFE_INTEGER` sentinels are not modelled. Polygons are required to be non-empty, and the accumulators start at the first projection.
- Sat.IsSeparatingAxis requires non-empty polygons and a non-zero axis. The source accepts any, with float results (sentinels, Infinity, NaN) the model does not capture.
- Sat.SAT, Physics.SATStrategy.CollisionStep and Physics.SATStrategy.CheckCollision require well-formed polygons (non-empty, no zero-length edge), for the same reason.
- Physics.PhysicsServer.UpdateOffset and Physics.PhysicsServer.CheckCollision require, only for a Dynamic and enabled collider, that its shape and the shapes of its candidates are well formed, for the same reason. A Static or disabled collider needs nothing.
- Physics.SATStrategy.CollisionStep and Physics.SATStrategy.CheckCollision require `server != null`. The source reads `this.server` only when it applies a correction (src/sat/strategy.ts:39-41), so a strategy without a server runs there until the first correction. The model does not capture that run.
- Physics.PhysicsServer.UpdateOffset and Physics.PhysicsServer.CheckCollision require `Linked()`: the strategy's `server` is this registry. In the source, handing one strategy to a second registry repoints it (src/server/server.ts:14), and the first registry's corrections then land in the second one's `events`. The model does not capture that aliasing.
- Collider ids are `int`, while the source's `ColliderId` is a JavaScript `number`. Fractional ids and NaN are not modelled. For NaN the source's `find` looks up the key "NaN" (src/server/server.ts:18), but `remove`'s `findIndex` compares with `===` and never matches (src/server/server.ts:38), so `remove(NaN)` does nothing.
- `src/utils/vector` is not part of this model. Its helpers are the plain functions in `Vectors`. The handedness of `orthogonal` is not visible in the source, so the model picks `(-y, x)` throughout.
- The generic `Shape` is specialised to `Polygon`. The test's rectangle shapes appear only as arbitrary polygons in `RegistryScenario`.
- The `CollisionStrategy` interface is not a trait. The registry holds a `SATStrategy`, and `DummyStrategy` from the test is not modelled.
- `layers` is stored but never read, as in the source.
- The untyped `events` object is a map from uuid to a record with two optional keys, `offset` and `isCollided`.
- Physics.SATStrategy.CheckCollision: the outcome is tied to `Resolve` only when the active collider is not among the candidates. If it is, its own world polygon moves between steps. The registry never passes it: `Candidates` excludes it.
- Convexity and winding of polygons are assumptions the source does not check. The theorem that overlap on all edge normals means the polygons intersect is not modelled.
- JavaScript identity (`other !== self`) is object reference. `undefined` from `find` is `null`.
- `SAT`'s argmin loop is the separate method `ShortestPush`. The ghost out-parameters `examined` (of `SAT`) and `step` (of `CollisionStep`) carry proof information only.
- Physics.SATStrategy.TrackedStep is not in the source. It is the loop body of `checkCollision`, one `collisionStep` call, together with the run it extends.
- The registry invariant (distinct uuids, list and map agree) is not a precondition of any registry method, because the source does not demand it. `Add` and `Remove` state what happens to it, and a duplicate `add` breaks it.
