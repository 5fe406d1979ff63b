/**
  The collider registry (`PhysicsServer`, src/server/server.ts) and the SAT
  collision strategy that corrects colliders through it (`SATStrategy`,
  src/sat/strategy.ts:9-45).

  Colliders are objects: the registry hands the same instance to the list,
  to the id map and to the strategy, and `updateOffset`, `updateEnabled` and
  `applyCollision` change their `offset` and `enabled` in place. The strategy
  keeps a reference back to the registry (`server`), set by the registry's
  constructor, and reports each correction through `ApplyCollision`.
*/
module Physics {
  import opened Wrappers
  import opened Vectors
  import opened Sat
  import opened ResolutionSpec

  /** src/server/collider.ts:5-8. */
  datatype ColliderMode = Static | Dynamic

  /** src/server/collider.ts:10-17; only `offset` and `enabled` are ever written. */
  class Collider {
    const uuid: int
    const shape: Polygon
    var offset: Vector2
    const layers: int
    const mode: ColliderMode
    var enabled: bool

    constructor (uuid: int, shape: Polygon, offset: Vector2, mode: ColliderMode, layers: int, enabled: bool)
      ensures this.uuid == uuid && this.shape == shape && this.offset == offset
      ensures this.mode == mode && this.layers == layers && this.enabled == enabled
    {
      this.uuid := uuid;
      this.shape := shape;
      this.offset := offset;
      this.layers := layers;
      this.mode := mode;
      this.enabled := enabled;
    }
  }

  /** One entry of the event table: the keys `offset` and `isCollided`, each possibly absent. */
  datatype Event = Event(offset: Option<Vector2>, isCollided: Option<bool>)

  /** A key of an event entry together with the value written under it. */
  datatype EventField = OffsetField(value: Vector2) | IsCollidedField(flag: bool)

  const NoEvent: Event := Event(None, None)

  /** `this.events[uuid][key] = value`: the given key is overwritten and the other one kept. */
  function WithField(event: Event, field: EventField): (updated: Event)
    ensures field.OffsetField? ==> updated.offset == Some(field.value) && updated.isCollided == event.isCollided
    ensures field.IsCollidedField? ==> updated.isCollided == Some(field.flag) && updated.offset == event.offset
  {
    match field
    case OffsetField(value) => event.(offset := Some(value))
    case IsCollidedField(flag) => event.(isCollided := Some(flag))
  }

  /** The event table after a correction moved collider `uuid` to `offset`, or unchanged when none applied. */
  ghost function Recorded(events: map<int, Event>, uuid: int, collided: bool, offset: Vector2): map<int, Event> {
    if collided then events[uuid := Event(Some(offset), Some(true))] else events
  }

  /**
    Recording a second run of corrections on top of a first: the entry ends
    with the last offset, and it is present when either run collided. A run
    without a correction leaves the offset where it was.
  */
  lemma RecordedAgain(events: map<int, Event>, uuid: int, first: bool, middle: Vector2, second: bool, last: Vector2)
    requires !second ==> last == middle
    ensures Recorded(Recorded(events, uuid, first, middle), uuid, second, last) == Recorded(events, uuid, first || second, last)
  {
  }

  /**
    Where a run of steps has left things: the obstacles are where they were,
    the steps form a `Walk` from `start`, the collider stands at the walk's
    last offset, and the event table records whether any step collided.
  */
  ghost predicate Run(shape: Polygon, obstacles: seq<Polygon>, start: Vector2, before: map<int, Event>, uuid: int,
                      offsets: seq<Vector2>, steps: seq<ScanResult>, placed: seq<Polygon>, offset: Vector2, events: map<int, Event>)
    requires WellFormed(shape) && AllWellFormed(obstacles)
  {
    && placed == obstacles
    && |offsets| == |steps| + 1
    && Walk(shape, obstacles, offsets, steps)
    && offsets[0] == start
    && offset == offsets[|steps|]
    && events == Recorded(before, uuid, Collided(steps), offset)
  }

  /** `CollisionFilter(self)(other)`: the other collider is enabled and is not the active one. */
  predicate CollisionFilter(self: Collider, other: Collider): (passes: bool)
    reads other`enabled
    ensures other == self ==> !passes
    ensures passes ==> other.enabled
  {
    other.enabled && other != self
  }

  /** `colliders.filter(CollisionFilter(self))`. */
  function Candidates(self: Collider, colliders: seq<Collider>): (candidates: seq<Collider>)
    reads colliders`enabled
    ensures |candidates| <= |colliders|
    ensures forall c :: c in candidates ==> c in colliders
    ensures self !in candidates
    decreases |colliders|
  {
    if colliders == [] then []
    else
      var rest := Candidates(self, colliders[..|colliders| - 1]);
      var last := colliders[|colliders| - 1];
      if CollisionFilter(self, last) then rest + [last] else rest
  }

  /** A collider is a candidate exactly when it is listed and passes the filter. */
  lemma {:induction false} CandidatesMembers(self: Collider, colliders: seq<Collider>)
    ensures forall c :: c in Candidates(self, colliders) <==> c in colliders && CollisionFilter(self, c)
    decreases |colliders|
  {
    if colliders != [] {
      var init := colliders[..|colliders| - 1];
      CandidatesMembers(self, init);
      assert colliders == init + [colliders[|colliders| - 1]];
    }
  }

  /** The filter keeps the registry's order: filtering a concatenation concatenates the filtered parts. */
  lemma {:induction false} CandidatesInOrder(self: Collider, first: seq<Collider>, second: seq<Collider>)
    ensures Candidates(self, first + second) == Candidates(self, first) + Candidates(self, second)
    decreases |second|
  {
    if second == [] {
      assert first + second == first;
    } else {
      var init := second[..|second| - 1];
      var last := second[|second| - 1];
      assert (first + second)[..|first + second| - 1] == first + init;
      CandidatesInOrder(self, first, init);
    }
  }

  /** Every listed collider has a usable polygon. */
  ghost predicate ShapesWellFormed(colliders: seq<Collider>) {
    forall c :: c in colliders ==> WellFormed(c.shape)
  }

  /** The current offset of each collider, in order. */
  ghost function Offsets(colliders: seq<Collider>): (offsets: seq<Vector2>)
    reads colliders`offset
    ensures |offsets| == |colliders|
    ensures forall i :: 0 <= i < |colliders| ==> offsets[i] == colliders[i].offset
    decreases |colliders|
  {
    if colliders == [] then []
    else Offsets(colliders[..|colliders| - 1]) + [colliders[|colliders| - 1].offset]
  }

  /** The shape of each collider, in order. */
  ghost function Shapes(colliders: seq<Collider>): (shapes: seq<Polygon>)
    ensures |shapes| == |colliders|
    ensures forall i :: 0 <= i < |colliders| ==> shapes[i] == colliders[i].shape
    ensures ShapesWellFormed(colliders) ==> AllWellFormed(shapes)
  {
    seq(|colliders|, i requires 0 <= i < |colliders| => colliders[i].shape)
  }

  /** `toWorldPolygon` of each shape at its offset. */
  ghost function Placed(shapes: seq<Polygon>, offsets: seq<Vector2>): (polygons: seq<Polygon>)
    requires |shapes| == |offsets|
    ensures |polygons| == |shapes|
    ensures forall i :: 0 <= i < |shapes| ==> polygons[i] == ToWorldPolygon(shapes[i], offsets[i])
    ensures AllWellFormed(shapes) ==> AllWellFormed(polygons)
  {
    seq(|shapes|, i requires 0 <= i < |shapes| => ToWorldPolygon(shapes[i], offsets[i]))
  }

  /** `toWorldPolygon(other.shape, other.offset)` for each collider, in order. */
  ghost function WorldPolygons(colliders: seq<Collider>): seq<Polygon>
    reads colliders`offset
  {
    Placed(Shapes(colliders), Offsets(colliders))
  }

  /** `colliders.findIndex((collider) => collider.uuid === uuid)`. */
  function FirstIndex(colliders: seq<Collider>, uuid: int): (index: int)
    ensures -1 <= index < |colliders|
    ensures index == -1 <==> forall i :: 0 <= i < |colliders| ==> colliders[i].uuid != uuid
    ensures 0 <= index ==> colliders[index].uuid == uuid && forall i :: 0 <= i < index ==> colliders[i].uuid != uuid
  {
    if colliders == [] then -1
    else if colliders[0].uuid == uuid then 0
    else
      var rest := FirstIndex(colliders[1..], uuid);
      if rest < 0 then -1 else rest + 1
  }

  ghost function Ids(colliders: seq<Collider>): set<int> {
    set i | 0 <= i < |colliders| :: colliders[i].uuid
  }

  /**
    The registry invariant: uuids in the list are distinct, and the map
    holds exactly the listed colliders, each under its own uuid.
  */
  ghost predicate Registered(colliders: seq<Collider>, colliderMap: map<int, Collider>) {
    && (forall i, j :: 0 <= i < j < |colliders| ==> colliders[i].uuid != colliders[j].uuid)
    && (forall i :: 0 <= i < |colliders| ==> colliders[i].uuid in colliderMap && colliderMap[colliders[i].uuid] == colliders[i])
    && colliderMap.Keys == Ids(colliders)
  }

  /** `add` keeps the invariant exactly when the uuid is new; a duplicate leaves two list entries and one map entry. */
  lemma AddRegistered(colliders: seq<Collider>, colliderMap: map<int, Collider>, collider: Collider)
    requires Registered(colliders, colliderMap)
    ensures Registered(colliders + [collider], colliderMap[collider.uuid := collider]) <==> collider.uuid !in colliderMap
  {
    var added := colliders + [collider];
    if collider.uuid in colliderMap {
      assert collider.uuid in Ids(colliders);
      var i :| 0 <= i < |colliders| && colliders[i].uuid == collider.uuid;
      assert added[i].uuid == added[|colliders|].uuid;
    } else {
      assert Ids(added) == Ids(colliders) + {collider.uuid} by {
        forall id | id in Ids(added) ensures id in Ids(colliders) + {collider.uuid} {
          var i :| 0 <= i < |added| && added[i].uuid == id;
          if i < |colliders| { assert colliders[i].uuid == id; }
        }
        forall id | id in Ids(colliders) ensures id in Ids(added) {
          var i :| 0 <= i < |colliders| && colliders[i].uuid == id;
          assert added[i].uuid == id;
        }
        assert added[|colliders|].uuid == collider.uuid;
      }
    }
  }

  /** `remove` keeps the invariant; a listed uuid is in the map exactly when `findIndex` finds it. */
  lemma RemoveRegistered(colliders: seq<Collider>, colliderMap: map<int, Collider>, uuid: int)
    requires Registered(colliders, colliderMap)
    ensures var index := FirstIndex(colliders, uuid);
      && (index < 0 <==> uuid !in colliderMap)
      && (0 <= index ==> Registered(colliders[..index] + colliders[index + 1..], colliderMap - {uuid}))
  {
    var index := FirstIndex(colliders, uuid);
    if uuid in colliderMap {
      assert uuid in Ids(colliders);
    }
    if 0 <= index {
      SpliceRegistered(colliders, colliderMap, index);
    }
  }

  /** Splicing out one listed collider and deleting its key keeps the invariant. */
  lemma SpliceRegistered(colliders: seq<Collider>, colliderMap: map<int, Collider>, index: nat)
    requires Registered(colliders, colliderMap) && index < |colliders|
    ensures Registered(colliders[..index] + colliders[index + 1..], colliderMap - {colliders[index].uuid})
  {
    var rest := colliders[..index] + colliders[index + 1..];
    var uuid := colliders[index].uuid;
    var smaller := colliderMap - {uuid};
    forall j | 0 <= j < |rest|
      ensures rest[j] == colliders[if j < index then j else j + 1]
    {
    }
    forall j | 0 <= j < |rest|
      ensures rest[j].uuid in smaller && smaller[rest[j].uuid] == rest[j]
    {
      var k := if j < index then j else j + 1;
      assert rest[j] == colliders[k] && k != index;
    }
    SpliceIds(colliders, index);
  }

  lemma SpliceIds(colliders: seq<Collider>, index: nat)
    requires index < |colliders|
    requires forall i, j :: 0 <= i < j < |colliders| ==> colliders[i].uuid != colliders[j].uuid
    ensures Ids(colliders[..index] + colliders[index + 1..]) == Ids(colliders) - {colliders[index].uuid}
  {
    var rest := colliders[..index] + colliders[index + 1..];
    var uuid := colliders[index].uuid;
    forall id | id in Ids(rest) ensures id in Ids(colliders) - {uuid} {
      var j :| 0 <= j < |rest| && rest[j].uuid == id;
      var k := if j < index then j else j + 1;
      assert rest[j] == colliders[k] && k != index;
    }
    forall id | id in Ids(colliders) - {uuid} ensures id in Ids(rest) {
      var i :| 0 <= i < |colliders| && colliders[i].uuid == id;
      var j := if i < index then i else i - 1;
      assert i != index && rest[j] == colliders[i];
    }
  }

  /** Under the invariant the map lookup and the list search find the same collider. */
  lemma FindAgreesWithList(colliders: seq<Collider>, colliderMap: map<int, Collider>, uuid: int)
    requires Registered(colliders, colliderMap)
    ensures uuid in colliderMap <==> 0 <= FirstIndex(colliders, uuid)
    ensures uuid in colliderMap ==> colliderMap[uuid] == colliders[FirstIndex(colliders, uuid)]
  {
    if uuid in colliderMap {
      assert uuid in Ids(colliders);
    }
  }

  /** `SATStrategy` (src/sat/strategy.ts:9-45). */
  class SATStrategy {
    var server: PhysicsServer?
    const MAXIMUM_ITERATIONS: nat := 16

    constructor ()
      ensures server == null
    {
      server := null;
    }

    /**
      `collisionStep`: scans every candidate in order, applies the first
      longest push vector through the registry, and returns how many
      candidates overlap. `step` is that scan, as `Scan` states it.
    */
    method CollisionStep(collider: Collider, others: seq<Collider>) returns (count: nat, ghost step: ScanResult)
      requires server != null
      requires WellFormed(collider.shape) && ShapesWellFormed(others)
      modifies server`events, collider`offset
      ensures step == Scan(ToWorldPolygon(collider.shape, old(collider.offset)), old(WorldPolygons(others)))
      ensures count == step.count
      ensures collider.offset == Moved(old(collider.offset), step)
      ensures server.events == Recorded(old(server.events), collider.uuid, step.best.Some?, collider.offset)
      ensures collider !in others ==> WorldPolygons(others) == old(WorldPolygons(others))
    {
      var currentColliders: seq<Collider> := [];
      var mostSignificant: Option<Vector2> := None;
      var mostSignificantLength: real := 0.0;
      var polygon := ToWorldPolygon(collider.shape, collider.offset);
      ghost var obstacles := WorldPolygons(others);
      ghost var pushes := Pushes(polygon, obstacles);
      for i := 0 to |others|
        modifies {}
        invariant |currentColliders| == CountOverlaps(pushes[..i])
        invariant Kept(mostSignificant, mostSignificantLength) == Longest(pushes[..i])
      {
        ScanExtend(pushes, i);
        var other := others[i];
        var otherPolygon := ToWorldPolygon(other.shape, other.offset);
        assert otherPolygon == obstacles[i] && pushes[i] == SatSpec(polygon, otherPolygon);
        var pushVector;
        ghost var examined;
        pushVector, examined := SAT(polygon, otherPolygon);
        if pushVector.None? {
          continue;
        }
        currentColliders := currentColliders + [other];
        var length := Dot(pushVector.value, pushVector.value);
        if mostSignificantLength < length {
          mostSignificant := pushVector;
          mostSignificantLength := length;
        }
      }
      assert pushes[..|others|] == pushes;
      step := ScanResult(|currentColliders|, mostSignificant, mostSignificantLength);
      if mostSignificant.Some? {
        server.ApplyCollision(collider, mostSignificant.value);
      }
      count := |currentColliders|;
    }

    /**
      One `collisionStep` of `checkCollision`, together with the run it
      extends: `nextSteps` is `steps` and this step, and when the active
      collider is not among the candidates the run goes on from where the
      collider stands.
    */
    method TrackedStep(collider: Collider, others: seq<Collider>, ghost obstacles: seq<Polygon>, ghost start: Vector2,
                       ghost before: map<int, Event>, ghost offsets: seq<Vector2>, ghost steps: seq<ScanResult>)
      returns (count: nat, ghost nextOffsets: seq<Vector2>, ghost nextSteps: seq<ScanResult>)
      requires server != null
      requires WellFormed(collider.shape) && ShapesWellFormed(others) && AllWellFormed(obstacles)
      requires collider !in others ==>
        Run(collider.shape, obstacles, start, before, collider.uuid, offsets, steps, WorldPolygons(others), collider.offset, server.events)
      modifies server`events, collider`offset
      ensures |nextSteps| == |steps| + 1 && nextSteps[..|steps|] == steps && count == nextSteps[|steps|].count
      ensures collider !in others ==>
        Run(collider.shape, obstacles, start, before, collider.uuid, nextOffsets, nextSteps, WorldPolygons(others), collider.offset, server.events)
    {
      ghost var step;
      count, step := CollisionStep(collider, others);
      if collider !in others {
        WalkExtend(collider.shape, obstacles, offsets, steps, step);
        CollidedAppend(steps, step);
        RecordedAgain(before, collider.uuid, Collided(steps), offsets[|steps|], step.best.Some?, collider.offset);
      }
      nextOffsets := offsets + [collider.offset];
      nextSteps := steps + [step];
      assert nextSteps[..|steps|] == steps;
    }

    /**
      `checkCollision`: steps until a step finds no overlap or the counter
      reaches `MAXIMUM_ITERATIONS`; the step runs before the counter test, so
      there are at most `MAXIMUM_ITERATIONS + 1` steps. `counts` is the value
      of every step. When the active collider is not among the candidates,
      the obstacles stay put and the run is `Resolve`.
    */
    method CheckCollision(collider: Collider, others: seq<Collider>) returns (ghost counts: seq<nat>)
      requires server != null
      requires WellFormed(collider.shape) && ShapesWellFormed(others)
      modifies server`events, collider`offset
      ensures 1 <= |counts| <= MAXIMUM_ITERATIONS + 1
      ensures forall i :: 0 <= i < |counts| - 1 ==> counts[i] != 0
      ensures counts[|counts| - 1] == 0 || |counts| == MAXIMUM_ITERATIONS + 1
      ensures collider !in others ==>
        var outcome := Resolve(collider.shape, old(collider.offset), old(WorldPolygons(others)), MAXIMUM_ITERATIONS);
        && counts == outcome.counts
        && collider.offset == outcome.offset
        && server.events == Recorded(old(server.events), collider.uuid, outcome.collided, outcome.offset)
    {
      ghost var obstacles := WorldPolygons(others);
      ghost var offsets := [collider.offset];
      ghost var steps: seq<ScanResult> := [];
      counts := [];
      var iterations := 0;
      var stepping := true;
      while stepping
        invariant 0 <= iterations <= MAXIMUM_ITERATIONS
        invariant |counts| == |steps| == (if stepping then iterations else iterations + 1)
        invariant forall i :: 0 <= i < |steps| ==> counts[i] == steps[i].count
        invariant forall i :: 0 <= i < iterations ==> counts[i] != 0
        invariant !stepping ==> counts[iterations] == 0 || iterations == MAXIMUM_ITERATIONS
        invariant collider !in others ==>
          Run(collider.shape, obstacles, old(collider.offset), old(server.events), collider.uuid,
              offsets, steps, WorldPolygons(others), collider.offset, server.events)
        decreases MAXIMUM_ITERATIONS - iterations + (if stepping then 1 else 0)
      {
        var count;
        ghost var previous := steps;
        count, offsets, steps := TrackedStep(collider, others, obstacles, old(collider.offset), old(server.events), offsets, steps);
        counts := counts + [count];
        forall i | 0 <= i < |steps| ensures counts[i] == steps[i].count {
          if i < |previous| { assert steps[i] == previous[i]; }
        }
        if count != 0 && iterations < MAXIMUM_ITERATIONS {
          iterations := iterations + 1;
        } else {
          stepping := false;
        }
      }
      if collider !in others {
        WalkResolves(collider.shape, obstacles, offsets, steps, counts, MAXIMUM_ITERATIONS);
      }
    }
  }

  /** `PhysicsServer` (src/server/server.ts:6-86). */
  class PhysicsServer {
    var colliders: seq<Collider>
    var colliderMap: map<int, Collider>
    var events: map<int, Event>
    const strategy: SATStrategy

    /** An empty registry that installs itself as the strategy's server. */
    constructor (strategy: SATStrategy)
      modifies strategy`server
      ensures this.strategy == strategy && strategy.server == this
      ensures colliders == [] && colliderMap == map[] && events == map[]
    {
      this.strategy := strategy;
      colliders := [];
      colliderMap := map[];
      events := map[];
      new;
      strategy.server := this;
    }

    /** The strategy reports its corrections to this registry. */
    ghost predicate Linked()
      reads this, strategy`server
    {
      strategy.server == this
    }

    /** `find`: the map lookup, `null` standing for `undefined`. */
    function Find(uuid: int): (found: Collider?)
      reads this`colliderMap
      ensures found != null <==> uuid in colliderMap
      ensures Registered(colliders, colliderMap) && found != null ==> found.uuid == uuid && found in colliders
    {
      if uuid in colliderMap then colliderMap[uuid] else null
    }

    /** `add`, with the source's defaults: mode Dynamic, layers 0, enabled. */
    method Add(uuid: int, shape: Polygon, offset: Vector2, mode: ColliderMode := Dynamic, layers: int := 0, enabled: bool := true)
      modifies this`colliders, this`colliderMap
      ensures |colliders| == |old(colliders)| + 1 && colliders[..|old(colliders)|] == old(colliders)
      ensures var added := colliders[|colliders| - 1];
        && fresh(added)
        && added.uuid == uuid && added.shape == shape && added.offset == offset
        && added.mode == mode && added.layers == layers && added.enabled == enabled
        && colliderMap == old(colliderMap)[uuid := added]
        && Find(uuid) == added
      ensures old(Registered(colliders, colliderMap)) ==>
        (Registered(colliders, colliderMap) <==> uuid !in old(colliderMap))
    {
      var collider := new Collider(uuid, shape, offset, mode, layers, enabled);
      if Registered(colliders, colliderMap) {
        AddRegistered(colliders, colliderMap, collider);
      }
      colliders := colliders + [collider];
      colliderMap := colliderMap[uuid := collider];
    }

    /** `remove`: splices out the first listed collider with the uuid and deletes the map key. */
    method Remove(uuid: int)
      modifies this`colliders, this`colliderMap
      ensures var index := FirstIndex(old(colliders), uuid);
        && (index < 0 ==> colliders == old(colliders) && colliderMap == old(colliderMap))
        && (0 <= index ==> colliders == old(colliders)[..index] + old(colliders)[index + 1..] && colliderMap == old(colliderMap) - {uuid})
      ensures old(Registered(colliders, colliderMap)) ==> Registered(colliders, colliderMap) && Find(uuid) == null
    {
      if Registered(colliders, colliderMap) {
        RemoveRegistered(colliders, colliderMap, uuid);
      }
      var index := FirstIndex(colliders, uuid);
      if index < 0 {
        return;
      }
      colliders := colliders[..index] + colliders[index + 1..];
      colliderMap := colliderMap - {uuid};
    }

    /** `updateEnabled`: sets the flag of the found collider; an unknown uuid changes nothing. */
    method UpdateEnabled(uuid: int, enabled: bool)
      modifies (if uuid in colliderMap then {colliderMap[uuid]} else {})`enabled
      ensures uuid in colliderMap ==> colliderMap[uuid].enabled == enabled
    {
      var collider := Find(uuid);
      if collider == null {
        return;
      }
      collider.enabled := enabled;
    }

    /**
      `updateOffset`: moves the found collider and runs `checkCollision` on
      it; an unknown uuid changes nothing.
    */
    method UpdateOffset(uuid: int, offset: Vector2) returns (ghost counts: seq<nat>)
      requires Linked()
      requires uuid in colliderMap && colliderMap[uuid].mode == Dynamic && colliderMap[uuid].enabled ==>
        WellFormed(colliderMap[uuid].shape) && ShapesWellFormed(Candidates(colliderMap[uuid], colliders))
      modifies this`events, (if uuid in colliderMap then {colliderMap[uuid]} else {})`offset
      ensures uuid !in colliderMap ==> counts == [] && events == old(events)
      ensures uuid in colliderMap ==>
        var collider := colliderMap[uuid];
        if collider.mode == Static || !collider.enabled then
          counts == [] && collider.offset == offset && events == old(events)
        else
          var outcome := Resolve(collider.shape, offset, old(WorldPolygons(Candidates(collider, colliders))), strategy.MAXIMUM_ITERATIONS);
          && counts == outcome.counts
          && collider.offset == outcome.offset
          && events == Recorded(old(events), collider.uuid, outcome.collided, outcome.offset)
    {
      var collider := Find(uuid);
      if collider == null {
        return [];
      }
      ghost var obstacles := WorldPolygons(Candidates(collider, colliders));
      CandidatesMembers(collider, colliders);
      collider.offset := offset;
      assert WorldPolygons(Candidates(collider, colliders)) == obstacles;
      counts := CheckCollision(collider);
    }

    /**
      `checkCollision`: a Static or disabled collider is left alone;
      otherwise the strategy resolves it against the enabled colliders other
      than itself, in registry order.
    */
    method CheckCollision(collider: Collider) returns (ghost counts: seq<nat>)
      requires Linked()
      requires collider.mode == Dynamic && collider.enabled ==>
        WellFormed(collider.shape) && ShapesWellFormed(Candidates(collider, colliders))
      modifies this`events, collider`offset
      ensures collider.mode == Static || !collider.enabled ==>
        counts == [] && collider.offset == old(collider.offset) && events == old(events)
      ensures collider.mode == Dynamic && collider.enabled ==>
        var outcome := Resolve(collider.shape, old(collider.offset), old(WorldPolygons(Candidates(collider, colliders))), strategy.MAXIMUM_ITERATIONS);
        && counts == outcome.counts
        && collider.offset == outcome.offset
        && events == Recorded(old(events), collider.uuid, outcome.collided, outcome.offset)
    {
      if collider.mode == Static {
        return [];
      }
      if !collider.enabled {
        return [];
      }
      var others := Candidates(collider, colliders);
      CandidatesMembers(collider, colliders);
      counts := strategy.CheckCollision(collider, others);
    }

    /** `applyCollision`: moves the collider back by the push vector and records both event keys. */
    method ApplyCollision(collider: Collider, push: Vector2)
      modifies collider`offset, this`events
      ensures collider.offset == Sub(old(collider.offset), push)
      ensures events == old(events)[collider.uuid := Event(Some(collider.offset), Some(true))]
    {
      collider.offset := Sub(collider.offset, push);
      AddEvent(collider.uuid, OffsetField(collider.offset));
      AddEvent(collider.uuid, IsCollidedField(true));
    }

    /** `addEvent`: creates the entry when missing, then overwrites only the given key. */
    method AddEvent(uuid: int, field: EventField)
      modifies this`events
      ensures uuid in events && events == old(events)[uuid := events[uuid]]
      ensures events[uuid] == WithField(if uuid in old(events) then old(events)[uuid] else NoEvent, field)
    {
      if uuid !in events {
        events := events[uuid := NoEvent];
      }
      events := events[uuid := WithField(events[uuid], field)];
    }

    /** `clearEvents`. */
    method ClearEvents()
      modifies this`events
      ensures events == map[]
    {
      events := map[];
    }
  }

  /**
    The registry scenario of tests/server.test.ts:22-44: two colliders are
    added, both are found with their shapes, the first is removed and is no
    longer found.
  */
  method RegistryScenario(shapeA: Polygon, shapeB: Polygon, offsetA: Vector2, offsetB: Vector2)
    returns (foundA: Collider?, foundB: Collider?, removed: Collider?)
    ensures foundA != null && foundA.uuid == 0 && foundA.shape == shapeA && foundA.offset == offsetA
    ensures foundA.mode == Dynamic && foundA.layers == 0 && foundA.enabled
    ensures foundB != null && foundB.uuid == 1 && foundB.shape == shapeB && foundB.offset == offsetB
    ensures foundB.mode == Dynamic && foundB.layers == 0 && foundB.enabled
    ensures removed == null
  {
    var strategy := new SATStrategy();
    var server := new PhysicsServer(strategy);
    server.Add(0, shapeA, offsetA);
    server.Add(1, shapeB, offsetB);
    foundA := server.Find(0);
    foundB := server.Find(1);
    server.Remove(0);
    removed := server.Find(0);
  }
}
