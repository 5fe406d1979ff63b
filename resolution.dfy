/**
  What `SATStrategy.collisionStep` and `SATStrategy.checkCollision` compute,
  stated on polygons rather than on colliders (src/sat/strategy.ts:13-43).

  `Scan` is one step: the active polygon is checked against every obstacle in
  order, overlaps are counted, and the first push vector of greatest squared
  length is kept. `Resolve` is the correction loop: the active collider is
  moved by the kept push vector and scanned again, until a scan finds nothing
  or the iteration budget runs out.
*/
module ResolutionSpec {
  import opened Wrappers
  import opened Vectors
  import opened Sat

  ghost predicate AllWellFormed(polygons: seq<Polygon>) {
    forall i :: 0 <= i < |polygons| ==> WellFormed(polygons[i])
  }

  /**
    The state `collisionStep` reaches after its loop: how many obstacles
    overlap (`currentColliders.length`), the most significant push vector and
    its squared length.
  */
  datatype ScanResult = ScanResult(count: nat, best: Option<Vector2>, bestLength: real)

  /** The SAT result of the polygon against each obstacle, in obstacle order. */
  ghost function Pushes(polygon: Polygon, obstacles: seq<Polygon>): (pushes: seq<Option<Vector2>>)
    requires WellFormed(polygon) && AllWellFormed(obstacles)
    ensures |pushes| == |obstacles|
  {
    seq(|obstacles|, i requires 0 <= i < |obstacles| => SatSpec(polygon, obstacles[i]))
  }

  /** How many SAT results are push vectors: the length `currentColliders` reaches. */
  ghost function CountOverlaps(pushes: seq<Option<Vector2>>): nat
    decreases |pushes|
  {
    if pushes == [] then 0
    else CountOverlaps(pushes[..|pushes| - 1]) + (if pushes[|pushes| - 1].Some? then 1 else 0)
  }

  /** The most significant push vector so far and its squared length. */
  datatype Kept = Kept(best: Option<Vector2>, length: real)

  /**
    `mostSignificant` and `mostSignificantLength` after the loop: a push
    vector replaces the kept one only when strictly longer, starting from
    length 0.
  */
  ghost function Longest(pushes: seq<Option<Vector2>>): Kept
    decreases |pushes|
  {
    if pushes == [] then Kept(None, 0.0)
    else
      var kept := Longest(pushes[..|pushes| - 1]);
      var last := pushes[|pushes| - 1];
      if last.Some? && kept.length < SqLength(last.value) then Kept(last, SqLength(last.value))
      else kept
  }

  /** Extending the scanned prefix by one SAT result: one turn of the `collisionStep` loop. */
  lemma ScanExtend(pushes: seq<Option<Vector2>>, i: nat)
    requires i < |pushes|
    ensures CountOverlaps(pushes[..i + 1]) == CountOverlaps(pushes[..i]) + (if pushes[i].Some? then 1 else 0)
    ensures var kept := Longest(pushes[..i]);
      Longest(pushes[..i + 1]) ==
        if pushes[i].Some? && kept.length < SqLength(pushes[i].value) then Kept(pushes[i], SqLength(pushes[i].value))
        else kept
  {
    assert pushes[..i + 1][..i] == pushes[..i];
  }

  /** The `collisionStep` loop over the SAT results. */
  ghost function ScanPushes(pushes: seq<Option<Vector2>>): ScanResult {
    ScanResult(CountOverlaps(pushes), Longest(pushes).best, Longest(pushes).length)
  }

  /** One `collisionStep` of the polygon against the obstacles. */
  ghost function Scan(polygon: Polygon, obstacles: seq<Polygon>): ScanResult
    requires WellFormed(polygon) && AllWellFormed(obstacles)
  {
    ScanPushes(Pushes(polygon, obstacles))
  }

  /** The indices at which there is a push vector. */
  ghost function Overlaps(pushes: seq<Option<Vector2>>): set<int> {
    set i | 0 <= i < |pushes| && pushes[i].Some?
  }

  ghost predicate NonZero(pushes: seq<Option<Vector2>>) {
    forall i :: 0 <= i < |pushes| && pushes[i].Some? ==> SqLength(pushes[i].value) > 0.0
  }

  /** Push vector `k` is of greatest squared length, and no earlier one is as long. */
  ghost predicate FirstLongest(pushes: seq<Option<Vector2>>, k: nat) {
    && k < |pushes|
    && pushes[k].Some?
    && (forall j :: 0 <= j < |pushes| && pushes[j].Some? ==> SqLength(pushes[j].value) <= SqLength(pushes[k].value))
    && (forall j :: 0 <= j < k && pushes[j].Some? ==> SqLength(pushes[j].value) < SqLength(pushes[k].value))
  }

  /** SAT never returns the zero vector, so neither does any step's scan. */
  lemma PushesNonZero(polygon: Polygon, obstacles: seq<Polygon>)
    requires WellFormed(polygon) && AllWellFormed(obstacles)
    ensures NonZero(Pushes(polygon, obstacles))
  {
    forall i | 0 <= i < |obstacles| && SatSpec(polygon, obstacles[i]).Some?
      ensures SqLength(SatSpec(polygon, obstacles[i]).value) > 0.0
    {
      SatMinimal(polygon, obstacles[i]);
    }
  }

  /** The step returns the number of overlapping obstacles. */
  lemma {:induction false} ScanCount(pushes: seq<Option<Vector2>>)
    ensures CountOverlaps(pushes) == |Overlaps(pushes)|
    decreases |pushes|
  {
    if pushes != [] {
      var n := |pushes|;
      ScanCount(pushes[..n - 1]);
      OverlapsSnoc(pushes);
    }
  }

  /** The overlap indices of a sequence: those of all but its last result, and the last index if it overlaps. */
  lemma OverlapsSnoc(pushes: seq<Option<Vector2>>)
    requires pushes != []
    ensures var n := |pushes|;
      && n - 1 !in Overlaps(pushes[..n - 1])
      && Overlaps(pushes) == Overlaps(pushes[..n - 1]) + (if pushes[n - 1].Some? then {n - 1} else {})
  {
    var n := |pushes|;
    var init := pushes[..n - 1];
    forall i ensures i in Overlaps(pushes) <==> i in Overlaps(init) + (if pushes[n - 1].Some? then {n - 1} else {}) {
      if 0 <= i < n - 1 {
        assert init[i] == pushes[i];
      }
    }
  }

  /**
    The kept push vector is the first longest one; there is one exactly when
    some obstacle overlaps, because no push vector is zero.
  */
  lemma {:induction false} ScanBestNone(pushes: seq<Option<Vector2>>)
    requires NonZero(pushes)
    ensures var kept := Longest(pushes);
      && (kept.best.None? <==> Overlaps(pushes) == {})
      && (kept.best.None? ==> kept.length == 0.0)
      && (kept.best.Some? ==> kept.length == SqLength(kept.best.value))
    decreases |pushes|
  {
    if pushes != [] {
      var n := |pushes|;
      var init := pushes[..n - 1];
      assert forall i :: 0 <= i < n - 1 ==> init[i] == pushes[i];
      ScanBestNone(init);
      if pushes[n - 1].Some? {
        assert n - 1 in Overlaps(pushes);
      } else {
        forall i ensures i in Overlaps(pushes) <==> i in Overlaps(init) {
          if 0 <= i < n - 1 { assert init[i] == pushes[i]; }
        }
      }
    }
  }

  lemma {:induction false} ScanBest(pushes: seq<Option<Vector2>>)
    requires NonZero(pushes)
    ensures var kept := Longest(pushes);
      kept.best.Some? ==> exists k: nat :: FirstLongest(pushes, k) && kept.best == pushes[k]
    decreases |pushes|
  {
    if pushes != [] {
      var n := |pushes|;
      var init := pushes[..n - 1];
      assert forall i :: 0 <= i < n - 1 ==> init[i] == pushes[i];
      ScanBest(init);
      ScanBestNone(init);
      var r := Longest(init);
      if pushes[n - 1].Some? && r.length < SqLength(pushes[n - 1].value) {
        if r.best.Some? {
          var k: nat :| FirstLongest(init, k) && r.best == init[k];
        } else {
          forall j | 0 <= j < n - 1 ensures init[j].None? {
            assert j !in Overlaps(init);
          }
        }
        assert FirstLongest(pushes, n - 1);
      } else if r.best.Some? {
        var k: nat :| FirstLongest(init, k) && r.best == init[k];
        assert FirstLongest(pushes, k);
      }
    }
  }

  /** A step keeps a push vector exactly when it counted an overlap. */
  lemma ScanMoves(polygon: Polygon, obstacles: seq<Polygon>)
    requires WellFormed(polygon) && AllWellFormed(obstacles)
    ensures Scan(polygon, obstacles).best.Some? <==> Scan(polygon, obstacles).count != 0
  {
    var pushes := Pushes(polygon, obstacles);
    PushesNonZero(polygon, obstacles);
    ScanCount(pushes);
    ScanBestNone(pushes);
  }

  /** Where one step leaves the active collider: moved against the kept push vector, if any. */
  ghost function Moved(offset: Vector2, r: ScanResult): Vector2 {
    if r.best.Some? then Sub(offset, r.best.value) else offset
  }

  /**
    The outcome of `checkCollision`: the final offset, whether any step
    applied a correction, and the value every `collisionStep` returned.
  */
  datatype Resolution = Resolution(offset: Vector2, collided: bool, counts: seq<nat>)

  /**
    The correction loop with `budget` further iterations allowed after the
    current step: the step always runs, and the loop goes on only when the
    step found an overlap and the budget is not spent.
  */
  ghost function Resolve(shape: Polygon, offset: Vector2, obstacles: seq<Polygon>, budget: nat): Resolution
    requires WellFormed(shape) && AllWellFormed(obstacles)
    decreases budget
  {
    var r := Scan(ToWorldPolygon(shape, offset), obstacles);
    var next := Moved(offset, r);
    if r.count == 0 || budget == 0 then Resolution(next, r.best.Some?, [r.count])
    else
      var rest := Resolve(shape, next, obstacles, budget - 1);
      Resolution(rest.offset, r.best.Some? || rest.collided, [r.count] + rest.counts)
  }

  /**
    A run of `collisionStep`: the first step scans at the first offset and
    leaves the collider at the second, and so on.
  */
  ghost predicate Walk(shape: Polygon, obstacles: seq<Polygon>, offsets: seq<Vector2>, steps: seq<ScanResult>)
    requires WellFormed(shape) && AllWellFormed(obstacles)
    decreases |steps|
  {
    if steps == [] then |offsets| == 1
    else
      && |offsets| == |steps| + 1
      && steps[0] == Scan(ToWorldPolygon(shape, offsets[0]), obstacles)
      && offsets[1] == Moved(offsets[0], steps[0])
      && Walk(shape, obstacles, offsets[1..], steps[1..])
  }

  /** Whether some step of the run applied a correction. */
  ghost function Collided(steps: seq<ScanResult>): bool
    decreases |steps|
  {
    steps != [] && (steps[0].best.Some? || Collided(steps[1..]))
  }

  lemma {:induction false} CollidedAppend(steps: seq<ScanResult>, step: ScanResult)
    ensures Collided(steps + [step]) == (Collided(steps) || step.best.Some?)
    decreases |steps|
  {
    if steps != [] {
      assert (steps + [step])[1..] == steps[1..] + [step];
      CollidedAppend(steps[1..], step);
    }
  }

  /** One more step at the offset the run has reached. */
  lemma {:induction false} WalkExtend(shape: Polygon, obstacles: seq<Polygon>, offsets: seq<Vector2>,
                                      steps: seq<ScanResult>, step: ScanResult)
    requires WellFormed(shape) && AllWellFormed(obstacles)
    requires Walk(shape, obstacles, offsets, steps)
    requires step == Scan(ToWorldPolygon(shape, offsets[|steps|]), obstacles)
    ensures Walk(shape, obstacles, offsets + [Moved(offsets[|steps|], step)], steps + [step])
    decreases |steps|
  {
    var next := Moved(offsets[|steps|], step);
    if steps != [] {
      WalkLength(shape, obstacles, offsets[1..], steps[1..]);
      WalkExtend(shape, obstacles, offsets[1..], steps[1..], step);
      assert (offsets + [next])[1..] == offsets[1..] + [next];
      assert (steps + [step])[1..] == steps[1..] + [step];
    } else {
      assert Walk(shape, obstacles, [next], []);
    }
  }

  lemma WalkLength(shape: Polygon, obstacles: seq<Polygon>, offsets: seq<Vector2>, steps: seq<ScanResult>)
    requires WellFormed(shape) && AllWellFormed(obstacles)
    requires Walk(shape, obstacles, offsets, steps)
    ensures |offsets| == |steps| + 1
  {
  }

  /**
    A run that stops at the first step finding nothing, or after
    `budget + 1` steps, is the loop `Resolve` describes.
  */
  lemma {:induction false} WalkResolves(shape: Polygon, obstacles: seq<Polygon>, offsets: seq<Vector2>,
                                        steps: seq<ScanResult>, counts: seq<nat>, budget: nat)
    requires WellFormed(shape) && AllWellFormed(obstacles)
    requires Walk(shape, obstacles, offsets, steps)
    requires 1 <= |steps| <= budget + 1
    requires forall j :: 0 <= j < |steps| - 1 ==> steps[j].count != 0
    requires steps[|steps| - 1].count == 0 || |steps| == budget + 1
    requires |counts| == |steps| && forall j :: 0 <= j < |steps| ==> counts[j] == steps[j].count
    ensures Resolve(shape, offsets[0], obstacles, budget) == Resolution(offsets[|steps|], Collided(steps), counts)
    decreases budget
  {
    if |steps| == 1 {
      assert counts == [steps[0].count];
    } else {
      assert steps[0].count != 0;
      WalkResolves(shape, obstacles, offsets[1..], steps[1..], counts[1..], budget - 1);
      assert counts == [counts[0]] + counts[1..];
    }
  }

  /**
    The step values of a loop with `budget` further iterations allowed: at
    least one step and at most `budget + 1`; every step but the last found an
    overlap, and the last found none unless the budget ran out.
  */
  ghost predicate StepCounts(counts: seq<nat>, budget: nat) {
    && 1 <= |counts| <= budget + 1
    && (forall i :: 0 <= i < |counts| - 1 ==> counts[i] != 0)
    && (counts[|counts| - 1] == 0 || |counts| == budget + 1)
  }

  /** A step that found an overlap, followed by the steps of the loop with one iteration fewer. */
  lemma StepCountsCons(count: nat, rest: seq<nat>, budget: nat)
    requires count != 0 && budget != 0 && StepCounts(rest, budget - 1)
    ensures StepCounts([count] + rest, budget)
  {
    var counts := [count] + rest;
    forall i | 0 <= i < |counts| - 1 ensures counts[i] != 0 {
      if i > 0 { assert counts[i] == rest[i - 1]; }
    }
    assert counts[|counts| - 1] == rest[|rest| - 1];
  }

  /**
    The loop runs at least once and at most `budget + 1` times; every step but
    the last found an overlap, and the last found none unless the budget ran out.
  */
  lemma {:induction false} ResolveSteps(shape: Polygon, offset: Vector2, obstacles: seq<Polygon>, budget: nat)
    requires WellFormed(shape) && AllWellFormed(obstacles)
    ensures StepCounts(Resolve(shape, offset, obstacles, budget).counts, budget)
    decreases budget
  {
    var r := Scan(ToWorldPolygon(shape, offset), obstacles);
    if r.count != 0 && budget != 0 {
      var next := Moved(offset, r);
      ResolveSteps(shape, next, obstacles, budget - 1);
      StepCountsCons(r.count, Resolve(shape, next, obstacles, budget - 1).counts, budget);
    } else {
      assert StepCounts([r.count], budget);
    }
  }

  /** A step counts no overlap exactly when SAT separates the polygon from every obstacle. */
  lemma ScanFindsNothing(polygon: Polygon, obstacles: seq<Polygon>)
    requires WellFormed(polygon) && AllWellFormed(obstacles)
    ensures Scan(polygon, obstacles).count == 0 <==>
      forall i :: 0 <= i < |obstacles| ==> SatSpec(polygon, obstacles[i]).None?
  {
    var pushes := Pushes(polygon, obstacles);
    ScanCount(pushes);
    if Scan(polygon, obstacles).count == 0 {
      forall i | 0 <= i < |obstacles| ensures SatSpec(polygon, obstacles[i]).None? {
        assert i !in Overlaps(pushes);
      }
    } else {
      var i :| i in Overlaps(pushes);
      assert SatSpec(polygon, obstacles[i]).Some?;
    }
  }

  /** When the last step counted nothing, it ran at the final offset and left it unchanged. */
  lemma {:induction false} ResolveEndsQuiet(shape: Polygon, offset: Vector2, obstacles: seq<Polygon>, budget: nat)
    requires WellFormed(shape) && AllWellFormed(obstacles)
    ensures var res := Resolve(shape, offset, obstacles, budget);
      res.counts[|res.counts| - 1] == 0 ==> Scan(ToWorldPolygon(shape, res.offset), obstacles).count == 0
    decreases budget
  {
    var r := Scan(ToWorldPolygon(shape, offset), obstacles);
    if r.count == 0 {
      ScanMoves(ToWorldPolygon(shape, offset), obstacles);
    } else if budget != 0 {
      var next := Moved(offset, r);
      ResolveEndsQuiet(shape, next, obstacles, budget - 1);
      var res, rest := Resolve(shape, offset, obstacles, budget), Resolve(shape, next, obstacles, budget - 1);
      assert res.counts == [r.count] + rest.counts;
    }
  }

  /**
    When the loop stops because a step found no overlap, SAT finds no
    obstacle overlapping the collider where it rests.
  */
  lemma ResolveSettles(shape: Polygon, offset: Vector2, obstacles: seq<Polygon>, budget: nat)
    requires WellFormed(shape) && AllWellFormed(obstacles)
    ensures var res := Resolve(shape, offset, obstacles, budget);
      res.counts[|res.counts| - 1] == 0 ==>
        forall i :: 0 <= i < |obstacles| ==> SatSpec(ToWorldPolygon(shape, res.offset), obstacles[i]).None?
  {
    ResolveEndsQuiet(shape, offset, obstacles, budget);
    ScanFindsNothing(ToWorldPolygon(shape, Resolve(shape, offset, obstacles, budget).offset), obstacles);
  }

  /** A collider that overlaps nothing is not moved, and the loop stops after one step. */
  lemma ResolveAtRest(shape: Polygon, offset: Vector2, obstacles: seq<Polygon>, budget: nat)
    requires WellFormed(shape) && AllWellFormed(obstacles)
    requires forall i :: 0 <= i < |obstacles| ==> SatSpec(ToWorldPolygon(shape, offset), obstacles[i]).None?
    ensures Resolve(shape, offset, obstacles, budget) == Resolution(offset, false, [0])
  {
    var world := ToWorldPolygon(shape, offset);
    ScanFindsNothing(world, obstacles);
    ScanMoves(world, obstacles);
  }

  /** A correction is applied exactly when the first step finds an overlap. */
  lemma ResolveCollided(shape: Polygon, offset: Vector2, obstacles: seq<Polygon>, budget: nat)
    requires WellFormed(shape) && AllWellFormed(obstacles)
    ensures var res := Resolve(shape, offset, obstacles, budget);
      res.collided <==> res.counts[0] != 0
  {
    ScanMoves(ToWorldPolygon(shape, offset), obstacles);
  }
}
