/**
 * The scrolling elevator shaft: a column of level segments that moves up past
 * the player. Each frame the shaft shifts every segment, retires the segments
 * that have left the top of the required range, and stacks randomly chosen new
 * segments underneath until the column reaches below the required bottom.
 *
 * Segments and prefabs are plain records. The engine objects behind them
 * (instantiation, destruction, parenting) are not modelled; a segment's
 * identity is its serial number `id`.
 */
module Shaft {
  import opened Wrappers
  import opened EngineMath
  import opened FloorObstacles

  /** The y coordinates of one mesh's bounds corners, already transformed into segment space. */
  datatype MeshCorners = MeshCorners(minCornerY: real, maxCornerY: real)

  /**
   * A segment prefab: the meshes and obstacles it is built from, and the two
   * facts the prefab analysis records about it.
   */
  datatype SegmentPrefab = SegmentPrefab(
    meshes: seq<MeshCorners>,
    obstacles: seq<ObstacleTemplate>,
    analyzedSegmentLocalBounds: YBounds,
    analyzedSegmentContainsObstacle: bool)

  /**
   * A live segment: its serial number, its local height in the shaft, the
   * random yaw it was spawned with (in quarter turns) and its source prefab.
   */
  datatype SegmentInstance = SegmentInstance(id: nat, y: real, quarterTurns: nat, sourcePrefab: SegmentPrefab)
  {
    /** The lowest point of the segment in shaft space. */
    function Bottom(): real
    {
      y + sourcePrefab.analyzedSegmentLocalBounds.min
    }

    /** The prefab's bounds moved to where the segment is. */
    function Bounds(): (b: YBounds)
      ensures b.min == Bottom()
      ensures b.Height() == sourcePrefab.analyzedSegmentLocalBounds.Height()
    {
      sourcePrefab.analyzedSegmentLocalBounds.Translate(y)
    }
  }

  /** Identifies one obstacle: the segment that holds it and its position among the segment's obstacles. */
  datatype ObstacleRef = ObstacleRef(segmentId: nat, index: nat)

  /** An obstacle as the platform sees it: where it is in the world and what it demands. */
  datatype Obstacle = Obstacle(
    ref: ObstacleRef,
    y: real,
    requiredPlatformShape: PlatformShape,
    allOrientationsAccepted: bool)

  // ---------------------------------------------------------------------
  // Prefab analysis
  // ---------------------------------------------------------------------

  /** One mesh's box in segment space: it starts as the zero box at the origin and takes in both corners. */
  function MeshBounds(m: MeshCorners): YBounds
  {
    ZeroBounds.EncapsulatePoint(m.minCornerY).EncapsulatePoint(m.maxCornerY)
  }

  /** The analysed local bounds of a prefab: the zero box grown to hold every mesh box, in order. */
  function AnalyzedBounds(meshes: seq<MeshCorners>): YBounds
  {
    if meshes == [] then ZeroBounds
    else AnalyzedBounds(meshes[..|meshes| - 1]).Encapsulate(MeshBounds(meshes[|meshes| - 1]))
  }

  /**
   * The analysed bounds are the least y range that holds the origin and every
   * mesh corner: each end is 0 or one of the corners.
   */
  lemma {:induction false} AnalyzedBoundsSpan(meshes: seq<MeshCorners>)
    ensures var b := AnalyzedBounds(meshes);
      && b.min <= 0.0 <= b.max
      && (forall i | 0 <= i < |meshes| ::
            b.min <= meshes[i].minCornerY <= b.max && b.min <= meshes[i].maxCornerY <= b.max)
      && (b.min == 0.0 || exists i | 0 <= i < |meshes| ::
            b.min == meshes[i].minCornerY || b.min == meshes[i].maxCornerY)
      && (b.max == 0.0 || exists i | 0 <= i < |meshes| ::
            b.max == meshes[i].minCornerY || b.max == meshes[i].maxCornerY)
  {
    if meshes != [] {
      var init := meshes[..|meshes| - 1];
      AnalyzedBoundsSpan(init);
      assert forall i | 0 <= i < |init| :: init[i] == meshes[i];
    }
  }

  /** A prefab without any mesh has zero height, so the analysis rejects it. */
  lemma MeshlessPrefabIsRejected(p: SegmentPrefab)
    requires p.meshes == []
    ensures AnalyzedBounds(p.meshes).Height() < Epsilon
  {
  }

  /** What a successful analysis of one prefab records. */
  function Analyzed(p: SegmentPrefab): SegmentPrefab
  {
    p.(analyzedSegmentLocalBounds := AnalyzedBounds(p.meshes),
       analyzedSegmentContainsObstacle := |p.obstacles| > 0)
  }

  /** The height check the analysis applies: every segment is at least Epsilon tall. */
  predicate HasValidHeight(p: SegmentPrefab)
  {
    p.analyzedSegmentLocalBounds.Height() >= Epsilon
  }

  // ---------------------------------------------------------------------
  // The three passes of AdvanceShaft, as functions of the segment list
  // ---------------------------------------------------------------------

  /** First pass: every segment moved up by `d`. */
  function Shifted(segs: seq<SegmentInstance>, d: real): (r: seq<SegmentInstance>)
    ensures |r| == |segs|
    ensures forall k | 0 <= k < |segs| ::
      && r[k].y == segs[k].y + d
      && r[k].Bottom() == segs[k].Bottom() + d
      && r[k].id == segs[k].id
      && r[k].quarterTurns == segs[k].quarterTurns
      && r[k].sourcePrefab == segs[k].sourcePrefab
  {
    seq(|segs|, k requires 0 <= k < |segs| => segs[k].(y := segs[k].y + d))
  }

  /** Two shifts add up, and a zero shift changes nothing. */
  lemma ShiftedComposes(segs: seq<SegmentInstance>, d1: real, d2: real)
    ensures Shifted(Shifted(segs, d1), d2) == Shifted(segs, d1 + d2)
    ensures Shifted(segs, 0.0) == segs
  {
    assert forall k | 0 <= k < |segs| :: Shifted(segs, 0.0)[k] == segs[k];
  }

  /** A segment is retired once its bottom has risen above the required top. */
  predicate Retires(seg: SegmentInstance, topY: real)
  {
    seg.Bottom() > topY
  }

  /** Second pass: the segments that are not retired, in their original order. */
  function Retained(segs: seq<SegmentInstance>, topY: real): seq<SegmentInstance>
  {
    if segs == [] then []
    else
      var last := segs[|segs| - 1];
      Retained(segs[..|segs| - 1], topY) + (if Retires(last, topY) then [] else [last])
  }

  /** Where the segment at index `i` lands after the retire pass: the number of survivors before it. */
  function Rank(segs: seq<SegmentInstance>, topY: real, i: nat): nat
    requires i <= |segs|
  {
    |Retained(segs[..i], topY)|
  }

  /** A segment survives the retire pass exactly when its bottom is at or below the required top. */
  lemma {:induction false} RetainedMembers(segs: seq<SegmentInstance>, topY: real)
    ensures forall x :: x in Retained(segs, topY) <==> x in segs && x.Bottom() <= topY
  {
    if segs != [] {
      var init := segs[..|segs| - 1];
      RetainedMembers(init, topY);
      assert segs == init + [segs[|segs| - 1]];
    }
  }

  /** Retiring from a shorter prefix gives a prefix of the result for a longer one. */
  lemma {:induction false} RetainedPrefix(segs: seq<SegmentInstance>, topY: real, i: nat, j: nat)
    requires i <= j <= |segs|
    ensures Retained(segs[..i], topY) <= Retained(segs[..j], topY)
    decreases j - i
  {
    if i < j {
      RetainedPrefix(segs, topY, i, j - 1);
      assert segs[..j][..j - 1] == segs[..j - 1];
    }
  }

  /** Examining one more segment either keeps it at the end of the survivors or drops it. */
  lemma RetainedStep(segs: seq<SegmentInstance>, topY: real, i: nat)
    requires i < |segs|
    ensures Retained(segs[..i + 1], topY) ==
            Retained(segs[..i], topY) + (if Retires(segs[i], topY) then [] else [segs[i]])
  {
    assert segs[..i + 1][..i] == segs[..i];
  }

  /** The retire pass keeps no segment that was not there before, so a bound on the serial numbers survives it. */
  lemma RetainedIdsBelow(segs: seq<SegmentInstance>, topY: real, bound: nat)
    requires forall k | 0 <= k < |segs| :: segs[k].id < bound
    ensures forall k | 0 <= k < |Retained(segs, topY)| :: Retained(segs, topY)[k].id < bound
  {
    RetainedMembers(segs, topY);
    forall k | 0 <= k < |Retained(segs, topY)|
      ensures Retained(segs, topY)[k].id < bound
    {
      assert Retained(segs, topY)[k] in segs;
    }
  }

  /** The retire pass keeps serial numbers distinct. */
  lemma {:induction false} RetainedDistinct(segs: seq<SegmentInstance>, topY: real)
    requires DistinctSerials(segs)
    ensures DistinctSerials(Retained(segs, topY))
  {
    if segs != [] {
      var init := segs[..|segs| - 1];
      var last := segs[|segs| - 1];
      assert DistinctSerials(init) by {
        assert forall k | 0 <= k < |init| :: init[k] == segs[k];
      }
      RetainedDistinct(init, topY);
      RetainedMembers(init, topY);
      var kept := Retained(init, topY);
      forall k | 0 <= k < |kept|
        ensures kept[k].id != last.id
      {
        assert kept[k] in init;
        var m :| 0 <= m < |init| && init[m] == kept[k];
        assert segs[m] == kept[k];
      }
    }
  }

  /** A surviving segment keeps its identity and lands at its rank. */
  lemma RetainedAt(segs: seq<SegmentInstance>, topY: real, i: nat)
    requires i < |segs| && !Retires(segs[i], topY)
    ensures Rank(segs, topY, i) < |Retained(segs, topY)|
    ensures Retained(segs, topY)[Rank(segs, topY, i)] == segs[i]
  {
    RetainedPrefix(segs, topY, i + 1, |segs|);
    assert segs[..i + 1][..i] == segs[..i];
    assert segs[..|segs|] == segs;
  }

  /** Survivors keep their relative order: a surviving segment lands before everything that followed it. */
  lemma RankOrder(segs: seq<SegmentInstance>, topY: real, i: nat, j: nat)
    requires i < j <= |segs| && !Retires(segs[i], topY)
    ensures Rank(segs, topY, i) < Rank(segs, topY, j)
  {
    RetainedPrefix(segs, topY, i + 1, j);
    assert segs[..i + 1][..i] == segs[..i];
  }

  /** The shaft bounds accumulator: the zero box at the origin grown by every segment's bounds, in order. */
  function ShaftBounds(segs: seq<SegmentInstance>): YBounds
  {
    if segs == [] then ZeroBounds
    else ShaftBounds(segs[..|segs| - 1]).Encapsulate(segs[|segs| - 1].Bounds())
  }

  /**
   * The lower end of the shaft bounds is the minimum of 0 and every segment
   * bottom; in particular it is never above 0.
   */
  lemma {:induction false} ShaftBoundsLowest(segs: seq<SegmentInstance>)
    ensures ShaftBounds(segs).min <= 0.0
    ensures forall k | 0 <= k < |segs| :: ShaftBounds(segs).min <= segs[k].Bottom()
    ensures ShaftBounds(segs).min == 0.0 ||
            exists k | 0 <= k < |segs| :: ShaftBounds(segs).min == segs[k].Bottom()
  {
    if segs != [] {
      var init := segs[..|segs| - 1];
      ShaftBoundsLowest(init);
      assert forall k | 0 <= k < |init| :: init[k] == segs[k];
    }
  }

  /**
   * A segment placed with its top flush against the current lowest bound
   * lowers that bound by exactly the segment's height.
   */
  lemma ShaftBoundsStacked(segs: seq<SegmentInstance>, seg: SegmentInstance)
    requires seg.y == ShaftBounds(segs).min - seg.sourcePrefab.analyzedSegmentLocalBounds.max
    requires seg.sourcePrefab.analyzedSegmentLocalBounds.Height() >= 0.0
    ensures seg.Bounds().max == ShaftBounds(segs).min
    ensures ShaftBounds(segs + [seg]).min ==
            ShaftBounds(segs).min - seg.sourcePrefab.analyzedSegmentLocalBounds.Height()
  {
    assert (segs + [seg])[..|segs|] == segs;
  }

  /**
   * Third pass, as a property of the final list: every segment from index
   * `from` on was appended by the refill. Each sits flush below everything
   * before it, was added only while the shaft did not yet reach `bottomY`,
   * comes from one of `prefabs` with a yaw of 0, 90, 180 or 270 degrees, and
   * has the next fresh serial number.
   */
  ghost predicate StackedFrom(
    segs: seq<SegmentInstance>, from: nat, bottomY: real, prefabs: seq<SegmentPrefab>, firstId: nat)
  {
    if |segs| <= from then |segs| == from
    else
      var init := segs[..|segs| - 1];
      var seg := segs[|segs| - 1];
      && StackedFrom(init, from, bottomY, prefabs, firstId)
      && seg.y == ShaftBounds(init).min - seg.sourcePrefab.analyzedSegmentLocalBounds.max
      && ShaftBounds(init).min > bottomY
      && seg.sourcePrefab in prefabs
      && seg.quarterTurns < 4
      && seg.id == firstId + (|init| - from)
  }

  /** The refill property segment by segment: what holds of each appended segment at its index. */
  lemma {:induction false} StackedFromAt(
    segs: seq<SegmentInstance>, from: nat, bottomY: real, prefabs: seq<SegmentPrefab>, firstId: nat)
    requires StackedFrom(segs, from, bottomY, prefabs, firstId)
    ensures from <= |segs|
    ensures forall k | from <= k < |segs| ::
      && segs[k].y == ShaftBounds(segs[..k]).min - segs[k].sourcePrefab.analyzedSegmentLocalBounds.max
      && ShaftBounds(segs[..k]).min > bottomY
      && segs[k].sourcePrefab in prefabs
      && segs[k].quarterTurns < 4
      && segs[k].id == firstId + (k - from)
  {
    if |segs| > from {
      var init := segs[..|segs| - 1];
      StackedFromAt(init, from, bottomY, prefabs, firstId);
      forall k | from <= k < |segs|
        ensures segs[k].y == ShaftBounds(segs[..k]).min - segs[k].sourcePrefab.analyzedSegmentLocalBounds.max
        ensures ShaftBounds(segs[..k]).min > bottomY
        ensures segs[k].sourcePrefab in prefabs && segs[k].quarterTurns < 4 && segs[k].id == firstId + (k - from)
      {
        if k < |init| {
          assert init[k] == segs[k] && init[..k] == segs[..k];
        } else {
          assert segs[..k] == init;
        }
      }
    }
  }

  /** A bound on the number of refill steps still needed while each step lowers the shaft by at least Epsilon. */
  function RefillMeasure(lowestY: real, bottomY: real): nat
  {
    if lowestY <= bottomY then 0 else ((lowestY - bottomY) / Epsilon).Floor + 1
  }

  /** Lowering the shaft by a valid segment height strictly decreases the refill measure. */
  lemma RefillMeasureDecreases(lowestY: real, bottomY: real, height: real)
    requires lowestY > bottomY && height >= Epsilon
    ensures RefillMeasure(lowestY - height, bottomY) < RefillMeasure(lowestY, bottomY)
  {
    var a := (lowestY - bottomY) / Epsilon;
    var b := (lowestY - height - bottomY) / Epsilon;
    assert height / Epsilon >= 1.0;
    assert b == a - height / Epsilon;
    assert b <= a - 1.0;
    assert b.Floor <= (a - 1.0).Floor;
    assert (a - 1.0).Floor == a.Floor - 1;
  }

  // ---------------------------------------------------------------------
  // Obstacles carried by the segments
  // ---------------------------------------------------------------------

  /** The obstacles of one segment, in the order the segment holds them, at their world heights. */
  function SegmentObstacles(originY: real, seg: SegmentInstance): seq<Obstacle>
  {
    var templates := seg.sourcePrefab.obstacles;
    seq(|templates|, i requires 0 <= i < |templates| =>
      Obstacle(ObstacleRef(seg.id, i), originY + seg.y + templates[i].localY,
               templates[i].requiredPlatformShape, templates[i].allOrientationsAccepted))
  }

  /** Every obstacle of every segment whose prefab is flagged as holding one, segment by segment. */
  function ObstaclesToVisit(originY: real, segs: seq<SegmentInstance>): seq<Obstacle>
  {
    if segs == [] then []
    else
      var last := segs[|segs| - 1];
      ObstaclesToVisit(originY, segs[..|segs| - 1]) +
        (if last.sourcePrefab.analyzedSegmentContainsObstacle then SegmentObstacles(originY, last) else [])
  }

  /** The obstacles to visit are exactly the obstacles of the segments flagged as holding one. */
  lemma {:induction false} ObstaclesToVisitMembers(originY: real, segs: seq<SegmentInstance>)
    ensures forall o :: o in ObstaclesToVisit(originY, segs) <==>
      exists k, i | 0 <= k < |segs| && 0 <= i < |segs[k].sourcePrefab.obstacles| ::
        segs[k].sourcePrefab.analyzedSegmentContainsObstacle && o == SegmentObstacles(originY, segs[k])[i]
  {
    if segs != [] {
      var init := segs[..|segs| - 1];
      var last := segs[|segs| - 1];
      ObstaclesToVisitMembers(originY, init);
      assert forall k | 0 <= k < |init| :: init[k] == segs[k];
      forall o | o in ObstaclesToVisit(originY, segs)
        ensures exists k, i | 0 <= k < |segs| && 0 <= i < |segs[k].sourcePrefab.obstacles| ::
          segs[k].sourcePrefab.analyzedSegmentContainsObstacle && o == SegmentObstacles(originY, segs[k])[i]
      {
        if o !in ObstaclesToVisit(originY, init) {
          var i :| 0 <= i < |SegmentObstacles(originY, last)| && SegmentObstacles(originY, last)[i] == o;
          assert segs[|segs| - 1] == last;
        }
      }
      forall o | exists k, i | 0 <= k < |segs| && 0 <= i < |segs[k].sourcePrefab.obstacles| ::
          segs[k].sourcePrefab.analyzedSegmentContainsObstacle && o == SegmentObstacles(originY, segs[k])[i]
        ensures o in ObstaclesToVisit(originY, segs)
      {
        var k, i :| 0 <= k < |segs| && 0 <= i < |segs[k].sourcePrefab.obstacles| &&
          segs[k].sourcePrefab.analyzedSegmentContainsObstacle && o == SegmentObstacles(originY, segs[k])[i];
        if k < |init| {
          assert o in ObstaclesToVisit(originY, init);
        } else {
          assert o in SegmentObstacles(originY, last);
        }
      }
    }
  }

  /** No two segments share a serial number. */
  predicate DistinctSerials(segs: seq<SegmentInstance>)
  {
    forall i, j | 0 <= i < j < |segs| :: segs[i].id != segs[j].id
  }

  /** Appending a segment with the next serial keeps serials issued and distinct. */
  lemma AppendFreshSerial(segs: seq<SegmentInstance>, seg: SegmentInstance, nextId: nat)
    requires forall k | 0 <= k < |segs| :: segs[k].id < nextId
    requires DistinctSerials(segs) && seg.id == nextId
    ensures forall k | 0 <= k < |segs + [seg]| :: (segs + [seg])[k].id < nextId + 1
    ensures DistinctSerials(segs + [seg])
  {
  }

  /**
   * Follows a stored obstacle reference: the obstacle if the first segment
   * with that serial number is still in the shaft and has that obstacle, and
   * None once the segment has been retired (a destroyed object reads as null).
   */
  function ResolveObstacle(originY: real, segs: seq<SegmentInstance>, ref: ObstacleRef): (r: Option<Obstacle>)
    ensures r.Some? ==> r.value.ref == ref
    ensures r.Some? ==> exists k | 0 <= k < |segs| ::
      segs[k].id == ref.segmentId && ref.index < |segs[k].sourcePrefab.obstacles| &&
      r.value == SegmentObstacles(originY, segs[k])[ref.index]
    ensures (forall k | 0 <= k < |segs| :: segs[k].id != ref.segmentId) ==> r.None?
  {
    if segs == [] then None
    else if segs[0].id == ref.segmentId then
      (if ref.index < |segs[0].sourcePrefab.obstacles| then Some(SegmentObstacles(originY, segs[0])[ref.index]) else None)
    else
      var r := ResolveObstacle(originY, segs[1..], ref);
      assert r.Some? ==> exists k | 0 <= k < |segs| ::
        segs[k].id == ref.segmentId && ref.index < |segs[k].sourcePrefab.obstacles| &&
        r.value == SegmentObstacles(originY, segs[k])[ref.index] by {
        if r.Some? {
          var k :| 0 <= k < |segs[1..]| && segs[1..][k].id == ref.segmentId &&
            ref.index < |segs[1..][k].sourcePrefab.obstacles| &&
            r.value == SegmentObstacles(originY, segs[1..][k])[ref.index];
          assert segs[k + 1] == segs[1..][k];
        }
      }
      assert (forall k | 0 <= k < |segs| :: segs[k].id != ref.segmentId) ==> r.None? by {
        assert forall k | 0 <= k < |segs[1..]| :: segs[1..][k] == segs[k + 1];
      }
      r
  }

  /**
   * A reference to an obstacle of the first segment with that serial number
   * resolves to that obstacle, or to nothing if the segment has no obstacle
   * at that index.
   */
  lemma {:induction false} ResolveObstacleFirstMatch(originY: real, segs: seq<SegmentInstance>, ref: ObstacleRef, k: nat)
    requires k < |segs| && segs[k].id == ref.segmentId
    requires forall j | 0 <= j < k :: segs[j].id != ref.segmentId
    ensures ResolveObstacle(originY, segs, ref) ==
      if ref.index < |segs[k].sourcePrefab.obstacles| then Some(SegmentObstacles(originY, segs[k])[ref.index]) else None
  {
    if k > 0 {
      assert segs[0].id != ref.segmentId;
      assert segs[1..][k - 1] == segs[k];
      assert forall j | 0 <= j < k - 1 :: segs[1..][j] == segs[j + 1];
      ResolveObstacleFirstMatch(originY, segs[1..], ref, k - 1);
    }
  }

  /**
   * While serial numbers are distinct, a reference to a segment still in the
   * shaft resolves to that segment's obstacle whenever it has one at that index.
   */
  lemma ResolveObstaclePresent(originY: real, segs: seq<SegmentInstance>, ref: ObstacleRef, k: nat)
    requires DistinctSerials(segs)
    requires k < |segs| && segs[k].id == ref.segmentId
    ensures ref.index < |segs[k].sourcePrefab.obstacles| ==>
      ResolveObstacle(originY, segs, ref) == Some(SegmentObstacles(originY, segs[k])[ref.index])
    ensures ref.index >= |segs[k].sourcePrefab.obstacles| ==> ResolveObstacle(originY, segs, ref) == None
  {
    ResolveObstacleFirstMatch(originY, segs, ref, k);
  }

  /**
   * Round trip: while serial numbers are distinct, the reference of any
   * obstacle to visit leads back to that very obstacle.
   */
  lemma ResolveVisitedObstacle(originY: real, segs: seq<SegmentInstance>, o: Obstacle)
    requires DistinctSerials(segs)
    requires o in ObstaclesToVisit(originY, segs)
    ensures ResolveObstacle(originY, segs, o.ref) == Some(o)
  {
    ObstaclesToVisitMembers(originY, segs);
    var k, i :| 0 <= k < |segs| && 0 <= i < |segs[k].sourcePrefab.obstacles| &&
      segs[k].sourcePrefab.analyzedSegmentContainsObstacle && o == SegmentObstacles(originY, segs[k])[i];
    assert o.ref == ObstacleRef(segs[k].id, i);
    ResolveObstacleFirstMatch(originY, segs, o.ref, k);
  }

  // ---------------------------------------------------------------------
  // The random source
  // ---------------------------------------------------------------------

  /**
   * The shaft's random number generator. Its draws come from an injected
   * oracle; `Next(n)` gives a value in [0, n), and 0 when n is 0.
   */
  class Randomizer {
    const oracle: nat -> nat
    var draws: nat

    constructor (oracle: nat -> nat)
      ensures this.oracle == oracle && draws == 0
    {
      this.oracle := oracle;
      draws := 0;
    }

    method Next(maxValue: nat) returns (r: nat)
      modifies this
      ensures draws == old(draws) + 1
      ensures maxValue == 0 ==> r == 0
      ensures maxValue > 0 ==> r < maxValue && r == oracle(old(draws)) % maxValue
    {
      r := if maxValue == 0 then 0 else oracle(draws) % maxValue;
      draws := draws + 1;
    }
  }

  // ---------------------------------------------------------------------
  // The shaft
  // ---------------------------------------------------------------------

  class ScrollingElevatorShaft {
    const segmentPrefabs: array<SegmentPrefab>
    const requiredShaftTopY: real
    const requiredShaftBottomY: real
    /** World height of the shaft's own origin; segment heights are relative to it. */
    const positionY: real
    const segmentRandomizer: Randomizer

    var segmentInstances: seq<SegmentInstance>
    /** The serial number the next spawned segment gets. */
    var nextSegmentId: nat

    /** Every prefab passed the height check, and the live segments carry distinct, already issued serial numbers. */
    ghost predicate Valid()
      reads this, segmentPrefabs
    {
      PrefabsAnalyzed() && SerialsIssued()
    }

    /** Every live segment has an already issued serial number, and no two share one. */
    ghost predicate SerialsIssued()
      reads this
    {
      && (forall k | 0 <= k < |segmentInstances| :: segmentInstances[k].id < nextSegmentId)
      && DistinctSerials(segmentInstances)
    }

    ghost predicate PrefabsAnalyzed()
      reads segmentPrefabs
    {
      forall i | 0 <= i < segmentPrefabs.Length :: HasValidHeight(segmentPrefabs[i])
    }

    constructor (
      segmentPrefabs: array<SegmentPrefab>, requiredShaftTopY: real, requiredShaftBottomY: real,
      positionY: real, segmentRandomizer: Randomizer)
      ensures this.segmentPrefabs == segmentPrefabs && this.segmentRandomizer == segmentRandomizer
      ensures this.requiredShaftTopY == requiredShaftTopY && this.requiredShaftBottomY == requiredShaftBottomY
      ensures this.positionY == positionY
      ensures segmentInstances == [] && nextSegmentId == 0
      ensures SerialsIssued()
    {
      this.segmentPrefabs := segmentPrefabs;
      this.requiredShaftTopY := requiredShaftTopY;
      this.requiredShaftBottomY := requiredShaftBottomY;
      this.positionY := positionY;
      this.segmentRandomizer := segmentRandomizer;
      segmentInstances := [];
      nextSegmentId := 0;
    }

    /**
     * Wake-up: analyse the prefabs. A shaft whose serial numbers are in order,
     * as a new one's are, is then ready to advance unless a prefab was rejected.
     */
    method Awake() returns (failedAt: Option<nat>)
      requires SerialsIssued()
      modifies segmentPrefabs
      ensures failedAt.None? ==> Valid()
      ensures failedAt.None? ==>
        forall i | 0 <= i < segmentPrefabs.Length :: segmentPrefabs[i] == Analyzed(old(segmentPrefabs[i]))
      ensures failedAt.Some? ==>
        var f := failedAt.value;
        && f < segmentPrefabs.Length
        && (forall i | 0 <= i < f ::
              segmentPrefabs[i] == Analyzed(old(segmentPrefabs[i])) && HasValidHeight(segmentPrefabs[i]))
        && segmentPrefabs[f] ==
           old(segmentPrefabs[f]).(analyzedSegmentLocalBounds := AnalyzedBounds(old(segmentPrefabs[f]).meshes))
        && !HasValidHeight(segmentPrefabs[f])
        && (forall i | f < i < segmentPrefabs.Length :: segmentPrefabs[i] == old(segmentPrefabs[i]))
    {
      failedAt := UpdateShaftSegmentPrefabs();
    }

    /**
     * The state AdvanceShaft leaves behind, given the segment list and the
     * next serial number it started from: the shifted survivors in their
     * order, then the stacked new segments, and, unless the refill failed,
     * a shaft that reaches below the required bottom. The refill fails only
     * when it needs a segment and there is no prefab to pick from.
     */
    ghost predicate AdvancedFrom(before: seq<SegmentInstance>, firstId: nat, movementDistance: real, completed: bool)
      reads this, segmentPrefabs
    {
      var kept := Retained(Shifted(before, movementDistance), requiredShaftTopY);
      && |kept| <= |segmentInstances|
      && segmentInstances[..|kept|] == kept
      && StackedFrom(segmentInstances, |kept|, requiredShaftBottomY, segmentPrefabs[..], firstId)
      && nextSegmentId == firstId + (|segmentInstances| - |kept|)
      && (completed ==> ShaftBounds(segmentInstances).min <= requiredShaftBottomY)
      && (!completed <==> segmentPrefabs.Length == 0 && ShaftBounds(kept).min > requiredShaftBottomY)
      && (!completed ==> segmentInstances == kept)
    }

    /** One advance of the shaft by `movementDistance`: shift, retire, refill. */
    method AdvanceShaft(movementDistance: real) returns (completed: bool)
      requires Valid()
      modifies this, segmentRandomizer
      ensures Valid()
      ensures AdvancedFrom(old(segmentInstances), old(nextSegmentId), movementDistance, completed)
    {
      ShiftSegments(movementDistance);
      RetireSegments();
      completed := CreateSegments();
    }

    /** First pass: advance all the existing shaft segments. */
    method ShiftSegments(movementDistance: real)
      requires SerialsIssued()
      modifies this`segmentInstances
      ensures SerialsIssued()
      ensures segmentInstances == Shifted(old(segmentInstances), movementDistance)
    {
      var i := 0;
      while i < |segmentInstances|
        invariant 0 <= i <= |segmentInstances| == |old(segmentInstances)|
        invariant forall k | 0 <= k < |segmentInstances| ::
          segmentInstances[k] ==
            if k < i then old(segmentInstances[k]).(y := old(segmentInstances[k]).y + movementDistance)
            else old(segmentInstances[k])
      {
        var segmentInstance := segmentInstances[i];
        segmentInstances := segmentInstances[i := segmentInstance.(y := segmentInstance.y + movementDistance)];
        i := i + 1;
      }
    }

    /**
     * Second pass: retire the segments that have moved out of range. The
     * index only advances past a segment that is kept, so every segment is
     * examined exactly once.
     */
    method RetireSegments()
      requires SerialsIssued()
      modifies this`segmentInstances
      ensures SerialsIssued()
      ensures segmentInstances == Retained(old(segmentInstances), requiredShaftTopY)
    {
      ghost var original := segmentInstances;
      ghost var examined := 0;
      var index := 0;
      while index < |segmentInstances|
        invariant 0 <= index <= |segmentInstances|
        invariant 0 <= examined <= |original|
        invariant segmentInstances[..index] == Retained(original[..examined], requiredShaftTopY)
        invariant segmentInstances[index..] == original[examined..]
        decreases |segmentInstances| - index
      {
        assert segmentInstances[index] == original[examined];
        RetainedStep(original, requiredShaftTopY, examined);
        var segmentInstance := segmentInstances[index];
        var segmentBottom := segmentInstance.y + segmentInstance.sourcePrefab.analyzedSegmentLocalBounds.min;
        if segmentBottom > requiredShaftTopY {
          segmentInstances := segmentInstances[..index] + segmentInstances[index + 1..];
          assert segmentInstances[index..] == original[examined + 1..];
        } else {
          assert segmentInstances[..index + 1] == segmentInstances[..index] + [segmentInstance];
          index := index + 1;
        }
        examined := examined + 1;
      }
      assert original[..examined] == original;
      RetainedIdsBelow(original, requiredShaftTopY, nextSegmentId);
      RetainedDistinct(original, requiredShaftTopY);
    }

    /**
     * Third pass: stack randomly chosen segments below the shaft until it
     * reaches below the required bottom. Fails, leaving the list as it was,
     * when a segment is needed and there is no prefab to pick from.
     */
    method CreateSegments() returns (completed: bool)
      requires Valid()
      modifies this`segmentInstances, this`nextSegmentId, segmentRandomizer
      ensures Valid()
      ensures |old(segmentInstances)| <= |segmentInstances|
      ensures segmentInstances[..|old(segmentInstances)|] == old(segmentInstances)
      ensures StackedFrom(segmentInstances, |old(segmentInstances)|, requiredShaftBottomY, segmentPrefabs[..],
                          old(nextSegmentId))
      ensures nextSegmentId == old(nextSegmentId) + (|segmentInstances| - |old(segmentInstances)|)
      ensures completed ==> ShaftBounds(segmentInstances).min <= requiredShaftBottomY
      ensures !completed <==>
              segmentPrefabs.Length == 0 && ShaftBounds(old(segmentInstances)).min > requiredShaftBottomY
      ensures !completed ==> segmentInstances == old(segmentInstances)
    {
      ghost var kept := segmentInstances;
      var shaftBounds := EncapsulateSegments();

      completed := true;
      while shaftBounds.min > requiredShaftBottomY
        invariant SerialsIssued()
        invariant |kept| <= |segmentInstances| && segmentInstances[..|kept|] == kept
        invariant StackedFrom(segmentInstances, |kept|, requiredShaftBottomY, segmentPrefabs[..], old(nextSegmentId))
        invariant nextSegmentId == old(nextSegmentId) + (|segmentInstances| - |kept|)
        invariant segmentPrefabs.Length == 0 ==> segmentInstances == kept
        invariant shaftBounds == ShaftBounds(segmentInstances)
        decreases RefillMeasure(shaftBounds.min, requiredShaftBottomY)
      {
        ghost var lowest := shaftBounds.min;
        label step:
        completed, shaftBounds := SpawnSegmentBelow(shaftBounds);
        if !completed {
          return;
        }
        assert segmentInstances[..|segmentInstances| - 1] == old@step(segmentInstances);
        assert RefillMeasure(shaftBounds.min, requiredShaftBottomY) < RefillMeasure(lowest, requiredShaftBottomY) by {
          RefillMeasureDecreases(lowest, requiredShaftBottomY, lowest - shaftBounds.min);
        }
      }
    }

    /**
     * One refill step: pick a random prefab and a random quarter-turn yaw,
     * and append a new segment whose top is flush with the current lowest
     * bound. Fails, changing nothing but the random source, when there is no
     * prefab to pick from.
     */
    method SpawnSegmentBelow(shaftBounds: YBounds) returns (spawned: bool, newBounds: YBounds)
      requires Valid() && shaftBounds == ShaftBounds(segmentInstances)
      modifies this`segmentInstances, this`nextSegmentId, segmentRandomizer
      ensures Valid()
      ensures !spawned <==> segmentPrefabs.Length == 0
      ensures !spawned ==> segmentInstances == old(segmentInstances) && nextSegmentId == old(nextSegmentId)
      ensures spawned ==>
        && nextSegmentId == old(nextSegmentId) + 1
        && |segmentInstances| == |old(segmentInstances)| + 1
        && segmentInstances[..|old(segmentInstances)|] == old(segmentInstances)
        && var seg := segmentInstances[|old(segmentInstances)|];
        && seg.id == old(nextSegmentId)
        && seg.y == shaftBounds.min - seg.sourcePrefab.analyzedSegmentLocalBounds.max
        && seg.sourcePrefab in segmentPrefabs[..]
        && seg.quarterTurns < 4
        && newBounds == ShaftBounds(segmentInstances)
        && newBounds.min == shaftBounds.min - seg.sourcePrefab.analyzedSegmentLocalBounds.Height()
        && newBounds.min <= shaftBounds.min - Epsilon
    {
      var prefabIndex := segmentRandomizer.Next(segmentPrefabs.Length);
      if prefabIndex >= segmentPrefabs.Length {
        // Indexing an empty prefab array throws.
        return false, shaftBounds;
      }
      var randomSegmentPrefab := segmentPrefabs[prefabIndex];
      var quarterTurns := segmentRandomizer.Next(4);
      var newSegmentPositionY := shaftBounds.min - randomSegmentPrefab.analyzedSegmentLocalBounds.max;
      var segmentInstance := SegmentInstance(nextSegmentId, newSegmentPositionY, quarterTurns, randomSegmentPrefab);
      assert HasValidHeight(segmentPrefabs[prefabIndex]);
      assert segmentPrefabs[..][prefabIndex] == randomSegmentPrefab;
      ShaftBoundsStacked(segmentInstances, segmentInstance);
      AppendSegment(segmentInstance);
      spawned, newBounds := true, shaftBounds.Encapsulate(segmentInstance.Bounds());
    }

    /** Adds a segment carrying the next serial number below the others. */
    method AppendSegment(segmentInstance: SegmentInstance)
      requires SerialsIssued() && segmentInstance.id == nextSegmentId
      modifies this`segmentInstances, this`nextSegmentId
      ensures SerialsIssued()
      ensures segmentInstances == old(segmentInstances) + [segmentInstance]
      ensures nextSegmentId == old(nextSegmentId) + 1
    {
      AppendFreshSerial(segmentInstances, segmentInstance, nextSegmentId);
      nextSegmentId := nextSegmentId + 1;
      segmentInstances := segmentInstances + [segmentInstance];
    }

    /** The bounds accumulator over the current segments, starting from the zero box at the origin. */
    method EncapsulateSegments() returns (shaftBounds: YBounds)
      ensures shaftBounds == ShaftBounds(segmentInstances)
    {
      shaftBounds := ZeroBounds;
      var j := 0;
      while j < |segmentInstances|
        invariant 0 <= j <= |segmentInstances|
        invariant shaftBounds == ShaftBounds(segmentInstances[..j])
      {
        assert segmentInstances[..j + 1][..j] == segmentInstances[..j];
        shaftBounds := shaftBounds.Encapsulate(segmentInstances[j].Bounds());
        j := j + 1;
      }
      assert segmentInstances[..j] == segmentInstances;
    }

    /**
     * The prefab analysis run on wake-up. Each prefab's bounds are computed
     * in place; the first prefab shorter than Epsilon stops the analysis with
     * an error, leaving its bounds written and its obstacle flag untouched.
     * Otherwise the prefab's obstacle flag records whether it holds an obstacle.
     */
    method UpdateShaftSegmentPrefabs() returns (failedAt: Option<nat>)
      modifies segmentPrefabs
      ensures failedAt.None? ==> PrefabsAnalyzed()
      ensures failedAt.None? ==>
        forall i | 0 <= i < segmentPrefabs.Length :: segmentPrefabs[i] == Analyzed(old(segmentPrefabs[i]))
      ensures failedAt.Some? ==>
        var f := failedAt.value;
        && f < segmentPrefabs.Length
        && (forall i | 0 <= i < f ::
              segmentPrefabs[i] == Analyzed(old(segmentPrefabs[i])) && HasValidHeight(segmentPrefabs[i]))
        && segmentPrefabs[f] ==
           old(segmentPrefabs[f]).(analyzedSegmentLocalBounds := AnalyzedBounds(old(segmentPrefabs[f]).meshes))
        && !HasValidHeight(segmentPrefabs[f])
        && (forall i | f < i < segmentPrefabs.Length :: segmentPrefabs[i] == old(segmentPrefabs[i]))
    {
      var i := 0;
      while i < segmentPrefabs.Length
        invariant 0 <= i <= segmentPrefabs.Length
        invariant forall k | 0 <= k < i ::
          segmentPrefabs[k] == Analyzed(old(segmentPrefabs[k])) && HasValidHeight(segmentPrefabs[k])
        invariant forall k | i <= k < segmentPrefabs.Length :: segmentPrefabs[k] == old(segmentPrefabs[k])
      {
        var segmentPrefab := segmentPrefabs[i];
        var bounds := ZeroBounds;
        var m := 0;
        while m < |segmentPrefab.meshes|
          invariant 0 <= m <= |segmentPrefab.meshes|
          invariant bounds == AnalyzedBounds(segmentPrefab.meshes[..m])
        {
          assert segmentPrefab.meshes[..m + 1][..m] == segmentPrefab.meshes[..m];
          var corners := segmentPrefab.meshes[m];
          var segmentSpaceMeshBounds := ZeroBounds;
          segmentSpaceMeshBounds := segmentSpaceMeshBounds.EncapsulatePoint(corners.minCornerY);
          segmentSpaceMeshBounds := segmentSpaceMeshBounds.EncapsulatePoint(corners.maxCornerY);
          bounds := bounds.Encapsulate(segmentSpaceMeshBounds);
          m := m + 1;
        }
        assert segmentPrefab.meshes[..m] == segmentPrefab.meshes;
        segmentPrefabs[i] := segmentPrefab.(analyzedSegmentLocalBounds := bounds);

        if bounds.Height() < Epsilon {
          return Some(i);
        }

        segmentPrefabs[i] := segmentPrefabs[i].(analyzedSegmentContainsObstacle := |segmentPrefab.obstacles| > 0);
        i := i + 1;
      }
      return None;
    }
  }
}
