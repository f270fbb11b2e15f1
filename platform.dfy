/**
 * The player's platform: it falls down the shaft (by moving the shaft up),
 * morphs between letter shapes on request, turns in quarter turns, and either
 * passes through or lands on the floor obstacles it reaches.
 *
 * The engine's per-frame inputs (buttons, axes, the frame time and the angles
 * read off the rotating platform) arrive as a `FrameInput`. Morph objects are
 * recorded as the shape prefab they were created from.
 */
module Platform {
  import opened Wrappers
  import opened EngineMath
  import opened FloorObstacles
  import opened Shaft

  /**
   * Which prefab displays a shape. A prefab is an opaque identifier; None is
   * an unset (null) prefab.
   */
  datatype PlatformShapeBinding = PlatformShapeBinding(shapeType: PlatformShape, shapePrefab: Option<nat>)

  /** The default value of the binding struct: the first shape and no prefab. */
  const DefaultShapeBinding := PlatformShapeBinding(LetterA, None)

  /**
   * What the engine reports for one frame: the frame time, the shape buttons
   * pressed this frame, the two shape axes, the rotate buttons pressed this
   * frame, the angle still left to turn towards the desired orientation, and
   * the angle between the platform and any obstacle.
   */
  datatype FrameInput = FrameInput(
    deltaTime: real,
    shapeADown: bool,
    shapeBDown: bool,
    shapeXDown: bool,
    shapeYDown: bool,
    shapeLAxis: real,
    shapeRAxis: real,
    rotateClockwiseDown: bool,
    rotateCounterclockwiseDown: bool,
    remainingRotationDegrees: real,
    degreesFromObstacle: ObstacleRef -> real)

  // ---------------------------------------------------------------------
  // Shape bindings
  // ---------------------------------------------------------------------

  /** The first binding for `shape`, or the default binding when there is none. */
  function GetShapeBinding(bindings: seq<PlatformShapeBinding>, shape: PlatformShape): (b: PlatformShapeBinding)
    ensures (forall i | 0 <= i < |bindings| :: bindings[i].shapeType != shape) ==> b == DefaultShapeBinding
    ensures (exists i | 0 <= i < |bindings| :: bindings[i].shapeType == shape) ==>
      exists i | 0 <= i < |bindings| ::
        && bindings[i] == b
        && b.shapeType == shape
        && forall j | 0 <= j < i :: bindings[j].shapeType != shape
  {
    if bindings == [] then DefaultShapeBinding
    else if bindings[0].shapeType == shape then bindings[0]
    else
      var b := GetShapeBinding(bindings[1..], shape);
      assert (exists i | 0 <= i < |bindings| :: bindings[i].shapeType == shape) ==>
        exists i | 0 <= i < |bindings| ::
          bindings[i] == b && b.shapeType == shape && forall j | 0 <= j < i :: bindings[j].shapeType != shape
      by {
        if i :| 0 <= i < |bindings| && bindings[i].shapeType == shape {
          assert bindings[1..][i - 1].shapeType == shape;
          var k :| 0 <= k < |bindings[1..]| && bindings[1..][k] == b && b.shapeType == shape &&
            forall j | 0 <= j < k :: bindings[1..][j].shapeType != shape;
          assert bindings[k + 1] == b;
          assert forall j | 1 <= j < k + 1 :: bindings[j] == bindings[1..][j - 1];
        }
      }
      assert (forall i | 0 <= i < |bindings| :: bindings[i].shapeType != shape) ==> b == DefaultShapeBinding by {
        if forall i | 0 <= i < |bindings| :: bindings[i].shapeType != shape {
          assert forall i | 0 <= i < |bindings[1..]| :: bindings[1..][i] == bindings[i + 1];
        }
      }
      b
  }

  // ---------------------------------------------------------------------
  // Shape selection
  // ---------------------------------------------------------------------

  /** The order in which the shape controls are consulted: the lower, the earlier. */
  function Priority(s: PlatformShape): nat
  {
    match s
    case LetterA => 0
    case LetterB => 1
    case LetterL => 2
    case LetterR => 3
    case LetterX => 4
    case LetterY => 5
  }

  /** An axis counts as pressed once it is pushed past one half. */
  predicate AxisPressed(axis: real)
  {
    axis > 0.5
  }

  /**
   * Whether the control for `s` asks for that shape this frame: a button
   * pressed this frame for A, B, X and Y, and for L and R an axis that is
   * pressed now but was not in the previous frame.
   */
  predicate Fires(input: FrameInput, lWasPressed: bool, rWasPressed: bool, s: PlatformShape)
  {
    match s
    case LetterA => input.shapeADown
    case LetterB => input.shapeBDown
    case LetterL => AxisPressed(input.shapeLAxis) && !lWasPressed
    case LetterR => AxisPressed(input.shapeRAxis) && !rWasPressed
    case LetterX => input.shapeXDown
    case LetterY => input.shapeYDown
  }

  /**
   * The shape requested this frame: of the controls that fire, the one
   * consulted first; None when no control fires.
   */
  function RequestedShape(input: FrameInput, lWasPressed: bool, rWasPressed: bool): (r: Option<PlatformShape>)
    ensures r.Some? ==> Fires(input, lWasPressed, rWasPressed, r.value)
    ensures forall s :: Fires(input, lWasPressed, rWasPressed, s) ==> r.Some? && Priority(r.value) <= Priority(s)
  {
    if input.shapeADown then Some(LetterA)
    else if input.shapeBDown then Some(LetterB)
    else if AxisPressed(input.shapeLAxis) && !lWasPressed then Some(LetterL)
    else if AxisPressed(input.shapeRAxis) && !rWasPressed then Some(LetterR)
    else if input.shapeXDown then Some(LetterX)
    else if input.shapeYDown then Some(LetterY)
    else None
  }

  /** Two different shapes are never consulted at the same time, so the shape requested is unique. */
  lemma PriorityInjective(s: PlatformShape, t: PlatformShape)
    ensures Priority(s) == Priority(t) ==> s == t
  {
  }

  /**
   * The L and R controls are edge-triggered: an axis held down since the
   * previous frame never requests its shape, whatever else is pressed.
   */
  lemma HeldAxisDoesNotRepeat(input: FrameInput, lWasPressed: bool, rWasPressed: bool)
    ensures lWasPressed ==> RequestedShape(input, lWasPressed, rWasPressed) != Some(LetterL)
    ensures rWasPressed ==> RequestedShape(input, lWasPressed, rWasPressed) != Some(LetterR)
  {
  }

  // ---------------------------------------------------------------------
  // Falling
  // ---------------------------------------------------------------------

  /** The fall speed after one frame: accelerated, then capped at the terminal speed. */
  function NextFallSpeed(speed: real, acceleration: real, deltaTime: real, terminalFallSpeed: real): (r: real)
    ensures r <= terminalFallSpeed
    ensures r <= speed + acceleration * deltaTime
    ensures r == terminalFallSpeed || r == speed + acceleration * deltaTime
  {
    Min(speed + acceleration * deltaTime, terminalFallSpeed)
  }

  /**
   * Under a non-negative acceleration a speed at or below the terminal speed
   * never decreases, and stays at or below it.
   */
  lemma FallSpeedApproachesTerminal(speed: real, acceleration: real, deltaTime: real, terminalFallSpeed: real)
    requires acceleration >= 0.0 && deltaTime >= 0.0 && speed <= terminalFallSpeed
    ensures speed <= NextFallSpeed(speed, acceleration, deltaTime, terminalFallSpeed) <= terminalFallSpeed
  {
    assert acceleration * deltaTime >= 0.0;
  }

  /** The distance fallen in one frame at a given speed. */
  function FallDistance(speed: real, deltaTime: real): real
  {
    speed * deltaTime
  }

  // ---------------------------------------------------------------------
  // Turning
  // ---------------------------------------------------------------------

  /** A yaw of 90 degrees as a quarter turn; four of them are the identity. */
  function TurnedClockwise(quarterTurns: nat): (r: nat)
    ensures r < 4
  {
    (quarterTurns + 1) % 4
  }

  /** A yaw of -90 degrees, which is the same rotation as 270 degrees. */
  function TurnedCounterclockwise(quarterTurns: nat): (r: nat)
    ensures r < 4
  {
    (quarterTurns + 3) % 4
  }

  /** The desired orientation after one frame: a clockwise press wins over a counterclockwise one. */
  function DesiredOrientationAfter(quarterTurns: nat, clockwise: bool, counterclockwise: bool): nat
  {
    if clockwise then TurnedClockwise(quarterTurns)
    else if counterclockwise then TurnedCounterclockwise(quarterTurns)
    else quarterTurns
  }

  /** A clockwise and a counterclockwise turn undo each other, in either order. */
  lemma TurnsCancel(quarterTurns: nat)
    requires quarterTurns < 4
    ensures TurnedCounterclockwise(TurnedClockwise(quarterTurns)) == quarterTurns
    ensures TurnedClockwise(TurnedCounterclockwise(quarterTurns)) == quarterTurns
  {
  }

  /** Four clockwise turns bring the platform back to where it started. */
  lemma FullTurn(quarterTurns: nat)
    requires quarterTurns < 4
    ensures TurnedClockwise(TurnedClockwise(TurnedClockwise(TurnedClockwise(quarterTurns)))) == quarterTurns
  {
  }

  // ---------------------------------------------------------------------
  // Obstacles
  // ---------------------------------------------------------------------

  /** How close, in degrees, an angle must be to count as done or as matching. */
  const RotationToleranceDegrees: real := 10.0

  /**
   * Whether the platform gets through the obstacle ahead: always when there is
   * none; otherwise only in the required shape, with its turn (nearly)
   * finished, and lined up with the obstacle unless the obstacle accepts every
   * orientation.
   */
  function IsAbleToPassThrough(
    nextObstacle: Option<Obstacle>, effectivePlatformShape: PlatformShape,
    remainingRotationDegrees: real, degreesFromObstacle: ObstacleRef -> real): (r: bool)
    ensures r <==>
      || nextObstacle.None?
      || (&& effectivePlatformShape == nextObstacle.value.requiredPlatformShape
          && remainingRotationDegrees < RotationToleranceDegrees
          && (nextObstacle.value.allOrientationsAccepted ||
              degreesFromObstacle(nextObstacle.value.ref) < RotationToleranceDegrees))
  {
    if nextObstacle.None? then true
    else if effectivePlatformShape == nextObstacle.value.requiredPlatformShape then
      var rotationHasFinished := remainingRotationDegrees < RotationToleranceDegrees;
      if rotationHasFinished then
        if nextObstacle.value.allOrientationsAccepted then true
        else degreesFromObstacle(nextObstacle.value.ref) < RotationToleranceDegrees
      else false
    else false
  }

  /**
   * The search's step on one candidate: a candidate strictly below `limitY`
   * replaces the current choice when there is none or when it is strictly
   * higher.
   */
  function NearestAfter(nearest: Option<Obstacle>, candidate: Obstacle, limitY: real): Option<Obstacle>
  {
    if candidate.y < limitY && (nearest.None? || candidate.y > nearest.value.y) then Some(candidate)
    else nearest
  }

  /** The search's choice after looking at `obstacles` in order. */
  function NearestAmong(obstacles: seq<Obstacle>, limitY: real): Option<Obstacle>
  {
    if obstacles == [] then None
    else NearestAfter(NearestAmong(obstacles[..|obstacles| - 1], limitY), obstacles[|obstacles| - 1], limitY)
  }

  /**
   * `r` is the highest obstacle strictly below `limitY`, the earliest one if
   * several are equally high, and None exactly when every obstacle is at or
   * above `limitY`.
   */
  ghost predicate IsNearestBelow(obstacles: seq<Obstacle>, limitY: real, r: Option<Obstacle>)
  {
    && (r.None? <==> forall j | 0 <= j < |obstacles| :: obstacles[j].y >= limitY)
    && (r.Some? ==> exists i | 0 <= i < |obstacles| ::
          && obstacles[i] == r.value
          && r.value.y < limitY
          && (forall j | 0 <= j < |obstacles| && obstacles[j].y < limitY :: obstacles[j].y <= r.value.y)
          && (forall j | 0 <= j < i && obstacles[j].y < limitY :: obstacles[j].y < r.value.y))
  }

  /** The search finds the highest obstacle below the limit, and the earliest of equally high ones. */
  lemma {:induction false} NearestAmongIsNearestBelow(obstacles: seq<Obstacle>, limitY: real)
    ensures IsNearestBelow(obstacles, limitY, NearestAmong(obstacles, limitY))
  {
    if obstacles != [] {
      var init := obstacles[..|obstacles| - 1];
      var last := obstacles[|obstacles| - 1];
      NearestAmongIsNearestBelow(init, limitY);
      var before := NearestAmong(init, limitY);
      assert forall j | 0 <= j < |init| :: obstacles[j] == init[j];
      if before.Some? {
        var i :| 0 <= i < |init| && init[i] == before.value && before.value.y < limitY &&
          (forall j | 0 <= j < |init| && init[j].y < limitY :: init[j].y <= before.value.y) &&
          (forall j | 0 <= j < i && init[j].y < limitY :: init[j].y < before.value.y);
        if last.y < limitY && last.y > before.value.y {
          assert obstacles[|obstacles| - 1] == last;
        } else {
          assert obstacles[i] == before.value;
        }
      } else if last.y < limitY {
        assert obstacles[|obstacles| - 1] == last;
      }
    }
  }

  /** What the search finds is one of the obstacles it was given. */
  lemma NearestBelowIsVisited(obstacles: seq<Obstacle>, limitY: real, r: Option<Obstacle>)
    requires IsNearestBelow(obstacles, limitY, r) && r.Some?
    ensures r.value in obstacles
  {
    var i :| 0 <= i < |obstacles| && obstacles[i] == r.value && r.value.y < limitY &&
      (forall j | 0 <= j < |obstacles| && obstacles[j].y < limitY :: obstacles[j].y <= r.value.y) &&
      (forall j | 0 <= j < i && obstacles[j].y < limitY :: obstacles[j].y < r.value.y);
  }

  /** At most one obstacle is the nearest below the limit: the search result is determined by the list. */
  lemma NearestBelowUnique(obstacles: seq<Obstacle>, limitY: real, r1: Option<Obstacle>, r2: Option<Obstacle>)
    requires IsNearestBelow(obstacles, limitY, r1) && IsNearestBelow(obstacles, limitY, r2)
    ensures r1 == r2
  {
    if r1.Some? && r2.Some? {
      var i1 :| 0 <= i1 < |obstacles| && obstacles[i1] == r1.value && r1.value.y < limitY &&
        (forall j | 0 <= j < |obstacles| && obstacles[j].y < limitY :: obstacles[j].y <= r1.value.y) &&
        (forall j | 0 <= j < i1 && obstacles[j].y < limitY :: obstacles[j].y < r1.value.y);
      var i2 :| 0 <= i2 < |obstacles| && obstacles[i2] == r2.value && r2.value.y < limitY &&
        (forall j | 0 <= j < |obstacles| && obstacles[j].y < limitY :: obstacles[j].y <= r2.value.y) &&
        (forall j | 0 <= j < i2 && obstacles[j].y < limitY :: obstacles[j].y < r2.value.y);
    }
  }

  /** Looking at one more candidate is one more step of the search. */
  lemma NearestAmongStep(visited: seq<Obstacle>, candidates: seq<Obstacle>, m: nat, limitY: real)
    requires m < |candidates|
    ensures NearestAmong(visited + candidates[..m + 1], limitY) ==
            NearestAfter(NearestAmong(visited + candidates[..m], limitY), candidates[m], limitY)
  {
    assert (visited + candidates[..m + 1])[..|visited| + m] == visited + candidates[..m];
  }

  /** The obstacles to visit grow segment by segment. */
  lemma ObstaclesToVisitStep(originY: real, segs: seq<SegmentInstance>, i: nat)
    requires i < |segs|
    ensures ObstaclesToVisit(originY, segs[..i + 1]) ==
            ObstaclesToVisit(originY, segs[..i]) +
            (if segs[i].sourcePrefab.analyzedSegmentContainsObstacle then SegmentObstacles(originY, segs[i]) else [])
  {
    assert segs[..i + 1][..i] == segs[..i];
  }

  /**
   * `target` is the obstacle the platform heads for: the one the stored
   * reference names while its segment is still in the shaft, and otherwise
   * the nearest obstacle below `limitY`.
   */
  ghost predicate IsTargetFor(
    originY: real, segs: seq<SegmentInstance>, limitY: real, stored: Option<ObstacleRef>, target: Option<Obstacle>)
  {
    var resolved := if stored.None? then None else ResolveObstacle(originY, segs, stored.value);
    if resolved.Some? then target == resolved
    else IsNearestBelow(ObstaclesToVisit(originY, segs), limitY, target)
  }

  // ---------------------------------------------------------------------
  // The platform
  // ---------------------------------------------------------------------

  /** Penetration into an obstacle below this depth is not backed out of. */
  const BackUpThreshold: real := 0.01

  class PlayerPlatform {
    const terminalFallSpeed: real
    const lethalFallSpeed: real
    const platformMorphDurationSeconds: real
    const distanceToPlatformBottom: real
    const shapeBindings: seq<PlatformShapeBinding>
    /** The magnitude of the engine's gravity vector. */
    const gravityMagnitude: real
    /** The platform's own world height; the platform stays put while the shaft moves. */
    const positionY: real
    const scrollingElevatorShaft: ScrollingElevatorShaft

    var currentAcceleration: real
    var currentFallSpeed: real

    var platformMorphDesiredShape: PlatformShape
    var platformMorphStartShape: PlatformShape
    var platformMorphEndShape: PlatformShape
    var platformMorphFraction: real
    /** The desired orientation, in clockwise quarter turns from the start. */
    var platformRotationDesiredOrientation: nat
    var effectivePlatformShape: PlatformShape

    /** The prefab of the live object that shows the start shape, or None when there is no live object. */
    var currentMorphStartObject: Option<nat>
    /** The prefab of the live object that shows the end shape, or None when there is no live object. */
    var currentMorphEndObject: Option<nat>

    /** The obstacle the platform is heading for, by reference. */
    var nextObstacle: Option<ObstacleRef>

    var letterLAxisWasPressed: bool
    var letterRAxisWasPressed: bool

    /**
     * The shaft is in order, a morph has a positive duration, the morph
     * fraction lies in [0, 1], the desired orientation is one of the four
     * quarter turns, and between frames the morph heads for the desired shape.
     */
    ghost predicate Valid()
      reads this, scrollingElevatorShaft, scrollingElevatorShaft.segmentPrefabs
    {
      && scrollingElevatorShaft.Valid()
      && MorphValid()
      && platformRotationDesiredOrientation < 4
    }

    /** The morph part of the invariant. */
    ghost predicate MorphValid()
      reads this
    {
      && platformMorphDurationSeconds > 0.0
      && 0.0 <= platformMorphFraction <= 1.0
      && platformMorphEndShape == platformMorphDesiredShape
    }

    /** The height of the platform's underside, which is what meets the obstacles. */
    function PlatformBottomY(): real
    {
      positionY - distanceToPlatformBottom
    }

    /**
     * Wake-up: all shapes start as X with the morph finished, the first morph
     * objects are created, and the platform starts accelerating at gravity.
     */
    constructor (
      terminalFallSpeed: real, lethalFallSpeed: real, platformMorphDurationSeconds: real,
      distanceToPlatformBottom: real, shapeBindings: seq<PlatformShapeBinding>, gravityMagnitude: real,
      positionY: real, scrollingElevatorShaft: ScrollingElevatorShaft)
      requires scrollingElevatorShaft.Valid() && platformMorphDurationSeconds > 0.0
      ensures Valid()
      ensures this.terminalFallSpeed == terminalFallSpeed && this.lethalFallSpeed == lethalFallSpeed
      ensures this.platformMorphDurationSeconds == platformMorphDurationSeconds
      ensures this.distanceToPlatformBottom == distanceToPlatformBottom && this.shapeBindings == shapeBindings
      ensures this.gravityMagnitude == gravityMagnitude && this.positionY == positionY
      ensures this.scrollingElevatorShaft == scrollingElevatorShaft
      ensures currentAcceleration == gravityMagnitude && currentFallSpeed == 0.0
      ensures platformMorphDesiredShape == LetterX && platformMorphStartShape == LetterX
      ensures platformMorphEndShape == LetterX && effectivePlatformShape == LetterX
      ensures platformMorphFraction == 0.0 && platformRotationDesiredOrientation == 0
      ensures currentMorphStartObject == GetShapeBinding(shapeBindings, LetterX).shapePrefab
      ensures currentMorphEndObject == GetShapeBinding(shapeBindings, LetterX).shapePrefab
      ensures nextObstacle == None && !letterLAxisWasPressed && !letterRAxisWasPressed
    {
      this.terminalFallSpeed := terminalFallSpeed;
      this.lethalFallSpeed := lethalFallSpeed;
      this.platformMorphDurationSeconds := platformMorphDurationSeconds;
      this.distanceToPlatformBottom := distanceToPlatformBottom;
      this.shapeBindings := shapeBindings;
      this.gravityMagnitude := gravityMagnitude;
      this.positionY := positionY;
      this.scrollingElevatorShaft := scrollingElevatorShaft;
      currentAcceleration := 0.0;
      currentFallSpeed := 0.0;
      platformMorphDesiredShape := LetterX;
      platformMorphStartShape := LetterX;
      platformMorphEndShape := LetterX;
      platformMorphFraction := 1.0;
      platformRotationDesiredOrientation := 0;
      effectivePlatformShape := LetterX;
      currentMorphStartObject := None;
      currentMorphEndObject := None;
      nextObstacle := None;
      letterLAxisWasPressed := false;
      letterRAxisWasPressed := false;
      new;
      UpdatePlatformMorphCreatedPlatformObjects();
      currentAcceleration := gravityMagnitude;
    }

    /**
     * One frame: morph, turn, deal with the obstacle ahead, then accelerate
     * and move the shaft by the distance fallen. Returns false when a step
     * failed and the rest of the frame did not run.
     */
    method Update(input: FrameInput) returns (completed: bool)
      requires Valid()
      modifies this, scrollingElevatorShaft, scrollingElevatorShaft.segmentRandomizer
      ensures Valid()
      ensures completed ==> currentFallSpeed <= terminalFallSpeed
    {
      UpdatePlatformMorph(input);
      UpdatePlatformRotationDesiredOrientation(input);
      var target;
      completed, target := InteractWithNearestObstacle(input);
      if !completed {
        return;
      }
      completed := Fall(input);
    }

    /**
     * The last step of a frame: the fall speed grows by the current
     * acceleration up to the terminal speed, and the shaft moves up by the
     * distance fallen at the new speed.
     */
    method Fall(input: FrameInput) returns (completed: bool)
      requires Valid()
      modifies this`currentFallSpeed, scrollingElevatorShaft, scrollingElevatorShaft.segmentRandomizer
      ensures Valid()
      ensures currentFallSpeed ==
        NextFallSpeed(old(currentFallSpeed), currentAcceleration, input.deltaTime, terminalFallSpeed)
      ensures scrollingElevatorShaft.AdvancedFrom(
        old(scrollingElevatorShaft.segmentInstances), old(scrollingElevatorShaft.nextSegmentId),
        FallDistance(currentFallSpeed, input.deltaTime), completed)
    {
      currentFallSpeed := NextFallSpeed(currentFallSpeed, currentAcceleration, input.deltaTime, terminalFallSpeed);
      completed := scrollingElevatorShaft.AdvanceShaft(FallDistance(currentFallSpeed, input.deltaTime));
    }

    /**
     * The highest obstacle strictly below the platform's underside, among the
     * obstacles of the segments flagged as holding one, taking the segments
     * in shaft order; the first found wins a tie. None when there is none.
     */
    method FindNextObstacle() returns (nearestObstacle: Option<Obstacle>)
      ensures IsNearestBelow(
        ObstaclesToVisit(scrollingElevatorShaft.positionY, scrollingElevatorShaft.segmentInstances),
        PlatformBottomY(), nearestObstacle)
    {
      var segs := scrollingElevatorShaft.segmentInstances;
      var originY := scrollingElevatorShaft.positionY;
      var limitY := PlatformBottomY();
      nearestObstacle := None;
      var i := 0;
      while i < |segs|
        invariant 0 <= i <= |segs|
        invariant nearestObstacle == NearestAmong(ObstaclesToVisit(originY, segs[..i]), limitY)
      {
        var segmentInstance := segs[i];
        ghost var visited := ObstaclesToVisit(originY, segs[..i]);
        ObstaclesToVisitStep(originY, segs, i);
        if segmentInstance.sourcePrefab.analyzedSegmentContainsObstacle {
          var candidates := SegmentObstacles(originY, segmentInstance);
          assert visited + candidates[..0] == visited;
          var m := 0;
          while m < |candidates|
            invariant 0 <= m <= |candidates|
            invariant nearestObstacle == NearestAmong(visited + candidates[..m], limitY)
          {
            var candidateObstacle := candidates[m];
            NearestAmongStep(visited, candidates, m, limitY);
            if candidateObstacle.y < limitY {
              if nearestObstacle.None? || candidateObstacle.y > nearestObstacle.value.y {
                nearestObstacle := Some(candidateObstacle);
              }
            }
            m := m + 1;
          }
          assert candidates[..m] == candidates;
        } else {
          assert visited + [] == visited;
        }
        i := i + 1;
      }
      assert segs[..i] == segs;
      NearestAmongIsNearestBelow(ObstaclesToVisit(originY, segs), limitY);
    }

    /**
     * Whether the platform can pass the obstacle it is heading for, in its
     * current effective shape, with the angles the engine reports.
     */
    function IsAbleToPassThroughNextObstacle(target: Option<Obstacle>, input: FrameInput): bool
      reads this
    {
      IsAbleToPassThrough(target, effectivePlatformShape, input.remainingRotationDegrees, input.degreesFromObstacle)
    }

    /**
     * Deals with the obstacle ahead: finds the obstacle the platform is
     * heading for and, once the platform's underside reaches it, passes
     * through or lands on it. Returns false when moving the shaft failed, and
     * the obstacle it dealt with.
     */
    method InteractWithNearestObstacle(input: FrameInput) returns (completed: bool, target: Option<Obstacle>)
      requires Valid()
      modifies this`nextObstacle, this`currentAcceleration, this`currentFallSpeed
      modifies scrollingElevatorShaft, scrollingElevatorShaft.segmentRandomizer
      ensures Valid()
      ensures IsTargetFor(scrollingElevatorShaft.positionY, old(scrollingElevatorShaft.segmentInstances), PlatformBottomY(),
                          old(nextObstacle), target)
      ensures target.None? ==>
        && completed && nextObstacle == None
        && currentAcceleration == old(currentAcceleration) && currentFallSpeed == old(currentFallSpeed)
        && unchanged(scrollingElevatorShaft, scrollingElevatorShaft.segmentRandomizer)
      ensures target.Some? ==> MetObstacle(target.value, input, completed, old(currentAcceleration),
        old(currentFallSpeed), old(scrollingElevatorShaft.segmentInstances), old(scrollingElevatorShaft.nextSegmentId))
    {
      target := AcquireNextObstacle();
      completed := true;
      if target.Some? {
        completed := MeetObstacle(target.value, input);
      }
    }

    /**
     * Follows the stored obstacle reference, or searches for a new obstacle
     * when there is none or it has been retired with its segment, and stores
     * a reference to what it finds.
     */
    method AcquireNextObstacle() returns (target: Option<Obstacle>)
      modifies this`nextObstacle
      ensures IsTargetFor(scrollingElevatorShaft.positionY, scrollingElevatorShaft.segmentInstances, PlatformBottomY(),
                          old(nextObstacle), target)
      ensures nextObstacle == if target.Some? then Some(target.value.ref) else None
      ensures scrollingElevatorShaft.SerialsIssued() && target.Some? ==>
        ResolveObstacle(scrollingElevatorShaft.positionY, scrollingElevatorShaft.segmentInstances,
                        nextObstacle.value) == target
    {
      target := None;
      if nextObstacle.Some? {
        target := ResolveObstacle(scrollingElevatorShaft.positionY, scrollingElevatorShaft.segmentInstances,
                                  nextObstacle.value);
      }
      if target.None? {
        // A reference to a retired segment's obstacle reads as null.
        var found := FindNextObstacle();
        if found.Some? && scrollingElevatorShaft.SerialsIssued() {
          NearestBelowIsVisited(ObstaclesToVisit(scrollingElevatorShaft.positionY, scrollingElevatorShaft.segmentInstances),
                                PlatformBottomY(), found);
          ResolveVisitedObstacle(scrollingElevatorShaft.positionY, scrollingElevatorShaft.segmentInstances, found.value);
        }
        target := found;
        nextObstacle := if found.Some? then Some(found.value.ref) else None;
      }
    }

    /**
     * What meeting `obstacle` did, from the given starting state: nothing
     * before the platform's underside reaches it; on reaching it, a pass
     * restores gravity and forgets the obstacle, while a block stops the
     * platform and, if it has sunk in by more than the threshold, moves the
     * shaft back by the depth of penetration.
     */
    ghost predicate MetObstacle(
      obstacle: Obstacle, input: FrameInput, completed: bool, acceleration: real, fallSpeed: real,
      segs: seq<SegmentInstance>, firstId: nat)
      reads this, scrollingElevatorShaft, scrollingElevatorShaft.segmentPrefabs, scrollingElevatorShaft.segmentRandomizer
    {
      var signedDistance := PlatformBottomY() - obstacle.y;
      var reached := signedDistance <= 0.0;
      var passes := IsAbleToPassThroughNextObstacle(Some(obstacle), input);
      var shaftUntouched := scrollingElevatorShaft.segmentInstances == segs && scrollingElevatorShaft.nextSegmentId == firstId;
      && (!reached ==>
            && completed && nextObstacle == Some(obstacle.ref)
            && currentAcceleration == acceleration && currentFallSpeed == fallSpeed && shaftUntouched)
      && (reached && passes ==>
            && completed && nextObstacle == None
            && currentAcceleration == gravityMagnitude && currentFallSpeed == fallSpeed && shaftUntouched)
      && (reached && !passes ==>
            && nextObstacle == Some(obstacle.ref)
            && (signedDistance < -BackUpThreshold ==>
                  scrollingElevatorShaft.AdvancedFrom(segs, firstId, signedDistance, completed))
            && (signedDistance >= -BackUpThreshold ==> completed && shaftUntouched)
            && (completed ==> currentAcceleration == 0.0 && currentFallSpeed == 0.0)
            && (!completed ==> currentAcceleration == acceleration && currentFallSpeed == fallSpeed))
    }

    /** The reaction to the obstacle the platform is heading for. */
    method MeetObstacle(obstacle: Obstacle, input: FrameInput) returns (completed: bool)
      requires Valid() && nextObstacle == Some(obstacle.ref)
      modifies this`nextObstacle, this`currentAcceleration, this`currentFallSpeed
      modifies scrollingElevatorShaft, scrollingElevatorShaft.segmentRandomizer
      ensures Valid()
      ensures MetObstacle(obstacle, input, completed, old(currentAcceleration), old(currentFallSpeed),
                          old(scrollingElevatorShaft.segmentInstances), old(scrollingElevatorShaft.nextSegmentId))
      ensures PlatformBottomY() - obstacle.y >= -BackUpThreshold ==>
        unchanged(scrollingElevatorShaft, scrollingElevatorShaft.segmentRandomizer)
    {
      completed := true;
      var signedDistanceToNextObstacle := PlatformBottomY() - obstacle.y;
      if signedDistanceToNextObstacle <= 0.0 {
        if IsAbleToPassThroughNextObstacle(Some(obstacle), input) {
          currentAcceleration := gravityMagnitude;
          nextObstacle := None;
        } else {
          var impactWasLethal := currentFallSpeed > lethalFallSpeed;
          if signedDistanceToNextObstacle < -BackUpThreshold {
            completed := scrollingElevatorShaft.AdvanceShaft(signedDistanceToNextObstacle);
            if !completed {
              return;
            }
          }
          currentAcceleration := 0.0;
          currentFallSpeed := 0.0;
        }
      }
    }

    /**
     * The morph step of a frame: read the shape controls, start a new morph
     * if the desired shape changed, advance the morph, and once it is (all
     * but) complete make the end shape the effective one and drop the start
     * object.
     */
    method UpdatePlatformMorph(input: FrameInput)
      requires MorphValid()
      modifies this`platformMorphDesiredShape, this`letterLAxisWasPressed, this`letterRAxisWasPressed
      modifies this`platformMorphStartShape, this`platformMorphEndShape, this`platformMorphFraction
      modifies this`currentMorphStartObject, this`currentMorphEndObject, this`effectivePlatformShape
      ensures MorphValid()
      ensures platformMorphDesiredShape ==
        (var requested := RequestedShape(input, old(letterLAxisWasPressed), old(letterRAxisWasPressed));
         if requested.Some? then requested.value else old(platformMorphDesiredShape))
      ensures letterLAxisWasPressed == AxisPressed(input.shapeLAxis)
      ensures letterRAxisWasPressed == AxisPressed(input.shapeRAxis)
      ensures platformMorphDesiredShape != old(platformMorphEndShape) ==>
        && platformMorphStartShape == old(platformMorphEndShape)
        && currentMorphEndObject == GetShapeBinding(shapeBindings, platformMorphEndShape).shapePrefab
        && platformMorphFraction == Clamp01(input.deltaTime / platformMorphDurationSeconds)
      ensures platformMorphDesiredShape == old(platformMorphEndShape) ==>
        && platformMorphStartShape == old(platformMorphStartShape)
        && platformMorphEndShape == old(platformMorphEndShape)
        && currentMorphEndObject == old(currentMorphEndObject)
        && platformMorphFraction == Clamp01(old(platformMorphFraction) + input.deltaTime / platformMorphDurationSeconds)
      ensures platformMorphFraction >= 1.0 - Epsilon ==>
        effectivePlatformShape == platformMorphEndShape && currentMorphStartObject == None
      ensures platformMorphFraction < 1.0 - Epsilon ==>
        && effectivePlatformShape == old(effectivePlatformShape)
        && currentMorphStartObject ==
           if platformMorphDesiredShape != old(platformMorphEndShape)
           then GetShapeBinding(shapeBindings, platformMorphStartShape).shapePrefab
           else old(currentMorphStartObject)
    {
      UpdatePlatformMorphDesiredShape(input);
      if platformMorphDesiredShape != platformMorphEndShape {
        UpdatePlatformMorphCreatedPlatformObjects();
      }
      platformMorphFraction := Clamp01(platformMorphFraction + input.deltaTime / platformMorphDurationSeconds);
      if platformMorphFraction >= 1.0 - Epsilon {
        effectivePlatformShape := platformMorphEndShape;
        // The start object is destroyed, so it reads as null from now on.
        currentMorphStartObject := None;
      }
    }

    /**
     * Starts a morph from the current end shape to the desired shape: the
     * old objects go, and an object is created for each shape whose binding
     * has a prefab.
     */
    method UpdatePlatformMorphCreatedPlatformObjects()
      modifies this`platformMorphStartShape, this`platformMorphEndShape, this`platformMorphFraction
      modifies this`currentMorphStartObject, this`currentMorphEndObject
      ensures platformMorphStartShape == old(platformMorphEndShape)
      ensures platformMorphEndShape == platformMorphDesiredShape
      ensures platformMorphFraction == 0.0
      ensures currentMorphStartObject == GetShapeBinding(shapeBindings, platformMorphStartShape).shapePrefab
      ensures currentMorphEndObject == GetShapeBinding(shapeBindings, platformMorphEndShape).shapePrefab
    {
      // Destroyed objects read as null unless replaced below.
      currentMorphStartObject := None;
      currentMorphEndObject := None;

      platformMorphStartShape := platformMorphEndShape;
      platformMorphEndShape := platformMorphDesiredShape;
      platformMorphFraction := 0.0;

      var startShapeBinding := GetShapeBinding(shapeBindings, platformMorphStartShape);
      var endShapeBinding := GetShapeBinding(shapeBindings, platformMorphEndShape);

      if startShapeBinding.shapePrefab.Some? {
        currentMorphStartObject := startShapeBinding.shapePrefab;
      }
      if endShapeBinding.shapePrefab.Some? {
        currentMorphEndObject := endShapeBinding.shapePrefab;
      }
    }

    /**
     * Reads the shape controls: the requested shape, if any, becomes the
     * desired shape, and the axes' current state is remembered for the next
     * frame's edge detection.
     */
    method UpdatePlatformMorphDesiredShape(input: FrameInput)
      modifies this`platformMorphDesiredShape, this`letterLAxisWasPressed, this`letterRAxisWasPressed
      ensures platformMorphDesiredShape ==
        (var requested := RequestedShape(input, old(letterLAxisWasPressed), old(letterRAxisWasPressed));
         if requested.Some? then requested.value else old(platformMorphDesiredShape))
      ensures letterLAxisWasPressed == AxisPressed(input.shapeLAxis)
      ensures letterRAxisWasPressed == AxisPressed(input.shapeRAxis)
    {
      var letterLIsPressed := AxisPressed(input.shapeLAxis);
      var letterRIsPressed := AxisPressed(input.shapeRAxis);

      if input.shapeADown {
        platformMorphDesiredShape := LetterA;
      } else if input.shapeBDown {
        platformMorphDesiredShape := LetterB;
      } else if letterLIsPressed && !letterLAxisWasPressed {
        platformMorphDesiredShape := LetterL;
      } else if letterRIsPressed && !letterRAxisWasPressed {
        platformMorphDesiredShape := LetterR;
      } else if input.shapeXDown {
        platformMorphDesiredShape := LetterX;
      } else if input.shapeYDown {
        platformMorphDesiredShape := LetterY;
      }

      letterLAxisWasPressed := letterLIsPressed;
      letterRAxisWasPressed := letterRIsPressed;
    }

    /** Reads the rotate buttons: each press turns the desired orientation by a quarter turn. */
    method UpdatePlatformRotationDesiredOrientation(input: FrameInput)
      modifies this`platformRotationDesiredOrientation
      ensures platformRotationDesiredOrientation ==
        DesiredOrientationAfter(old(platformRotationDesiredOrientation), input.rotateClockwiseDown,
                                input.rotateCounterclockwiseDown)
    {
      if input.rotateClockwiseDown {
        platformRotationDesiredOrientation := TurnedClockwise(platformRotationDesiredOrientation);
      } else if input.rotateCounterclockwiseDown {
        platformRotationDesiredOrientation := TurnedCounterclockwise(platformRotationDesiredOrientation);
      }
    }
  }
}
