# Terminal Shift: shaft streaming and platform state machine in Dafny

This project models the game logic of Terminal Shift, a Unity game. The player
rides a platform down an endless elevator shaft and reshapes and turns it to
pass through floor obstacles. The platform never moves. The shaft scrolls up
past it instead.

Two components make up the model.

- **The scrolling elevator shaft** (`Shaft.ScrollingElevatorShaft`) holds a
  list of segment instances, each cut from a segment prefab. Every frame,
  `AdvanceShaft` runs three passes:
  1. It shifts every segment by the movement distance.
  2. It retires, in place, the segments whose bottom has risen above the
     required top.
  3. It stacks randomly chosen segments, each flush below the lowest bound,
     until the shaft reaches below the required bottom.

  On wake-up, the prefab analysis measures each prefab's height and rejects a
  prefab shorter than `Mathf.Epsilon`. It also records whether the prefab holds
  a floor obstacle. Over exact reals, that height bound is what makes the
  refill loop terminate.
  `RefillMeasure` is the variant.
- **The player platform** (`Platform.PlayerPlatform`) is a class whose methods
  update its fields step by step:
  - **Shape morphs**: the desired, start and end shapes, with a morph fraction
    clamped to [0, 1].
  - **Shape selection**: edge-triggered, with a fixed priority A > B > L > R > X > Y.
  - **Orientation**: the desired orientation, counted in quarter turns.
  - **Falling**: a fall speed capped at the terminal speed.
  - **Obstacles**: a pass or block decision against the nearest obstacle below
    the platform, with its effect on speed, acceleration and the shaft.

Modules:

| module | file | contents |
|---|---|---|
| `Wrappers` | `wrappers.dfy` | `Option` |
| `EngineMath` | `engine_math.dfy` | `Mathf.Epsilon`, `Min`, `Max`, `Clamp01`, and the y extent of a `Bounds` box |
| `FloorObstacles` | `floor_obstacles.dfy` | the `PlatformShape` enum and the obstacle data a prefab carries |
| `Shaft` | `shaft.dfy` | segment records, the three passes as specification functions with their lemmas, the random source, and the `ScrollingElevatorShaft` class |
| `Platform` | `platform.dfy` | the per-frame input, the shape, fall, turn, pass and search specifications, and the `PlayerPlatform` class |

How engine state is represented:

- **Engine objects.** Segments and morph objects are plain records. A
  segment's identity is a serial number; the shaft issues them in increasing
  order, so no two live segments share one. The platform remembers its next
  obstacle by reference: the segment's serial number plus the obstacle's index
  in it. A reference into a retired segment reads as no obstacle, just as a
  destroyed Unity object compares equal to null.
- **Randomness.** `System.Random` is a `Randomizer` object whose draws come
  from an injected oracle.
- **Engine inputs.** The input axes and buttons, `Time.deltaTime` and the two
  angles that `Quaternion.Angle` would compute all arrive as a `FrameInput`.
  `Physics.gravity.magnitude` is a constructor parameter.
- **Exceptions.** An exception stops the rest of a frame, so the methods that
  can fail return `completed`, and their callers stop when it is false.

Where the two source files disagree: `FindNextObstacle`
(Assets/TerminalShift/Scripts/PlayerPlatform.cs:98) reads a
`SegmentInstances` member and the nested `ShaftSegmentInstance` class of the
shaft. In ScrollingElevatorShaft.cs both are private (lines 121 and 127), and
the class has no `SegmentInstances` accessor. The model lets the platform read
the shaft's segment list directly. That is the evident intent.

## Model

| member | source | states |
|---|---|---|
| EngineMath.Min | Assets/TerminalShift/Scripts/PlayerPlatform.cs:75-78 | Mathf.Min: the result is at most both arguments and is one of them |
| EngineMath.Clamp01 | Assets/TerminalShift/Scripts/PlayerPlatform.cs:225-228 | Mathf.Clamp01: the result lies in [0, 1]; it is the input inside that range, 0 below it and 1 above it |
| EngineMath.YBounds.Encapsulate | Assets/TerminalShift/Scripts/ScrollingElevatorShaft.cs:73 | Bounds.Encapsulate: the result holds both boxes and each end comes from one of them |
| EngineMath.YBounds.EncapsulatePoint | Assets/TerminalShift/Scripts/ScrollingElevatorShaft.cs:141-145 | Bounds.Encapsulate(point): the result is the smallest box holding the point and the old box (each end is the old end or the point) |
| Shaft.SegmentInstance.Bounds | Assets/TerminalShift/Scripts/ScrollingElevatorShaft.cs:70-71 | a segment's box starts at its bottom (position plus prefab min) and is as tall as its prefab |
| Shaft.AnalyzedBoundsSpan | Assets/TerminalShift/Scripts/ScrollingElevatorShaft.cs:135-148 | the analysed prefab bounds hold the origin and every mesh corner, and each end is 0 or one of the corners: the smallest such range |
| Shaft.MeshlessPrefabIsRejected | Assets/TerminalShift/Scripts/ScrollingElevatorShaft.cs:150-153 | a prefab with no mesh has analysed height 0, below Epsilon, so the analysis rejects it |
| Shaft.ScrollingElevatorShaft.UpdateShaftSegmentPrefabs | Assets/TerminalShift/Scripts/ScrollingElevatorShaft.cs:131-158 | on success every prefab holds its analysed bounds, is at least Epsilon tall and records whether it holds an obstacle; on failure it names the first prefab shorter than Epsilon, whose bounds are written and whose flag is untouched, and the earlier prefabs are analysed and the later ones unchanged |
| Shaft.Shifted | Assets/TerminalShift/Scripts/ScrollingElevatorShaft.cs:31-38 | the first pass adds the movement distance to every segment's position and bottom, keeping count, order, identity, yaw and prefab |
| Shaft.ShiftedComposes | Assets/TerminalShift/Scripts/ScrollingElevatorShaft.cs:31-38 | two shifts add up, and a zero shift changes nothing |
| Shaft.ScrollingElevatorShaft.ShiftSegments | Assets/TerminalShift/Scripts/ScrollingElevatorShaft.cs:31-38 | the loop leaves exactly the shifted list |
| Shaft.RetainedMembers | Assets/TerminalShift/Scripts/ScrollingElevatorShaft.cs:41-62 | a segment survives the retire pass if and only if it was in the list and its bottom is at or below the required top |
| Shaft.RetainedPrefix | Assets/TerminalShift/Scripts/ScrollingElevatorShaft.cs:41-62 | the survivors of a shorter prefix are a prefix of the survivors of a longer one |
| Shaft.RetainedAt | Assets/TerminalShift/Scripts/ScrollingElevatorShaft.cs:41-62 | a surviving segment appears in the result, unchanged, at the position given by the number of survivors before it |
| Shaft.RankOrder | Assets/TerminalShift/Scripts/ScrollingElevatorShaft.cs:41-62 | survivors keep their relative order |
| Shaft.RetainedDistinct | Assets/TerminalShift/Scripts/ScrollingElevatorShaft.cs:41-62 | the retire pass keeps serial numbers distinct |
| Shaft.RetainedIdsBelow | Assets/TerminalShift/Scripts/ScrollingElevatorShaft.cs:52-57 | the retire pass brings in no new segment: a bound on the serial numbers survives it |
| Shaft.ScrollingElevatorShaft.RetireSegments | Assets/TerminalShift/Scripts/ScrollingElevatorShaft.cs:41-62 | the loop, which advances the index only past a kept segment, leaves exactly the retained list: every segment is examined once and none is skipped |
| Shaft.ShaftBoundsLowest | Assets/TerminalShift/Scripts/ScrollingElevatorShaft.cs:66-74 | the accumulated lower bound is the minimum of 0 and every segment bottom, so it is never above 0 |
| Shaft.ScrollingElevatorShaft.EncapsulateSegments | Assets/TerminalShift/Scripts/ScrollingElevatorShaft.cs:66-74 | the accumulator loop, started from the zero box at the origin, computes the shaft bounds of the current list |
| Shaft.ShaftBoundsStacked | Assets/TerminalShift/Scripts/ScrollingElevatorShaft.cs:87-115 | a segment placed at the lowest bound minus its prefab's top has its top flush with that bound, and appending it lowers the bound by exactly its height |
| Shaft.RefillMeasureDecreases | Assets/TerminalShift/Scripts/ScrollingElevatorShaft.cs:110-115 | lowering the shaft by a height of at least Epsilon strictly decreases the number of refill steps still needed |
| Shaft.StackedFromAt | Assets/TerminalShift/Scripts/ScrollingElevatorShaft.cs:76-116 | every appended segment sits flush below all the segments before it, was added while the shaft had not yet reached the required bottom, comes from the prefab list with a yaw of 0 to 3 quarter turns, and has the next serial number |
| Shaft.Randomizer.constructor | Assets/TerminalShift/Scripts/ScrollingElevatorShaft.cs:129 | a fresh random source has drawn nothing |
| Shaft.Randomizer.Next | Assets/TerminalShift/Scripts/ScrollingElevatorShaft.cs:78-85 | Next(n) is below n for n > 0 and is 0 for n = 0; each call consumes one draw |
| Shaft.ScrollingElevatorShaft.SpawnSegmentBelow | Assets/TerminalShift/Scripts/ScrollingElevatorShaft.cs:78-115 | one refill step appends one segment whose prefab is drawn from the list, whose yaw is 0 to 3 quarter turns and whose top is flush with the lowest bound, lowering that bound by at least Epsilon; with no prefabs it fails and changes no segment |
| Shaft.ScrollingElevatorShaft.CreateSegments | Assets/TerminalShift/Scripts/ScrollingElevatorShaft.cs:64-117 | the refill keeps the existing list as a prefix, appends only stacked segments, and on completion the shaft reaches at or below the required bottom; it fails exactly when a segment is needed and there is no prefab |
| Shaft.ScrollingElevatorShaft.AdvanceShaft | Assets/TerminalShift/Scripts/ScrollingElevatorShaft.cs:27-118 | the new list is the shifted survivors in their order followed by stacked new segments, it reaches the required bottom unless the refill failed, and the prefab and serial-number invariant is kept |
| Shaft.ScrollingElevatorShaft.constructor | Assets/TerminalShift/Scripts/ScrollingElevatorShaft.cs:127-129 | a new shaft holds no segments, so its serial-number invariant holds |
| Shaft.ScrollingElevatorShaft.Awake | Assets/TerminalShift/Scripts/ScrollingElevatorShaft.cs:22-25 | wake-up analyses the prefabs: on success every prefab holds its analysed bounds and obstacle flag and the shaft is ready to advance; on failure it names the first prefab shorter than Epsilon, with the earlier prefabs analysed, that one's bounds written and the later ones unchanged |
| Shaft.ObstaclesToVisitMembers | Assets/TerminalShift/Scripts/PlayerPlatform.cs:98-104 | the obstacles searched are exactly the obstacles of the segments flagged as holding one, each with a reference to its own segment and index |
| Shaft.ResolveObstacle | Assets/TerminalShift/Scripts/PlayerPlatform.cs:129-134 | a stored obstacle reference resolves only to that obstacle of a segment still in the shaft, and to nothing once every segment with that serial number is gone |
| Shaft.ResolveObstacleFirstMatch | Assets/TerminalShift/Scripts/PlayerPlatform.cs:129-134 | a reference resolves through the first live segment with its serial number: to the obstacle at its index there, or to nothing when the index is out of range |
| Shaft.ResolveObstaclePresent | Assets/TerminalShift/Scripts/PlayerPlatform.cs:129-134 | with distinct serial numbers, a reference to a live segment resolves to that segment's obstacle whenever the index is in range |
| Shaft.ResolveVisitedObstacle | Assets/TerminalShift/Scripts/PlayerPlatform.cs:98-134 | with distinct serial numbers, every obstacle the search can find resolves back from its reference to itself |
| Platform.GetShapeBinding | Assets/TerminalShift/Scripts/PlayerPlatform.cs:119-125 | the first binding whose shape matches, or the default binding (shape A, no prefab) when none matches |
| Platform.RequestedShape | Assets/TerminalShift/Scripts/PlayerPlatform.cs:299-325 | the requested shape is a control that fires this frame, and it is consulted no later than any other that fires; there is a request whenever some control fires |
| Platform.PriorityInjective | Assets/TerminalShift/Scripts/PlayerPlatform.cs:302-325 | no two shapes share a priority, so the requested shape is unique |
| Platform.HeldAxisDoesNotRepeat | Assets/TerminalShift/Scripts/PlayerPlatform.cs:310-317 | an L or R axis held since the previous frame never requests its own shape, whatever else is pressed |
| Platform.PlayerPlatform.UpdatePlatformMorphDesiredShape | Assets/TerminalShift/Scripts/PlayerPlatform.cs:297-329 | the desired shape becomes the requested shape, if any, and otherwise stays; both axis flags become this frame's press state |
| Platform.PlayerPlatform.UpdatePlatformMorphCreatedPlatformObjects | Assets/TerminalShift/Scripts/PlayerPlatform.cs:244-280 | starting a morph sets start to the previous end, end to the desired shape and the fraction to 0, and the morph objects come from each shape's binding |
| Platform.PlayerPlatform.UpdatePlatformMorph | Assets/TerminalShift/Scripts/PlayerPlatform.cs:216-242 | a morph restarts exactly when the new desired shape differs from the end shape; afterwards the end shape equals the desired one, the fraction is the clamped sum and lies in [0, 1], and the effective shape becomes the end shape only once the fraction reaches 1 - Epsilon, otherwise it is unchanged |
| Platform.TurnsCancel | Assets/TerminalShift/Scripts/PlayerPlatform.cs:362-374 | a clockwise and a counterclockwise quarter turn undo each other |
| Platform.FullTurn | Assets/TerminalShift/Scripts/PlayerPlatform.cs:364-368 | four clockwise quarter turns are the identity |
| Platform.PlayerPlatform.UpdatePlatformRotationDesiredOrientation | Assets/TerminalShift/Scripts/PlayerPlatform.cs:362-374 | a clockwise press turns the desired orientation by +90 degrees, otherwise a counterclockwise press by -90 degrees, otherwise it is unchanged |
| Platform.NextFallSpeed | Assets/TerminalShift/Scripts/PlayerPlatform.cs:75-78 | the new fall speed never exceeds the terminal speed or the accelerated speed, and is one of the two |
| Platform.FallSpeedApproachesTerminal | Assets/TerminalShift/Scripts/PlayerPlatform.cs:75-78 | under non-negative acceleration a speed at or below terminal never decreases and stays at or below terminal |
| Platform.IsAbleToPassThrough | Assets/TerminalShift/Scripts/PlayerPlatform.cs:176-214 | the platform passes if and only if there is no obstacle, or its shape is the required one, less than 10 degrees of turn remain, and the obstacle accepts all orientations or lies within 10 degrees of the platform |
| Platform.NearestAmongIsNearestBelow | Assets/TerminalShift/Scripts/PlayerPlatform.cs:94-117 | the search yields the highest obstacle strictly below the limit, the first of equally high ones, and nothing exactly when no obstacle is below the limit |
| Platform.NearestBelowUnique | Assets/TerminalShift/Scripts/PlayerPlatform.cs:94-117 | at most one obstacle meets that description |
| Platform.PlayerPlatform.FindNextObstacle | Assets/TerminalShift/Scripts/PlayerPlatform.cs:94-117 | the nested loop returns the nearest obstacle below the platform's underside among the obstacles of the segments flagged as holding one |
| Platform.PlayerPlatform.AcquireNextObstacle | Assets/TerminalShift/Scripts/PlayerPlatform.cs:129-132 | the target is the stored obstacle while its segment is in the shaft, and otherwise the result of a new search; a reference to it is stored, and while serial numbers are distinct that reference resolves back to the target |
| Platform.PlayerPlatform.MeetObstacle | Assets/TerminalShift/Scripts/PlayerPlatform.cs:134-173 | before the obstacle is reached nothing changes; a pass restores gravity and forgets the obstacle; a block moves the shaft back by the penetration depth only when it exceeds 0.01, and zeroes speed and acceleration exactly when the encounter completes, leaving them unchanged otherwise |
| Platform.PlayerPlatform.InteractWithNearestObstacle | Assets/TerminalShift/Scripts/PlayerPlatform.cs:127-174 | the combination of the two: the obstacle dealt with is the stored or newly found one, and the reaction is the one above; with no obstacle nothing but the reference changes |
| Platform.PlayerPlatform.constructor | Assets/TerminalShift/Scripts/PlayerPlatform.cs:51-65 | wake-up creates the objects for the initial X to X morph, sets the fraction to 0 and the acceleration to gravity |
| Platform.PlayerPlatform.Fall | Assets/TerminalShift/Scripts/PlayerPlatform.cs:75-80 | the new fall speed is the accelerated speed capped at terminal, and the shaft advances by exactly that speed times the frame time, as AdvanceShaft's contract describes |
| Platform.PlayerPlatform.Update | Assets/TerminalShift/Scripts/PlayerPlatform.cs:67-81 | a frame keeps the platform's invariant, and when it completes the fall speed is at most terminal |

## Left out

- Engine object lifecycle: `Instantiate`, `Destroy`, `SetParent` and the morph display (`UpdateDisplayedPlatformMorph`, which sets the scale). A destroyed object is recorded as no object straight away. Unity destroys it only at the end of the frame.
- Mesh bounds: `TransformPoint` on the mesh corners is not computed. Each mesh gives its two corner heights, already in segment space.
- Quaternion numerics: `Quaternion.Angle`, `Slerp`, `SmoothDampAngle` and the current-orientation update (`UpdatePlatformRotationCurrentOrientation`). The two angles the obstacle check reads are inputs, and the desired orientation is a count of quarter turns.
- Positions: only the y axis of positions and bounds is modelled. The prefab's own rotation is already folded into the segment-space heights of its mesh corners and obstacles. The random yaw turns about the vertical axis (`Quaternion.Euler(0, 90·k, 0)`), and a turn about that axis does not change heights. The shaft root is assumed to have no scale and no tilt: any rotation it has is about the vertical axis, so world heights are the root height plus segment-space heights.
- Floating point: positions, speeds and the morph fraction are exact reals. Single-precision rounding is not modelled. Under that rounding, 1 - Epsilon equals 1, and division by a zero morph duration would give infinity. The refill loop's termination holds only over exact reals: in single precision, lowering the shaft bound by a prefab height below half a unit in the last place of that bound (about 1e-6 near -30) leaves it unchanged, so a prefab that passes the Epsilon check can still make the loop spin forever.
- Platform.PlayerPlatform.constructor: requires a positive morph duration.
- Platform.PlayerPlatform.constructor: requires a shaft whose prefab analysis succeeded (Shaft.ScrollingElevatorShaft.Awake establishes this). The platform's wake-up never reads the analysed prefabs, and every object wakes before the first frame update, so the shaft has been analysed by the time the platform first advances it; the precondition fixes one order of two wake-ups that do not depend on each other.
- Shaft.ScrollingElevatorShaft.Awake: requires the serial-number invariant, which a new shaft has. Unity wakes an object once, right after creating it.
- Shaft.Randomizer.Next: the values drawn are those of an injected oracle, not of `System.Random`'s algorithm. The number of draws a refill consumes is not stated.
- Shaft.ScrollingElevatorShaft.AdvanceShaft: requires that the prefab analysis succeeded. If a prefab shorter than Epsilon slipped through, the source's refill loop need not terminate, and that case is not modelled.
- Platform.PlayerPlatform.Update: states the platform invariant and the speed cap, not the combined effect of its steps. Each step is a method of its own (UpdatePlatformMorph, UpdatePlatformRotationDesiredOrientation, InteractWithNearestObstacle, Fall) whose contract states its effect.
- Null arrays: the `SegmentPrefabs` and `ShapeBindings` arrays are assumed to be non-null.
- `PlatformRotationDurationSeconds`, `PlatformRotationAngularVelocity` and `DebugEnabled`: these serve only the left-out rotation numerics and logging.
- The lethality flag: it is computed (`impactWasLethal`) and, as in the source, has no effect.
- Other scripts: the audio blender, the random audio player, the fog manipulator, the drop-shadow orienter and the editor save hook are not part of this model.
