# Bouncing balls: a Dafny model of the particle update

`GameWindowSetup.py` is a pygame demo of circular particles in a
1000 x 800 window. Each frame it does four things:

- It reads the pointer events. A button press selects the first particle
  under the pointer and a release drops it.
- It aims the held particle at the pointer.
- It moves every particle under gravity and drag, reflecting it off the walls.
- It collides every particle with every later one.

This project models that update logic and proves what it does.

- `Numerics`: the math primitives and `AddVectors`. `cos`, `sin`, `atan2`,
  `hypot` and `pi` are fields of a `MathLib` value, so they stay
  uninterpreted. The only facts assumed about them (`Sound`) are that `pi`
  is positive and `hypot` is never negative.
- `Particles`: a particle's state as a value, plus `Particle`, a class whose
  fields `Move` updates in place. `Move` is proved against the function
  `Moved`, which is `Integrate` followed by `Reflect`.
- `Collisions`: `collide` as the function `Collision`, and the in-place
  method `Collide` proved against it.
- `Selection`: `findParticle` as a loop, `FindParticle`, proved to return
  `FirstHit`, the first particle, in list order, whose circle contains the
  pointer.
- `FrameOrder`: the frame's nested loops written as a sequence of move and
  collide operations (`Schedule`). It proves the following:
  - every particle is moved exactly once;
  - every pair i < j is collided exactly once;
  - the collision of i and j comes after the move of i and before the move
    of j.
- `Simulation`: the particle list as a `World` object. `Step` runs the
  event, aim and update loops on the particle objects. Each loop is proved
  against a function on the list of states:
  - `HandleEvents` against `SelectAll`;
  - `Aim` against `Override`;
  - `CollideLater` and `UpdateAll` against `Sweep` and `Round`.

  Lemmas then show that `Round` performs exactly the operations of
  `Schedule` (`RoundIsFrame`).

The model follows the code where the code and the evident physical intent
part ways:

- `collide` assigns both composed velocities to the first particle
  (lines 41-42). The second assignment reads the first particle's speed as
  the first assignment left it. The second particle's velocity never
  changes.
- The overlap correction adds the same offset to both particles (lines
  45-48). The two particles keep their distance and are not pushed apart.

## Model

| member | source | states |
|---|---|---|
| `Numerics.AddVectors` | GameWindowSetup.py:15-22 | The resultant's magnitude comes from `hypot`, so it is never negative. |
| `Numerics.AddVectorsCommutes` | GameWindowSetup.py:15-22 | Composing two velocities does not depend on their order. |
| `Numerics.AddVectorsBySum` | GameWindowSetup.py:16-20 | The resultant depends on the operands only through the sums of their Cartesian components. |
| `Numerics.AddZeroVector` | GameWindowSetup.py:15-22 | Adding a zero-magnitude vector, whatever its heading, gives the polar form of the other operand's components. |
| `Particles.Integrate` | GameWindowSetup.py:66-70 | The heading becomes that of the velocity composed with gravity (pi/2, 0.00007). The position advances by that composed velocity's components, before drag. The speed becomes the drag factor 0.9999 times the composed magnitude. Size and mass are kept. |
| `Particles.Reflect` | GameWindowSetup.py:72-90 | Walls are tried right, left, bottom, top, and only the first that applies acts. Right: x becomes 2(width - size) - x, which is below width - size, and the heading becomes pi - heading. Left: x becomes 2 size - x, which is above size, with the same heading flip. Bottom and top do the same for y, with the heading negated. Inside all walls nothing changes. Speed, size and mass never change. |
| `Particles.ReflectOneAxis` | GameWindowSetup.py:72-90 | A reflection changes at most one coordinate. A change of x comes with heading pi - heading; a change of y comes with heading -heading. |
| `Particles.ReflectSingleWall` | GameWindowSetup.py:72-90 | A particle that crossed one wall by at most the free width of the box ends inside the box on both axes. |
| `Particles.Moved` | GameWindowSetup.py:65-90 | After `move`, the speed is the drag factor times the magnitude of velocity plus gravity; reflection never changes it. The speed is never negative. Size and mass are kept. |
| `Particles.Particle.constructor` | GameWindowSetup.py:52-60 | A new particle has the given position, radius, speed and heading, and mass 2 pi size^2. |
| `Particles.Particle.Move` | GameWindowSetup.py:65-90 | The in-place `move` leaves the particle in the state `Moved` gives. |
| `Collisions.FirstImpulse` | GameWindowSetup.py:41 | The first composition: the first particle's velocity scaled by (m1 - m2)/(m1 + m2), plus an impulse 2 v2 m2/(m1 + m2) along the contact heading. Its magnitude is never negative. |
| `Collisions.SecondImpulse` | GameWindowSetup.py:42 | The second composition: the second particle's velocity scaled by (m2 - m1)/(m1 + m2), plus an impulse 2 v1' m1/(m1 + m2) along the reversed contact heading, where v1' is the first particle's speed after line 41. Its magnitude is never negative. |
| `Collisions.Collision` | GameWindowSetup.py:32-48 | Particles that do not overlap are unchanged. The second particle's heading and speed are never changed. No size or mass changes. The displacement between the centres is unchanged. After an overlap, the first particle's speed is never negative. |
| `Collisions.CollisionOverwritesFirst` | GameWindowSetup.py:41-42 | After an overlap, the first particle's velocity is the second composition. That composition scales the second particle's velocity and adds an impulse along the reversed contact heading. The impulse uses the first particle's speed as the first assignment left it. |
| `Collisions.CollisionShift` | GameWindowSetup.py:44-48 | After an overlap, both particles move by the same (cos(angle) overlap, -sin(angle) overlap), with overlap = 0.5 (size1 + size2 - distance + 1). |
| `Collisions.CollisionKeepsDistance` | GameWindowSetup.py:44-48 | A collision never changes the distance between the centres, so overlapping particles still overlap. |
| `Collisions.Collide` | GameWindowSetup.py:32-48 | The in-place `collide` leaves both particles in the states `Collision` gives. |
| `Selection.FirstHitFrom` | GameWindowSetup.py:25-29 | The result, if any, is the first index at or after the start whose particle contains the pointer. None means no particle from the start on contains it. |
| `Selection.FirstHit` | GameWindowSetup.py:25-29 | The result is the first particle whose circle contains the pointer, and every earlier one misses. None is returned exactly when every particle misses. |
| `Selection.FirstHitUnique` | GameWindowSetup.py:25-29 | Any answer with the first-hit property is the answer `FirstHit` gives. |
| `Selection.FindParticle` | GameWindowSetup.py:25-29 | The linear search with early return returns `FirstHit`. |
| `FrameOrder.Pairs` | GameWindowSetup.py:139-140 | The k-th collision of particle i's inner loop is with particle i + 1 + k. |
| `FrameOrder.PairsUnfold` | GameWindowSetup.py:139-140 | Each inner-loop iteration appends exactly the next collision. |
| `FrameOrder.Block` | GameWindowSetup.py:137-140 | One outer iteration for particle i is its move, then its collisions with particles i + 1 .. n - 1 in order: n - i operations in all. |
| `FrameOrder.Prefix` | GameWindowSetup.py:137-140 | The operations of the first i outer iterations fit the list and belong to rows below i. |
| `FrameOrder.PrefixUnfold` | GameWindowSetup.py:137-140 | Outer iteration i appends the move of particle i and then its collisions with the later particles. |
| `FrameOrder.PrefixDef` | GameWindowSetup.py:137-140 | The first k + 1 outer iterations are the first k followed by iteration k. |
| `FrameOrder.Schedule` | GameWindowSetup.py:137-140 | Every operation of a frame names particles of the list. |
| `FrameOrder.BlockSorted` | GameWindowSetup.py:137-140 | One outer iteration is in loop order, and all its operations belong to row i. |
| `FrameOrder.PrefixSorted` | GameWindowSetup.py:137-140 | The first i outer iterations are in loop-nest order. |
| `FrameOrder.ScheduleSorted` | GameWindowSetup.py:137-140 | A frame performs its operations in loop-nest order. |
| `FrameOrder.BlockMembers` | GameWindowSetup.py:137-140 | Outer iteration k performs exactly the move of particle k and its collisions with the later particles. |
| `FrameOrder.PrefixMembers` | GameWindowSetup.py:137-140 | The first i iterations perform exactly the operations of rows below i. |
| `FrameOrder.ScheduleMembers` | GameWindowSetup.py:137-140 | A frame performs an operation exactly when it is the move of a particle of the list or the collision of a pair i < j of the list. |
| `FrameOrder.ScheduleNoRepeats` | GameWindowSetup.py:137-140 | A frame performs no operation twice, so each particle is moved once and each pair is collided once. |
| `FrameOrder.ScheduleInterleaving` | GameWindowSetup.py:137-140 | The collision of i and j comes after the move of i and before the move of j. |
| `FrameOrder.ScheduleMovesInOrder` | GameWindowSetup.py:137-138 | Particles are moved in index order. |
| `Simulation.MoveOne` | GameWindowSetup.py:138 | Entry i becomes the state `Moved` gives and every other entry is unchanged. The list length is kept and every mass stays positive. |
| `Simulation.CollideTwo` | GameWindowSetup.py:140 | Entries i and j become the first and second particle of `Collision` on their old states, and every other entry is unchanged. The list length is kept and every mass stays positive. |
| `Simulation.ApplyOp` | GameWindowSetup.py:138-140 | One operation keeps the list length and every mass positive. |
| `Simulation.Apply` | GameWindowSetup.py:137-140 | A sequence of operations, performed first to last, keeps the list length and every mass positive. |
| `Simulation.ApplyOpFrame` | GameWindowSetup.py:138-140 | A move or a collision changes no other particle, and no particle's size or mass. |
| `Simulation.ApplyOpSpeed` | GameWindowSetup.py:138-140 | A particle that was just moved, or whose speed was not negative, has a speed that is not negative afterwards. |
| `Simulation.ApplyKeepsSizes` | GameWindowSetup.py:137-140 | No sequence of moves and collisions changes a particle's size or mass. |
| `Simulation.ApplyConcat` | GameWindowSetup.py:137-140 | Performing two operation sequences one after the other performs their concatenation. |
| `Simulation.ApplySnoc` | GameWindowSetup.py:137-140 | Performing one more operation at the end is applying it to the result so far. |
| `Simulation.PairsStep` | GameWindowSetup.py:139-140 | One more inner iteration performs one more collision of particles i and j. |
| `Simulation.PrefixStep` | GameWindowSetup.py:137-140 | One more outer iteration moves particle i and then performs its collisions. |
| `Simulation.ApplySpeeds` | GameWindowSetup.py:137-140 | After a sequence of operations, a particle that was moved, or whose speed was not negative, has a speed that is not negative. |
| `Simulation.Frame` | GameWindowSetup.py:137-140 | A frame keeps the length of the particle list. |
| `Simulation.FrameKeepsSizes` | GameWindowSetup.py:137-140 | A frame changes no particle's size or mass. |
| `Simulation.FrameSpeeds` | GameWindowSetup.py:137-140 | A frame moves every particle, so afterwards no speed is negative. |
| `Simulation.Sweep` | GameWindowSetup.py:139-140 | The inner loop for particle i, stopped before j, keeps the list length and every mass positive. |
| `Simulation.Round` | GameWindowSetup.py:137-140 | The outer loop stopped before i keeps the list length and every mass positive. |
| `Simulation.SweepUnfold` | GameWindowSetup.py:139-140 | Inner iteration j collides particle i and particle j on the states the earlier iterations left. |
| `Simulation.RoundUnfold` | GameWindowSetup.py:137-140 | Outer iteration i moves particle i and then runs its inner loop. |
| `Simulation.SweepStart` | GameWindowSetup.py:139 | An inner loop that has not started has collided nothing. |
| `Simulation.SweepNext` | GameWindowSetup.py:139-140 | Each inner iteration performs the next collision of `Pairs`. |
| `Simulation.SweepIsPairs` | GameWindowSetup.py:139-140 | The inner loop performs exactly the collisions `Pairs` lists, in that order. |
| `Simulation.RoundNext` | GameWindowSetup.py:137-140 | Each outer iteration performs the next block of `Prefix`. |
| `Simulation.RoundIsPrefix` | GameWindowSetup.py:137-140 | The first i outer iterations perform exactly the operations `Prefix` lists. |
| `Simulation.RoundIsFrame` | GameWindowSetup.py:137-140 | The nested loops perform exactly `Schedule`. |
| `Simulation.Select` | GameWindowSetup.py:119-127 | A press gives the first particle, in list order, whose circle contains the press position, or none when no particle does. A release clears the selection. A selection is always an index of the list. |
| `Simulation.SelectAll` | GameWindowSetup.py:115-127 | Handling the events in order, starting from a selection that is an index of the list, leaves a selection that is an index of the list. |
| `Simulation.SelectAllLast` | GameWindowSetup.py:115-127 | Only the last pointer event of a frame decides the selection. With no event the selection is kept. |
| `Simulation.Override` | GameWindowSetup.py:129-134 | Only the held particle changes. Its heading becomes atan2 towards the pointer and its speed a hundredth of the distance to the pointer. Its position, size and mass are kept, and the speed is never negative. |
| `Simulation.World.constructor` | GameWindowSetup.py:98-108 | A world over a list of created particles holds nothing. |
| `Simulation.World.HandleEvents` | GameWindowSetup.py:115-127 | Handling the events in order leaves the selection `SelectAll` gives. |
| `Simulation.World.Aim` | GameWindowSetup.py:129-134 | The particle objects end in the states `Override` gives. |
| `Simulation.World.MoveAt` | GameWindowSetup.py:138 | `move` on particle i changes the list of states by moving entry i. |
| `Simulation.World.CollideAt` | GameWindowSetup.py:140 | `collide` on particles i and j changes the list of states by colliding entries i and j. |
| `Simulation.World.CollideLater` | GameWindowSetup.py:139-140 | The inner loop leaves the states `Sweep` gives. |
| `Simulation.World.MoveThenCollide` | GameWindowSetup.py:137-140 | One outer iteration advances the states from `Round` at i to `Round` at i + 1. |
| `Simulation.World.UpdateAll` | GameWindowSetup.py:137-140 | The nested loops leave the states `Round` gives over the whole list. |
| `Simulation.World.Step` | GameWindowSetup.py:115-140 | One frame leaves the selection `SelectAll` gives. It leaves the particles in the frame's result on the aimed states. The list length and order are kept. |

## Left out

- Window creation, caption, `screen.fill`, `display`, `pygame.draw.circle`
  and `display.flip` (lines 94-95, 112, 141-145) are rendering and are not
  modelled.
- The colour and thickness fields are not modelled, nor are the colour
  changes on select and release (lines 56-57, 123, 126). They serve only
  drawing.
- The `QUIT` event, the `running` flag and `pygame.quit()` (lines 109-110,
  116-118) are not modelled. Event polling (line 115) is not modelled
  either: a frame's pointer events are a parameter of `Step`.
- The pointer position read by `mouse.get_pos()` is a parameter. At a press
  it is carried by the `ButtonDown` event.
- Random initial radius, position, speed and heading (lines 58-59, 100-105)
  are a foreign RNG. The constructor takes speed and heading as parameters.
  The world is built over particles created beforehand.
- Python floats are modelled as exact reals, so rounding is not modelled.
  Integer radii and positions are reals too.
- `cos`, `sin`, `atan2`, `hypot` and `pi` are uninterpreted. No property
  depends on a trigonometric identity, and momentum, energy and the
  direction of separation are not reasoned about.
- Masses are positive in the Python program because creation sets 2 pi size^2
  with size at least 10. The model keeps positive masses as an invariant of
  `World`. It does not derive it from creation, because that would need
  nonlinear real arithmetic.
- `Collisions.Collision`: it requires the total mass of overlapping
  particles to be non-zero. There the Python program would raise
  ZeroDivisionError. This cannot happen while masses are positive.
- The selected particle is an index into the fixed particle list; the
  Python program holds a reference to the particle object.
