# Platformer physics in Dafny

A model of the frame-step physics of a small pygame platformer, with its proofs:

- **Structures** (`platformer/structures/abstract_structure.py`): static boxes, as a datatype
  whose `GetRect` is the collision box. `Ground` is the same value.
- **Objects** (`platformer/objects/abstract_object.py`): the collision engine. A class `Object`
  with the source's fields; `Update` clears the grounded flag, adds gravity, moves along x and
  resolves against every structure in list order, then does the same along y. Each resolve pass
  is a loop over the structures that recomputes the local box after each hit. Every method is
  proved equal to a function on a `Body` value (`ResolveX`, `ResolveY`, `Advance`), and the
  lemmas about those functions state what a frame does.
- **Player** (`platformer/objects/circle.py`): the circle-shaped player, its movement setters and
  its jump, which is gated on the vertical velocity.
- **Viewport** (`platformer/camera/camera.py`): the camera offset, centred on a target and then
  clamped low first and high second, and the world-to-screen translation.
- **Demo** (`Examples/circle.py`): the stand-alone demo circle. It integrates gravity, clamps to
  the screen edges offset by its radius, and has an on-ground tolerance test.
- **Scenario**: a body of size 50x50 dropped from rest at (100, 100) with gravity 0.5 above a
  platform at (90, 200) of size 200x20. It falls freely for 13 frames and lands on frame 14 at
  y = 150, stopped and grounded.

Overlap is the predicate `Geometry.Overlaps`. It is strict on both axes, so boxes that share only
an edge do not collide. It is false whenever either box has no positive width or height.

Positions, velocities and gravity are exact `real`s. Screen and world sizes are `int`s. Python's
`screen_width // 2` is Dafny's `/` on `int`: for the divisor 2 the two agree on every sign.

Two behaviours of the code differ from what its comments or a reader might expect; the model keeps them:

- The player's jump fires when `|y_vel| < 0.01`, not when the grounded flag is set.
  `Player.ApexOpensJump` shows the gate opening in mid-air.
- When the world is narrower than the screen, the camera offset ends as `world - screen`, which
  is negative, not 0. This is because the upper clamp runs after the lower one.

In the model, which tests overlap on exact reals, a body resting on a platform is grounded every
frame: gravity pulls it into the platform and the vertical pass snaps it back
(`Objects.RestingStaysGrounded`). The program, with its integer rectangles, behaves differently, as
noted under "## Left out".

## Model

| member | source | states |
|---|---|---|
| `Geometry.Overlaps` | platformer/objects/abstract_object.py:44 | the colliding-rectangle test: true only when both boxes have positive width and height; boxes that only share an edge never overlap |
| `Structures.Structure.GetRect` | platformer/structures/abstract_structure.py:24-25 | the box has left = x, top = y, right = x + width and bottom = y + height; it has area exactly when width and height are positive |
| `Objects.Object.constructor` | platformer/objects/abstract_object.py:4-15 | position, size and gravity are stored as given (gravity defaults to 0.5); both velocities are 0; not grounded |
| `Objects.Object.GetRect` | platformer/objects/abstract_object.py:17-18 | the object's box is its position and size |
| `Objects.ResolveX` | platformer/objects/abstract_object.py:41-52 | the horizontal pass changes only x and x velocity |
| `Objects.ResolveXNoHit` | platformer/objects/abstract_object.py:42-44 | if the starting box overlaps no structure, the horizontal pass changes nothing |
| `Objects.ResolveXIdle` | platformer/objects/abstract_object.py:46-51 | with zero x velocity no structure moves the body: a snap needs a non-zero velocity |
| `Objects.ResolveXFirstHit` | platformer/objects/abstract_object.py:44-52 | only the first overlapping structure acts: moving right ends with x + width = its left edge, moving left with x = its right edge, not moving leaves x; x velocity ends 0; later structures change nothing |
| `Objects.ResolveY` | platformer/objects/abstract_object.py:54-67 | the vertical pass changes only y, y velocity and the grounded flag, and never clears the flag |
| `Objects.ResolveYNoHit` | platformer/objects/abstract_object.py:55-57 | if the starting box overlaps no structure, the vertical pass changes nothing |
| `Objects.ResolveYIdle` | platformer/objects/abstract_object.py:59-66 | with zero y velocity no structure changes the body |
| `Objects.ResolveYFirstHit` | platformer/objects/abstract_object.py:57-67 | only the first overlapping structure acts: falling ends with y + height = its top and grounded; rising ends with y = its bottom and the flag untouched; y velocity ends 0; not moving changes nothing |
| `Objects.ResolveYGrounds` | platformer/objects/abstract_object.py:57-62 | the pass raises the grounded flag exactly when the body was falling and overlapped some structure; the body then rests on that structure's top with zero y velocity |
| `Objects.Advance` | platformer/objects/abstract_object.py:20-39 | a frame never changes width, height or gravity |
| `Objects.FreeFall` | platformer/objects/abstract_object.py:27-39 | with no structures a frame gives y velocity + gravity, x + x velocity, y + the new y velocity, not grounded |
| `Objects.AdvanceGrounded` | platformer/objects/abstract_object.py:27-62 | after a frame the object is grounded exactly when it was falling into an overlap before the vertical pass, that is, when the pass performed a downward snap; it is then on a structure's top with zero y velocity |
| `Objects.RestingStaysGrounded` | platformer/objects/abstract_object.py:27-62 | a body at rest on a structure's top (gravity smaller than the two heights together) stays at the same place, with zero velocity, and is grounded after the frame |
| `Objects.Object.Update` | platformer/objects/abstract_object.py:20-39 | the new state is `Advance` of the old state; only position, velocities and the grounded flag may change |
| `Objects.Object.ResolveCollisionsX` | platformer/objects/abstract_object.py:41-52 | the loop over structures computes `ResolveX` of the old state and changes only x and x velocity |
| `Objects.Object.ResolveCollisionsY` | platformer/objects/abstract_object.py:54-67 | the loop over structures computes `ResolveY` of the old state and changes only y, y velocity and the grounded flag |
| `Scenario.FallingPhase` | platformer/objects/abstract_object.py:27-39 | for n <= 13 frames the 50x50 body dropped from (100, 100) has y velocity n/2, has dropped n(n+1)/4 and is not grounded |
| `Scenario.LandsOnFrame14` | platformer/objects/abstract_object.py:27-62 | on frame 14 the body lands on the platform: y = 150 (bottom on the platform's top 200), y velocity 0, grounded |
| `Player.Circle.constructor` | platformer/objects/circle.py:5-16 | centre (x, y) and radius r give the box corner (x - r, y - r) and side 2r, gravity defaults to 0.5, move speed is 5, jump speed is 12, and the centre recovered for drawing is (x, y) again |
| `Player.Circle.Centre` | platformer/objects/circle.py:18-21 | the drawing centre (x + radius, y + radius) is the centre of the box |
| `Player.Circle.MoveLeft` | platformer/objects/circle.py:24-25 | x velocity becomes minus the move speed; nothing else changes |
| `Player.Circle.MoveRight` | platformer/objects/circle.py:27-28 | x velocity becomes the move speed; nothing else changes |
| `Player.Circle.StopHorizontal` | platformer/objects/circle.py:30-31 | x velocity becomes 0; nothing else changes |
| `Player.Circle.Jump` | platformer/objects/circle.py:33-37 | y velocity becomes minus the jump speed exactly when abs(y velocity) < 0.01, otherwise it is unchanged; the grounded flag, x and x velocity are neither read nor changed |
| `Player.LandingOpensJump` | platformer/objects/circle.py:33-37 | a frame that ends grounded leaves the jump gate open |
| `Player.ApexOpensJump` | platformer/objects/circle.py:33-37 | a body rising by exactly the gravity step ends the frame not grounded, whatever the structures, with the jump gate open |
| `Viewport.Offset` | platformer/camera/camera.py:11-28 | one axis of the offset: within [0, world - screen] when the world is at least the screen, world - screen when it is narrower, the centred value when that already fits, saturated at either end |
| `Viewport.OffsetMonotone` | platformer/camera/camera.py:16-23 | the offset never decreases when the target moves forward |
| `Viewport.Camera.constructor` | platformer/camera/camera.py:2-9 | sizes stored as given, offset (0, 0) |
| `Viewport.Camera.Update` | platformer/camera/camera.py:11-28 | each axis of the new offset is `Offset` of that axis's target and sizes only: independent of the old offset (so repeating it is idempotent) and of the other axis; sizes never change |
| `Viewport.Camera.Apply` | platformer/camera/camera.py:30-34 | adding the offset back to the screen point gives the world point; nothing is changed |
| `Demo.Step` | Examples/circle.py:34-61 | gravity first, then both moves; x velocity untouched; x within [r, width - r] when the screen is at least 2r wide, y likewise for height; unclamped moves are kept; a left hit gives x = r (when the screen is at least 2r wide) and a right hit gives x = width - r; a top hit gives y = r and y velocity 0 (when the screen is at least 2r tall); a bottom hit gives y = height - r, y velocity 0 and on-ground; on a screen narrower than 2r the right clamp wins (x = width - r), and on one shorter than 2r the bottom clamp wins (y = height - r, y velocity 0, on-ground) |
| `Demo.Circle.constructor` | Examples/circle.py:9-32 | position, radius and parameters stored as given (speed 5, jump speed 15, gravity 0.5 by default); both velocities 0 |
| `Demo.Circle.Update` | Examples/circle.py:34-61 | the new state is `Step` of the old state; only x, y and y velocity change |
| `Demo.Circle.IsOnGround` | Examples/circle.py:69-73 | the bottom of the circle is strictly within one unit of the screen height; reads only |
| `Demo.Circle.MoveLeft` | Examples/circle.py:75-76 | x velocity becomes minus the speed; nothing else changes |
| `Demo.Circle.MoveRight` | Examples/circle.py:78-79 | x velocity becomes the speed; nothing else changes |
| `Demo.Circle.StopHorizontalMovement` | Examples/circle.py:81-82 | x velocity becomes 0; nothing else changes |
| `Demo.Circle.Jump` | Examples/circle.py:84-88 | y velocity becomes minus the jump speed, unconditionally; nothing else changes |

## Left out

- Drawing: every `draw` method, colours, textures, texture scaling, and the integer centre used
  for drawing. These are rendering through pygame.
- The game loops (`platformer/game.py` and class `Game` in `Examples/circle.py`). They are event
  polling, key handling, display, clock and exit. No code combines the camera with the player, so
  no combined world step is modelled.
- `pygame.Rect` stores integer coordinates. The model tests overlap on the exact real positions
  instead; this is its one numeric deviation. Rectangles with negative sizes, which pygame
  normalises, never collide in the model.
- Objects.RestingStaysGrounded: holds only for the exact-real overlap test. The program converts
  positions to integer rectangles, so with gravity below 1 a body resting on a platform moves
  down by less than a pixel on one frame, its rectangle only touches the platform, and there is
  no snap. On such frames the program's grounded flag is false and the jump gate is closed; the
  flag and the gate then alternate from frame to frame, which the model does not capture.
- Floating-point rounding: positions, velocities and gravity are exact reals.
- Inheritance: the player's `Circle` holds its `Object` part as the field `body`. The inherited
  `update` is `body.Update`.
- Width, height, gravity, radius, move speed and jump speed are never reassigned after
  construction. The model makes them constants.
- Python's dynamic typing: an integer 0 velocity and a float velocity are both reals here.
