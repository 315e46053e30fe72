# Pong: the integer game logic

A Dafny model of the game logic of a two-paddle Java Pong (`Pong.java`, `Player.java`):

- how a paddle steps toward its target and is clamped into the playfield;
- how each of the four control modes picks that target;
- how a CPU_HARD paddle predicts where the ball will cross its line;
- how the ball is returned by a paddle, scores past it, and reflects off the top and bottom walls;
- the keyboard and mouse flags, and the construction of a player.

Modules follow the program:

- `JavaInt`: Java's truncating `/` and `%`.
- `Constants`: the fixed sizes.
- `Players`: `Player.java`.
- `Paddle`: `movePlayer` and `computePosition` as functions.
- `Prediction`: `computeDestination` as functions, with a reference wall-bounce function.
- `Collision`: the band test and the wall reflection.
- `Game`: the class `Pong`. Its methods change the fields in place, as the source does. The paddle, prediction and collision methods are proved equal to the functions above; the key and mouse handlers state the new flags directly.

The central result is `Prediction.FoldIsBounce`. The source's mirror-and-modulo fold (`Pong.java:67-77`) always gives the same row as reflecting the projected point off walls at `RADIUS` and `height - RADIUS`, for any height greater than `2 * RADIUS`. The predicted intercept therefore always lies in `[RADIUS, height - RADIUS]`.

Speeds are doubles in the source. They are held here as their truncations `(int)ball_x_speed` and `(int)ball_y_speed`, which are what the modelled code reads as numbers. Truncation commutes with `Math.abs` and with negation, so the reflections act on these values exactly. A nonzero truncation has the double's sign, so the sign tests at `Pong.java:62`, `155` and `159` are exact whenever the division at line 63/65 is defined.

What the code does:

- A paddle starts at position 0 (Player.java:18), which is outside `[HEIGHT, height - HEIGHT]`. A human paddle stays there until it first moves. A paddle already at its destination is not clamped (Pong.java:84). So the in-range property is an invariant from the first move on (`Paddle.PaddleStep`, `Game.Pong.MovePaddles`), not from construction.
- A CPU_HARD paddle recomputes its destination when the opposite paddle returns the ball (Pong.java:187-188, 205-206).
- The left contact line is x = `PADDING + WIDTH + RADIUS` = 40 (Pong.java:179); the right one is x = width - 40 (Pong.java:197).
- The keyboard branch (Pong.java:109) tests `Player.KEYBOARD`.

## Model

| member | source | states |
|---|---|---|
| JavaInt.Div | Pong.java:63-65 | Java's `/`: the quotient times the divisor never exceeds the dividend in magnitude; what is left is smaller than the divisor and has the dividend's sign (rounding toward zero) |
| JavaInt.Rem | Pong.java:72-75 | Java's `%`: differs from the dividend by a multiple of the divisor, is smaller than the divisor in magnitude and has the dividend's sign, which fixes it uniquely |
| Players.NormalizeType | Player.java:22-28 | the resulting type is always one of the four modes; an input in 0..3 is kept; an input outside 0..3 (and only such an input) is replaced by CPU_EASY |
| Players.Player.constructor | Player.java:17-28 | the type is the normalised request and is a `const`, so it can never change; position, destination and points start at 0 |
| Players.Player.GetType | Player.java:30-32 | returns the player's type, which is always one of the four modes |
| Paddle.Approach | Pong.java:82-90 | the unclamped step moves by exactly min(distance, SPEED) toward the destination, never past it, and onto it when it is within SPEED |
| Paddle.ClampPaddle | Pong.java:92-95 | for a playfield at least 2*HEIGHT tall the result is the nearest point of `[HEIGHT, height-HEIGHT]` (in-range positions are kept); in a shorter one the bottom clamp, applied second, wins |
| Paddle.PaddleStep | Pong.java:81-97 | no change and no clamp when position equals destination; after any actual move the paddle lies in `[HEIGHT, height-HEIGHT]` when height >= 2*HEIGHT; a paddle in range stays in range and moves at most SPEED |
| Paddle.Target | Pong.java:100-125 | MOUSE aims at the pointer only while it is inside; KEYBOARD moves one SPEED up or down exactly when only one key is held; CPU_HARD aims at `destination`, CPU_EASY at `ball_y`; any other type never moves |
| Paddle.PositionAfter | Pong.java:100-125 | a MOUSE paddle with the pointer outside and a KEYBOARD paddle with both or neither key held stay put; CPU paddles take one PaddleStep to their target; being in the playfield is preserved |
| Paddle.KeyboardStep | Pong.java:109-116 | a keyboard paddle in range with one key held moves exactly SPEED that way, stopping at the edge |
| Paddle.CpuStepBetween | Pong.java:117-124 | a paddle and target both in range: the paddle ends between its old position and the target |
| Prediction.Bounce | Pong.java:67-77 | reference wall bouncing between `lo` and `hi`: the result lies in `[lo, hi]`, and a point already there is kept |
| Prediction.BounceClosedForm | Pong.java:72-75 | bouncing `t >= 0` pixels past the lower wall equals the quotient/remainder closed form that the source's modulo code computes |
| Prediction.Projection | Pong.java:62-65 | the linear projection `(dx * vy) / vx` is the exact crossing row rounded toward the ball's row, off by less than one pixel, for both directions of travel |
| Prediction.Fold | Pong.java:67-77 | the mirror at the top and the mirror-and-modulo fold at the bottom put any row into `[RADIUS, height-RADIUS]` when height > 2*RADIUS; `FoldIsBounce` says which row |
| Prediction.FoldIsBounce | Pong.java:67-77 | the mirror at the top plus the mirror-and-modulo fold at the bottom equals reflecting off walls at RADIUS and height-RADIUS, whenever height > 2*RADIUS |
| Prediction.Destination | Pong.java:61-78 | the predicted destination lies in `[RADIUS, height-RADIUS]` for any nonzero horizontal speed and height > 2*RADIUS |
| Prediction.DestinationIsBouncedProjection | Pong.java:61-78 | the predicted destination is the straight-line projection bounced off the two walls |
| Prediction.DestinationKeepsProjection | Pong.java:63-76 | a projection in `(RADIUS, height-10]` is returned unchanged |
| Collision.InBand | Pong.java:181-182 | the band test holds exactly when the collision point is less than HEIGHT+TOLERANCE away from the paddle centre |
| Collision.WallReflect | Pong.java:215-224 | strictly between the walls nothing changes; at or above the top, when the mirrored row stays above the bottom line (`2*RADIUS - y < height - RADIUS`), the row is mirrored about RADIUS and the vertical speed made non-negative; at or below the bottom it is mirrored about height-RADIUS and made non-positive; a ball that overshot by less than the playable height ends between the walls |
| Game.Pong.constructor | Pong.java:37-58 | two players of the normalised types, a new game pending, all flags false and the ball at rest at the origin |
| Game.Pong.ComputeDestination | Pong.java:61-78 | the stored destination is the wall-bounced projection and lies in `[RADIUS, height-RADIUS]`; only that field changes |
| Game.Pong.MovePlayer | Pong.java:81-97 | the new position is PaddleStep of the old; only the position changes |
| Game.Pong.ComputePosition | Pong.java:100-125 | the new position is PositionAfter for the player's type and the current flags |
| Game.Pong.MovePaddles | Pong.java:155-160 | a human paddle always moves; a CPU paddle moves only while the ball travels toward it; paddles in the playfield stay there |
| Game.Pong.CollideLeft | Pong.java:179-194 | nothing happens before the ball reaches the left contact line; a hit mirrors `ball_x` about the line, makes the horizontal speed non-negative, keeps both scores and re-predicts for a CPU_HARD opponent; a miss adds exactly 1 to player 2's points only and sets `new_game` |
| Game.Pong.CollideRight | Pong.java:197-212 | the mirror image: a hit mirrors about `width-40` and makes the horizontal speed non-positive; a miss adds exactly 1 to player 1's points and sets `new_game` |
| Game.Pong.CollideWalls | Pong.java:215-224 | the ball's row and vertical speed become WallReflect of the old ones; nothing else changes |
| Game.Pong.MouseEntered | Pong.java:245-247 | sets `mouse_inside` and nothing else |
| Game.Pong.MouseExited | Pong.java:250-252 | clears `mouse_inside` and nothing else |
| Game.Pong.KeyPressed | Pong.java:264-270 | UP sets only `key_up`, DOWN sets only `key_down`, any other key changes nothing |
| Game.Pong.KeyReleased | Pong.java:273-279 | UP clears only `key_up`, DOWN clears only `key_down`, any other key changes nothing |

## Left out

- Drawing (`Graphics` calls, Pong.java:226-236), the `JPanel` superclass, `setBackground`, and `repaint` from `actionPerformed`: user-interface plumbing.
- The warning dialog of Player.java:25: a foreign user-interface call. Only the type substitution is modelled.
- `getWidth()`, `getHeight()` and `getMousePosition()`: foreign calls. They are parameters here. One `mouseY` serves both paddles of a frame. The case where `getMousePosition()` returns null while `mouse_inside` is still true is not modelled.
- The serve (Pong.java:132-152): it draws a random launch angle and uses cos/sin. So no method starts a rally, and the ball fields are only changed by the collision methods.
- The periodic speed-up (Pong.java:169-176) and its fields `acceleration` and `ball_acceleration_count`: floating point.
- Ball integration and the `ball_y++` correction (Pong.java:163-166): double-to-int compound assignment.
- The paddle deflection `Math.sin(...) * Math.hypot(...)` (Pong.java:185-186, 203-204): floating point. Its truncated result is the `deflectedYSpeed` input.
- The double-valued `collision_point` (Pong.java:180, 198): an integer input.
- A whole frame as one method: with the serve, speed-up and integration left out, `paintComponent` is modelled as its four integer phases (MovePaddles, CollideLeft, CollideRight, CollideWalls), which the source runs in that order.
- Java's 32-bit overflow: the magnitudes in play are small, so integers are unbounded.
- `mousePressed`, `mouseReleased`, `mouseClicked` and `keyTyped` have empty bodies, so there is nothing to model.
- Game.Pong.ComputeDestination: requires `height != 2 * RADIUS`. The source divides by zero at that height unless the projection is exactly RADIUS, so the model excludes that one height outright.
- Game.Pong.CollideLeft: requires a nonzero horizontal speed and `height != 2 * RADIUS` whenever player 2 is CPU_HARD, even on frames without a hit. In a rally the launch speed keeps the truncated horizontal speed nonzero, so the source's callers never violate this.
- Game.Pong.CollideRight: the same requirement, for player 1.
