# Pong step logic in Dafny

A model of the per-frame logic of a Pong tutorial series written in JavaScript
for an HTML canvas: the paddle update of pong-2, the global update of pong-3
(start/play toggle on Enter, ball integration, clamped paddles), the
constant-velocity ball of pong-4 with its random-velocity helper, and the
final ball of pong-5 (paddle bounce, wall bounce, integration).

Coordinates, velocities and frame times are Dafny `real`s; IEEE-754 rounding
is not modelled. `Math.random()` is replaced by explicit draws of the subset
type `Random.Draw` (a real in [0, 1)); one call of `generateRandomNumber`
consumes a `Roll` of two draws, the magnitude draw and the sign draw, and the
sign coin is `floor(draw * 2)` exactly as written.

Layout, one module per source file plus four shared ones:

- `numbers.dfy` (`Numbers`): `Abs`, `Math.max`/`Math.min`, the sum of frame times.
- `random.dfy` (`Random`): draws, rolls, the coin, and the scaling lemma.
- `keyboard.dfy` (`Keyboard`): the `keys` object as `map<string, bool>`; a key is held when its entry is present and true.
- `kinematics.dfy` (`Kinematics`): `Body` (position and velocity) and the Euler step `x += dx*dt; y += dy*dt` used by every stage.
- `pong4_utils.dfy`, `pong4_ball.dfy`, `pong5_ball.dfy`, `pong3_main.dfy`, `pong2_main.dfy`.

Each object or module whose fields the source updates in place is a `class`
with those fields (`Ball`, and `Game` for the module-level variables of
pong-2 and pong-3); its value view (`Motion()`, `Snapshot()`) is proved to
follow a pure step function (`Step`, `Integrate`), and the properties are
lemmas about that function.

Where the code and its documentation disagree, the model follows the code:

- `generateRandomNumber` in `src/pong-4/utils.js` computes
  `Math.random() * (max - min) + max`, so its magnitude lies in
  [max, 2*max - min) (exactly `max` when `min == max`), not in [min, max) as
  its doc comment says; for `(400, 800)` the pong-4 ball's speeds lie in
  [800, 1200). `Pong4Utils.OutsideDocumentedRange` proves that the
  magnitude is never in the documented range. The pong-3 helper adds `min`
  and does stay in [min, max).
- A wall bounce does not leave the ball on the wall at the end of the frame:
  the snap happens before integration, so after `update` the ball at y = 0
  moving up with dy = -100 ends at y = 100 * dt, not at 0.

## Model

| member | source | states |
|---|---|---|
| `Random.Coin` | src/pong-4/utils.js:13 | the coin `floor(s * 2)` is 0 or 1, and is 1 exactly when the draw is at least 0.5 |
| `Random.DrawScales` | src/pong-3/main.js:227 | a draw times `max - min` lies in [0, max - min), or is 0 when min == max |
| `Kinematics.IntegrateMoves` | src/pong-4/Ball.js:43-46 | one frame keeps the velocity and moves the position by velocity times dt |
| `Kinematics.IntegrateZero` | src/pong-4/Ball.js:43-46 | a frame of length 0 changes nothing |
| `Kinematics.IntegrateTwice` | src/pong-4/Ball.js:43-46 | frames of dt1 and dt2 end where one frame of dt1 + dt2 ends |
| `Kinematics.RunIsOneIntegrate` | src/pong-4/Ball.js:43-46 | any sequence of frames ends where one frame of the total time ends (frame-rate independence) |
| `Pong4Utils.GenerateRandomNumber` | src/pong-4/utils.js:9-18 | for min <= max with max >= 0 the magnitude lies in [max, 2*max - min], strictly below 2*max - min when min < max; for max > 0 the result is negative exactly when the coin is 1 |
| `Pong4Utils.MagnitudeIgnoresCoin` | src/pong-4/utils.js:10-15 | the coin changes only the sign: the result is plus or minus `r*(max-min) + max` |
| `Pong4Utils.EqualBounds` | src/pong-4/utils.js:10 | with min == max the result is exactly max or -max |
| `Pong4Utils.OutsideDocumentedRange` | src/pong-4/utils.js:1-10 | for 0 <= min < max the magnitude is never in the documented [min, max); the first draw 0 gives max itself |
| `Pong4Ball.Ball.constructor` | src/pong-4/Ball.js:14-21 | stores x, y, width, height as given; dx and dy are generateRandomNumber(400, 800) of their rolls |
| `Pong4Ball.Ball.Reset` | src/pong-4/Ball.js:30-35 | the position becomes (x, y), the velocity is freshly drawn, width and height are kept |
| `Pong4Ball.Ball.Update` | src/pong-4/Ball.js:43-46 | x' = x + dx*dt, y' = y + dy*dt; dx, dy, width and height are kept |
| `Pong4Ball.ServeSpeed` | src/pong-4/Ball.js:19-20 | each velocity the constructor or reset assigns has magnitude in [800, 1200) |
| `Pong4Ball.UpdateTwice` | src/pong-4/Ball.js:43-46 | update(dt1) then update(dt2) leaves the ball as update(dt1 + dt2) would |
| `Pong5Ball.CollideIffSharedPoint` | src/pong-5/Ball.js:54-62 | for boxes of positive size, didCollide holds exactly when the two boxes share an interior point |
| `Pong5Ball.TouchingDoesNotCollide` | src/pong-5/Ball.js:54-62 | boxes that only touch along an edge do not collide, in either order |
| `Pong5Ball.TouchingExample` | src/pong-5/Ball.js:54-62 | a 5x5 ball at x = 10 beside a 5x5 paddle at x = 15 does not collide; at x = 14 it does |
| `Pong5Ball.Ball.constructor` | src/pong-5/Ball.js:18-24 | stores width, height and canvasHeight, then resets to (x, y) with the given velocity |
| `Pong5Ball.Ball.Reset` | src/pong-5/Ball.js:33-38 | the position becomes (x, y) and the velocity the newly drawn one; width, height and canvasHeight are kept |
| `Pong5Ball.Ball.DidCollideWith` | src/pong-5/Ball.js:47-63 | true exactly when the ball's current box and the paddle overlap with all four strict inequalities |
| `Pong5Ball.Ball.Update` | src/pong-5/Ball.js:73-105 | the new position and velocity are the paddle bounce, top wall, bottom wall and integration of the old ones, in that order; width, height and canvasHeight are kept |
| `Pong5Ball.PaddleHitReverses` | src/pong-5/Ball.js:79-80 | on overlap with either or both paddles dx ends as -dx * 1.03: applied once, sign reversed, magnitude 3% larger when dx is not 0 |
| `Pong5Ball.NoHitKeepsDx` | src/pong-5/Ball.js:79-104 | without a paddle overlap dx is unchanged |
| `Pong5Ball.PaddleHitRedrawsDy` | src/pong-5/Ball.js:82-88 | on a hit, a negative dy is replaced by the negative helper's value and any other dy by the positive helper's; with helpers of the right sign the vertical direction is kept; the position is not touched |
| `Pong5Ball.TopWallReflects` | src/pong-5/Ball.js:92-95 | with room in the field, a ball at or above 0 is snapped to y = 0 with dy reversed before integration |
| `Pong5Ball.BottomWallReflects` | src/pong-5/Ball.js:97-101 | a ball below the top and at or below canvasHeight - height is snapped to that line with dy reversed |
| `Pong5Ball.BothWallsFire` | src/pong-5/Ball.js:92-101 | when canvasHeight - height <= 0 and y <= 0 both tests fire: dy keeps its sign and y ends at canvasHeight - height |
| `Pong5Ball.WallsClamp` | src/pong-5/Ball.js:92-101 | when canvasHeight - height >= 0 the wall steps leave y in [0, canvasHeight - height], keep x and dx, and keep the speed abs(dy) |
| `Pong5Ball.FreeFlight` | src/pong-5/Ball.js:79-104 | with no paddle overlap and 0 < y < canvasHeight - height, the frame keeps dx, dy and moves by exactly (dx*dt, dy*dt) |
| `Pong5Ball.NoClampAfterIntegration` | src/pong-5/Ball.js:103-104 | nothing clamps after integration: a ball at y = 10 with dy = -1000 ends a 0.05 s frame at y = -40 |
| `Pong5Ball.BottomClampExample` | src/pong-5/Ball.js:97-104 | a 20-high ball at y = 701 in a 720-high field with dy = 50 is snapped to 700 with dy = -50, then ends the frame at 700 - 50*dt |
| `Pong5Ball.PaddleBounceExample` | src/pong-5/Ball.js:79-80 | a paddle hit turns dx = 500 into dx = -515 |
| `Pong5Ball.ServeAndFly` | src/pong-5/Ball.js:73-104 | a ball built and reset at (630, 350) and updated for 0.016 s between the court paddles moves by exactly its velocity times 0.016 |
| `Pong3Main.GenerateRandomNumber` | src/pong-3/main.js:226-235 | for 0 <= min <= max the magnitude lies in [min, max], strictly below max when min < max; for min > 0 the result is negative exactly when the coin is 1 |
| `Pong3Main.Game.constructor` | src/pong-3/main.js:37-58 | the initial state: start, ball centred with velocities from generateRandomNumber(400, 600), paddles at 30 and 490, scores 0, no keys |
| `Pong3Main.Game.Update` | src/pong-3/main.js:109-179 | the new module-level state is the Enter handling, ball move and paddle moves of the old one, in that order |
| `Pong3Main.InitialOnScreen` | src/pong-3/main.js:41-42 | the initial paddle positions lie in [0, CANVAS_HEIGHT - 200] and the game starts in 'start' |
| `Pong3Main.StepKeepsPaddlesOnScreen` | src/pong-3/main.js:150-176 | for dt >= 0, paddles in [0, CANVAS_HEIGHT - 200] stay there after a frame |
| `Pong3Main.RunKeepsPaddlesOnScreen` | src/pong-3/main.js:150-176 | and after any number of frames with non-negative times |
| `Pong3Main.EnterToggles` | src/pong-3/main.js:111-138 | a held Enter flips the game state and is set to false in the same frame; no other key entry changes |
| `Pong3Main.NoEnterNoToggle` | src/pong-3/main.js:109-138 | without Enter held a frame changes neither the game state nor the keys |
| `Pong3Main.RunWithoutEnter` | src/pong-3/main.js:111-138 | frames without Enter held and without key events never change the game state |
| `Pong3Main.OnePressOneToggle` | src/pong-3/main.js:111-118 | one press of Enter causes exactly one toggle however many frames follow without key events |
| `Pong3Main.StartToPlay` | src/pong-3/main.js:124-147 | Enter in 'start' gives 'play', and the ball already moves by its velocity times dt in that frame |
| `Pong3Main.PlayToStart` | src/pong-3/main.js:127-137 | Enter in any other state gives 'start' with the ball at (630, 350) and fresh velocities of magnitude in [400, 600) |
| `Pong3Main.BallMovesOnlyInPlay` | src/pong-3/main.js:144-147 | outside the reset branch the velocity is kept, and the ball moves by (dx*dt, dy*dt) exactly when the frame ends in 'play' |
| `Pong3Main.UpKeysWin` | src/pong-3/main.js:150-176 | with w held, s is ignored; with ArrowUp held, ArrowDown is ignored |
| `Pong3Main.Player1KeysOnlyMovePlayer1` | src/pong-3/main.js:150-166 | changing w and s never changes player2Y |
| `Pong3Main.ArrowKeysOnlyMovePlayer2` | src/pong-3/main.js:168-176 | changing the arrow keys never changes player1Y |
| `Pong3Main.ScoresUnchanged` | src/pong-3/main.js:109-179 | update never changes the scores |
| `Pong2Main.Game.constructor` | src/pong-2/main.js:33-44 | the initial state: scores 0, paddles at 30 and 490, no keys |
| `Pong2Main.Game.Update` | src/pong-2/main.js:92-114 | the new paddle positions are the key-driven moves of the old ones; nothing else changes |
| `Pong2Main.UpMovesExactly` | src/pong-2/main.js:94-111 | w moves player 1 up by exactly PADDLE_SPEED*dt, s (without w) down by the same; likewise the arrows for player 2 |
| `Pong2Main.NoKeyNoMove` | src/pong-2/main.js:92-111 | with no movement key held, a frame changes nothing |
| `Pong2Main.HoldingUpOverFrames` | src/pong-2/main.js:94-97 | holding w over any run of frames moves player 1 up by PADDLE_SPEED times the total time, with no clamp |
| `Pong2Main.PaddleLeavesScreen` | src/pong-2/main.js:94-97 | nothing stops a paddle at the top: from y = 30, 0.1 s with w held ends at y = -70 |
| `Pong2Main.UpKeysWin` | src/pong-2/main.js:94-111 | with w held, s is ignored; with ArrowUp held, ArrowDown is ignored |
| `Pong2Main.Player1KeysOnlyMovePlayer1` | src/pong-2/main.js:93-111 | changing w and s never changes player2Y |
| `Pong2Main.ArrowKeysOnlyMovePlayer2` | src/pong-2/main.js:93-111 | changing the arrow keys never changes player1Y |
| `Pong2Main.ScoresUnchanged` | src/pong-2/main.js:92-114 | update never changes the scores or the keys |

## Left out

- `render` functions and methods, `clearRect`/`fillRect`/`fillText`, font loading: drawing side effects with no logic.
- Canvas and DOM setup, the `keydown`/`keyup` listeners, `canvas.focus()`, `gameLoop`, `requestAnimationFrame` and the delta-time computation: platform plumbing. `keys` is a field the caller writes, and `dt` is a parameter of each update.
- `Math.random` itself and any probability distribution: each draw is a parameter, and the model states what happens for every draw.
- IEEE-754 rounding: all numbers are exact reals, so "within tolerance" statements become exact equalities.
- src/pong-0/main.js: its `update` only calls `render`.
- The pong-5 utilities file (`generateRandomNumber`, `generateRandomNegativeNumber`, `generateRandomPositiveNumber`) is not part of this model: their results are parameters of `Pong5Ball.Ball.Reset`, the constructor and `Pong5Ball.Ball.Update`, and only their sign is assumed, in the lemmas that need it. No claim is made about the speeds pong-5's reset draws.
- Scoring and the caller-side policy that calls `reset` when the ball leaves the screen: they do not appear in the modelled files.
- Frames in `Pong3Main.Run` and `Pong2Main.Run` have no key events between them; the multi-frame lemmas speak of such runs only.
- `Pong5Ball.Ball.Update`: the integration step is written through `Kinematics.Integrate`, the shared definition of `x += dx * dt; y += dy * dt`, instead of two field assignments with the products inline.
