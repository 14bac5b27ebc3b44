# Pong simulation engine — a Dafny model

This project models the simulation core of a two-player terminal Pong game (`src/state.rs`).
It covers three things:

- the conversion between continuous field coordinates and grid cells;
- the paddles (`Player`): key-driven movement, the vertical clamp and the single-column hit test;
- the ball and the game (`Ball`, `GameState`): wall bounce, paddle bounce by ray intersection, integration, speed escalation, scoring and reset.

Floating-point numbers are modelled as `real` and unsigned machine integers as `nat`. A `Duration` becomes `Seconds`, a non-negative `real`.

The modules follow the components of the source:

- `Geometry` (geometry.dfy): `Position`, `DiscretePosition`, `Velocity`, and rounding as the source does it. `ToDiscrete` models `to_discrete` and `ToContinuous` models `to_continuous`.
- `Players` (players.dfy): the `Player` class. Its `position` is the only thing that changes after construction. The keys, the reach and the velocity `(0, 12)` are `const`s, because the source never writes them. The hit test lives on the value `Paddle(position, extendUp, extendDown)`, which `Player.Body()` returns.
- `Balls` (balls.dfy): the `Ball` class. Its methods are proved against the pure function `Tick`, which gives one tick of `Ball::update_position`. `NextPosition` models `calc_next_position`.
- `Game` (game.dfy): the `GameState` class. Its methods are proved against `Player.Stepped`, `Tick` and the layout functions `InitialPlayer1Position`, `InitialPlayer2Position` and `InitialBallPosition`.

The random serve is an input. A `Draw` holds a coin and two samples of `[0, 1)`. `RandomBallVelocity` turns a draw into a velocity the way `gen_range` picks from its half-open ranges.

Two behaviours of the code matter here:

- With zero horizontal velocity, the source divides by zero in the collision point. The floating-point result is NaN, and every comparison with NaN is false, so the ball never bounces off a paddle then. `CollisionPoint` returns `None` in that case, and the paddle tests are false. In a game this case never arises: `GameState.Valid` keeps `|vx| >= 10`.
- A paddle is not always within `[extendDown, height - extendUp]`. Only `update_position` clamps (src/state.rs:129-133). A reset (src/state.rs:354-355) puts the paddles at `height / 2` without a clamp. When `height - extendUp < extendDown`, the clamp yields `extendDown`. `Player.Stepped` gives the bounds after a move, and `GameState.Valid` does not claim them.

## Model

| member | source | states |
|---|---|---|
| `Geometry.Round` | src/state.rs:28-29 | `f64::round`: the result is the nearest integer; a value half-way between two integers goes away from zero |
| `Geometry.ToDiscreteCoordinate` | src/state.rs:27-32 | one coordinate of `to_discrete`: a negative value maps to cell 0; a non-negative value maps to the cell `n` with `n - 1/2 <= r < n + 1/2`, so halves round up |
| `Geometry.ToDiscrete` | src/state.rs:27-32 | the same nearest-cell property on both axes of a point |
| `Geometry.NearestCell` | src/state.rs:27-32 | conversely, every coordinate in `[n - 1/2, n + 1/2)` maps to cell `n` |
| `Geometry.CellAtLeast` | src/state.rs:27-32 | a coordinate of at least the whole number `n` maps to a cell of at least `n` |
| `Geometry.ToContinuous` | src/state.rs:46-48 | `to_continuous`: the point of a cell is its centre, equally far from both of the cell's borders on each axis; `to_discrete` of it returns the same cell, so distinct cells give distinct points |
| `Geometry.ContinuousRoundTrip` | src/state.rs:27-32 | the other round trip: `to_continuous` after `to_discrete` moves a non-negative coordinate by more than `-1/2` and at most `1/2`, and sets a negative one to 0 |
| `Players.ClampY` | src/state.rs:129-133 | the clamp result is at least `extendDown`; it is at most `maxHeight - extendUp` whenever that bound is at least `extendDown`; an in-range `y` is unchanged; an out-of-range `y` goes to the nearer bound: at or below `extendDown` to `extendDown`, at or above the top bound to the top bound (when the field is high enough); on a field lower than the reach (`maxHeight - extendUp < extendDown`) the result is always `extendDown`; the result is always `y` or one of the two bounds |
| `Players.Displace` | src/state.rs:120-127 | holding both keys or neither leaves the position unchanged; only the up-key adds `velocity * dt`; only the down-key subtracts it |
| `Players.ColumnSize` | src/state.rs:147-149 | a column of cells from row `lo` to row `hi` has `hi - lo + 1` cells |
| `Players.Paddle.CollidesWith` | src/state.rs:143-150 | the hit test holds exactly when the point's cell is one of the paddle's cells: the paddle's column, from `extendDown` rows below its own cell to `extendUp` rows above |
| `Players.Paddle.CellCount` | src/state.rs:143-150 | the paddle occupies exactly `extendDown + extendUp + 1` cells |
| `Players.Player.constructor` | src/state.rs:85-102 | a new player keeps the given reach, keys and position, and its velocity is `(0, 12)` |
| `Players.Player.Stepped` | src/state.rs:114-134 | the position after a move is at least `extendDown` high and at most `maxHeight - extendUp` when that bound is at least `extendDown`; the hit test's subtraction cannot underflow there; with both keys or neither only the clamp applies; one key moves by `±velocity * dt` before the clamp |
| `Players.Player.UpdatePosition` | src/state.rs:114-134 | the method moves the player to `Stepped`; the same bounds hold afterwards |
| `Balls.RandomBallVelocity` | src/state.rs:254-261 | every serve has `vx` in `[10, 20)` or `[-20, -10)` as the coin says, and `vy` in `[-6, 6)`; so `abs(vx) >= 10` |
| `Balls.EveryServeIsDrawn` | src/state.rs:254-261 | conversely, every velocity in those ranges is produced by some draw |
| `Balls.NextPosition` | src/state.rs:244-248 | `calc_next_position`: the predicted displacement is the velocity times `dt`; `NextPositionSplits` and `Tick`'s position clause carry its properties |
| `Balls.NextPositionSplits` | src/state.rs:244-248 | predicting over `s` and then `t` at one velocity equals predicting over `s + t` |
| `Balls.CollisionPoint` | src/state.rs:237-242 | a point exists exactly when `vx != 0`; its x is the paddle's x; it lies on the ball's line of motion |
| `Balls.Tick` | src/state.rs:188-206 | `vy` flips exactly when the predicted y is `<= 0` or `>= maxHeight`; `vx` flips exactly when the paddle test of the approached paddle passes; both components are then multiplied by 1.003, so `abs(vx)` and `abs(vy)` grow by exactly that factor; the position moves by the velocity before escalation times `dt` |
| `Balls.SpeedEscalates` | src/state.rs:203-205 | the squared speed grows by exactly `1.003^2` per tick, whatever the ball bounced off |
| `Balls.ReachedWithinTick` | src/state.rs:215-235 | both reach tests (`>=` for the left paddle moving left, `<=` for the right paddle moving right) say the same thing: the paddle's line is met after `(paddleX - x) / vx <= dt` seconds |
| `Balls.ReturnedByPlayer1Iff` | src/state.rs:215-224 | moving left, the left paddle returns the ball exactly when the tick reaches its line and the crossing point lies in one of its cells |
| `Balls.ReturnedByPlayer2Iff` | src/state.rs:226-235 | the mirror image for the right paddle |
| `Balls.NoTunnellingLeft` | src/state.rs:215-224 | a ball moving left whose tick reaches or passes the left paddle's line, crossing it inside the paddle, leaves the tick moving right, however fast it is |
| `Balls.NoTunnellingRight` | src/state.rs:226-235 | the mirror image for the right paddle |
| `Balls.BounceOffLeftPaddle` | src/state.rs:215-224 | on a field 18 high, a left paddle at `(0, 9)` with reach 1 up and 1 down returns a ball at `(0.5, 9.5)` moving at `(-10, 2)` over a tick of 0.1 s |
| `Balls.BounceOffRightPaddle` | src/state.rs:226-235 | the mirror image: the right paddle at `(60, 9)` returns a ball at `(59.5, 9.5)` moving at `(10, 2)`, which crosses its line at height 9.6, in row 10 |
| `Balls.MissLeftPaddle` | src/state.rs:215-224 | the same paddle does not return a ball whose path crosses its line at height 12, outside rows 8 to 10 |
| `Balls.OnlyApproachedPaddleCounts` | src/state.rs:197-201 | a tick with `vx <= 0` does not depend on the right paddle, and one with `vx > 0` does not depend on the left paddle |
| `Balls.Ball.constructor` | src/state.rs:167-172 | a new ball is at the given position with the served velocity |
| `Balls.Ball.UpdatePosition` | src/state.rs:188-206 | the new position and velocity are `Tick` of the old ones and the two paddles |
| `Balls.Ball.UpdateIfCollisionWithWall` | src/state.rs:208-213 | only `vy` may change, and it flips exactly when the predicted y is on or beyond a wall |
| `Balls.Ball.UpdateIfCollisionWithPlayer1` | src/state.rs:215-224 | only `vx` may change, and it flips exactly when the left paddle's reach and hit tests pass |
| `Balls.Ball.UpdateIfCollisionWithPlayer2` | src/state.rs:226-235 | only `vx` may change, and it flips exactly when the right paddle's reach and hit tests pass |
| `Game.InitialPlayer1Position` | src/state.rs:412-417 | the left paddle starts on the left edge, on the middle row of the field |
| `Game.InitialPlayer2Position` | src/state.rs:419-424 | the right paddle starts on the right edge, on the middle row |
| `Game.InitialBallPosition` | src/state.rs:426-431 | the ball starts in the middle of the field; `InitialLayout` relates the three positions |
| `Game.InitialLayout` | src/state.rs:412-431 | the paddles start on the two edges and the ball half-way between them, all on the middle row |
| `Game.GameState.constructor` | src/state.rs:286-319 | a new game has both scores 0, fresh players with keys `w`/`s` and Up/Down, and the starting layout |
| `Game.GameState.Update` | src/state.rs:326-341 | with `r` held, only a reset happens and the scores stay. Otherwise the left paddle steps, then the right one, then the ball against the moved paddles. A goal adds exactly 1 to one score and resets the layout. Scores never decrease, and `abs(vx) >= 10` is kept |
| `Game.GameState.UpdateScore` | src/state.rs:343-351 | a ball past the left paddle with `vx <= 0` scores for player 2; otherwise a ball past the right paddle with `vx > 0` scores for player 1; either resets; else nothing changes |
| `Game.GameState.ResetBallAndPlayers` | src/state.rs:353-359 | paddles and ball are at their starting positions with a fresh serve; the scores do not change |

## Left out

- `GameState::display` (terminal rendering), `src/main.rs` (argument parsing, raw mode, key polling) and `src/utils.rs` (frame pacing). They are I/O and wall-clock timing. The held keys are a `set<KeyCode>`: key modifiers and the Ctrl-C quit check in `main` are not modelled.
- `Ball::get_position` is a field read. The model reads `position` directly.
- The random number generator is not modelled. A serve is a `Draw` parameter, and `gen_range(a..b)` is modelled as `a + (b - a) * u` with `u` in `[0, 1)`.
- Floating-point effects are not modelled: rounding error, overflow to infinity after long escalation, and NaN other than the `vx == 0` case. In `real` arithmetic the collision point's x is exactly the paddle's x, and holding both keys cancels exactly. Neither is exact in `f64`.
- Top-end machine-integer effects are not modelled: the saturation of huge coordinates to `usize::MAX` in `to_discrete`, overflow of `own_y + extend_up`, and overflow of the `usize` scores at `player2_score += 1` and `player1_score += 1` (src/state.rs:345, src/state.rs:348), which would panic in a debug build. The scores are `nat`.
- Players.Paddle.CollidesWith: requires the paddle's own cell to be at least `extendDown` rows up. Below that, the source's unsigned subtraction panics (debug build) or wraps (release build). Every call in the modelled core follows a clamp, which guarantees the bound. Only the rendering path, which is left out, can call the hit test right after a reset on a field lower than about twice `extendDown`.
- Balls.Ball.UpdatePosition: requires that bound for both paddles. The source needs it only for the paddle it consults, and only once the reach test has passed.
