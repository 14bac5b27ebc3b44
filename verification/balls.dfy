/** The ball: one tick of wall bounce, paddle bounce by ray intersection,
    integration and speed escalation, and the random serve velocity. */
module Balls {
  import opened Geometry
  import opened Players

  /** Both velocity components are multiplied by this factor every tick. */
  const VelocityIncrease: real := 1.003

  datatype Option<T> = None | Some(value: T)

  /** The outcome of the random number generator for one serve: a fair coin
      for the horizontal direction and two samples of the unit interval. */
  datatype Draw = Draw(positive: bool, ux: real, uy: real) {
    predicate Valid() {
      0.0 <= ux < 1.0 && 0.0 <= uy < 1.0
    }
  }

  /** A sample of the half-open range `[low, high)` taken from a unit sample. */
  function GenRange(low: real, high: real, u: real): real {
    low + (high - low) * u
  }

  /** The velocities a serve may have: a horizontal speed of at least 10 and
      less than 20 in either direction, and a vertical one in `[-6, 6)`. */
  predicate InServeRange(v: Velocity) {
    (10.0 <= v.vx < 20.0 || -20.0 <= v.vx < -10.0) && -6.0 <= v.vy < 6.0
  }

  /** `random_ball_velocity`: the coin picks the direction, the samples the
      speeds. */
  function RandomBallVelocity(draw: Draw): (v: Velocity)
    requires draw.Valid()
    ensures InServeRange(v)
    ensures draw.positive <==> 0.0 < v.vx
    ensures 10.0 <= Abs(v.vx)
  {
    var vx := if draw.positive then GenRange(10.0, 20.0, draw.ux) else GenRange(-20.0, -10.0, draw.ux);
    Velocity(vx, GenRange(-6.0, 6.0, draw.uy))
  }

  /** Every velocity in the serve range is the result of some draw. */
  lemma EveryServeIsDrawn(v: Velocity)
    requires InServeRange(v)
    ensures exists draw: Draw :: draw.Valid() && RandomBallVelocity(draw) == v
  {
    var positive := 0.0 < v.vx;
    var ux := if positive then (v.vx - 10.0) / 10.0 else (v.vx + 20.0) / 10.0;
    var draw := Draw(positive, ux, (v.vy + 6.0) / 12.0);
    assert draw.Valid() && RandomBallVelocity(draw) == v;
  }

  /** `calc_next_position`: where the ball would be after `dt` at this
      velocity; the displacement is the velocity times the elapsed time. */
  function NextPosition(position: Position, velocity: Velocity, dt: Seconds): (p: Position)
    ensures p.x - position.x == velocity.vx * dt && p.y - position.y == velocity.vy * dt
    ensures dt == 0.0 ==> p == position
  {
    Position(position.x + velocity.vx * dt, position.y + velocity.vy * dt)
  }

  /** Predicting over `s` and then over `t` at the same velocity lands where
      predicting over `s + t` does. */
  lemma NextPositionSplits(position: Position, velocity: Velocity, s: Seconds, t: Seconds)
    ensures NextPosition(NextPosition(position, velocity, s), velocity, t) == NextPosition(position, velocity, s + t)
  {
  }

  /** `calculate_collision_point_with_player`: the point where the ball's line
      of motion crosses the vertical line `x == paddleX`. With no horizontal
      motion the floating-point result is not a number, and every comparison
      with it is false; that is `None` here. */
  function CollisionPoint(position: Position, velocity: Velocity, paddleX: real): (c: Option<Position>)
    ensures c.Some? <==> velocity.vx != 0.0
    ensures c.Some? ==> c.value.x == paddleX
    ensures c.Some? ==> (c.value.y - position.y) * velocity.vx == velocity.vy * (paddleX - position.x)
  {
    if velocity.vx == 0.0 then None
    else
      var r := (paddleX - position.x) / velocity.vx;
      assert velocity.vx * r == paddleX - position.x;
      Some(Position(position.x + velocity.vx * r, position.y + velocity.vy * r))
  }

  /** The wall test: the predicted next position is on or beyond the bottom
      or the top of the field. */
  predicate WallBounce(position: Position, velocity: Velocity, maxHeight: real, dt: Seconds) {
    var next := NextPosition(position, velocity, dt);
    next.y <= 0.0 || next.y >= maxHeight
  }

  /** The velocity after the wall test. */
  function AfterWall(position: Position, velocity: Velocity, maxHeight: real, dt: Seconds): Velocity {
    if WallBounce(position, velocity, maxHeight, dt) then velocity.(vy := -velocity.vy) else velocity
  }

  /** The test against the left paddle: the crossing point is reached within
      this tick and lies in one of the paddle's cells. */
  predicate ReturnedByPlayer1(position: Position, velocity: Velocity, paddle: Paddle, dt: Seconds)
    requires paddle.ReachFits()
  {
    match CollisionPoint(position, velocity, paddle.position.x)
    case None => false
    case Some(c) => c.x >= NextPosition(position, velocity, dt).x && paddle.CollidesWith(c)
  }

  /** The test against the right paddle, with the comparison mirrored. */
  predicate ReturnedByPlayer2(position: Position, velocity: Velocity, paddle: Paddle, dt: Seconds)
    requires paddle.ReachFits()
  {
    match CollisionPoint(position, velocity, paddle.position.x)
    case None => false
    case Some(c) => c.x <= NextPosition(position, velocity, dt).x && paddle.CollidesWith(c)
  }

  /** The paddle test: the left paddle when the ball moves left or not at all,
      the right paddle otherwise. */
  predicate Returned(position: Position, velocity: Velocity, paddle1: Paddle, paddle2: Paddle, dt: Seconds)
    requires paddle1.ReachFits() && paddle2.ReachFits()
  {
    if velocity.vx <= 0.0 then ReturnedByPlayer1(position, velocity, paddle1, dt)
    else ReturnedByPlayer2(position, velocity, paddle2, dt)
  }

  function Escalate(v: Velocity): Velocity {
    Velocity(v.vx * VelocityIncrease, v.vy * VelocityIncrease)
  }

  function SpeedSquared(v: Velocity): real {
    v.vx * v.vx + v.vy * v.vy
  }

  /** One tick of `update_position` as a function of the ball's position and
      velocity and of the two paddles: the new position and velocity. */
  function Tick(position: Position, velocity: Velocity, maxHeight: real, paddle1: Paddle, paddle2: Paddle, dt: Seconds)
    : (r: (Position, Velocity))
    requires paddle1.ReachFits() && paddle2.ReachFits()
    ensures r.1.vy == (if WallBounce(position, velocity, maxHeight, dt) then -velocity.vy else velocity.vy) * VelocityIncrease
    ensures r.1.vx == (if Returned(position, AfterWall(position, velocity, maxHeight, dt), paddle1, paddle2, dt)
                       then -velocity.vx else velocity.vx) * VelocityIncrease
    ensures Abs(r.1.vx) == Abs(velocity.vx) * VelocityIncrease
    ensures Abs(r.1.vy) == Abs(velocity.vy) * VelocityIncrease
    ensures r.0 == NextPosition(position, Velocity(r.1.vx / VelocityIncrease, r.1.vy / VelocityIncrease), dt)
  {
    var bounced := AfterWall(position, velocity, maxHeight, dt);
    var returned := if Returned(position, bounced, paddle1, paddle2, dt) then bounced.(vx := -bounced.vx) else bounced;
    (NextPosition(position, returned, dt), Escalate(returned))
  }

  /** The ball's speed grows by exactly the escalation factor every tick,
      whatever it bounced off. */
  lemma SpeedEscalates(position: Position, velocity: Velocity, maxHeight: real, paddle1: Paddle, paddle2: Paddle, dt: Seconds)
    requires paddle1.ReachFits() && paddle2.ReachFits()
    ensures SpeedSquared(Tick(position, velocity, maxHeight, paddle1, paddle2, dt).1)
            == VelocityIncrease * VelocityIncrease * SpeedSquared(velocity)
  {
    EscalatedSpeed(velocity, Tick(position, velocity, maxHeight, paddle1, paddle2, dt).1);
  }

  lemma EscalatedSpeed(v: Velocity, w: Velocity)
    requires Abs(w.vx) == Abs(v.vx) * VelocityIncrease && Abs(w.vy) == Abs(v.vy) * VelocityIncrease
    ensures SpeedSquared(w) == VelocityIncrease * VelocityIncrease * SpeedSquared(v)
  {
    ScaledSquare(v.vx, w.vx);
    ScaledSquare(v.vy, w.vy);
  }

  lemma ScaledSquare(a: real, b: real)
    requires Abs(b) == Abs(a) * VelocityIncrease
    ensures b * b == VelocityIncrease * VelocityIncrease * (a * a)
  {
    assert b * b == Abs(b) * Abs(b);
    assert a * a == Abs(a) * Abs(a);
  }

  /** Both paddle tests ask the same question: is the paddle's line reached
      no later than the end of this tick? The ball meets it after
      `(paddleX - x) / vx` seconds. */
  lemma ReachedWithinTick(position: Position, velocity: Velocity, paddleX: real, dt: Seconds)
    requires velocity.vx != 0.0
    ensures var c := CollisionPoint(position, velocity, paddleX).value;
            var next := NextPosition(position, velocity, dt);
            var t := (paddleX - position.x) / velocity.vx;
            (velocity.vx < 0.0 ==> (c.x >= next.x <==> t <= dt)) &&
            (velocity.vx > 0.0 ==> (c.x <= next.x <==> t <= dt))
  {
    var t := (paddleX - position.x) / velocity.vx;
    assert paddleX - NextPosition(position, velocity, dt).x == velocity.vx * (t - dt);
    if velocity.vx < 0.0 {
      SignOfProduct(-velocity.vx, dt - t);
    } else {
      SignOfProduct(velocity.vx, dt - t);
    }
  }

  lemma SignOfProduct(a: real, b: real)
    requires 0.0 < a
    ensures 0.0 <= a * b <==> 0.0 <= b
  {
    if b < 0.0 {
      assert a * b == -(a * -b);
    }
  }

  /** The left paddle's test in terms of the ball's path: moving left, the
      ball is returned exactly when this tick takes it to or past the
      paddle's line and the point where its path crosses that line lies in
      one of the paddle's cells. */
  lemma ReturnedByPlayer1Iff(position: Position, velocity: Velocity, paddle: Paddle, dt: Seconds)
    requires paddle.ReachFits() && velocity.vx < 0.0
    ensures ReturnedByPlayer1(position, velocity, paddle, dt) <==>
              NextPosition(position, velocity, dt).x <= paddle.position.x &&
              paddle.CollidesWith(Position(paddle.position.x, position.y + velocity.vy * ((paddle.position.x - position.x) / velocity.vx)))
  {
    var c := CollisionPoint(position, velocity, paddle.position.x).value;
    assert c == Position(paddle.position.x, position.y + velocity.vy * ((paddle.position.x - position.x) / velocity.vx));
  }

  /** The mirror image for the right paddle, moving right. */
  lemma ReturnedByPlayer2Iff(position: Position, velocity: Velocity, paddle: Paddle, dt: Seconds)
    requires paddle.ReachFits() && velocity.vx > 0.0
    ensures ReturnedByPlayer2(position, velocity, paddle, dt) <==>
              paddle.position.x <= NextPosition(position, velocity, dt).x &&
              paddle.CollidesWith(Position(paddle.position.x, position.y + velocity.vy * ((paddle.position.x - position.x) / velocity.vx)))
  {
    var c := CollisionPoint(position, velocity, paddle.position.x).value;
    assert c == Position(paddle.position.x, position.y + velocity.vy * ((paddle.position.x - position.x) / velocity.vx));
  }

  /** The ray test leaves no gap: moving left, the ball turns back whenever
      this tick takes it to or past the left paddle's line and the point
      where its path (after the wall test) crosses that line lies in one of
      the paddle's cells, however far past the line the tick would carry it. */
  lemma NoTunnellingLeft(position: Position, velocity: Velocity, maxHeight: real, paddle1: Paddle, paddle2: Paddle, dt: Seconds)
    requires paddle1.ReachFits() && paddle2.ReachFits()
    requires velocity.vx < 0.0
    requires NextPosition(position, velocity, dt).x <= paddle1.position.x
    requires paddle1.CollidesWith(CollisionPoint(position, AfterWall(position, velocity, maxHeight, dt), paddle1.position.x).value)
    ensures Tick(position, velocity, maxHeight, paddle1, paddle2, dt).1.vx > 0.0
  {
    var v := AfterWall(position, velocity, maxHeight, dt);
    assert v.vx == velocity.vx;
    assert NextPosition(position, v, dt).x == NextPosition(position, velocity, dt).x;
  }

  /** The mirror image for the right paddle. */
  lemma NoTunnellingRight(position: Position, velocity: Velocity, maxHeight: real, paddle1: Paddle, paddle2: Paddle, dt: Seconds)
    requires paddle1.ReachFits() && paddle2.ReachFits()
    requires velocity.vx > 0.0
    requires paddle2.position.x <= NextPosition(position, velocity, dt).x
    requires paddle2.CollidesWith(CollisionPoint(position, AfterWall(position, velocity, maxHeight, dt), paddle2.position.x).value)
    ensures Tick(position, velocity, maxHeight, paddle1, paddle2, dt).1.vx < 0.0
  {
    var v := AfterWall(position, velocity, maxHeight, dt);
    assert v.vx == velocity.vx;
    assert NextPosition(position, v, dt).x == NextPosition(position, velocity, dt).x;
  }

  /** On a field 18 high, a left paddle at `(0, 9)` reaching one cell up and
      down returns a ball that crosses its line at height 9.6 within the
      tick. */
  lemma BounceOffLeftPaddle()
    ensures var left, right := Paddle(Position(0.0, 9.0), 1, 1), Paddle(Position(60.0, 9.0), 1, 1);
            Tick(Position(0.5, 9.5), Velocity(-10.0, 2.0), 18.0, left, right, 0.1).1.vx > 0.0
  {
    var left, right := Paddle(Position(0.0, 9.0), 1, 1), Paddle(Position(60.0, 9.0), 1, 1);
    var position, velocity := Position(0.5, 9.5), Velocity(-10.0, 2.0);
    assert AfterWall(position, velocity, 18.0, 0.1) == velocity;
    var c := CollisionPoint(position, velocity, 0.0).value;
    assert c == Position(0.0, 9.6);
    NearestCell(9.6, 10);
    NoTunnellingLeft(position, velocity, 18.0, left, right, 0.1);
  }

  /** The mirror image: on the same field, a right paddle at `(60, 9)` with the
      same reach returns a ball at `(59.5, 9.5)` moving at `(10, 2)`, which
      crosses its line at height 9.6, in row 10. */
  lemma BounceOffRightPaddle()
    ensures var left, right := Paddle(Position(0.0, 9.0), 1, 1), Paddle(Position(60.0, 9.0), 1, 1);
            Tick(Position(59.5, 9.5), Velocity(10.0, 2.0), 18.0, left, right, 0.1).1.vx < 0.0
  {
    var left, right := Paddle(Position(0.0, 9.0), 1, 1), Paddle(Position(60.0, 9.0), 1, 1);
    var position, velocity := Position(59.5, 9.5), Velocity(10.0, 2.0);
    assert AfterWall(position, velocity, 18.0, 0.1) == velocity;
    var c := CollisionPoint(position, velocity, 60.0).value;
    assert c == Position(60.0, 9.6);
    NearestCell(9.6, 10);
    NearestCell(60.0, 60);
    NearestCell(9.0, 9);
    NoTunnellingRight(position, velocity, 18.0, left, right, 0.1);
  }

  /** The same paddle misses a ball that crosses its line at height 12, three
      cells above its own: the ball keeps moving left. */
  lemma MissLeftPaddle()
    ensures var left, right := Paddle(Position(0.0, 9.0), 1, 1), Paddle(Position(60.0, 9.0), 1, 1);
            Tick(Position(0.5, 12.0), Velocity(-10.0, 0.0), 18.0, left, right, 0.1).1.vx < 0.0
  {
    var left := Paddle(Position(0.0, 9.0), 1, 1);
    var position, velocity := Position(0.5, 12.0), Velocity(-10.0, 0.0);
    assert AfterWall(position, velocity, 18.0, 0.1) == velocity;
    assert CollisionPoint(position, velocity, 0.0).value == Position(0.0, 12.0);
    NearestCell(12.0, 12);
    assert !ReturnedByPlayer1(position, velocity, left, 0.1);
  }

  /** Only the paddle the ball moves towards is consulted: a tick does not
      depend on the other paddle. */
  lemma OnlyApproachedPaddleCounts(position: Position, velocity: Velocity, maxHeight: real,
                                   paddle1: Paddle, paddle2: Paddle, other: Paddle, dt: Seconds)
    requires paddle1.ReachFits() && paddle2.ReachFits() && other.ReachFits()
    ensures velocity.vx <= 0.0 ==>
              Tick(position, velocity, maxHeight, paddle1, paddle2, dt) == Tick(position, velocity, maxHeight, paddle1, other, dt)
    ensures velocity.vx > 0.0 ==>
              Tick(position, velocity, maxHeight, paddle1, paddle2, dt) == Tick(position, velocity, maxHeight, other, paddle2, dt)
  {
  }

  /** The ball: its position and its velocity, both updated every tick. */
  class Ball {
    var position: Position
    var velocity: Velocity

    /** `Ball::new`: a ball at `position` with a random serve velocity. */
    constructor (position: Position, draw: Draw)
      requires draw.Valid()
      ensures this.position == position && velocity == RandomBallVelocity(draw)
    {
      this.position := position;
      velocity := RandomBallVelocity(draw);
    }

    /** `update_position`: wall test, paddle test, integration, escalation. */
    method UpdatePosition(maxHeight: real, player1: Player, player2: Player, dt: Seconds)
      requires player1.Body().ReachFits() && player2.Body().ReachFits()
      modifies this
      ensures (position, velocity) == Tick(old(position), old(velocity), maxHeight, player1.Body(), player2.Body(), dt)
    {
      UpdateIfCollisionWithWall(maxHeight, dt);
      if velocity.vx <= 0.0 {
        UpdateIfCollisionWithPlayer1(player1, dt);
      } else {
        UpdateIfCollisionWithPlayer2(player2, dt);
      }
      position := NextPosition(position, velocity, dt);
      velocity := Velocity(velocity.vx * VelocityIncrease, velocity.vy * VelocityIncrease);
    }

    /** Turns the vertical velocity round when the next position would be on
        or beyond a wall. */
    method UpdateIfCollisionWithWall(maxHeight: real, dt: Seconds)
      modifies this
      ensures position == old(position) && velocity.vx == old(velocity.vx)
      ensures velocity.vy == if WallBounce(position, old(velocity), maxHeight, dt) then -old(velocity.vy) else old(velocity.vy)
    {
      var next := NextPosition(position, velocity, dt);
      if next.y <= 0.0 || next.y >= maxHeight {
        velocity := velocity.(vy := -velocity.vy);
      }
    }

    /** Turns the horizontal velocity round when the left paddle is reached
        within this tick and is hit. */
    method UpdateIfCollisionWithPlayer1(player1: Player, dt: Seconds)
      requires player1.Body().ReachFits()
      modifies this
      ensures position == old(position) && velocity.vy == old(velocity.vy)
      ensures velocity.vx == if ReturnedByPlayer1(position, old(velocity), player1.Body(), dt) then -old(velocity.vx) else old(velocity.vx)
    {
      var possible := CollisionPoint(position, velocity, player1.position.x);
      var next := NextPosition(position, velocity, dt);
      if possible.Some? && possible.value.x >= next.x && player1.Body().CollidesWith(possible.value) {
        velocity := velocity.(vx := -velocity.vx);
      }
    }

    /** Turns the horizontal velocity round when the right paddle is reached
        within this tick and is hit. */
    method UpdateIfCollisionWithPlayer2(player2: Player, dt: Seconds)
      requires player2.Body().ReachFits()
      modifies this
      ensures position == old(position) && velocity.vy == old(velocity.vy)
      ensures velocity.vx == if ReturnedByPlayer2(position, old(velocity), player2.Body(), dt) then -old(velocity.vx) else old(velocity.vx)
    {
      var possible := CollisionPoint(position, velocity, player2.position.x);
      var next := NextPosition(position, velocity, dt);
      if possible.Some? && possible.value.x <= next.x && player2.Body().CollidesWith(possible.value) {
        velocity := velocity.(vx := -velocity.vx);
      }
    }
  }
}
