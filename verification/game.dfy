/** The simulation: the field, both players, the ball and the two scores,
    advanced one tick at a time. */
module Game {
  import opened Geometry
  import opened Players
  import opened Balls

  /** Holding this key puts the paddles and the ball back where they start. */
  const ResetKey: KeyCode := Char('r')

  /** No serve is slower than this horizontally, and no tick slows the ball. */
  const MinimumHorizontalSpeed: real := 10.0

  /** The left paddle starts on the left edge, half-way up. */
  function InitialPlayer1Position(width: nat, height: nat): (p: Position)
    ensures p.x == 0.0 && 0.0 <= p.y <= height as real && p.y + p.y == height as real
  {
    Position(0.0, height as real / 2.0)
  }

  /** The right paddle starts on the right edge, half-way up. */
  function InitialPlayer2Position(width: nat, height: nat): (p: Position)
    ensures p.x == width as real && 0.0 <= p.y <= height as real && p.y + p.y == height as real
  {
    Position(width as real, height as real / 2.0)
  }

  /** The ball starts in the middle of the field. */
  function InitialBallPosition(width: nat, height: nat): (p: Position)
    ensures 0.0 <= p.x <= width as real && p.x + p.x == width as real
    ensures 0.0 <= p.y <= height as real && p.y + p.y == height as real
  {
    Position(width as real / 2.0, height as real / 2.0)
  }

  /** The starting layout is symmetric: both paddles and the ball are on the
      middle row of the field, the paddles on its two edges and the ball
      half-way between them. */
  lemma InitialLayout(width: nat, height: nat)
    ensures var p1, p2, b := InitialPlayer1Position(width, height), InitialPlayer2Position(width, height),
                             InitialBallPosition(width, height);
            p1.y == p2.y == b.y && 0.0 <= b.y <= height as real && b.y + b.y == height as real &&
            p1.x == 0.0 && p2.x == width as real && b.x - p1.x == p2.x - b.x
  {
  }

  /** The ball has passed the left paddle while moving left or not at all: a
      point for the right player. */
  predicate LeftGoal(ball: Position, velocity: Velocity, paddle1: Position) {
    velocity.vx <= 0.0 && ball.x < paddle1.x
  }

  /** The ball has passed the right paddle while moving right: a point for
      the left player. */
  predicate RightGoal(ball: Position, velocity: Velocity, paddle2: Position) {
    velocity.vx > 0.0 && ball.x > paddle2.x
  }

  /** The whole state of a game. The players and the ball belong to it alone
      and keep their identity for the whole game. */
  class GameState {
    const width: nat
    const height: nat
    var player1Score: nat
    var player2Score: nat
    const player1: Player
    const player2: Player
    const ball: Ball

    /** Two distinct players with their keys and fixed velocity, and a ball
        that never moves horizontally slower than a serve. */
    ghost predicate Valid()
      reads this, player1, player2, ball
    {
      player1 != player2 &&
      player1.keyUp == Char('w') && player1.keyDown == Char('s') &&
      player2.keyUp == Up && player2.keyDown == Down &&
      player1.velocity == PaddleVelocity && player2.velocity == PaddleVelocity &&
      MinimumHorizontalSpeed <= Abs(ball.velocity.vx)
    }

    /** The paddles and the ball are at their starting positions and the ball
        has the velocity served by `draw`. */
    ghost predicate AtInitialLayout(draw: Draw)
      requires draw.Valid()
      reads this, player1, player2, ball
    {
      player1.position == InitialPlayer1Position(width, height) &&
      player2.position == InitialPlayer2Position(width, height) &&
      ball.position == InitialBallPosition(width, height) &&
      ball.velocity == RandomBallVelocity(draw)
    }

    /** `GameState::new`: both scores 0, everything at the starting layout. */
    constructor (width: nat, height: nat, extendUp: nat, extendDown: nat, draw: Draw)
      requires draw.Valid()
      ensures Valid() && AtInitialLayout(draw)
      ensures this.width == width && this.height == height
      ensures player1Score == 0 && player2Score == 0
      ensures player1.extendUp == extendUp && player1.extendDown == extendDown
      ensures player2.extendUp == extendUp && player2.extendDown == extendDown
      ensures fresh(player1) && fresh(player2) && fresh(ball)
    {
      this.width := width;
      this.height := height;
      player1Score := 0;
      player2Score := 0;
      player1 := new Player(extendUp, extendDown, Char('w'), Char('s'), InitialPlayer1Position(width, height));
      player2 := new Player(extendUp, extendDown, Up, Down, InitialPlayer2Position(width, height));
      ball := new Ball(InitialBallPosition(width, height), draw);
    }

    /** `update`: one tick. With the reset key held only the layout is reset.
        Otherwise the left paddle moves, then the right one, then the ball
        against the moved paddles; a ball past a paddle scores one point for
        the other player and resets the layout. `draw` is the serve used by a
        reset. */
    method Update(pressed: set<KeyCode>, dt: Seconds, draw: Draw)
      requires Valid() && draw.Valid()
      modifies this, player1, player2, ball
      ensures Valid()
      ensures old(player1Score) <= player1Score <= old(player1Score) + 1
      ensures old(player2Score) <= player2Score <= old(player2Score) + 1
      ensures player1Score + player2Score <= old(player1Score + player2Score) + 1
      ensures player1Score + player2Score != old(player1Score + player2Score) ==> AtInitialLayout(draw)
      ensures ResetKey in pressed ==>
                player1Score == old(player1Score) && player2Score == old(player2Score) && AtInitialLayout(draw)
      ensures ResetKey !in pressed ==>
                var p1 := old(player1.Stepped(height as real, pressed, dt));
                var p2 := old(player2.Stepped(height as real, pressed, dt));
                var b := Tick(old(ball.position), old(ball.velocity), height as real,
                              Paddle(p1, player1.extendUp, player1.extendDown),
                              Paddle(p2, player2.extendUp, player2.extendDown), dt);
                if LeftGoal(b.0, b.1, p1) then
                  player2Score == old(player2Score) + 1 && player1Score == old(player1Score) && AtInitialLayout(draw)
                else if RightGoal(b.0, b.1, p2) then
                  player1Score == old(player1Score) + 1 && player2Score == old(player2Score) && AtInitialLayout(draw)
                else
                  player1Score == old(player1Score) && player2Score == old(player2Score) &&
                  player1.position == p1 && player2.position == p2 && ball.position == b.0 && ball.velocity == b.1
    {
      if ResetKey in pressed {
        ResetBallAndPlayers(draw);
        return;
      }
      player1.UpdatePosition(height as real, pressed, dt);
      player2.UpdatePosition(height as real, pressed, dt);
      ball.UpdatePosition(height as real, player1, player2, dt);
      UpdateScore(draw);
    }

    /** `update_score`: a goal on the left scores for the right player, else
        a goal on the right scores for the left player; either resets the
        layout. */
    method UpdateScore(draw: Draw)
      requires draw.Valid() && player1 != player2
      modifies this, player1, player2, ball
      ensures LeftGoal(old(ball.position), old(ball.velocity), old(player1.position)) ==>
                player2Score == old(player2Score) + 1 && player1Score == old(player1Score) && AtInitialLayout(draw)
      ensures !LeftGoal(old(ball.position), old(ball.velocity), old(player1.position)) &&
              RightGoal(old(ball.position), old(ball.velocity), old(player2.position)) ==>
                player1Score == old(player1Score) + 1 && player2Score == old(player2Score) && AtInitialLayout(draw)
      ensures !LeftGoal(old(ball.position), old(ball.velocity), old(player1.position)) &&
              !RightGoal(old(ball.position), old(ball.velocity), old(player2.position)) ==>
                player1Score == old(player1Score) && player2Score == old(player2Score) &&
                player1.position == old(player1.position) && player2.position == old(player2.position) &&
                ball.position == old(ball.position) && ball.velocity == old(ball.velocity)
    {
      if ball.velocity.vx <= 0.0 && ball.position.x < player1.position.x {
        player2Score := player2Score + 1;
        ResetBallAndPlayers(draw);
      } else if ball.velocity.vx > 0.0 && ball.position.x > player2.position.x {
        player1Score := player1Score + 1;
        ResetBallAndPlayers(draw);
      }
    }

    /** `reset_ball_and_players`: only the positions of the paddles and the
        ball and the ball's velocity change. */
    method ResetBallAndPlayers(draw: Draw)
      requires draw.Valid() && player1 != player2
      modifies player1, player2, ball
      ensures AtInitialLayout(draw)
    {
      player1.position := InitialPlayer1Position(width, height);
      player2.position := InitialPlayer2Position(width, height);
      ball.position := InitialBallPosition(width, height);
      ball.velocity := RandomBallVelocity(draw);
    }
  }
}
