/** The paddles: their movement under held keys, the clamp that keeps them on
    the field, and the hit test the ball consults. */
module Players {
  import opened Geometry

  /** A key identifier, as the input layer reports it; which modifiers were
      held does not matter to the game. */
  datatype KeyCode = Char(c: char) | Up | Down | Other(code: nat)

  /** Every paddle moves at this fixed velocity, set when it is constructed. */
  const PaddleVelocity := Velocity(0.0, 12.0)

  /** The vertical clamp of `update_position`: `y.min(maxHeight - extendUp).max(extendDown)`.
      When the field is too low for the paddle the lower bound wins. */
  function ClampY(y: real, maxHeight: real, extendUp: nat, extendDown: nat): (r: real)
    ensures extendDown as real <= r
    ensures extendDown as real <= maxHeight - extendUp as real ==> r <= maxHeight - extendUp as real
    ensures extendDown as real <= y <= maxHeight - extendUp as real ==> r == y
    ensures r == y || r == extendDown as real || r == maxHeight - extendUp as real
    ensures y <= extendDown as real ==> r == extendDown as real
    ensures extendDown as real <= maxHeight - extendUp as real <= y ==> r == maxHeight - extendUp as real
    ensures maxHeight - extendUp as real < extendDown as real ==> r == extendDown as real
  {
    var capped := if y < maxHeight - extendUp as real then y else maxHeight - extendUp as real;
    if extendDown as real < capped then capped else extendDown as real
  }

  /** The displacement of `update_position` before the clamp: the up-key adds
      `velocity * dt`, then the down-key subtracts it, on both axes. */
  function Displace(position: Position, velocity: Velocity, up: bool, down: bool, dt: Seconds): (p: Position)
    ensures up == down ==> p == position
    ensures up && !down ==> p.x - position.x == velocity.vx * dt && p.y - position.y == velocity.vy * dt
    ensures down && !up ==> position.x - p.x == velocity.vx * dt && position.y - p.y == velocity.vy * dt
  {
    var raised := if up then Position(position.x + velocity.vx * dt, position.y + velocity.vy * dt) else position;
    if down then Position(raised.x - velocity.vx * dt, raised.y - velocity.vy * dt) else raised
  }

  /** The cells of column `x` whose row lies in `[lo, hi]`. */
  function Column(x: nat, lo: int, hi: int): set<DiscretePosition> {
    set y: nat | lo <= y <= hi :: DiscretePosition(x, y)
  }

  /** A column from row `lo` to row `hi` has `hi - lo + 1` cells. */
  lemma {:induction false} ColumnSize(x: nat, lo: nat, hi: int)
    requires lo <= hi + 1
    ensures |Column(x, lo, hi)| == hi + 1 - lo
  {
    if lo <= hi {
      ColumnSize(x, lo, hi - 1);
      assert Column(x, lo, hi) == Column(x, lo, hi - 1) + {DiscretePosition(x, hi)};
    } else {
      assert Column(x, lo, hi) == {};
    }
  }

  /** What the ball can hit of a player: its position and its reach above
      and below that position. */
  datatype Paddle = Paddle(position: Position, extendUp: nat, extendDown: nat) {

    /** The paddle's cell is at least `extendDown` rows above the bottom, so
        the unsigned subtraction of the hit test does not underflow. */
    predicate ReachFits() {
      extendDown <= ToDiscrete(position).y
    }

    /** The cells the paddle occupies: one column, from `extendDown` rows
        below its own cell to `extendUp` rows above it. */
    function Cells(): set<DiscretePosition>
      requires ReachFits()
    {
      var own := ToDiscrete(position);
      Column(own.x, own.y - extendDown, own.y + extendUp)
    }

    /** `collides_with`: compares the cell of `point` with the paddle's own cell. */
    function CollidesWith(point: Position): (b: bool)
      requires ReachFits()
      ensures b <==> ToDiscrete(point) in Cells()
    {
      var d := ToDiscrete(point);
      var own := ToDiscrete(position);
      own.y - extendDown <= d.y && d.y <= own.y + extendUp && own.x == d.x
    }

    /** The paddle is a segment `extendDown + extendUp + 1` cells high. */
    lemma CellCount()
      requires ReachFits()
      ensures |Cells()| == extendDown + extendUp + 1
    {
      var own := ToDiscrete(position);
      ColumnSize(own.x, own.y - extendDown, own.y + extendUp);
    }
  }

  /** A paddle: its reach, the two keys that move it, its position and its
      fixed velocity. Only the position changes after construction. */
  class Player {
    const extendUp: nat
    const extendDown: nat
    const keyUp: KeyCode
    const keyDown: KeyCode
    var position: Position
    const velocity: Velocity

    constructor (extendUp: nat, extendDown: nat, keyUp: KeyCode, keyDown: KeyCode, position: Position)
      ensures this.extendUp == extendUp && this.extendDown == extendDown
      ensures this.keyUp == keyUp && this.keyDown == keyDown
      ensures this.position == position && velocity == PaddleVelocity
    {
      this.extendUp := extendUp;
      this.extendDown := extendDown;
      this.keyUp := keyUp;
      this.keyDown := keyDown;
      this.position := position;
      velocity := PaddleVelocity;
    }

    /** The part of this player the ball can hit. */
    function Body(): Paddle
      reads this
    {
      Paddle(position, extendUp, extendDown)
    }

    /** The position `UpdatePosition` moves this player to: displaced by the
        held keys, then clamped into `[extendDown, maxHeight - extendUp]`. */
    function Stepped(maxHeight: real, pressed: set<KeyCode>, dt: Seconds): (p: Position)
      reads this
      ensures extendDown as real <= p.y
      ensures extendDown as real <= maxHeight - extendUp as real ==> p.y <= maxHeight - extendUp as real
      ensures Paddle(p, extendUp, extendDown).ReachFits()
      ensures (keyUp in pressed <==> keyDown in pressed) ==>
                p.x == position.x && p.y == ClampY(position.y, maxHeight, extendUp, extendDown)
      ensures keyUp in pressed && keyDown !in pressed ==>
                p.x == position.x + velocity.vx * dt &&
                p.y == ClampY(position.y + velocity.vy * dt, maxHeight, extendUp, extendDown)
      ensures keyDown in pressed && keyUp !in pressed ==>
                p.x == position.x - velocity.vx * dt &&
                p.y == ClampY(position.y - velocity.vy * dt, maxHeight, extendUp, extendDown)
    {
      var up, down := keyUp in pressed, keyDown in pressed;
      var moved := Displace(position, velocity, up, down, dt);
      assert up && !down ==> moved == Position(position.x + velocity.vx * dt, position.y + velocity.vy * dt);
      assert down && !up ==> moved == Position(position.x - velocity.vx * dt, position.y - velocity.vy * dt);
      var y := ClampY(moved.y, maxHeight, extendUp, extendDown);
      CellAtLeast(y, extendDown);
      Position(moved.x, y)
    }

    /** `update_position`: moves the player by the held keys and clamps it
        vertically; nothing but the position changes. */
    method UpdatePosition(maxHeight: real, pressed: set<KeyCode>, dt: Seconds)
      modifies this
      ensures position == old(Stepped(maxHeight, pressed, dt))
      ensures extendDown as real <= position.y
      ensures extendDown as real <= maxHeight - extendUp as real ==> position.y <= maxHeight - extendUp as real
      ensures Body().ReachFits()
    {
      if keyUp in pressed {
        position := Position(position.x + velocity.vx * dt, position.y + velocity.vy * dt);
      }
      if keyDown in pressed {
        position := Position(position.x - velocity.vx * dt, position.y - velocity.vy * dt);
      }
      position := position.(y := ClampY(position.y, maxHeight, extendUp, extendDown));
    }
  }
}
