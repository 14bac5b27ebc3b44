/** Continuous and discrete coordinates of the playing field.

    The field's origin is the bottom-left corner. Floating-point numbers are
    modelled as `real`, machine-sized unsigned integers as `nat`, and a
    `Duration` as a non-negative number of seconds. */
module Geometry {

  /** A point of the field in continuous coordinates. */
  datatype Position = Position(x: real, y: real)

  /** A grid cell: a position rounded to whole units. */
  datatype DiscretePosition = DiscretePosition(x: nat, y: nat)

  /** A velocity in field units per second. */
  datatype Velocity = Velocity(vx: real, vy: real)

  /** An elapsed time; a duration is never negative. */
  type Seconds = r: real | 0.0 <= r

  function Abs(r: real): real {
    if r < 0.0 then -r else r
  }

  /** Rounds to the nearest integer; a value half-way between two integers
      is rounded away from zero. */
  function Round(r: real): (n: int)
    ensures 0.0 <= r ==> n as real - 0.5 <= r < n as real + 0.5
    ensures r < 0.0 ==> n as real - 0.5 < r <= n as real + 0.5
  {
    if 0.0 <= r then (r + 0.5).Floor else -((0.5 - r).Floor)
  }

  /** One coordinate of `to_discrete`: rounding followed by a saturating
      conversion to an unsigned integer, so that every negative value becomes 0. */
  function ToDiscreteCoordinate(r: real): (n: nat)
    ensures r < 0.0 ==> n == 0
    ensures 0.0 <= r ==> n as real - 0.5 <= r < n as real + 0.5
  {
    var k := Round(r);
    if k < 0 then 0 else k
  }

  /** The grid cell a point lies in: on each axis the nearest cell, halves
      rounded up, and cell 0 for a negative coordinate. */
  function ToDiscrete(p: Position): (d: DiscretePosition)
    ensures p.x < 0.0 ==> d.x == 0
    ensures p.y < 0.0 ==> d.y == 0
    ensures 0.0 <= p.x ==> d.x as real - 0.5 <= p.x < d.x as real + 0.5
    ensures 0.0 <= p.y ==> d.y as real - 0.5 <= p.y < d.y as real + 0.5
  {
    DiscretePosition(ToDiscreteCoordinate(p.x), ToDiscreteCoordinate(p.y))
  }

  /** The point at the centre of a grid cell: on each axis it is as far from
      the cell's lower border as from its upper one, and it rounds back to
      the same cell. */
  function ToContinuous(d: DiscretePosition): (p: Position)
    ensures p.x - (d.x as real - 0.5) == (d.x as real + 0.5) - p.x
    ensures p.y - (d.y as real - 0.5) == (d.y as real + 0.5) - p.y
    ensures ToDiscrete(p) == d
  {
    NearestCell(d.x as real, d.x);
    NearestCell(d.y as real, d.y);
    Position(d.x as real, d.y as real)
  }

  /** A coordinate is mapped to a cell exactly when it lies in the half-open
      interval of width 1 around that cell. */
  lemma NearestCell(r: real, n: nat)
    requires n as real - 0.5 <= r < n as real + 0.5
    ensures ToDiscreteCoordinate(r) == n
  {
    var k := ToDiscreteCoordinate(r);
    assert n as real - 0.5 <= r < k as real + 0.5;
    assert k as real - 0.5 <= r < n as real + 0.5;
  }

  /** Rounding does not go below a whole number the coordinate is at least. */
  lemma CellAtLeast(r: real, n: nat)
    requires n as real <= r
    ensures n <= ToDiscreteCoordinate(r)
  {
  }

  /** Converting a point to its cell and back moves a non-negative
      coordinate by at most half a cell, and a negative one to 0. */
  lemma ContinuousRoundTrip(p: Position)
    ensures var c := ToContinuous(ToDiscrete(p));
            (0.0 <= p.x ==> -0.5 < c.x - p.x <= 0.5) && (p.x < 0.0 ==> c.x == 0.0) &&
            (0.0 <= p.y ==> -0.5 < c.y - p.y <= 0.5) && (p.y < 0.0 ==> c.y == 0.0)
  {
  }
}
