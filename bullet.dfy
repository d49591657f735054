/**
 * build/Bullet.js: a bullet moves in a straight line with its velocity and
 * is drawn as a filled circle of fixed radius. Its position is a mutable
 * point object that the bullet moves in place, so whoever else holds the
 * same point object sees it move.
 */
module Bullets {
  import opened VectorMath
  import opened Snapshots
  import opened Canvas

  /** `radius`: every bullet has radius 10, on both axes. */
  const RADIUS: real := 10.0

  /** A mutable `{x, y}` object. */
  class Point {
    var x: real
    var y: real

    constructor (v: Vec2)
      ensures Value() == v
    {
      x := v.x;
      y := v.y;
    }

    function Value(): Vec2
      reads this
    {
      Vec2(x, y)
    }
  }

  /** What a bullet knows about its motion: position and velocity. */
  datatype BulletMotion = BulletMotion(position: Vec2, velocity: Vec2)

  /** Straight-line motion for dt seconds; the velocity never changes. */
  function Advance(m: BulletMotion, dt: real): BulletMotion {
    BulletMotion(AddVectors(m.position, MultiplyVectors(m.velocity, Vec2(dt, dt))), m.velocity)
  }

  /** Standing still for no time changes nothing; the velocity is kept by every step. */
  lemma AdvanceZeroAndVelocity(m: BulletMotion, dt: real)
    ensures Advance(m, 0.0) == m
    ensures Advance(m, dt).velocity == m.velocity
  {
  }

  /**
   * Two steps are one step of the summed length: with no acceleration a
   * bullet's trajectory does not depend on how time is sliced into frames.
   */
  lemma AdvanceComposes(m: BulletMotion, a: real, b: real)
    ensures Advance(Advance(m, a), b) == Advance(m, a + b)
  {
    var v := m.velocity;
    assert v.x * a + v.x * b == v.x * (a + b);
    assert v.y * a + v.y * b == v.y * (a + b);
  }

  class Bullet {
    var position: Point
    var velocity: Vec2
    const radius: real := RADIUS

    /** Stores the given point object itself (not a copy) and the velocity. */
    constructor (position: Point, velocity: Vec2)
      ensures this.position == position && this.velocity == velocity
      ensures GetPosition() == position.Value()
    {
      this.position := position;
      this.velocity := velocity;
    }

    /** `getPosition`: the current position, the one each update moves. */
    function GetPosition(): (p: Vec2)
      reads this, position
      ensures p == Motion().position
    {
      position.Value()
    }

    function Motion(): BulletMotion
      reads this, position
    {
      BulletMotion(position.Value(), velocity)
    }

    /** `getSize`: the radius on both axes, whatever the bullet. */
    function GetSize(): (s: Vec2)
      ensures s.x == s.y == RADIUS
    {
      Vec2(radius, radius)
    }

    /**
     * `update(deltaTime)`: moves the point object in place by velocity *
     * deltaTime. The bullet keeps the same point object and its velocity.
     */
    method Update(deltaTime: real)
      modifies position
      ensures position == old(position)
      ensures Motion() == Advance(old(Motion()), deltaTime)
    {
      position.x := position.x + velocity.x * deltaTime;
      position.y := position.y + velocity.y * deltaTime;
    }

    /**
     * `getServerUpdate(newState)`: takes the state's position and velocity.
     * The state is a value here, so the bullet gets a new point object
     * holding the state's position.
     */
    method GetServerUpdate(newState: BulletState)
      modifies this
      ensures fresh(position)
      ensures Motion() == BulletMotion(newState.position, newState.velocity)
    {
      position := new Point(newState.position);
      velocity := newState.velocity;
    }

    /**
     * `drawSprite(pos, size)`: one filled circle centred on pos whose radius
     * is size.x; it leaves the surface's transformation alone.
     */
    function DrawSprite(pos: Vec2, size: Vec2): (ops: seq<CanvasOp>)
      ensures |ops| == 1 && ops[0].FillCircle? && ops[0].center == pos && ops[0].radius == size.x
      ensures PendingTransforms(ops) == []
    {
      [FillCircle(pos, size.x)]
    }
  }

  /**
   * A bullet built on a point object that someone else also holds: after the
   * bullet's update that holder reads the moved position, because the bullet
   * moved the shared object rather than replacing it.
   */
  method UpdateMovesSharedPoint(p: Point, velocity: Vec2, deltaTime: real) returns (b: Bullet)
    modifies p
    ensures fresh(b) && b.position == p
    ensures p.Value() == AddVectors(old(p.Value()), MultiplyVectors(velocity, Vec2(deltaTime, deltaTime)))
  {
    b := new Bullet(p, velocity);
    b.Update(deltaTime);
  }
}
