/**
 * build/Agents.js: a player-controlled or AI aircraft. An Agent owns its
 * kinematic state, integrates it one explicit Euler step per frame, and is
 * snapped to every state the server reports.
 */
module Agents {
  import opened VectorMath
  import opened Snapshots
  import opened Canvas

  /**
   * One explicit Euler step of length dt (seconds): the position moves with the
   * velocity held before the step, then the velocity moves with the
   * acceleration; acceleration, orientation and cooldown are kept.
   */
  function Integrate(k: KinematicState, dt: real): KinematicState {
    KinematicState(
      AddVectors(k.position, MultiplyVectors(k.velocity, Vec2(dt, dt))),
      AddVectors(k.velocity, MultiplyVectors(k.acceleration, Vec2(dt, dt))),
      k.acceleration, k.orientation, k.cooldown)
  }

  /** A step of length zero changes nothing. */
  lemma IntegrateZeroIsIdentity(k: KinematicState)
    ensures Integrate(k, 0.0) == k
  {
  }

  /** Only position and velocity change; the rest of the state is carried over. */
  lemma IntegrateKeepsTheRest(k: KinematicState, dt: real)
    ensures Integrate(k, dt).acceleration == k.acceleration
    ensures Integrate(k, dt).orientation == k.orientation
    ensures Integrate(k, dt).cooldown == k.cooldown
  {
  }

  /**
   * The acceleration cannot influence the position in the same step: the
   * position is advanced with the pre-step velocity.
   */
  lemma IntegratePositionIgnoresAcceleration(k: KinematicState, a: Vec2, dt: real)
    ensures Integrate(k.(acceleration := a), dt).position == Integrate(k, dt).position
    ensures Integrate(k, dt).position == AddVectors(k.position, MultiplyVectors(k.velocity, Vec2(dt, dt)))
  {
  }

  class Agent {
    // Where the agent is now
    var position: Vec2
    var velocity: Vec2
    var acceleration: Vec2
    var orientation: real  // radians
    var cooldown: real
    /** Size of the sprite in world units (never reassigned). */
    const size: Vec2
    // Destination of the abandoned interpolation design: set once, never read
    const destinationPosition: Vec2
    const destinationVelocity: Vec2
    const destinationAcceleration: Vec2
    const destinationOrientation: real
    const destinationCooldown: real

    /** The agent's current kinematic state. */
    function Kinematics(): KinematicState
      reads this
    {
      KinematicState(position, velocity, acceleration, orientation, cooldown)
    }

    /**
     * Copies the state into the current fields and makes every destination
     * field equal to its current field. The sprite drawing callback of the
     * source is the only one ever passed (drawImage of the player sprite), so
     * it is modelled by the DrawImage call DrawSprite emits.
     */
    constructor (state: KinematicState, size: Vec2)
      ensures Kinematics() == state && GetPosition() == state.position && GetSize() == size
      ensures destinationPosition == position && destinationVelocity == velocity
      ensures destinationAcceleration == acceleration
      ensures destinationOrientation == orientation && destinationCooldown == cooldown
    {
      this.size := size;
      position := state.position;
      velocity := state.velocity;
      acceleration := state.acceleration;
      orientation := state.orientation;
      cooldown := state.cooldown;
      destinationPosition := state.position;
      destinationVelocity := state.velocity;
      destinationAcceleration := state.acceleration;
      destinationOrientation := state.orientation;
      destinationCooldown := state.cooldown;
    }

    /** `getPosition`: the world position (not screen coordinates). */
    function GetPosition(): (p: Vec2)
      reads this
      ensures p == Kinematics().position
    {
      position
    }

    /** `getSize`: the size given to the constructor. */
    function GetSize(): Vec2 {
      size
    }

    /** `update(deltaTime)`: one Euler step, deltaTime in seconds. */
    method Update(deltaTime: real)
      modifies this
      ensures Kinematics() == Integrate(old(Kinematics()), deltaTime)
    {
      position := AddVectors(position, MultiplyVectors(velocity, Vec2(deltaTime, deltaTime)));
      velocity := AddVectors(velocity, MultiplyVectors(acceleration, Vec2(deltaTime, deltaTime)));
    }

    /**
     * `getServerUpdate(newState)`: snaps to the server's state, whatever the
     * agent held before (so applying the same state twice is applying it once).
     * Size and destination fields are constants and stay as they were.
     */
    method GetServerUpdate(newState: KinematicState)
      modifies this
      ensures Kinematics() == newState
    {
      position := newState.position;
      velocity := newState.velocity;
      acceleration := newState.acceleration;
      orientation := newState.orientation;
      cooldown := newState.cooldown;
    }

    /**
     * `drawSprite(location, size)`: the sprite is drawn with its top-left
     * corner at location - size/2, rotated by the orientation. Because the
     * source passes the corner both as `pos` and as `centeredPos`, the image
     * itself is always drawn at (0, 0) of the translated surface.
     */
    function DrawSprite(location: Vec2, size: Vec2): (ops: seq<CanvasOp>)
      reads this
      ensures |ops| == 5
      ensures ops[0] == Translate(Vec2(location.x - size.x / 2.0, location.y - size.y / 2.0))
      ensures ops[1] == Rotate(orientation)
      ensures ops[2] == DrawImage(Origin, size)
      ensures PendingTransforms(ops) == []
    {
      var centeredPos := Vec2(location.x - size.x / 2.0, location.y - size.y / 2.0);
      RotateThenDraw(centeredPos, orientation, centeredPos, size)
    }

    /**
     * `rotateThenDraw(pos, radians, centeredPos, draw)`: translate to
     * centeredPos, rotate, draw the sprite (of the given size) at
     * centeredPos - pos, rotate back, translate back. The bracket leaves the
     * surface's transformation as it found it, and the one drawing call sits
     * inside it.
     */
    static function RotateThenDraw(pos: Vec2, radians: real, centeredPos: Vec2, imageSize: Vec2): (ops: seq<CanvasOp>)
      ensures |ops| == 5 && ops[2] == DrawImage(SubtractVectors(centeredPos, pos), imageSize)
      ensures ops[0] == Translate(centeredPos) && ops[1] == Rotate(radians)
      ensures PendingTransforms(ops) == []
      ensures forall i :: 0 <= i < |ops| && i != 2 ==> ops[i].IsTransform()
    {
      BracketRestores(centeredPos, radians, DrawImage(SubtractVectors(centeredPos, pos), imageSize));
      [Translate(centeredPos), Rotate(radians),
       DrawImage(SubtractVectors(centeredPos, pos), imageSize),
       Rotate(-radians), Translate(SubtractVectors(Origin, centeredPos))]
    }
  }
}
