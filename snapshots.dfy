/**
 * The snapshot an update source delivers: the authoritative state of every
 * player and bullet at one server tick. All of it is plain data.
 */
module Snapshots {
  import opened VectorMath

  /** `position`, `velocity`, `acceleration`, `orientation` (radians, not normalised) and `cooldown`. */
  datatype KinematicState = KinematicState(
    position: Vec2,
    velocity: Vec2,
    acceleration: Vec2,
    orientation: real,
    cooldown: real)

  /** One player entry of a snapshot: its id and its kinematic state. */
  datatype PlayerState = PlayerState(id: string, kinematics: KinematicState)

  /** One bullet entry of a snapshot. */
  datatype BulletState = BulletState(id: string, position: Vec2, velocity: Vec2)

  /** `{players, bullets}` in the order the source listed them. */
  datatype Snapshot = Snapshot(players: seq<PlayerState>, bullets: seq<BulletState>)

  /** The snapshot a fresh update manager holds: no players and no bullets. */
  const EmptySnapshot := Snapshot([], [])
}
