/**
 * The records of gameCalculations.h: ships, projectiles and the terrain
 * hitbox records (the last two are declared only; no operation of the
 * modelled core uses them).
 */
module Entities {
  import opened Vectors

  /** Number of ship slots the game provides. */
  const MAX_PLAYERS: int := 6

  /**
   * A ship. `isAlive` is a C int: 1 while afloat, 0 after a collision.
   * `distanceMoved` accumulates every displacement the ship has made.
   */
  datatype Ship = Ship(
    team: int,
    position: Vec2,
    speed: real,
    heading: real,
    isAlive: int,
    distanceMoved: Vec2)

  /**
   * A cannonball. `position.z` is the height above the water; a projectile
   * with `position.z <= 0` is inert.
   */
  datatype Projectile = Projectile(
    team: int,
    position: Vec3,
    speed: Vec3,
    heading: real,
    angle: real)

  /** A terrain edge. */
  datatype Line = Line(start: Vec2, end: Vec2)

  /** A terrain hitbox: a broad-phase circle and ten edges. */
  datatype CollisionSection = CollisionSection(
    centerPosition: Vec2,
    minimumDistance: int,
    lines: seq<Line>)
}
