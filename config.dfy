/** The tuning constants of the controller (the `CONFIG` object). Only the
    ones movement and projectiles read are modelled; `ACCELERATION`,
    `FRICTION` and `AIR_CONTROL` are declared by the game but never read, and
    the projectile colour only feeds rendering. */
module Config {

  /** Eye height above the feet, and the ground-snap offset. */
  const HEIGHT: real := 2.0
  const RADIUS: real := 0.4
  /** Horizontal walking speed, in units per second. */
  const SPEED: real := 25.0
  const JUMP_FORCE: real := 30.0
  const GRAVITY: real := 32.0

  /** Steepest walkable surface, as an angle from straight up in degrees. */
  const SLOPE_THRESHOLD: real := 60.0
  /** cos(SLOPE_THRESHOLD): for a unit normal, `acos(normal.y) <= 60` degrees
      holds exactly when `normal.y >= 1/2`, because `acos` is decreasing. */
  const WALKABLE_MIN_NORMAL_Y: real := 0.5

  const PROJECTILE_RADIUS: real := 0.2
  const PROJECTILE_SPEED: real := 50.0
  const DISTANCE_LIMIT: real := 115.0

  /** `checkCollision`: a walkable surface blocks within this distance. */
  const SLOPE_BLOCK_DISTANCE: real := RADIUS * 1.5
  /** `checkGround`: how far below the eye a support may be. */
  const GROUND_CHECK_DISTANCE: real := HEIGHT + 0.1

  /** The fixed time step `animate` passes to every tick, in seconds. */
  const TICK_DELTA: real := 0.016
}
