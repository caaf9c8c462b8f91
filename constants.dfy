/** Numeric configuration of the simulation (screen, camera threshold, tiles,
    speeds, ranges and the per-archetype damage and cooldown tables). */
module Constants {

  const SCREEN_WIDTH: int := 1280
  const SCREEN_HEIGHT: int := 720
  const FPS: int := 60

  const GLOBAL_SCALE: int := 3
  const OFFSET: int := 12
  /** Width of the camera margin kept between the player and each screen edge. */
  const SCREEN_THRESHOLD: int := 200
  /** Number of enemy health-bar images: bar levels 0..12. */
  const HEALTH_BAR_TYPES: int := 13

  const TILE_SIZE: int := 16 * GLOBAL_SCALE
  /** Number of tile images: tile ids 0..17. */
  const TILE_TYPES: int := 18
  const ROWS: int := 150
  const COLS: int := 150

  const PLAYER_SPEED: int := 4
  const ARROW_SPEED: int := 12
  const ENEMY_SPEED: int := 3
  const FIREBALL_SPEED: int := 6

  /** Enemies stop pursuing inside this distance. */
  const RANGE: int := 40
  /** Enemies can strike the player inside this distance. */
  const ATTACK_RANGE: int := 60

  /** Melee damage per enemy archetype, indexed by `char_type - 1`. */
  const ENEMY_DAMAGE: seq<int> := [8, 6, 8, 12, 4, 15]
  /** Melee cooldown in milliseconds per enemy archetype, indexed by `char_type - 1`. */
  const ENEMY_ATTACK_COOLDOWN: seq<int> := [600, 500, 600, 850, 400, 800]

  /** Python list indexing: a negative index counts from the end. */
  function PyIndex(s: seq<int>, i: int): (v: int)
    requires -|s| <= i < |s|
    ensures i >= 0 ==> v == s[i]
    ensures i < 0 ==> v == s[|s| + i]
  {
    if i >= 0 then s[i] else s[|s| + i]
  }

  /** The tables cover the enemy archetypes 1..6, and the player (type 0) reads
      their last entry through Python's negative index. */
  lemma DamageTablesCoverArchetypes()
    ensures |ENEMY_DAMAGE| == 6 && |ENEMY_ATTACK_COOLDOWN| == 6
    ensures PyIndex(ENEMY_DAMAGE, -1) == 15 && PyIndex(ENEMY_ATTACK_COOLDOWN, -1) == 800
    ensures forall i :: 0 <= i < 6 ==> ENEMY_ATTACK_COOLDOWN[i] > 0 && ENEMY_DAMAGE[i] > 0
  {
  }

  /** The pursuit radius is inside the attack radius, and the camera's dead zone
      is non-empty on both axes and wide enough for a size-1 character (side 44). */
  lemma GeometryIsConsistent()
    ensures 0 < RANGE < ATTACK_RANGE
    ensures 2 * SCREEN_THRESHOLD < SCREEN_WIDTH && 2 * SCREEN_THRESHOLD < SCREEN_HEIGHT
    ensures TILE_SIZE == 48
    ensures TILE_SIZE - 4 <= SCREEN_WIDTH - 2 * SCREEN_THRESHOLD
    ensures TILE_SIZE - 4 <= SCREEN_HEIGHT - 2 * SCREEN_THRESHOLD
    ensures 2 * TILE_SIZE - 4 <= SCREEN_HEIGHT - 2 * SCREEN_THRESHOLD
  {
  }
}
