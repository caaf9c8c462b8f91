# IntoTheDeep: the per-frame simulation, modelled and proved in Dafny

IntoTheDeep is a top-down pygame dungeon shooter. The player walks a tiled
level, the camera scrolls to keep them inside a dead zone, enemies chase and
strike the player, a boss throws fireballs, the player shoots arrows, and
coins and potions lie about. This project models the game's per-frame
simulation: integer rectangles, counters, flags and cooldown clocks.
Rendering and sound are not part of it.

The modules follow the program's files:

- `Geometry`, `Constants`: pygame's `Rect` as four integers and `constants.py`.
- `Kinematics`: `Character.move`, which both character variants share. It covers the movement flags, the diagonal scaling, the two collision passes, the exit trigger and the camera scroll.
- `Sight`: the line-of-sight scan and the squared-distance tests of the enemy AI.
- `CharacterKinds`: what both `Character` variants derive in `__init__`, plus `update_action` and the frame clock.
- `Characters`: `character.py` (normalised steering and stuck detection).
- `CharactersFixedStep`: `IntoTheDeepWithoutSound/character.py` (fixed ±speed steering).
- `Weapons`: `weapon.py`, covering the bow's trigger, arrows and fireballs.
- `Items`: `items.py`, covering coins, potions and the score coin.
- `WorldMap`: `IntoTheDeepWithSound/world.py`, the level built from the tile grid and the tile scroll.
- `Hud`: `calc_health`, the heart row, `HealthBar`, `DamageText` and `ScreenFade`. These are the same code in `main.py` and `IntoTheDeepWithSound/main.py`.
- `SpriteGroups`: `limit_sprite_group` and `cleanup_offscreen_sprites` of `main.py`.
- `MainLoop`: the tick rules of `main.py`, namely the frame counter, the arrow gate and the enemy pass that removes dead enemies.
- `MainLoopWithSound`: the tick rules of `IntoTheDeepWithSound/main.py`, namely the `>= 8` arrow gate, an enemy pass that never removes anyone, `load_level` and the level carry-over.

Every object the source updates in place is a Dafny `class` with the same fields. Each mutating method is proved to leave `State()` equal to a pure step function of the old state (`State() == AiStep(..., old(State()), ...)`), and the game's promises are proved as lemmas about those step functions.

The source's inputs become parameters:
- The clock (`pygame.time.get_ticks()`) becomes `now`.
- `random.randint` and `random.choice` become `jitter` and `nudge`, constrained to their ranges.
- `Rect.clipline` becomes a function parameter `clip`.
- The normalised steering direction becomes a function parameter `steer`.
- Projectile velocities are given integers.

Velocities are fixed-point numbers of 1/10000 pixel. This keeps the √2⁄2 diagonal scaling (0.7071) and pygame's truncation of fractional coordinates exact.

## Model

| member | source | states |
|---|---|---|
| Constants.PyIndex | character.py:22-23 | Python list indexing: a negative index counts from the end |
| Constants.DamageTablesCoverArchetypes | constants.py:43-44 | the damage and cooldown tables have 6 positive entries for types 1..6; type 0 reads the last entry (15 damage, 800 ms) |
| Constants.GeometryIsConsistent | constants.py:1-44 | RANGE < ATTACK_RANGE; the camera dead zone is non-empty on both axes; TILE_SIZE is 48, and a size-1 character (side 44) and a boss (side 92, vertically) fit the dead zone |
| CharacterKinds.MakeKind | character.py:11-36 | attack damage and cooldown are the table entries at `char_type - 1`; type 0 gets 15 and 800 through Python's negative index |
| CharacterKinds.SpawnRect | character.py:41-42 | the character rectangle has side `TILE_SIZE * size - 4` and is centred on the spawn point |
| CharacterKinds.SwitchAction | character.py:242-248 | a new action restarts at frame 0 with the clock reset; the same action changes nothing |
| CharacterKinds.TickFrame | character.py:229-236 | after more than the cooldown the frame advances and wraps to 0 past the last frame, and the clock restarts; otherwise nothing changes |
| CharacterKinds.SwitchActionKeepsValid | character.py:242-248 | switching action keeps the frame index a valid index |
| CharacterKinds.TickFrameKeepsValid | character.py:234-236 | the frame index stays below the current action's frame count |
| Kinematics.Truncate | character.py:66 | a fractional coordinate is stored truncated toward zero, within one pixel of the exact value |
| Kinematics.DiagonalScale | character.py:62-64 | the √2⁄2 scaling keeps each component's sign and never grows it |
| Kinematics.Advance | character.py:66 | `rect.x += v` moves in the direction of `v`, by exactly `v` for whole-pixel velocities |
| Kinematics.Velocity | character.py:61-64 | an axial step is unchanged; a diagonal one is scaled, keeping each sign and never growing |
| Kinematics.DiagonalStepIsNotUniform | character.py:62-66 | a diagonal player step moves 2 pixels down-right but 3 pixels up-left: truncation makes the diagonal speed depend on direction |
| Kinematics.ResolveX | character.py:66-74 | the x pass keeps y and size, never moves the rectangle when dx is 0, and only pushes it back against the motion |
| Kinematics.ResolveY | character.py:76-84 | the y pass keeps x and size, never moves the rectangle when dy is 0, and only pushes it back against the motion |
| Kinematics.ResolveXFree | character.py:67-74 | with no obstacle overlapping the stepped rectangle, the x pass leaves it where the step put it |
| Kinematics.ResolveYFree | character.py:77-84 | the same for the y pass |
| Kinematics.ResolveXSnapsToObstacle | character.py:69-74 | when the x pass moves the rectangle, its leading edge ends on the near edge of an obstacle of the list |
| Kinematics.ResolveXLoop | character.py:66-74 | the x collision loop computes the x pass |
| Kinematics.ResolveYLoop | character.py:76-84 | the y collision loop computes the y pass |
| Kinematics.CameraAxis | character.py:94-101 | a span already inside the band is not scrolled; a span that fits the band ends inside it, moved by exactly the scroll |
| Kinematics.Camera | character.py:92-111 | a player inside the dead zone causes no scroll; one that fits the dead zone ends inside it, moved by exactly the scroll |
| Kinematics.CameraBody | character.py:92-111 | the four edge checks of the camera block compute `Camera` |
| Kinematics.MoveBody | character.py:44-114 | `move` as the source runs it computes the `Move` value |
| Kinematics.MoveSetsFacingAndRunning | character.py:49-59 | the character faces left after a leftward step and right after a rightward one, and keeps its facing otherwise; it is running iff dx or dy is non-zero |
| Kinematics.NonPlayerMoveHasNoScroll | character.py:45-46 | an enemy's move returns scroll (0, 0) and never completes the level |
| Kinematics.YPassKeepsX | character.py:76-84 | after the x pass the horizontal position is final |
| Kinematics.FreeAxialMove | character.py:66-74 | a horizontal whole-pixel move that meets no obstacle moves the rectangle by exactly dx |
| Kinematics.LevelCompleteIff | character.py:87-90 | the level is complete iff the interact signal is raised and the player's rectangle contains the exit tile's centre after the collision passes |
| Kinematics.DeadZoneMeansNoScroll | character.py:92-111 | camera case 1: inside the dead zone, scroll (0, 0) and the rectangle unchanged |
| Kinematics.ScrollPushesBackIntoDeadZone | character.py:92-111 | camera case 2: a player that fits the dead zone ends inside it, and its position moved by exactly the scroll |
| Sight.WallInSight | character.py:133-137 | the wall flag is set iff some obstacle clips the sight line |
| Sight.ClippedLine | IntoTheDeepWithoutSound/character.py:128-131 | the clipped segment is present iff some obstacle clips the sight line, and it is that obstacle's clip |
| Sight.Dist2 | character.py:140 | the squared distance is zero iff the points coincide |
| Characters.Character.constructor | character.py:11-42 | a living, idle, unhit character of the given type, size and health, centred on (x, y), with every clock at `now` |
| Characters.Character.Move | character.py:44-114 | the rectangle, facing and running flag become those of the `move` value, and the scroll and exit trigger are returned |
| Characters.Character.UpdateAction | character.py:242-248 | only the animation changes, as `update_action` prescribes |
| Characters.Character.Ai | character.py:116-202 | enemy, player and fireball become the `ai` step's result |
| Characters.Character.Scroll | character.py:126-127 | only the rectangle moves, by the scroll |
| Characters.Character.Engage | character.py:129-186 | the sight test, the distance and, unless stunned, the pursuit |
| Characters.Character.Pursue | character.py:142-186 | steering, the move, the strike and the boss's fireball |
| Characters.Character.Steer | character.py:143-166 | the normalised step toward the player, or the random nudge after 60 stuck frames, and the stuck bookkeeping |
| Characters.Character.Strike | character.py:172-177 | enemy and player after the melee strike |
| Characters.Character.TakeHit | character.py:173-175 | the player loses the damage and is marked hit at `now` |
| Characters.Character.Wound | weapon.py:98-101 | an arrow's victim loses the damage and is marked hit |
| Characters.Character.GainCoin | items.py:26-27 | the score rises by one |
| Characters.Character.DrinkPotion | items.py:29-32 | health rises by 25, clamped at 100 |
| Characters.Character.Shoot | character.py:180-186 | the boss's fireball and the restarted attack clock |
| Characters.Character.Stun | character.py:189-194 | a hit non-boss is stunned |
| Characters.Character.Expire | character.py:196-200 | the stun and attack timers |
| Characters.Character.DeathFlash | character.py:204-213 | the flash step and the value `death_flash` returns |
| Characters.Character.UpdateSprite | character.py:215-240 | the death check and the 100 ms frame clock |
| Characters.Character.UpdatePlayerSprite | character.py:215-240 | `update_sprite` with the player's 400 ms hit cooldown restored (see Findings) |
| Characters.AiDeadIsNoop | character.py:116-118 | a dead enemy's `ai` returns no fireball and changes nothing |
| Characters.AiKeepsLife | character.py:116-202 | `ai` never changes the enemy's health, life, score or death flash; its action stays or becomes idle |
| Characters.EngageKeepsLife | character.py:129-186 | the middle of `ai` keeps the enemy's life and animation |
| Characters.ChaseKeepsLife | character.py:142-186 | the pursuit only moves the enemy and sets its steering and attack bookkeeping |
| Characters.SteerKeepsLife | character.py:143-166 | steering only sets the stuck bookkeeping |
| Characters.StrikeKeepsLife | character.py:172-177 | the strike only sets the enemy's attack bookkeeping |
| Characters.ShootKeepsLife | character.py:180-186 | a fireball only restarts the enemy's attack clock |
| Characters.Approach | character.py:143-169 | the steering and the move keep the enemy's life, hit and stun flags and attack clock |
| Characters.AttackBookkeeping | character.py:171-186 | on the moved enemy, the strike happens iff it is in range with no attack pending, the player unhit and no wall; the fireball spawns iff a boss is between 50 and 400 away, its attack clock is over 1000 ms old, no attack is pending and it did not just strike; each restarts the attack clock |
| Characters.ChaseBookkeeping | character.py:142-186 | the same strike and fireball conditions for the whole pursuit, stated on the enemy before it moved |
| Characters.EngageBookkeeping | character.py:129-186 | the strike and fireball conditions of the middle of `ai`, including the sight line, the stun and RANGE |
| Characters.AiBookkeeping | character.py:116-202 | the strike and fireball conditions of a whole `ai` call, measured from the scrolled centre |
| Characters.RecoverKeepsAttackClock | character.py:188-200 | the stun and cooldown tail keeps the enemy's position and attack clock |
| Characters.RecoverKeepsLife | character.py:188-200 | the stun and cooldown tail keeps the enemy's life, and its action stays or becomes idle |
| Characters.EngageKeepsHit | character.py:129-186 | the middle of `ai` leaves the enemy's hit flag alone |
| Characters.AttackIff | character.py:142-177 | the strike happens iff the enemy is alive and unstunned, has a clear sight line, is farther than RANGE and closer than ATTACK_RANGE, has no attack pending, and the player is not hit. The player then loses damage plus jitter and is marked hit, and the attack clock restarts |
| Characters.FireballIff | character.py:180-186 | a fireball spawns iff a living, unstunned boss in pursuit is between 50 and 400 away, its last attack is more than 1000 ms ago, it has no attack pending and did not just strike. It is aimed at the player, and the attack clock restarts |
| Characters.NoFireballWithinCooldown | character.py:181-186 | no fireball within 1000 ms of the last attack |
| Characters.HitStuns | character.py:189-194 | a hit, living non-boss ends stunned, unhit, not running and idle, with the stun clock at `now` |
| Characters.StunnedStaysPut | character.py:142 | a stunned enemy is only carried by the scroll: it does not move, strike or shoot |
| Characters.TimersExpire | character.py:196-200 | after `ai` an enemy is stunned only within 70 ms of its last hit and has an attack pending only within its cooldown |
| Characters.StuckEnemyIsNudged | character.py:155-166 | an enemy that has stayed put for the 61st time moves by the random nudge of ENEMY_SPEED per axis, and its count restarts |
| Characters.DeathFlashBounded | character.py:204-213 | the flash counter never decreases, grows by at most one per call and never exceeds 15; the value returned is the counter, or 15 once spent |
| Characters.DeathFlashFinishes | character.py:204-213 | from any counter, 15 − counter calls spaced more than 60 ms apart finish the flash |
| Characters.UpdateSpriteDetectsDeath | character.py:215-226 | non-positive health sets health to 0, marks the character dead and idle, and returns false; positive health changes only the animation |
| Characters.DeathIsPermanent | character.py:15-226 | no `ai`, `death_flash` or `update_sprite` call makes a dead character alive |
| Characters.PlayerHitNeverClears | character.py:172-240 | as written, nothing clears the player's hit flag, so once hit the player takes no further melee damage |
| Characters.PlayerHitClearsAfterCooldown | IntoTheDeepWithoutSound/character.py:200-204 | with the cooldown restored, a living player hit more than 400 ms ago is no longer hit; one hit more recently keeps the flag |
| CharactersFixedStep.ComputeHeading | IntoTheDeepWithoutSound/character.py:136-144 | the four centre comparisons compute the fixed step |
| CharactersFixedStep.Character.constructor | IntoTheDeepWithoutSound/character.py:8-36 | a living, idle, unhit character centred on (x, y), with every clock at `now` |
| CharactersFixedStep.Character.Move | IntoTheDeepWithoutSound/character.py:38-108 | the shared `move` value |
| CharactersFixedStep.Character.UpdateAction | IntoTheDeepWithoutSound/character.py:225-231 | only the animation changes |
| CharactersFixedStep.Character.Ai | IntoTheDeepWithoutSound/character.py:110-180 | enemy, player and fireball become the `ai` step's result |
| CharactersFixedStep.Character.Scroll | IntoTheDeepWithoutSound/character.py:118-119 | only the rectangle moves, by the scroll |
| CharactersFixedStep.Character.Engage | IntoTheDeepWithoutSound/character.py:126-162 | the sight scan, the distance, the fixed step and, unless stunned, the move and attacks |
| CharactersFixedStep.Character.Pursue | IntoTheDeepWithoutSound/character.py:146-162 | the move, the strike and the boss's fireball |
| CharactersFixedStep.Character.Strike | IntoTheDeepWithoutSound/character.py:150-155 | enemy and player after the melee strike |
| CharactersFixedStep.Character.TakeHit | IntoTheDeepWithoutSound/character.py:151-153 | the player loses the damage and is marked hit at `now` |
| CharactersFixedStep.Character.Shoot | IntoTheDeepWithoutSound/character.py:157-161 | the boss's fireball and the restarted attack clock |
| CharactersFixedStep.Character.Stun | IntoTheDeepWithoutSound/character.py:164-170 | a hit non-boss is stunned |
| CharactersFixedStep.Character.Expire | IntoTheDeepWithoutSound/character.py:172-178 | the stun and attack timers |
| CharactersFixedStep.Character.DeathFlash | IntoTheDeepWithoutSound/character.py:182-191 | the flash step and the value `death_flash` returns |
| CharactersFixedStep.Character.UpdateSprite | IntoTheDeepWithoutSound/character.py:193-223 | death, the hit cooldown, the run or idle action and the 80 ms frame clock |
| CharactersFixedStep.Character.Animate | IntoTheDeepWithoutSound/character.py:217-223 | the 80 ms frame clock |
| CharactersFixedStep.AiDeadOnlyScrolls | IntoTheDeepWithoutSound/character.py:118-123 | a dead enemy is carried by the scroll, and nothing else changes |
| CharactersFixedStep.HeadingIsFixedStep | IntoTheDeepWithoutSound/character.py:136-144 | each axis steps by −speed, 0 or +speed, with the sign of the centre difference; there is no step within RANGE or with a clipped sight line |
| CharactersFixedStep.StunnedStaysPut | IntoTheDeepWithoutSound/character.py:146-155 | a stunned enemy neither moves nor attacks |
| CharactersFixedStep.AttackIff | IntoTheDeepWithoutSound/character.py:150-155 | the strike happens iff the enemy is alive and unstunned, has a clear sight line, is closer than ATTACK_RANGE (with no lower bound), has no attack pending, and the player is not hit; it lowers the player's health and marks the player hit |
| CharactersFixedStep.FireballIff | IntoTheDeepWithoutSound/character.py:157-161 | a fireball spawns iff a living, unstunned boss with a clear sight line is between 50 and 500 away and its last attack is more than 1250 ms ago (a strike this call counts as one); the attack clock restarts |
| CharactersFixedStep.AttackClears | IntoTheDeepWithoutSound/character.py:164-178 | an attack is pending only within the per-type cooldown, and a stun only within 70 ms |
| CharactersFixedStep.DeathFlashReturnsOneWhenSpent | IntoTheDeepWithoutSound/character.py:182-191 | the counter is bounded by 15 and monotone by steps of at most one; the value returned is the counter below 15 and 1 once spent |
| CharactersFixedStep.UpdateSpriteFacts | IntoTheDeepWithoutSound/character.py:193-223 | death is sticky and clamps health to 0; the player's hit flag clears exactly after 400 ms; the action is run iff the character is running |
| CharactersFixedStep.UpdateSpriteKeepsFrameValid | IntoTheDeepWithoutSound/character.py:207-223 | the frame index stays a valid index |
| CharactersFixedStep.DeathIsPermanent | IntoTheDeepWithoutSound/character.py:193-198 | nothing makes a dead character alive |
| Weapons.Travel | weapon.py:80-81 | a projectile keeps its size and moves in the direction of its velocity |
| Weapons.HitsObstacle | weapon.py:90-93 | the obstacle scan answers true iff some obstacle overlaps |
| Weapons.OneArrowPerPress | weapon.py:31-37 | however long the button is held, at most one arrow leaves, and none when this press already fired |
| Weapons.TriggerFacts | weapon.py:19-39 | the bow fires iff it is pressed, not yet fired this press, and more than 450 ms past the last shot. Firing restarts the cooldown, a release re-arms it, and the bow sits on the player's centre |
| Weapons.Weapon.constructor | weapon.py:10-17 | an unfired bow with its cooldown started at `now` |
| Weapons.Weapon.Update | weapon.py:19-39 | the bow's new state follows the trigger rule, and an arrow centred on the bow, as large as the arrow image rotated to this shot's aim, is returned iff it fires |
| Weapons.FirstHitFrom | weapon.py:96-103 | the first living enemy the arrow overlaps, or none if there is no such enemy |
| Weapons.ArrowStep | weapon.py:60-105 | a reported victim is an index into the enemy list |
| Weapons.ArrowStepSplit | weapon.py:60-105 | the arrow's own flight does not depend on the enemies: the step either ends before the scan as with no enemy, or scans them from the flown rectangle |
| Weapons.Targets | weapon.py:96-97 | the life and rectangle of each enemy, in order |
| Weapons.FindTarget | weapon.py:96-103 | the enemy scan stops at the first living enemy the arrow overlaps |
| Weapons.Arrow.constructor | weapon.py:47-58 | an unlatched arrow whose rectangle is the rotated image's, centred on the bow, with counter 0 |
| Weapons.Arrow.Fly | weapon.py:65-93 | the arrow's own part of the update, and whether it is still in flight |
| Weapons.Arrow.Update | weapon.py:60-105 | the arrow follows the arrow step. At most the hit enemy loses the damage and is marked hit, every other enemy is unchanged, and the damage position is the victim's rectangle |
| Weapons.LatchedArrowOnlyCounts | weapon.py:71-77 | a latched arrow only drifts with the scroll and counts: it does not fly, hit or get removed |
| Weapons.LingeringArrowIsRemoved | weapon.py:66-68 | an arrow whose counter reached 120 is removed before the scroll, with no damage |
| Weapons.LatchedArrowLingers | weapon.py:66-77 | a latched arrow is still there, latched, after 120 − counter more updates |
| Weapons.OffScreenArrowIsRemoved | weapon.py:84-87 | an arrow that flies off screen is removed with damage 0 |
| Weapons.WallLatchesArrow | weapon.py:90-93 | an arrow that flies into a wall latches with damage 0 and touches no enemy |
| Weapons.ArrowWoundsFirstLivingEnemy | weapon.py:96-105 | damage is non-zero iff an enemy was hit; that enemy is the first living one overlapping, the damage is 13..17, and the arrow is removed |
| Weapons.Fireball.constructor | weapon.py:113-126 | an unlatched fireball centred on the boss with counter 0 |
| Weapons.Fireball.Update | weapon.py:128-164 | the fireball follows the fireball step, and the player is burnt (5 health, hit) exactly when the step says so |
| Weapons.FireballBurnsOnlyUnhitPlayer | weapon.py:134-144 | a fireball burns the player iff its counter is below 500, the player is not hit and overlaps it after the scroll; a burning fireball is removed, even when latched |
| Weapons.FireballWallBeforeCull | weapon.py:156-164 | a fireball that flies into a wall latches even when it also left the screen |
| Weapons.OldFireballIsRemoved | weapon.py:134-136 | a fireball whose counter reached 500 is removed without burning anyone |
| Items.Collect | items.py:26-33 | a coin adds exactly one to the score; a potion adds 25 health, clamped at 100; another type changes nothing |
| Items.Item.constructor | items.py:4-13 | the first frame's rectangle centred on (x, y), frame 0, clock at `now` |
| Items.Item.Update | items.py:15-48 | item and player become the item step's result, and the frame stays valid |
| Items.Item.Drift | items.py:17-19 | the scroll shift, skipped for the dummy coin |
| Items.Item.Take | items.py:22-36 | collection on overlap |
| Items.Item.Tick | items.py:39-48 | the 150 ms frame clock |
| Items.ItemDriftsWithScroll | items.py:17-19 | a non-dummy item moves by exactly the scroll; a dummy coin never moves |
| Items.CollectionFacts | items.py:22-36 | collection happens iff the item overlaps the player after the shift and is not the dummy coin; it applies `Collect` and removes the item; otherwise the player is unchanged and the item stays |
| Items.PotionClamps | items.py:29-32 | from health at most 100, a potion gives min(health + 25, 100) |
| Items.FrameStaysValid | items.py:43-48 | the frame index stays in [0, number of frames) |
| WorldMap.CellTile | IntoTheDeepWithSound/world.py:18-23 | cell (x, y) is placed at (x·TILE_SIZE, y·TILE_SIZE), centred there; spawn cells are drawn with tile image 0 |
| WorldMap.ShiftTile | IntoTheDeepWithSound/world.py:60-62 | the coordinates move by exactly the scroll, and the rectangle keeps its size and is re-centred |
| WorldMap.RowCells | IntoTheDeepWithSound/world.py:17 | the cells of a row, left to right |
| WorldMap.CellsAreRowMajor | IntoTheDeepWithSound/world.py:16-17 | the cell list has every cell of the grid with its id, in strictly increasing row-major order |
| WorldMap.PlaceAllAppend | IntoTheDeepWithSound/world.py:16-56 | placing a concatenation places one part after the other |
| WorldMap.PlaceRowIsPlaceAll | IntoTheDeepWithSound/world.py:17-56 | placing a row cell by cell is placing its cells |
| WorldMap.PlaceRowsIsPlaceAll | IntoTheDeepWithSound/world.py:16-56 | the nested loops place the grid's cells in row-major order |
| WorldMap.PlaceAllTiles | IntoTheDeepWithSound/world.py:26-28 | every cell with id ≥ 0 is appended to the map tiles in order, and −1 cells are skipped; the obstacles are exactly the id-7 cells |
| WorldMap.WallsAreMapTiles | IntoTheDeepWithSound/world.py:26-28 | every obstacle record is also a map record |
| WorldMap.ExitIsLastLadder | IntoTheDeepWithSound/world.py:29-31 | the exit is the last id-8 cell in row-major order; without one it is unchanged |
| WorldMap.PlayerIsLastPlayerCell | IntoTheDeepWithSound/world.py:37-41 | the player is spawned at the last id-11 cell with health 100, type 0, not a boss, size 1 |
| WorldMap.SpawnsAreWellFormed | IntoTheDeepWithSound/world.py:32-52 | there is one item per id-9 or id-10 cell, of type id − 9, and one enemy per id-12..17 cell. Ids 12..16 have type id − 11, the health table's entry and size 1; id 17 has type 6, health 400 and size 2 |
| WorldMap.Tile.constructor | IntoTheDeepWithSound/world.py:23 | the tile record holds the given state |
| WorldMap.Tile.Shift | IntoTheDeepWithSound/world.py:60-62 | one tile of `update` |
| WorldMap.States | IntoTheDeepWithSound/world.py:59 | the states of the tiles, in order |
| WorldMap.World.constructor | IntoTheDeepWithSound/world.py:6-12 | every list is empty, and there is no exit and no player |
| WorldMap.World.ProcessData | IntoTheDeepWithSound/world.py:14-56 | the lists become the row-major placement of the grid, and every obstacle record is a map record |
| WorldMap.World.ProcessRow | IntoTheDeepWithSound/world.py:17-56 | the cells of one row, left to right |
| WorldMap.World.PlaceCell | IntoTheDeepWithSound/world.py:18-56 | one cell: a new record, classified by its id, then appended to the map if non-blank |
| WorldMap.World.AddTile | IntoTheDeepWithSound/world.py:55-56 | the map list grows by the record |
| WorldMap.World.Classify | IntoTheDeepWithSound/world.py:26-52 | the branches on the tile id |
| WorldMap.World.AddObstacle | IntoTheDeepWithSound/world.py:26-28 | the obstacle list grows by the same record |
| WorldMap.World.SetExit | IntoTheDeepWithSound/world.py:29-31 | the exit becomes the record |
| WorldMap.World.AddItem | IntoTheDeepWithSound/world.py:32-35 | the item list grows by the spawn |
| WorldMap.World.SetPlayer | IntoTheDeepWithSound/world.py:37-40 | the player becomes the spawn |
| WorldMap.World.AddCharacter | IntoTheDeepWithSound/world.py:42-51 | the enemy list grows by the spawn |
| WorldMap.World.Update | IntoTheDeepWithSound/world.py:58-62 | every map record, hence every obstacle and the exit, moves by exactly the scroll; the lists are unchanged |
| Hud.CalcHealth | main.py:392-402 | the search loop with its early return computes the bar level (the same code is at IntoTheDeepWithSound/main.py:197-207) |
| Hud.LevelFromIsLeast | main.py:399-402 | the search returns the least level from x on whose bound the health does not exceed, or 12 |
| Hud.HealthLevelIsLeast | main.py:392-402 | the level is 0 for a dead enemy and otherwise in 0..12 (< HEALTH_BAR_TYPES), the least level whose bound the health does not exceed |
| Hud.HealthLevelMonotone | main.py:395-402 | for a fixed type, more health never gives a lower level |
| Hud.HeartsFrom | main.py:418-427 | the rest of the row has one heart per remaining slot |
| Hud.SelectHearts | main.py:417-427 | the heart loop with its half-heart flag computes the heart row (the same code is at IntoTheDeepWithSound/main.py:222-232) |
| Hud.HeartsFromShape | main.py:418-427 | from heart i on, each heart is full iff health reaches its threshold, with at most one half heart |
| Hud.HeartRowShape | main.py:417-427 | there are five hearts, and heart i is full iff health ≥ (i+1)·20. For health ≥ 0 there are exactly min(5, health div 20) full hearts; there is at most one half heart, and all are empty when health ≤ 0 |
| Hud.HealthBar.constructor | main.py:513-525 | a bar of the level's image (twice as wide for a boss) centred on (x, y), with counter 0 |
| Hud.HealthBar.Update | main.py:527-535 | the scroll shift, the count, and removal from the second update on |
| Hud.HealthBarLivesTwoUpdates | main.py:527-535 | a new bar survives its first update and is removed on its second, moved by both scrolls (same code at IntoTheDeepWithSound/main.py:292-300) |
| Hud.DamageText.constructor | main.py:539-544 | the text centred on (x, y), with counter 0 |
| Hud.DamageText.Update | main.py:546-557 | the scroll shift, one pixel up, the count, and removal past 35 |
| Hud.TextRunMoves | main.py:546-557 | after n updates the text has moved by the sum of the scrolls plus n pixels up, and its counter is n |
| Hud.DamageTextLivesThirtySixUpdates | main.py:555-557 | a new text is still shown after 35 updates and is removed on its 36th (same code at IntoTheDeepWithSound/main.py:311-322) |
| Hud.ScreenFade.constructor | main.py:480-484 | the fade's type and speed, with counter 0 |
| Hud.ScreenFade.Fade | main.py:486-509 | the counter grows by the speed, and completion is type 1 at ≥ max(W, H) or type 2 at ≥ H (same code at IntoTheDeepWithSound/main.py:251-274) |
| Hud.FadeCompletesAtThreshold | main.py:488-509 | after n calls at positive speed, type 1 is complete iff n·speed ≥ 1280, type 2 iff n·speed ≥ 720, and any other type never |
| Hud.FadeStaysComplete | main.py:493-507 | at non-negative speed a complete fade stays complete |
| SpriteGroups.Without | main.py:630 | `kill()` takes exactly that sprite out of the group |
| SpriteGroups.WithoutAbsent | main.py:630 | killing a sprite that is not in the group changes nothing |
| SpriteGroups.WithoutSplit | main.py:630 | killing a sprite listed once drops exactly that occurrence |
| SpriteGroups.Group.constructor | main.py:624 | an empty group |
| SpriteGroups.Group.Kill | main.py:630 | the group loses the sprite |
| SpriteGroups.LimitSpriteGroup | main.py:624-630 | a group of at most max sprites is unchanged; otherwise exactly the newest max remain, in order |
| SpriteGroups.CleanupOffscreenSprites | main.py:633-640 | the group keeps exactly its sprites without a rectangle or overlapping the screen grown by the margin, in order |
| SpriteGroups.CleanupStep | main.py:638-640 | one pass of the loop keeps sprite i or takes out just that sprite |
| SpriteGroups.KeepOnScreenMembers | main.py:638-640 | a sprite is kept iff it was in the group and is on the grown screen |
| SpriteGroups.KeepOnScreenIdempotent | main.py:633-640 | cleaning up twice removes nothing more than cleaning up once |
| SpriteGroups.KeepOnScreenIsSubsequence | main.py:633-640 | the kept sprites are a subsequence of the group: no more sprites, same relative order |
| SpriteGroups.KeptPositionsFacts | main.py:633-640 | each kept sprite sits at its recorded position in the group, and the positions increase |
| SpriteGroups.KeptPositionsFit | main.py:633-640 | there are no more kept positions than sprites |
| MainLoop.FrameCounterSaturates | main.py:739-740 | from a reset to 0, the counter after n frames is min(n, 11) |
| MainLoop.ArrowsFromNinthFrame | main.py:795 | after the counter's reset, an arrow joins the group iff at least 9 frames of play have passed |
| MainLoop.UpdateEnemy | main.py:771-789 | one enemy's turn: `ai` and the bar for a living enemy, the death flash, an even-counter empty bar and the removal flag for a dead one |
| MainLoop.RemoveFirstSplit | main.py:788-789 | `list.remove` of an element not among the first ones removes it from the rest |
| MainLoop.StatesOf | main.py:770-771 | the states of the enemies, in order |
| MainLoop.ExpiryFlags | main.py:783-789 | each enemy's flag is set iff it is dead and its flash returns at least 15 this frame |
| MainLoop.Game.Tick | main.py:739-740 | the counter grows by one while at most 10 |
| MainLoop.Game.AdmitArrow | main.py:795 | an arrow is admitted iff there is one and the counter exceeds 8 |
| MainLoop.Game.UpdateEnemies | main.py:768-790 | the enemy list loses exactly the enemies whose flash was spent this frame, keeping the others in order; the fireball and bar lists only grow; every enemy stays valid |
| MainLoop.Game.Pass | main.py:770-789 | the loop over the copy of the list leaves exactly the enemies whose flash is not spent, in order, every enemy still valid, and the fireball and bar lists only grown |
| MainLoop.Game.Visit | main.py:771-789 | the i-th turn of the pass keeps the list as the kept prefix plus the unvisited rest; enemy and player take the states of `EnemyTurn`, and its fireball and bar, if any, are appended |
| MainLoop.Game.Play | main.py:772-786 | enemy and player take the states of `EnemyTurn` (`ai` and `update_sprite`, or the death flash), the fireball and bar it produces are appended to their groups, and the removal flag is set iff the enemy's flash was spent |
| MainLoop.Game.Drop | main.py:787-789 | the list keeps its kept prefix and unvisited rest after the removal |
| MainLoop.PassStep | main.py:787-789 | the i-th enemy is still listed when its turn comes, and its removal takes out just that one |
| MainLoop.KeptUpToIsKept | main.py:770-789 | the enemies kept after the first n turns are those the first n enemies keep |
| MainLoop.KeptUpToAll | main.py:770-789 | after the last turn the list is exactly the kept enemies, with nothing left to visit |
| MainLoop.KeptUpToNone | main.py:770 | before the first turn the list is the whole copy |
| MainLoop.NotKeptAgain | main.py:770-789 | a listed enemy is not among the kept ones before it |
| MainLoop.KeptFacts | main.py:787-789 | the kept enemies are those not flagged, each once, and no flagged enemy remains |
| MainLoop.KeptAreListed | main.py:787-789 | every kept enemy was in the list |
| MainLoop.UnflaggedAreKept | main.py:787-789 | every enemy whose flash is not spent is kept |
| MainLoop.KeptAreDistinct | main.py:787-789 | keeping some enemies of a list without repeats gives a list without repeats |
| MainLoop.DistinctSnoc | main.py:787-789 | appending an element not yet listed keeps a list without repeats |
| MainLoop.FlaggedAreDropped | main.py:787-789 | in a list without repeats, an enemy whose flash is spent is not kept |
| MainLoop.PassKeepsValid | main.py:768-790 | the enemies the pass keeps are listed once each, without the player, and valid |
| MainLoop.LivingEnemyStays | main.py:772-780 | a living enemy's turn never removes it and always shows a bar of level 0..12, and the player is left as `ai` left it |
| MainLoop.DeadEnemyOnlyFlashes | main.py:781-789 | a dead enemy's turn leaves the player alone, spawns no fireball and does not move it; it is removed iff its flash counter is 15, and its bar is empty |
| MainLoopWithSound.ArrowsFromEighthFrame | IntoTheDeepWithSound/main.py:472-474 | after the counter's reset, an arrow joins the group iff at least 8 frames of play have passed |
| MainLoopWithSound.GatesDifferOnlyOnEighthFrame | IntoTheDeepWithSound/main.py:473 | the `>= 8` gate and `main.py`'s `> 8` gate disagree only on the 8th frame of play |
| MainLoopWithSound.UpdateEnemy | IntoTheDeepWithSound/main.py:458-471 | one enemy's turn: `ai` on every enemy, living or dead, then `update_sprite`, then a bar for a living enemy or the death flash and an even-counter empty bar for a dead one |
| MainLoopWithSound.DeadFlags | IntoTheDeepWithSound/main.py:463-467 | each enemy's flag is set iff it is dead |
| MainLoopWithSound.Game.Tick | IntoTheDeepWithSound/main.py:437-438 | the counter grows by one while at most 10 |
| MainLoopWithSound.Game.AdmitArrow | IntoTheDeepWithSound/main.py:472-474 | an arrow is admitted iff there is one and the counter is at least 8 |
| MainLoopWithSound.Game.UpdateEnemies | IntoTheDeepWithSound/main.py:458-471 | no enemy is removed: the list is not even in the frame. Every enemy stays valid, an enemy dead at the start stays dead, and fireballs and bars grow by at most one each per enemy |
| MainLoopWithSound.Game.Visit | IntoTheDeepWithSound/main.py:458-471 | the i-th enemy and the player take the states of the with-sound `EnemyTurn`, its fireball and bar are appended, and the pass's invariants are kept |
| MainLoopWithSound.Game.Play | IntoTheDeepWithSound/main.py:459-471 | enemy and player take the states of the with-sound `EnemyTurn` (`ai`, `update_sprite`, then the bar or the flash), its fireball and bar are appended, the enemy stays valid and a dead enemy stays dead |
| MainLoopWithSound.StaysDead | IntoTheDeepWithSound/main.py:458-471 | a dead enemy stays dead through its turn |
| MainLoopWithSound.DeadEnemyIsInert | IntoTheDeepWithSound/main.py:459-462 | `ai` on a dead enemy leaves the player alone, spawns no fireball and, with the root `character.py` standing in for the missing with-sound one, does not move it |
| MainLoopWithSound.DeadEnemyKeepsFlashing | IntoTheDeepWithSound/main.py:467-471 | a dead enemy's every turn advances its death flash, and any bar shown is empty |
| MainLoopWithSound.DeathFlashStartsSameFrame | IntoTheDeepWithSound/main.py:462-468 | an enemy found dead by `update_sprite` starts its flash in the same turn, while `main.py`'s loop only shows it an empty bar then |
| MainLoopWithSound.SpawnState | IntoTheDeepWithSound/world.py:39-50 | a spawned character is alive, with the spawn's health, score 0, flash 0, unhit, and the spawn rectangle |
| MainLoopWithSound.SpawnCharacter | IntoTheDeepWithSound/world.py:39-50 | a fresh, valid character built from a spawn record |
| MainLoopWithSound.SpawnEnemies | IntoTheDeepWithSound/world.py:42-52 | one fresh, distinct, valid enemy per spawn record, each with that record's state, type and boss flag |
| MainLoopWithSound.PlayerSpawnShape | IntoTheDeepWithSound/world.py:37-41 | a player spawn is type 0 with health 100, not a boss, size 1 |
| MainLoopWithSound.LoadedSpawnsOk | IntoTheDeepWithSound/world.py:14-56 | the spawns of a loaded level are all well formed |
| MainLoopWithSound.SpawnPlayer | IntoTheDeepWithSound/main.py:185-187 | the player is built from the spawn, carrying the given health and score |
| MainLoopWithSound.LoadLevel | IntoTheDeepWithSound/main.py:172-194 | the world is the placement of the grid. The player carries the given health and score; the enemies are distinct, do not include the player, and each matches its spawn. The score coin sits at (W − 115, 23) |
| MainLoopWithSound.CompleteLevel | IntoTheDeepWithSound/main.py:505-511 | the level number grows by exactly one, and the new player is alive with the old player's health and score |

## Left out

- `sound_manager.py` and `IntoTheDeepWithSound/button.py` are not part of this model. The first is a sound thread with a queue; the second is mouse polling and a blit.
- Drawing is not modelled: every `draw` method, `pygame.transform`, `screen.blit`, the fade's rectangles, `draw_text`, and the draw half of `draw_info`. These are rendering.
- Asset loading, the CSV level read, `find_relative_path`, the JSON save and load, and the memory and performance tracking of `main.py` are not modelled. They are I/O and wall-clock timing.
- Event polling, the menus, the pause branch and the restart button are not modelled: they are user input. The movement keys and mouse button are boolean inputs.
- Floating point: the `atan2`, `cos` and `sin` projectile velocities are given integers. Normalised steering (the `sqrt` of `character.py:140-152`) is a parameter `steer`. Distances are compared squared. √2⁄2 is the fixed-point 0.7071.
- `Rect.clipline` (pygame's segment clipping) is a parameter `clip`. The model does not know which segments it clips.
- Randomness: `random.randint` and `random.choice` are parameters constrained to their ranges.
- The clock: one `now` per call stands for every `get_ticks()` in that call.
- Images: an image's size is an input, and an animation is its number of frames. An arrow's rectangle is the size of its image rotated by `angle - 90`, given with each shot; the rotation itself is not modelled.
- `WorldMap`: `process_data` records the characters and items it creates as their constructor arguments. `MainLoopWithSound.LoadLevel` then builds the characters from them.
- `IntoTheDeepWithSound/character.py` and `IntoTheDeepWithSound/items.py` are not part of this model. The with-sound loop runs over the root `character.py` and `items.py` (the files the root `main.py` imports) as a stand-in for them. What it concludes about `ai` depends on that stand-in: `MainLoopWithSound.DeadEnemyIsInert`'s "does not move it" holds because the root `ai` returns early for a dead enemy, whereas `IntoTheDeepWithoutSound/character.py:118-123` would carry it with the scroll. `IntoTheDeepWithSound/main.py:484` also passes two sound effects to `item_group.update`, which the root `Item.update` does not take; the model ignores them.
- MainLoopWithSound.LoadLevel: a level with no player cell gives a null player. The source would fail on `player.health`.
- Kinematics.Move: requires the exit tile when the mover is the player. A level without an id-8 cell leaves `world.exit_tile` as `None`, and the source then raises a TypeError on `exit_tile[1]` (character.py:88); that crash is not modelled. The same precondition sits on `Kinematics.MoveBody`, `Kinematics.MoveSetsFacingAndRunning`, `Characters.Character.Move` and `CharactersFixedStep.Character.Move`.
- WorldMap.World.ProcessData: requires every tile id to index the tile images (`WorldMap.IdsIndexImages`; negative ids count from the end, as Python's do). An id at or past the number of images, or below its negation, makes the source raise an IndexError at `tile_list[tile]` (IntoTheDeepWithSound/world.py:18); that crash is not modelled. The same precondition sits on `WorldMap.PlaceRows`, `WorldMap.PlaceRowsIsPlaceAll`, `MainLoopWithSound.LoadedSpawnsOk`, `MainLoopWithSound.LoadLevel` and `MainLoopWithSound.CompleteLevel`.
- MainLoop.Game.UpdateEnemies: each enemy's new state, the player's and the fireballs and bars appended are stated per turn (`Visit`, `Play`), not over the whole pass; the pass states which enemies stay listed and that the groups only grow.
- MainLoopWithSound.Game.UpdateEnemies: states validity, that the dead stay dead and how much the lists grow. Each enemy's full new state, the player's and the sprites appended are stated per turn (`Visit`, `Play`), not over the whole pass.
- Weapons.Fireball.Update: the player's `last_hit = True` is modelled as the number 1, which is what Python compares it as.
- Sprite groups are sequences in insertion order. A `kill()` inside a projectile's or item's update sets a `killed` flag, and `SpriteGroups.Group.Kill` is the removal from a group.
- The arrow and fireball groups' own update loops, and `item_group.update`, are not modelled as loops. Each member's update is modelled, and the groups are plain sequences.

## Findings

| source | as written | input that shows it | evidently intended | confidence | as-written member | corrected member |
|---|---|---|---|---|---|---|
| character.py:215-240 | `update_sprite` never clears the player's `hit` flag, and the enemy strike requires `not player.hit` (character.py:172) | a player with `hit == True`: no later `ai` call of any enemy can strike them, however much time passes | the player's hit flag clears 400 ms after the hit, as `IntoTheDeepWithoutSound/character.py:200-204` does | not executed | Characters.PlayerHitNeverClears | Characters.PlayerHitClearsAfterCooldown |
