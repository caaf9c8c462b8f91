/** The per-frame rules of the game loop in `IntoTheDeepWithSound/main.py`:
    the same frame counter, a bow gate one frame earlier, an enemy pass that
    keeps every enemy in the list (dead ones flash in place), and the level
    change, which rebuilds the world and carries the player's health and
    score into the next level. */
module MainLoopWithSound {
  import opened Wrappers
  import opened Geometry
  import opened Constants
  import opened CharacterKinds
  import opened Sight
  import C = Characters
  import Hud
  import M = MainLoop
  import W = WorldMap
  import Items

  /** `if arrow != None and frame_counter >= 8` */
  predicate ArrowAdmitted(hasArrow: bool, fc: int)
  {
    hasArrow && fc >= 8
  }

  /** After the counter's reset, an arrow is admitted from the 8th frame of play on. */
  lemma ArrowsFromEighthFrame(n: nat)
    ensures ArrowAdmitted(true, M.FrameTicks(0, n)) <==> n >= 8
  {
    M.FrameCounterSaturates(n);
  }

  /** The two games' bow gates disagree on exactly one frame: the 8th after the reset. */
  lemma GatesDifferOnlyOnEighthFrame(n: nat)
    ensures ArrowAdmitted(true, M.FrameTicks(0, n)) != M.ArrowAdmitted(true, M.FrameTicks(0, n)) <==> n == 8
  {
    M.FrameCounterSaturates(n);
  }

  /** What one enemy's turn of the enemy pass produces; nothing is removed. */
  datatype Turn = Turn(me: C.CharState, player: C.CharState, fireball: Option<Shot>, bar: Option<BarSpawn>)

  /** A health bar to spawn, as in the other game loop. */
  type BarSpawn = M.BarSpawn

  /** The loop body for one enemy: `ai` and `update_sprite` run on every
      enemy, living or dead. An enemy alive after `update_sprite` gets a
      bar of its `calc_health` level; one that is dead advances its death
      flash and shows an empty bar when the returned counter is even. */
  function EnemyTurn(k: Kind, s: C.CharState, p: C.CharState, obstacles: seq<Rect>, scroll: Vec,
                     clip: (Rect, Segment) -> Option<Segment>, steer: Vec -> Vec,
                     jitter: int, nudge: Vec, now: int): Turn
    requires |k.animLengths| == 2 && 0 <= s.anim.actionType < 2 && -6 < k.charType <= 6
  {
    C.AiKeepsLife(k, s, p, obstacles, scroll, clip, steer, jitter, nudge, now);
    AfterAi(k, C.AiStep(k, s, p, obstacles, scroll, clip, steer, jitter, nudge, now), now)
  }

  /** The turn once `ai` has returned `r`: `update_sprite`, then the bar or the flash. */
  function AfterAi(k: Kind, r: C.AiResult, now: int): Turn
    requires |k.animLengths| == 2 && 0 <= r.me.anim.actionType < 2 && -6 < k.charType <= 6
  {
    Settle(k, C.UpdateSpriteStep(k, r.me, now).0, r.player, r.fireball, now)
  }

  /** The rest of the turn after `update_sprite` has left the enemy in state `u`. */
  function Settle(k: Kind, u: C.CharState, p: C.CharState, fireball: Option<Shot>, now: int): Turn
    requires -6 < k.charType <= 6
  {
    if u.alive then
      Turn(u, p, fireball, Some(M.BarUnder(u.rect, Hud.HealthLevel(u.alive, k.charType, u.health), k.boss)))
    else
      var (d, counter) := C.DeathFlashStep(u, now);
      Turn(d, p, fireball, if counter % 2 == 0 then Some(M.BarUnder(d.rect, 0, k.boss)) else None)
  }

  /** One enemy's turn. */
  method UpdateEnemy(enemy: C.Character, player: C.Character, obstacles: seq<Rect>, scroll: Vec,
                     clip: (Rect, Segment) -> Option<Segment>, steer: Vec -> Vec,
                     jitter: int, nudge: Vec, now: int)
    returns (fireball: Option<Shot>, bar: Option<BarSpawn>)
    requires enemy != player && enemy.Valid() && 1 <= enemy.kind.charType <= 6
    requires -1 <= jitter <= 1 && nudge.x in {-1, 1} && nudge.y in {-1, 1}
    modifies enemy, player
    ensures Turn(enemy.State(), player.State(), fireball, bar) ==
            EnemyTurn(enemy.kind, old(enemy.State()), old(player.State()), obstacles, scroll, clip, steer, jitter, nudge, now)
    ensures enemy.Valid()
  {
    fireball := enemy.Ai(player, obstacles, scroll, clip, steer, jitter, nudge, now);
    var _ := enemy.UpdateSprite(now);
    if enemy.alive {
      var level := Hud.CalcHealth(enemy.alive, enemy.kind.charType, enemy.health);
      bar := Some(M.BarUnder(enemy.rect, level, enemy.kind.boss));
    } else {
      var counter := enemy.DeathFlash(now);
      bar := if counter % 2 == 0 then Some(M.BarUnder(enemy.rect, 0, enemy.kind.boss)) else None;
    }
  }

  /** Which of the states `S` are dead. */
  function DeadFlags(S: seq<C.CharState>): (r: seq<bool>)
    ensures |r| == |S| && forall j :: 0 <= j < |S| ==> (r[j] <==> !S[j].alive)
  {
    seq(|S|, j requires 0 <= j < |S| => !S[j].alive)
  }

  /** The state the enemy pass works on. */
  class Game {
    var frameCounter: int
    var enemyList: seq<C.Character>
    var fireballs: seq<Shot>
    var healthBars: seq<BarSpawn>

    /** Each enemy is listed once, is not the player, and is a valid enemy. */
    predicate Valid(player: C.Character)
      reads this, enemyList
    {
      M.Distinct(enemyList) && player !in enemyList &&
      forall e :: e in enemyList ==> e.Valid() && 1 <= e.kind.charType <= 6
    }

    /** The frame counter step at the top of a frame of play. */
    method Tick()
      modifies this`frameCounter
      ensures frameCounter == M.FrameTick(old(frameCounter))
    {
      if frameCounter <= 10 {
        frameCounter := frameCounter + 1;
      }
    }

    /** The bow step of a frame: the arrow `update_weapon` produced joins the group from the 8th frame on. */
    method AdmitArrow(hasArrow: bool) returns (added: bool)
      ensures added == ArrowAdmitted(hasArrow, frameCounter)
    {
      added := hasArrow && frameCounter >= 8;
    }

    /** The enemy pass, over the enemy list itself. `jitters[i]` and
        `nudges[i]` are the random draws of the i-th enemy's `ai`. No enemy
        is ever removed, every enemy stays valid, an enemy dead at the start
        of the pass is still dead at its end, and each enemy adds at most one
        fireball and one bar. */
    method UpdateEnemies(player: C.Character, obstacles: seq<Rect>, scroll: Vec,
                         clip: (Rect, Segment) -> Option<Segment>, steer: Vec -> Vec,
                         jitters: seq<int>, nudges: seq<Vec>, now: int)
      requires Valid(player)
      requires |jitters| == |enemyList| && |nudges| == |enemyList|
      requires forall i :: 0 <= i < |jitters| ==> -1 <= jitters[i] <= 1
      requires forall i :: 0 <= i < |nudges| ==> nudges[i].x in {-1, 1} && nudges[i].y in {-1, 1}
      modifies this`fireballs, this`healthBars, player, enemyList
      ensures Valid(player)
      ensures forall j :: 0 <= j < |enemyList| && !old(enemyList[j].alive) ==> !enemyList[j].alive
      ensures old(fireballs) <= fireballs && |fireballs| <= |old(fireballs)| + |enemyList|
      ensures old(healthBars) <= healthBars && |healthBars| <= |old(healthBars)| + |enemyList|
    {
      ghost var D := DeadFlags(M.StatesOf(enemyList));
      for i := 0 to |enemyList|
        invariant Valid(player)
        invariant forall j :: 0 <= j < |enemyList| && D[j] ==> !enemyList[j].alive
        invariant old(fireballs) <= fireballs && |fireballs| <= |old(fireballs)| + i
        invariant old(healthBars) <= healthBars && |healthBars| <= |old(healthBars)| + i
      {
        Visit(D, i, player, obstacles, scroll, clip, steer, jitters[i], nudges[i], now);
      }
    }

    /** The i-th enemy's turn within the pass: its fireball and bar join their groups. */
    method Visit(ghost D: seq<bool>, i: int, player: C.Character, obstacles: seq<Rect>, scroll: Vec,
                 clip: (Rect, Segment) -> Option<Segment>, steer: Vec -> Vec,
                 jitter: int, nudge: Vec, now: int)
      requires Valid(player) && 0 <= i < |enemyList| && |D| == |enemyList|
      requires forall j :: 0 <= j < |enemyList| && D[j] ==> !enemyList[j].alive
      requires -1 <= jitter <= 1 && nudge.x in {-1, 1} && nudge.y in {-1, 1}
      modifies this`fireballs, this`healthBars, enemyList[i], player
      ensures Valid(player)
      ensures forall j :: 0 <= j < |enemyList| && D[j] ==> !enemyList[j].alive
      ensures var t := EnemyTurn(enemyList[i].kind, old(enemyList[i].State()), old(player.State()), obstacles, scroll, clip, steer, jitter, nudge, now);
              enemyList[i].State() == t.me && player.State() == t.player &&
              fireballs == M.AddSome(old(fireballs), t.fireball) && healthBars == M.AddSome(old(healthBars), t.bar)
      ensures old(fireballs) <= fireballs && |fireballs| <= |old(fireballs)| + 1
      ensures old(healthBars) <= healthBars && |healthBars| <= |old(healthBars)| + 1
    {
      var enemy := enemyList[i];
      Play(enemy, player, obstacles, scroll, clip, steer, jitter, nudge, now);
    }

    /** The enemy's turn proper: enemy and player take the states of the
        turn, and its fireball and bar join their groups. */
    method Play(enemy: C.Character, player: C.Character, obstacles: seq<Rect>, scroll: Vec,
                clip: (Rect, Segment) -> Option<Segment>, steer: Vec -> Vec,
                jitter: int, nudge: Vec, now: int)
      requires enemy != player && enemy.Valid() && 1 <= enemy.kind.charType <= 6
      requires -1 <= jitter <= 1 && nudge.x in {-1, 1} && nudge.y in {-1, 1}
      modifies this`fireballs, this`healthBars, enemy, player
      ensures var t := EnemyTurn(enemy.kind, old(enemy.State()), old(player.State()), obstacles, scroll, clip, steer, jitter, nudge, now);
              enemy.State() == t.me && player.State() == t.player &&
              fireballs == M.AddSome(old(fireballs), t.fireball) && healthBars == M.AddSome(old(healthBars), t.bar)
      ensures enemy.Valid() && (!old(enemy.alive) ==> !enemy.alive)
      ensures old(fireballs) <= fireballs && |fireballs| <= |old(fireballs)| + 1
      ensures old(healthBars) <= healthBars && |healthBars| <= |old(healthBars)| + 1
    {
      ghost var s := enemy.State();
      var fireball, bar := UpdateEnemy(enemy, player, obstacles, scroll, clip, steer, jitter, nudge, now);
      StaysDead(enemy.kind, s, old(player.State()), obstacles, scroll, clip, steer, jitter, nudge, now);
      fireballs := M.AddSome(fireballs, fireball);
      healthBars := M.AddSome(healthBars, bar);
    }
  }

  /** A dead enemy stays dead through its turn. */
  lemma StaysDead(k: Kind, s: C.CharState, p: C.CharState, obstacles: seq<Rect>, scroll: Vec,
                  clip: (Rect, Segment) -> Option<Segment>, steer: Vec -> Vec,
                  jitter: int, nudge: Vec, now: int)
    requires |k.animLengths| == 2 && 0 <= s.anim.actionType < 2 && -6 < k.charType <= 6
    ensures !s.alive ==> !EnemyTurn(k, s, p, obstacles, scroll, clip, steer, jitter, nudge, now).me.alive
  {
    if !s.alive {
      C.AiDeadIsNoop(k, s, p, obstacles, scroll, clip, steer, jitter, nudge, now);
    }
  }

  /** A dead enemy (whose health `update_sprite` set to 0 when it died, and
      which arrows can only lower) is untouched by `ai`: its turn leaves the
      player alone, spawns no fireball and does not move it, and it stays dead.
      That it does not move is a property of the root `character.py`, whose
      `ai` returns before the scroll for a dead enemy; the fixed-step variant
      would carry it with the scroll (`CharactersFixedStep.AiDeadOnlyScrolls`). */
  lemma DeadEnemyIsInert(k: Kind, s: C.CharState, p: C.CharState, obstacles: seq<Rect>, scroll: Vec,
                         clip: (Rect, Segment) -> Option<Segment>, steer: Vec -> Vec,
                         jitter: int, nudge: Vec, now: int)
    requires |k.animLengths| == 2 && 0 <= s.anim.actionType < 2 && -6 < k.charType <= 6
    requires !s.alive && s.health <= 0
    ensures var t := EnemyTurn(k, s, p, obstacles, scroll, clip, steer, jitter, nudge, now);
            t.player == p && t.fireball.None? && t.me.rect == s.rect && !t.me.alive
  {
    C.AiDeadIsNoop(k, s, p, obstacles, scroll, clip, steer, jitter, nudge, now);
  }

  /** A dead enemy is never removed: every turn advances its death flash
      and shows only empty bars, frame after frame. */
  lemma DeadEnemyKeepsFlashing(k: Kind, s: C.CharState, p: C.CharState, obstacles: seq<Rect>, scroll: Vec,
                               clip: (Rect, Segment) -> Option<Segment>, steer: Vec -> Vec,
                               jitter: int, nudge: Vec, now: int)
    requires |k.animLengths| == 2 && 0 <= s.anim.actionType < 2 && -6 < k.charType <= 6
    requires !s.alive && s.health <= 0
    ensures var t := EnemyTurn(k, s, p, obstacles, scroll, clip, steer, jitter, nudge, now);
            t.me.deathCounter == C.DeathFlashStep(s, now).0.deathCounter &&
            (t.bar.Some? ==> t.bar.value.level == 0)
  {
    C.AiDeadIsNoop(k, s, p, obstacles, scroll, clip, steer, jitter, nudge, now);
  }

  /** An enemy that enters its turn alive with no health left is found dead
      by `update_sprite` and starts its death flash in the same turn;
      `main.py`'s loop only shows it an empty bar in that frame and starts
      the flash in the next one. */
  lemma DeathFlashStartsSameFrame(k: Kind, s: C.CharState, p: C.CharState, obstacles: seq<Rect>, scroll: Vec,
                                  clip: (Rect, Segment) -> Option<Segment>, steer: Vec -> Vec,
                                  jitter: int, nudge: Vec, now: int)
    requires |k.animLengths| == 2 && 0 <= s.anim.actionType < 2 && -6 < k.charType <= 6
    requires s.alive && s.health <= 0 && 0 <= s.deathCounter < 15 && now - s.deathUpdateTime > 60
    ensures var t := EnemyTurn(k, s, p, obstacles, scroll, clip, steer, jitter, nudge, now);
            !t.me.alive && t.me.health == 0 && t.me.deathCounter == s.deathCounter + 1 && t.me.deathUpdateTime == now
    ensures var t := M.EnemyTurn(k, s, p, obstacles, scroll, clip, steer, jitter, nudge, now);
            !t.me.alive && t.me.deathCounter == s.deathCounter && !t.remove &&
            t.bar.Some? && t.bar.value.level == 0
  {
    C.AiKeepsLife(k, s, p, obstacles, scroll, clip, steer, jitter, nudge, now);
  }

  /** The animation lengths of each character type, 0 (the player) to 6 (the boss), each with two actions of at least one frame. */
  predicate AnimsOk(mobAnims: seq<seq<int>>)
  {
    |mobAnims| == 7 &&
    forall t :: 0 <= t < 7 ==> |mobAnims[t]| == 2 && mobAnims[t][0] > 0 && mobAnims[t][1] > 0
  }

  /** A spawn record `Character` can be built from. */
  predicate Spawnable(sp: W.CharSpawn)
  {
    0 <= sp.charType <= 6 && sp.size >= 1
  }

  /** The state of a character fresh from `Character(x, y, health, ..., char_type, boss, size)` at time `now`. */
  function SpawnState(sp: W.CharSpawn, now: int): (s: C.CharState)
    requires sp.size >= 1
    ensures s.alive && s.health == sp.health && s.score == 0 && s.deathCounter == 0 && !s.hit
    ensures s.rect == SpawnRect(sp.x, sp.y, sp.size)
  {
    C.CharState(0, sp.health, true, false, now, false, now, false, Vec(sp.x, sp.y), 0, 0, now,
                false, false, Anim(0, 0, now), SpawnRect(sp.x, sp.y, sp.size))
  }

  /** The character a spawn record stands for. */
  method SpawnCharacter(sp: W.CharSpawn, mobAnims: seq<seq<int>>, now: int) returns (c: C.Character)
    requires Spawnable(sp) && AnimsOk(mobAnims)
    ensures fresh(c) && c.Valid()
    ensures c.kind == MakeKind(sp.charType, sp.boss, sp.size, mobAnims[sp.charType])
    ensures c.State() == SpawnState(sp, now)
  {
    c := new C.Character(sp.x, sp.y, sp.health, mobAnims[sp.charType], sp.charType, sp.boss, sp.size, now);
  }

  /** The enemies of `character_list`, built in order. */
  method SpawnEnemies(spawns: seq<W.CharSpawn>, mobAnims: seq<seq<int>>, now: int) returns (enemies: seq<C.Character>)
    requires AnimsOk(mobAnims)
    requires forall k :: 0 <= k < |spawns| ==> W.EnemySpawnOk(spawns[k])
    ensures |enemies| == |spawns| && M.Distinct(enemies)
    ensures forall k :: 0 <= k < |spawns| ==>
              W.EnemySpawnOk(spawns[k]) && fresh(enemies[k]) && enemies[k].Valid() && enemies[k].State() == SpawnState(spawns[k], now) &&
              enemies[k].kind.charType == spawns[k].charType && enemies[k].kind.boss == spawns[k].boss
  {
    enemies := [];
    for k := 0 to |spawns|
      invariant |enemies| == k && M.Distinct(enemies)
      invariant forall j :: 0 <= j < k ==>
                  fresh(enemies[j]) && enemies[j].Valid() && enemies[j].State() == SpawnState(spawns[j], now) &&
                  enemies[j].kind.charType == spawns[j].charType && enemies[j].kind.boss == spawns[j].boss
    {
      var e := SpawnCharacter(spawns[k], mobAnims, now);
      enemies := enemies + [e];
    }
  }

  /** A spawn record of the player: type 0, health 100, size 1, not a boss. */
  predicate PlayerSpawnOk(sp: W.CharSpawn)
  {
    sp.charType == 0 && sp.health == 100 && !sp.boss && sp.size == 1
  }

  /** `process_data` only ever records a player spawn of the player's shape. */
  lemma {:induction false} PlayerSpawnShape(l: W.Layout, images: seq<Rect>, cs: seq<W.Cell>)
    requires W.CellsIndexImages(cs, images)
    requires l.player.Some? ==> PlayerSpawnOk(l.player.value)
    ensures var r := W.PlaceAll(l, images, cs); r.player.Some? ==> PlayerSpawnOk(r.player.value)
  {
    if cs != [] {
      var cs' := cs[..|cs| - 1];
      assert W.CellsIndexImages(cs', images);
      PlayerSpawnShape(l, images, cs');
    }
  }

  /** The empty world of `World()`. */
  const EMPTY: W.Layout := W.Layout([], [], None, [], None, [])

  /** Every spawn of a freshly built world is one a character can be built from. */
  lemma LoadedSpawnsOk(images: seq<Rect>, data: seq<seq<int>>)
    requires W.IdsIndexImages(data, images)
    ensures var l := W.PlaceRows(EMPTY, images, data);
            (l.player.Some? ==> PlayerSpawnOk(l.player.value)) &&
            forall k :: 0 <= k < |l.enemies| ==> W.EnemySpawnOk(l.enemies[k])
  {
    W.PlaceRowsIsPlaceAll(EMPTY, images, data);
    W.SpawnsAreWellFormed(EMPTY, images, W.Cells(data));
    PlayerSpawnShape(EMPTY, images, W.Cells(data));
  }

  /** `load_level`: a new world is built from the level grid; its player
      takes the health and score carried over, its enemies become the
      enemy list, and the HUD's dummy coin is made. A grid without a player
      cell gives no player. */
  method LoadLevel(health: int, score: int, data: seq<seq<int>>, images: seq<Rect>, mobAnims: seq<seq<int>>,
                   coinFrames: int, coinW: nat, coinH: nat, now: int)
    returns (world: W.World, player: C.Character?, enemies: seq<C.Character>, scoreCoin: Items.Item)
    requires W.IdsIndexImages(data, images) && AnimsOk(mobAnims) && coinFrames > 0
    ensures fresh(world) && world.Valid() && world.Contents() == W.PlaceRows(EMPTY, images, data)
    ensures world.player.Some? ==> PlayerSpawnOk(world.player.value)
    ensures player == null <==> world.player.None?
    ensures player != null ==>
              fresh(player) && player.Valid() && player.kind == MakeKind(0, false, 1, mobAnims[0]) &&
              player.State() == SpawnState(world.player.value, now).(health := health, score := score)
    ensures |enemies| == |world.characterList| && M.Distinct(enemies) && player !in enemies
    ensures forall k :: 0 <= k < |enemies| ==>
              W.EnemySpawnOk(world.characterList[k]) &&
              fresh(enemies[k]) && enemies[k].Valid() && 1 <= enemies[k].kind.charType <= 6 &&
              enemies[k].State() == SpawnState(world.characterList[k], now)
    ensures fresh(scoreCoin) && scoreCoin.dummy && scoreCoin.itemType == Items.COIN
    ensures scoreCoin.State() == Items.ItemState(Rect(0, 0, coinW, coinH).WithCenter(SCREEN_WIDTH - 115, 23), 0, now, false)
  {
    world := new W.World();
    world.ProcessData(data, images);
    LoadedSpawnsOk(images, data);
    player := SpawnPlayer(world.player, health, score, mobAnims, now);
    enemies := SpawnEnemies(world.characterList, mobAnims, now);
    scoreCoin := new Items.Item(SCREEN_WIDTH - 115, 23, Items.COIN, coinFrames, coinW, coinH, true, now);
  }

  /** `player = world.player; player.health = health; player.score = score` */
  method SpawnPlayer(sp: Option<W.CharSpawn>, health: int, score: int, mobAnims: seq<seq<int>>, now: int)
    returns (player: C.Character?)
    requires AnimsOk(mobAnims) && (sp.Some? ==> PlayerSpawnOk(sp.value))
    ensures player == null <==> sp.None?
    ensures player != null ==>
              fresh(player) && player.Valid() && player.kind == MakeKind(0, false, 1, mobAnims[0]) &&
              player.State() == SpawnState(sp.value, now).(health := health, score := score)
  {
    if sp.Some? {
      player := SpawnCharacter(sp.value, mobAnims, now);
      player.health := health;
      player.score := score;
    } else {
      player := null;
    }
  }

  /** The level-complete step: the level number goes up by one and the
      next level is loaded with the player's current health and score. */
  method CompleteLevel(level: int, player: C.Character, data: seq<seq<int>>, images: seq<Rect>,
                       mobAnims: seq<seq<int>>, coinFrames: int, coinW: nat, coinH: nat, now: int)
    returns (level': int, world: W.World, player': C.Character?, enemies: seq<C.Character>, scoreCoin: Items.Item)
    requires W.IdsIndexImages(data, images) && AnimsOk(mobAnims) && coinFrames > 0
    ensures level' == level + 1
    ensures fresh(world) && world.Contents() == W.PlaceRows(EMPTY, images, data)
    ensures player' != null ==>
              fresh(player') && player'.alive && player'.health == player.health && player'.score == player.score
    ensures M.Distinct(enemies) && player' !in enemies
  {
    level' := level + 1;
    var health, score := player.health, player.score;
    world, player', enemies, scoreCoin := LoadLevel(health, score, data, images, mobAnims, coinFrames, coinW, coinH, now);
  }
}
