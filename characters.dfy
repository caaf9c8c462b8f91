/** `Character` of `character.py`: the enemy AI with normalised steering and
    stuck detection, the capped death flash, the sprite update that detects
    death, and the shared `move`. */
module Characters {
  import opened Wrappers
  import opened Geometry
  import opened Constants
  import opened Sight
  import opened CharacterKinds
  import K = Kinematics

  /** The mutable state of a character, as one value. */
  datatype CharState = CharState(
    score: int, health: int, alive: bool,
    hit: bool, lastHit: int, attacked: bool, lastAttack: int, stunned: bool,
    lastPos: Vec, stuckCounter: int,
    deathCounter: int, deathUpdateTime: int,
    flipper: bool, isRunning: bool, anim: Anim, rect: Rect)

  /** What one `ai` call leaves behind: the enemy, the player and the fireball it spawned, if any. */
  datatype AiResult = AiResult(me: CharState, player: CharState, fireball: Option<Shot>)

  /** A hit non-boss is stunned: its hit flag clears, the stun clock starts
      and it stops running and idles. */
  function StunStep(k: Kind, s: CharState, now: int): CharState
  {
    if s.hit && !k.boss then
      s.(hit := false, lastHit := now, stunned := true, isRunning := false,
         anim := SwitchAction(s.anim, 0, now))
    else s
  }

  /** The stun wears off after 70 ms, and `attacked` clears once the archetype's cooldown has passed. */
  function ExpireStep(k: Kind, s: CharState, now: int): CharState
  {
    var s1 := if now - s.lastHit > 70 then s.(stunned := false) else s;
    if s1.attacked && now - s1.lastAttack > k.attackCooldown then s1.(attacked := false) else s1
  }

  /** The stun and cooldown tail of `ai`, run on every call for a living enemy. */
  function RecoverStep(k: Kind, s: CharState, now: int): CharState
  {
    ExpireStep(k, StunStep(k, s, now), now)
  }

  /** The unstick velocity: a diagonal step of `ENEMY_SPEED` pixels in the direction `nudge` picked. */
  function Nudge(nudge: Vec): Vec
  {
    Vec(nudge.x * K.Pixels(ENEMY_SPEED), nudge.y * K.Pixels(ENEMY_SPEED))
  }

  /** Steering with stuck detection: the velocity toward `target`, unless the
      centre has not moved for more than 60 pursuit calls, in which case the
      enemy is nudged diagonally and the count restarts. */
  function SteerStep(s: CharState, target: Vec, steer: Vec -> Vec, nudge: Vec): (Vec, CharState)
  {
    var here := s.rect.Center();
    var steered := steer(Vec(target.x - here.x, target.y - here.y));
    var stuck := Abs(here.x - s.lastPos.x) < 1 && Abs(here.y - s.lastPos.y) < 1;
    var counter := if stuck then s.stuckCounter + 1 else 0;
    if stuck && counter > 60 then (Nudge(nudge), s.(stuckCounter := 0, lastPos := here))
    else (steered, s.(stuckCounter := counter, lastPos := here))
  }

  /** The melee strike: enemy and player after it. */
  function StrikeStep(k: Kind, s: CharState, p: CharState, d2: nat, wall: bool, jitter: int, now: int): (CharState, CharState)
  {
    if Closer(d2, ATTACK_RANGE) && !s.attacked && !p.hit && !wall then
      (s.(attacked := true, lastAttack := now),
       p.(health := p.health - (k.attackDamage + jitter), hit := true, lastHit := now))
    else (s, p)
  }

  /** A boss's fireball, aimed at `target`. */
  function ShootStep(k: Kind, s: CharState, target: Vec, d2: nat, wall: bool, now: int): (CharState, Option<Shot>)
  {
    if k.boss && Closer(d2, 400) && Farther(d2, 50) && now - s.lastAttack > 1000 && !wall && !s.attacked then
      (s.(lastAttack := now), Some(Shot(s.rect.Center(), target)))
    else (s, None)
  }

  /** The pursuit branch of `ai`: steer (or unstick), move, strike the player
      when close enough, and let a boss spawn a fireball. `d2` is the squared
      distance measured before the move. */
  function Chase(k: Kind, s: CharState, p: CharState, obstacles: seq<Rect>, steer: Vec -> Vec,
                 jitter: int, nudge: Vec, d2: nat, wall: bool, now: int): AiResult
  {
    Attack(k, Approach(s, p.rect.Center(), obstacles, steer, nudge), p, d2, wall, jitter, now)
  }

  /** The movement half of the pursuit: steer (or unstick) toward `target` and move. */
  function Approach(s: CharState, target: Vec, obstacles: seq<Rect>, steer: Vec -> Vec, nudge: Vec): (r: CharState)
    ensures SameLife(r, s) && r.hit == s.hit && r.stunned == s.stunned && r.lastHit == s.lastHit
    ensures r.attacked == s.attacked && r.lastAttack == s.lastAttack
  {
    var steering := SteerStep(s, target, steer, nudge);
    var v := steering.0;
    var m := K.Move(steering.1.rect, steering.1.flipper, v.x, v.y, obstacles, false, None, false);
    steering.1.(rect := m.rect, flipper := m.flipper, isRunning := m.isRunning)
  }

  /** The attack half of the pursuit: the melee strike, then a boss's fireball aimed at the player. */
  function Attack(k: Kind, s: CharState, p: CharState, d2: nat, wall: bool, jitter: int, now: int): AiResult
  {
    var struck := StrikeStep(k, s, p, d2, wall, jitter, now);
    var shot := ShootStep(k, struck.0, struck.1.rect.Center(), d2, wall, now);
    AiResult(shot.0, struck.1, shot.1)
  }

  /** The middle of `ai`, after the scroll shift: an unstunned enemy that
      sees the player and is farther than RANGE pursues. */
  function EngageStep(k: Kind, s: CharState, p: CharState, obstacles: seq<Rect>,
                      clip: (Rect, Segment) -> Option<Segment>, steer: Vec -> Vec,
                      jitter: int, nudge: Vec, now: int): AiResult
  {
    var wall := Blocked(obstacles, Segment(s.rect.Center(), p.rect.Center()), clip);
    var d2 := Dist2(s.rect.Center(), p.rect.Center());
    if !s.stunned && Farther(d2, RANGE) && !wall
    then Chase(k, s, p, obstacles, steer, jitter, nudge, d2, wall, now)
    else AiResult(s, p, None)
  }

  /** One call of `ai`. A dead enemy is left exactly as it was. */
  function AiStep(k: Kind, s: CharState, p: CharState, obstacles: seq<Rect>, scroll: Vec,
                  clip: (Rect, Segment) -> Option<Segment>, steer: Vec -> Vec,
                  jitter: int, nudge: Vec, now: int): AiResult
  {
    if !s.alive then AiResult(s, p, None)
    else
      var engaged := EngageStep(k, s.(rect := s.rect.ShiftBy(scroll)), p, obstacles, clip, steer, jitter, nudge, now);
      engaged.(me := RecoverStep(k, engaged.me, now))
  }

  /** `death_flash`: the new state and the returned counter. */
  function DeathFlashStep(s: CharState, now: int): (CharState, int)
  {
    if s.deathCounter >= 15 then (s, 15)
    else if now - s.deathUpdateTime > 60 then
      (s.(deathCounter := s.deathCounter + 1, deathUpdateTime := now), s.deathCounter + 1)
    else (s, s.deathCounter)
  }

  /** `update_sprite`: a character at or below zero health is clamped to 0, marked
      dead and set idle (result false); a living one advances its frame clock
      every 100 ms (result true). */
  function UpdateSpriteStep(k: Kind, s: CharState, now: int): (CharState, bool)
    requires |k.animLengths| == 2 && 0 <= s.anim.actionType < 2
  {
    if s.health <= 0 then (s.(health := 0, alive := false, anim := SwitchAction(s.anim, 0, now)), false)
    else (s.(anim := TickFrame(s.anim, k.animLengths, now, 100)), true)
  }

  /** `update_sprite` with the player's hit flag cleared 400 ms after the hit,
      as the other variant of the class does. */
  function UpdatePlayerSpriteStep(k: Kind, s: CharState, now: int): (CharState, bool)
    requires |k.animLengths| == 2 && 0 <= s.anim.actionType < 2
  {
    if s.health <= 0 then UpdateSpriteStep(k, s, now)
    else
      var s1 := if k.charType == 0 && s.hit && now - s.lastHit > 400 then s.(hit := false) else s;
      (s1.(anim := TickFrame(s1.anim, k.animLengths, now, 100)), true)
  }

  class Character {
    const kind: Kind
    var score: int
    var health: int
    var alive: bool
    var hit: bool
    var lastHit: int
    var attacked: bool
    var lastAttack: int
    var stunned: bool
    var lastPos: Vec
    var stuckCounter: int
    var deathCounter: int
    var deathUpdateTime: int
    var flipper: bool
    var frameIndex: int
    var actionType: int
    var updateTime: int
    var isRunning: bool
    var rect: Rect

    function State(): CharState
      reads this
    {
      CharState(score, health, alive, hit, lastHit, attacked, lastAttack, stunned,
                lastPos, stuckCounter, deathCounter, deathUpdateTime,
                flipper, isRunning, Anim(actionType, frameIndex, updateTime), rect)
    }

    /** The invariant every method keeps: a valid frame index, a capped death
        counter and a stuck counter that never passes the unstick threshold. */
    predicate Valid()
      reads this
    {
      kind.Valid() && 0 <= actionType < 2 && 0 <= frameIndex < kind.animLengths[actionType] &&
      0 <= deathCounter <= 15 && 0 <= stuckCounter <= 60
    }

    /** `__init__`: a living, idle character centred on (x, y), with every clock started at `now`. */
    constructor (x: int, y: int, health: int, animLengths: seq<int>, charType: int, boss: bool, size: int, now: int)
      requires -|ENEMY_DAMAGE| < charType <= |ENEMY_DAMAGE|
      requires size >= 1 && |animLengths| == 2 && animLengths[0] > 0 && animLengths[1] > 0
      ensures kind == MakeKind(charType, boss, size, animLengths)
      ensures State() == CharState(0, health, true, false, now, false, now, false, Vec(x, y), 0, 0, now,
                                   false, false, Anim(0, 0, now), SpawnRect(x, y, size))
      ensures Valid()
    {
      kind := MakeKind(charType, boss, size, animLengths);
      score := 0;
      this.health := health;
      alive := true;
      hit := false;
      lastHit := now;
      attacked := false;
      lastAttack := now;
      stunned := false;
      lastPos := Vec(x, y);
      stuckCounter := 0;
      deathCounter := 0;
      deathUpdateTime := now;
      flipper := false;
      frameIndex := 0;
      actionType := 0;
      updateTime := now;
      isRunning := false;
      rect := SpawnRect(x, y, size);
    }

    /** `move`: the player (type 0) must be given the exit tile. */
    method Move(dx: int, dy: int, obstacles: seq<Rect>, exit: Option<Rect>, interact: bool)
      returns (scroll: Vec, levelComplete: bool)
      requires kind.charType == 0 ==> exit.Some?
      requires Valid()
      modifies this`rect, this`flipper, this`isRunning
      ensures var m := K.Move(old(rect), old(flipper), dx, dy, obstacles, kind.charType == 0, exit, interact);
              State() == old(State()).(rect := m.rect, flipper := m.flipper, isRunning := m.isRunning) &&
              scroll == m.scroll && levelComplete == m.levelComplete
      ensures Valid()
    {
      var m := K.MoveBody(rect, flipper, dx, dy, obstacles, kind.charType == 0, exit, interact);
      rect, flipper, isRunning := m.rect, m.flipper, m.isRunning;
      scroll, levelComplete := m.scroll, m.levelComplete;
    }

    /** `update_action` */
    method UpdateAction(newAction: int, now: int)
      requires Valid() && 0 <= newAction < 2
      modifies this`actionType, this`frameIndex, this`updateTime
      ensures State() == old(State()).(anim := SwitchAction(old(State()).anim, newAction, now))
      ensures Valid()
    {
      if newAction != actionType {
        actionType := newAction;
        frameIndex := 0;
        updateTime := now;
      }
    }

    /** `ai`, for an enemy chasing `player`. `steer` stands for the normalised
        steering velocity toward a centre difference, `jitter` for
        `randint(-1, 1)` and `nudge` for the two `choice([-1, 1])` draws. */
    method Ai(player: Character, obstacles: seq<Rect>, scroll: Vec,
              clip: (Rect, Segment) -> Option<Segment>, steer: Vec -> Vec,
              jitter: int, nudge: Vec, now: int) returns (fireball: Option<Shot>)
      requires player != this && Valid() && kind.charType != 0
      requires -1 <= jitter <= 1 && nudge.x in {-1, 1} && nudge.y in {-1, 1}
      modifies this, player
      ensures var r := AiStep(kind, old(State()), old(player.State()), obstacles, scroll, clip, steer, jitter, nudge, now);
              State() == r.me && player.State() == r.player && fireball == r.fireball
      ensures Valid()
    {
      if !alive {
        return None;
      }
      Scroll(scroll);
      fireball := Engage(player, obstacles, clip, steer, jitter, nudge, now);
      Stun(now);
      Expire(now);
    }

    /** Carry the character along with the screen scroll. */
    method Scroll(scroll: Vec)
      modifies this`rect
      ensures State() == old(State()).(rect := old(rect).ShiftBy(scroll))
    {
      rect := rect.ShiftBy(scroll);
    }

    /** The sight and range tests of `ai` and the pursuit they gate. */
    method Engage(player: Character, obstacles: seq<Rect>, clip: (Rect, Segment) -> Option<Segment>,
                  steer: Vec -> Vec, jitter: int, nudge: Vec, now: int) returns (fireball: Option<Shot>)
      requires player != this && Valid() && kind.charType != 0
      modifies this, player
      ensures Valid()
      ensures var r := EngageStep(kind, old(State()), old(player.State()), obstacles, clip, steer, jitter, nudge, now);
              State() == r.me && player.State() == r.player && fireball == r.fireball
    {
      fireball := None;
      var wall := WallInSight(obstacles, Segment(rect.Center(), player.rect.Center()), clip);
      var d2 := Dist2(rect.Center(), player.rect.Center());
      if !stunned && Farther(d2, RANGE) && !wall {
        fireball := Pursue(player, obstacles, steer, jitter, nudge, d2, wall, now);
      }
    }

    /** The pursuit branch of `ai` (entered only with a clear line of sight). */
    method Pursue(player: Character, obstacles: seq<Rect>, steer: Vec -> Vec,
                  jitter: int, nudge: Vec, d2: nat, wall: bool, now: int) returns (fireball: Option<Shot>)
      requires player != this && kind.charType != 0 && Valid()
      modifies this, player
      ensures Valid()
      ensures var r := Chase(kind, old(State()), old(player.State()), obstacles, steer, jitter, nudge, d2, wall, now);
              State() == r.me && player.State() == r.player && fireball == r.fireball
    {
      var v := Steer(player.rect.Center(), steer, nudge);
      var _, _ := Move(v.x, v.y, obstacles, None, false);
      Strike(player, d2, wall, jitter, now);
      fireball := Shoot(player.rect.Center(), d2, wall, now);
    }

    /** Steering and stuck detection of the pursuit branch. */
    method Steer(target: Vec, steer: Vec -> Vec, nudge: Vec) returns (v: Vec)
      requires Valid()
      modifies this`stuckCounter, this`lastPos
      ensures Valid()
      ensures (v, State()) == SteerStep(old(State()), target, steer, nudge)
    {
      var here := rect.Center();
      v := steer(Vec(target.x - here.x, target.y - here.y));
      if Abs(here.x - lastPos.x) < 1 && Abs(here.y - lastPos.y) < 1 {
        stuckCounter := stuckCounter + 1;
        if stuckCounter > 60 {
          v := Nudge(nudge);
          stuckCounter := 0;
        }
      } else {
        stuckCounter := 0;
      }
      lastPos := here;
    }

    /** The melee attack of the pursuit branch. */
    method Strike(player: Character, d2: nat, wall: bool, jitter: int, now: int)
      requires player != this
      modifies this`attacked, this`lastAttack, player`health, player`hit, player`lastHit
      ensures (State(), player.State()) == StrikeStep(kind, old(State()), old(player.State()), d2, wall, jitter, now)
    {
      if Closer(d2, ATTACK_RANGE) && !attacked && !player.hit && !wall {
        player.TakeHit(kind.attackDamage + jitter, now);
        attacked, lastAttack := true, now;
      }
    }

    /** The player's side of a melee strike: it loses `damage` health and is marked hit at `now`. */
    method TakeHit(damage: int, now: int)
      modifies this`health, this`hit, this`lastHit
      ensures State() == old(State()).(health := old(health) - damage, hit := true, lastHit := now)
    {
      health, hit, lastHit := health - damage, true, now;
    }

    /** An arrow's hit on this enemy: it loses `damage` health and is marked hit. */
    method Wound(damage: int)
      modifies this`health, this`hit
      ensures State() == old(State()).(health := old(health) - damage, hit := true)
    {
      hit, health := true, health - damage;
    }

    /** A coin collected by this player. */
    method GainCoin()
      modifies this`score
      ensures State() == old(State()).(score := old(score) + 1)
    {
      score := score + 1;
    }

    /** A potion drunk by this player: 25 health more, capped at 100. */
    method DrinkPotion()
      modifies this`health
      ensures State() == old(State()).(health := Min(old(health) + 25, 100))
    {
      health := health + 25;
      if health > 100 {
        health := 100;
      }
    }

    /** The boss fireball of the pursuit branch. */
    method Shoot(target: Vec, d2: nat, wall: bool, now: int) returns (fireball: Option<Shot>)
      requires Valid()
      modifies this`lastAttack
      ensures Valid()
      ensures (State(), fireball) == ShootStep(kind, old(State()), target, d2, wall, now)
    {
      fireball := None;
      if kind.boss {
        if Closer(d2, 400) && Farther(d2, 50) && now - lastAttack > 1000 && !wall && !attacked {
          fireball := Some(Shot(rect.Center(), target));
          lastAttack := now;
        }
      }
    }

    /** The stun of a hit non-boss. */
    method Stun(now: int)
      requires Valid()
      modifies this`hit, this`lastHit, this`stunned, this`isRunning,
               this`actionType, this`frameIndex, this`updateTime
      ensures State() == StunStep(kind, old(State()), now)
      ensures Valid()
    {
      if hit && !kind.boss {
        hit, lastHit, stunned, isRunning := false, now, true, false;
        UpdateAction(0, now);
      }
    }

    /** The stun and attack timers of `ai`. */
    method Expire(now: int)
      modifies this`stunned, this`attacked
      ensures State() == ExpireStep(kind, old(State()), now)
    {
      if now - lastHit > 70 {
        stunned := false;
      }
      if attacked && now - lastAttack > kind.attackCooldown {
        attacked := false;
      }
    }

    /** `death_flash`: returns the flash counter, or 15 once it is spent. */
    method DeathFlash(now: int) returns (counter: int)
      requires Valid()
      modifies this`deathCounter, this`deathUpdateTime
      ensures (State(), counter) == DeathFlashStep(old(State()), now)
      ensures Valid()
    {
      if deathCounter >= 15 {
        return 15;
      }
      if now - deathUpdateTime > 60 {
        deathCounter := deathCounter + 1;
        deathUpdateTime := now;
      }
      return deathCounter;
    }

    /** `update_sprite` as written: returns whether the character is alive. */
    method UpdateSprite(now: int) returns (living: bool)
      requires Valid()
      modifies this`health, this`alive, this`actionType, this`frameIndex, this`updateTime
      ensures (State(), living) == UpdateSpriteStep(kind, old(State()), now)
      ensures Valid()
    {
      if health <= 0 {
        health := 0;
        alive := false;
        UpdateAction(0, now);
        return false;
      }
      if now - updateTime > 100 {
        updateTime := now;
        frameIndex := frameIndex + 1;
        if frameIndex >= kind.animLengths[actionType] {
          frameIndex := 0;
        }
      }
      return true;
    }

    /** `update_sprite` for the player, with the 400 ms hit cooldown that lets the player be hit again. */
    method UpdatePlayerSprite(now: int) returns (living: bool)
      requires Valid()
      modifies this`health, this`alive, this`hit, this`actionType, this`frameIndex, this`updateTime
      ensures (State(), living) == UpdatePlayerSpriteStep(kind, old(State()), now)
      ensures Valid()
    {
      if health > 0 && kind.charType == 0 && hit && now - lastHit > 400 {
        hit := false;
      }
      living := UpdateSprite(now);
    }
  }

  // ---------------------------------------------------------------------------
  // Properties of one `ai` call

  /** A dead enemy's `ai` returns no fireball and changes nothing. */
  lemma AiDeadIsNoop(k: Kind, s: CharState, p: CharState, obstacles: seq<Rect>, scroll: Vec,
                     clip: (Rect, Segment) -> Option<Segment>, steer: Vec -> Vec, jitter: int, nudge: Vec, now: int)
    requires !s.alive
    ensures AiStep(k, s, p, obstacles, scroll, clip, steer, jitter, nudge, now) == AiResult(s, p, None)
  {
  }

  /** Two states with the same health, life, score, death flash and animation. */
  predicate SameLife(a: CharState, b: CharState)
  {
    a.alive == b.alive && a.health == b.health && a.score == b.score &&
    a.deathCounter == b.deathCounter && a.deathUpdateTime == b.deathUpdateTime && a.anim == b.anim
  }

  /** `ai` never touches the enemy's own health, life, score or death flash;
      its action either stays or becomes idle (a stun). */
  lemma AiKeepsLife(k: Kind, s: CharState, p: CharState, obstacles: seq<Rect>, scroll: Vec,
                    clip: (Rect, Segment) -> Option<Segment>, steer: Vec -> Vec, jitter: int, nudge: Vec, now: int)
    ensures var r := AiStep(k, s, p, obstacles, scroll, clip, steer, jitter, nudge, now);
            r.me.alive == s.alive && r.me.health == s.health && r.me.score == s.score &&
            r.me.deathCounter == s.deathCounter && r.me.deathUpdateTime == s.deathUpdateTime &&
            (r.me.anim.actionType == s.anim.actionType || r.me.anim.actionType == 0)
  {
    if s.alive {
      var t := s.(rect := s.rect.ShiftBy(scroll));
      EngageKeepsLife(k, t, p, obstacles, clip, steer, jitter, nudge, now);
      var e := EngageStep(k, t, p, obstacles, clip, steer, jitter, nudge, now);
      RecoverKeepsLife(k, e.me, now);
    }
  }

  /** The stun and cooldown tail of `ai` keeps the enemy's life; its action stays or becomes idle. */
  lemma RecoverKeepsLife(k: Kind, s: CharState, now: int)
    ensures var r := RecoverStep(k, s, now);
            r.alive == s.alive && r.health == s.health && r.score == s.score &&
            r.deathCounter == s.deathCounter && r.deathUpdateTime == s.deathUpdateTime &&
            (r.anim.actionType == s.anim.actionType || r.anim.actionType == 0)
  {
    var st := StunStep(k, s, now);
    assert st.anim.actionType == s.anim.actionType || st.anim.actionType == 0;
  }

  /** The middle of `ai` keeps the enemy's life and animation. */
  lemma EngageKeepsLife(k: Kind, s: CharState, p: CharState, obstacles: seq<Rect>,
                        clip: (Rect, Segment) -> Option<Segment>, steer: Vec -> Vec,
                        jitter: int, nudge: Vec, now: int)
    ensures SameLife(EngageStep(k, s, p, obstacles, clip, steer, jitter, nudge, now).me, s)
  {
    var wall := Blocked(obstacles, Segment(s.rect.Center(), p.rect.Center()), clip);
    var d2 := Dist2(s.rect.Center(), p.rect.Center());
    if !s.stunned && Farther(d2, RANGE) && !wall {
      ChaseKeepsLife(k, s, p, obstacles, steer, jitter, nudge, d2, wall, now);
    }
  }

  /** The pursuit only moves the enemy and sets its steering and attack bookkeeping. */
  lemma ChaseKeepsLife(k: Kind, s: CharState, p: CharState, obstacles: seq<Rect>, steer: Vec -> Vec,
                       jitter: int, nudge: Vec, d2: nat, wall: bool, now: int)
    ensures SameLife(Chase(k, s, p, obstacles, steer, jitter, nudge, d2, wall, now).me, s)
  {
    var moved := Approach(s, p.rect.Center(), obstacles, steer, nudge);
    var struck := StrikeStep(k, moved, p, d2, wall, jitter, now);
    StrikeKeepsLife(k, moved, p, d2, wall, jitter, now);
    ShootKeepsLife(k, struck.0, struck.1.rect.Center(), d2, wall, now);
  }

  /** Steering only sets the stuck bookkeeping. */
  lemma SteerKeepsLife(s: CharState, target: Vec, steer: Vec -> Vec, nudge: Vec)
    ensures SameLife(SteerStep(s, target, steer, nudge).1, s)
  {
  }

  /** The strike only sets the enemy's attack bookkeeping. */
  lemma StrikeKeepsLife(k: Kind, s: CharState, p: CharState, d2: nat, wall: bool, jitter: int, now: int)
    ensures SameLife(StrikeStep(k, s, p, d2, wall, jitter, now).0, s)
  {
  }

  /** A fireball only restarts the enemy's attack clock. */
  lemma ShootKeepsLife(k: Kind, s: CharState, target: Vec, d2: nat, wall: bool, now: int)
    ensures SameLife(ShootStep(k, s, target, d2, wall, now).0, s)
  {
  }

  /** The attack bookkeeping of the pursuit: the strike and the fireball
      happen under their own conditions (a strike rules the fireball out),
      each restarts the attack clock, and the hit flag is left alone. */
  lemma ChaseBookkeeping(k: Kind, s: CharState, p: CharState, obstacles: seq<Rect>, steer: Vec -> Vec,
                         jitter: int, nudge: Vec, d2: nat, wall: bool, now: int)
    ensures var r := Chase(k, s, p, obstacles, steer, jitter, nudge, d2, wall, now);
            var strike := Closer(d2, ATTACK_RANGE) && !s.attacked && !p.hit && !wall;
            var shoot := k.boss && Closer(d2, 400) && Farther(d2, 50) && now - s.lastAttack > 1000 && !wall &&
                         !s.attacked && !strike;
            r.player == (if strike then p.(health := p.health - (k.attackDamage + jitter), hit := true, lastHit := now) else p) &&
            r.me.hit == s.hit && r.me.attacked == (s.attacked || strike) &&
            r.me.lastAttack == (if strike || shoot then now else s.lastAttack) &&
            (r.fireball.Some? <==> shoot) &&
            (shoot ==> r.fireball.value == Shot(r.me.rect.Center(), p.rect.Center()))
  {
    AttackBookkeeping(k, Approach(s, p.rect.Center(), obstacles, steer, nudge), p, d2, wall, jitter, now);
  }

  /** The strike and the fireball of one pursuit, on the moved enemy. */
  lemma AttackBookkeeping(k: Kind, s: CharState, p: CharState, d2: nat, wall: bool, jitter: int, now: int)
    ensures var r := Attack(k, s, p, d2, wall, jitter, now);
            var strike := Closer(d2, ATTACK_RANGE) && !s.attacked && !p.hit && !wall;
            var shoot := k.boss && Closer(d2, 400) && Farther(d2, 50) && now - s.lastAttack > 1000 && !wall &&
                         !s.attacked && !strike;
            r.player == (if strike then p.(health := p.health - (k.attackDamage + jitter), hit := true, lastHit := now) else p) &&
            r.me.hit == s.hit && r.me.attacked == (s.attacked || strike) &&
            r.me.lastAttack == (if strike || shoot then now else s.lastAttack) &&
            (r.fireball.Some? <==> shoot) &&
            (shoot ==> r.fireball.value == Shot(r.me.rect.Center(), p.rect.Center()))
  {
    var struck := StrikeStep(k, s, p, d2, wall, jitter, now);
    assert struck.1.rect == p.rect && struck.0.rect == s.rect;
  }

  /** The attack bookkeeping of a whole `ai` call, in terms of the enemy's
      centre after the scroll shift. */
  lemma AiBookkeeping(k: Kind, s: CharState, p: CharState, obstacles: seq<Rect>, scroll: Vec,
                      clip: (Rect, Segment) -> Option<Segment>, steer: Vec -> Vec, jitter: int, nudge: Vec, now: int)
    ensures var r := AiStep(k, s, p, obstacles, scroll, clip, steer, jitter, nudge, now);
            var c := s.rect.ShiftBy(scroll).Center();
            var d2 := Dist2(c, p.rect.Center());
            var chase := s.alive && !s.stunned && !Blocked(obstacles, Segment(c, p.rect.Center()), clip) && Farther(d2, RANGE);
            var strike := chase && Closer(d2, ATTACK_RANGE) && !s.attacked && !p.hit;
            var shoot := chase && k.boss && Closer(d2, 400) && Farther(d2, 50) && now - s.lastAttack > 1000 &&
                         !s.attacked && !strike;
            r.player == (if strike then p.(health := p.health - (k.attackDamage + jitter), hit := true, lastHit := now) else p) &&
            (r.fireball.Some? <==> shoot) &&
            (strike || shoot ==> r.me.lastAttack == now) &&
            (shoot ==> r.fireball.value == Shot(r.me.rect.Center(), p.rect.Center()))
  {
    if s.alive {
      var t := s.(rect := s.rect.ShiftBy(scroll));
      EngageBookkeeping(k, t, p, obstacles, clip, steer, jitter, nudge, now);
      var e := EngageStep(k, t, p, obstacles, clip, steer, jitter, nudge, now);
      RecoverKeepsAttackClock(k, e.me, now);
    }
  }

  /** The attack bookkeeping of the middle of `ai`. */
  lemma EngageBookkeeping(k: Kind, s: CharState, p: CharState, obstacles: seq<Rect>,
                          clip: (Rect, Segment) -> Option<Segment>, steer: Vec -> Vec,
                          jitter: int, nudge: Vec, now: int)
    ensures var r := EngageStep(k, s, p, obstacles, clip, steer, jitter, nudge, now);
            var c := s.rect.Center();
            var d2 := Dist2(c, p.rect.Center());
            var chase := !s.stunned && !Blocked(obstacles, Segment(c, p.rect.Center()), clip) && Farther(d2, RANGE);
            var strike := chase && Closer(d2, ATTACK_RANGE) && !s.attacked && !p.hit;
            var shoot := chase && k.boss && Closer(d2, 400) && Farther(d2, 50) && now - s.lastAttack > 1000 &&
                         !s.attacked && !strike;
            r.player == (if strike then p.(health := p.health - (k.attackDamage + jitter), hit := true, lastHit := now) else p) &&
            (r.fireball.Some? <==> shoot) &&
            (strike || shoot ==> r.me.lastAttack == now) &&
            (shoot ==> r.fireball.value == Shot(r.me.rect.Center(), p.rect.Center()))
  {
    var wall := Blocked(obstacles, Segment(s.rect.Center(), p.rect.Center()), clip);
    var d2 := Dist2(s.rect.Center(), p.rect.Center());
    if !s.stunned && Farther(d2, RANGE) && !wall {
      ChaseBookkeeping(k, s, p, obstacles, steer, jitter, nudge, d2, wall, now);
    }
  }

  /** The stun and cooldown tail of `ai` keeps the enemy's position and attack clock. */
  lemma RecoverKeepsAttackClock(k: Kind, s: CharState, now: int)
    ensures RecoverStep(k, s, now).lastAttack == s.lastAttack && RecoverStep(k, s, now).rect == s.rect
  {
  }

  /** The melee attack happens exactly when a living, unstunned enemy with a
      clear line of sight is farther than RANGE and closer than ATTACK_RANGE,
      has no attack pending and the player is not already hit; it lowers the
      player's health by the archetype's damage plus the jitter, marks the
      player hit and restarts the enemy's attack clock. */
  lemma AttackIff(k: Kind, s: CharState, p: CharState, obstacles: seq<Rect>, scroll: Vec,
                  clip: (Rect, Segment) -> Option<Segment>, steer: Vec -> Vec, jitter: int, nudge: Vec, now: int)
    ensures var r := AiStep(k, s, p, obstacles, scroll, clip, steer, jitter, nudge, now);
            var c := s.rect.ShiftBy(scroll).Center();
            var d2 := Dist2(c, p.rect.Center());
            var strike := s.alive && !s.stunned && !Blocked(obstacles, Segment(c, p.rect.Center()), clip) &&
                          Farther(d2, RANGE) && Closer(d2, ATTACK_RANGE) && !s.attacked && !p.hit;
            r.player == (if strike then p.(health := p.health - (k.attackDamage + jitter), hit := true, lastHit := now) else p) &&
            (strike ==> r.me.lastAttack == now)
  {
    AiBookkeeping(k, s, p, obstacles, scroll, clip, steer, jitter, nudge, now);
  }

  /** A boss spawns a fireball exactly when it is alive and unstunned, sees
      the player, is farther than 50 (and than RANGE) and closer than 400,
      its last attack is more than 1000 ms ago and it neither had an attack
      pending nor struck in this call. The fireball starts at its centre after
      the move, aimed at the player, and the attack clock restarts. */
  lemma FireballIff(k: Kind, s: CharState, p: CharState, obstacles: seq<Rect>, scroll: Vec,
                    clip: (Rect, Segment) -> Option<Segment>, steer: Vec -> Vec, jitter: int, nudge: Vec, now: int)
    ensures var r := AiStep(k, s, p, obstacles, scroll, clip, steer, jitter, nudge, now);
            var c := s.rect.ShiftBy(scroll).Center();
            var d2 := Dist2(c, p.rect.Center());
            var chase := s.alive && !s.stunned && !Blocked(obstacles, Segment(c, p.rect.Center()), clip) && Farther(d2, RANGE);
            var strike := Closer(d2, ATTACK_RANGE) && !s.attacked && !p.hit;
            (r.fireball.Some? <==>
               chase && k.boss && Closer(d2, 400) && Farther(d2, 50) && now - s.lastAttack > 1000 &&
               !s.attacked && !strike) &&
            (r.fireball.Some? ==> r.me.lastAttack == now && r.fireball.value == Shot(r.me.rect.Center(), p.rect.Center()))
  {
    AiBookkeeping(k, s, p, obstacles, scroll, clip, steer, jitter, nudge, now);
  }

  /** After an attack at `s.lastAttack`, no fireball is spawned until more than 1000 ms later. */
  lemma NoFireballWithinCooldown(k: Kind, s: CharState, p: CharState, obstacles: seq<Rect>, scroll: Vec,
                                 clip: (Rect, Segment) -> Option<Segment>, steer: Vec -> Vec, jitter: int, nudge: Vec, now: int)
    requires now - s.lastAttack <= 1000
    ensures AiStep(k, s, p, obstacles, scroll, clip, steer, jitter, nudge, now).fireball.None?
  {
    AiBookkeeping(k, s, p, obstacles, scroll, clip, steer, jitter, nudge, now);
  }

  /** A hit, living non-boss is stunned: its hit flag clears, it stops running,
      idles, and the stun clock restarts. */
  lemma HitStuns(k: Kind, s: CharState, p: CharState, obstacles: seq<Rect>, scroll: Vec,
                 clip: (Rect, Segment) -> Option<Segment>, steer: Vec -> Vec, jitter: int, nudge: Vec, now: int)
    requires s.alive && s.hit && !k.boss
    ensures var r := AiStep(k, s, p, obstacles, scroll, clip, steer, jitter, nudge, now);
            !r.me.hit && r.me.stunned && !r.me.isRunning && r.me.anim.actionType == 0 && r.me.lastHit == now
  {
    var t := s.(rect := s.rect.ShiftBy(scroll));
    var e := EngageStep(k, t, p, obstacles, clip, steer, jitter, nudge, now);
    EngageKeepsHit(k, t, p, obstacles, clip, steer, jitter, nudge, now);
    var st := StunStep(k, e.me, now);
    assert st.hit == false && st.stunned && !st.isRunning && st.lastHit == now && st.anim.actionType == 0;
  }

  /** The middle of `ai` leaves the enemy's hit flag as it was. */
  lemma EngageKeepsHit(k: Kind, s: CharState, p: CharState, obstacles: seq<Rect>,
                       clip: (Rect, Segment) -> Option<Segment>, steer: Vec -> Vec,
                       jitter: int, nudge: Vec, now: int)
    ensures EngageStep(k, s, p, obstacles, clip, steer, jitter, nudge, now).me.hit == s.hit
  {
    var wall := Blocked(obstacles, Segment(s.rect.Center(), p.rect.Center()), clip);
    var d2 := Dist2(s.rect.Center(), p.rect.Center());
    if !s.stunned && Farther(d2, RANGE) && !wall {
      ChaseBookkeeping(k, s, p, obstacles, steer, jitter, nudge, d2, wall, now);
    }
  }

  /** A stunned enemy is only carried by the scroll: it does not steer, attack or shoot. */
  lemma StunnedStaysPut(k: Kind, s: CharState, p: CharState, obstacles: seq<Rect>, scroll: Vec,
                        clip: (Rect, Segment) -> Option<Segment>, steer: Vec -> Vec, jitter: int, nudge: Vec, now: int)
    requires s.alive && s.stunned
    ensures var r := AiStep(k, s, p, obstacles, scroll, clip, steer, jitter, nudge, now);
            r.me.rect == s.rect.ShiftBy(scroll) && r.player == p && r.fireball.None?
  {
  }

  /** After `ai` a living enemy is stunned only within 70 ms of its last hit,
      and has an attack pending only within its cooldown of its last attack. */
  lemma TimersExpire(k: Kind, s: CharState, p: CharState, obstacles: seq<Rect>, scroll: Vec,
                     clip: (Rect, Segment) -> Option<Segment>, steer: Vec -> Vec, jitter: int, nudge: Vec, now: int)
    requires s.alive
    ensures var r := AiStep(k, s, p, obstacles, scroll, clip, steer, jitter, nudge, now);
            (r.me.stunned ==> now - r.me.lastHit <= 70) &&
            (r.me.attacked ==> now - r.me.lastAttack <= k.attackCooldown)
  {
  }

  /** Stuck detection: an enemy whose centre has not moved since the last
      pursuit counts up, and on the 61st such call it is pushed diagonally by
      `ENEMY_SPEED` pixels in the chosen direction and the count restarts. */
  lemma StuckEnemyIsNudged(k: Kind, s: CharState, p: CharState, obstacles: seq<Rect>, steer: Vec -> Vec,
                           jitter: int, nudge: Vec, d2: nat, now: int)
    requires s.rect.Center() == s.lastPos && s.stuckCounter == 60
    ensures var r := Chase(k, s, p, obstacles, steer, jitter, nudge, d2, false, now);
            r.me.stuckCounter == 0 &&
            r.me.rect == K.Collide(s.rect, nudge.x * K.Pixels(ENEMY_SPEED), nudge.y * K.Pixels(ENEMY_SPEED), obstacles)
  {
  }

  // ---------------------------------------------------------------------------
  // Death

  /** The flash counter never decreases, grows by at most one per call and
      never exceeds 15; the value returned is the new counter, or 15 once spent. */
  lemma DeathFlashBounded(s: CharState, now: int)
    requires 0 <= s.deathCounter <= 15
    ensures var (s', n) := DeathFlashStep(s, now);
            s.deathCounter <= s'.deathCounter <= s.deathCounter + 1 && s'.deathCounter <= 15 &&
            0 <= n <= 15 && (s.deathCounter < 15 ==> n == s'.deathCounter) && (s.deathCounter == 15 ==> n == 15)
  {
  }

  /** From any counter below 15, 15 more flash calls spaced more than 60 ms apart finish the flash. */
  lemma {:induction false} DeathFlashFinishes(s: CharState, times: seq<int>)
    requires 0 <= s.deathCounter <= 15 && |times| == 15 - s.deathCounter
    requires Spaced(s.deathUpdateTime, times)
    ensures FlashRun(s, times).deathCounter == 15
    decreases |times|
  {
    if times != [] {
      var s' := DeathFlashStep(s, times[0]).0;
      DeathFlashFinishes(s', times[1..]);
    }
  }

  /** Each time is more than 60 ms after the one before it, the first more than 60 ms after `start`. */
  predicate Spaced(start: int, times: seq<int>)
    decreases |times|
  {
    times == [] || (times[0] - start > 60 && Spaced(times[0], times[1..]))
  }

  /** Successive `death_flash` calls at the given times. */
  function FlashRun(s: CharState, times: seq<int>): CharState
    decreases |times|
  {
    if times == [] then s else FlashRun(DeathFlashStep(s, times[0]).0, times[1..])
  }

  /** Death: `update_sprite` on non-positive health clamps it to 0, marks the
      character dead and returns false; on positive health it changes only the
      animation and returns true. */
  lemma UpdateSpriteDetectsDeath(k: Kind, s: CharState, now: int)
    requires |k.animLengths| == 2 && 0 <= s.anim.actionType < 2
    ensures var (s', living) := UpdateSpriteStep(k, s, now);
            (s.health <= 0 ==> s'.health == 0 && !s'.alive && !living && s'.anim.actionType == 0) &&
            (s.health > 0 ==> living && s' == s.(anim := s'.anim))
  {
  }

  /** Death is permanent: no step of a character sets `alive` back to true. */
  lemma DeathIsPermanent(k: Kind, s: CharState, p: CharState, obstacles: seq<Rect>, scroll: Vec,
                         clip: (Rect, Segment) -> Option<Segment>, steer: Vec -> Vec, jitter: int, nudge: Vec, now: int)
    requires !s.alive && |k.animLengths| == 2 && 0 <= s.anim.actionType < 2
    ensures !AiStep(k, s, p, obstacles, scroll, clip, steer, jitter, nudge, now).me.alive
    ensures !DeathFlashStep(s, now).0.alive
    ensures !UpdateSpriteStep(k, s, now).0.alive && !UpdatePlayerSpriteStep(k, s, now).0.alive
    ensures !p.alive ==> !AiStep(k, s, p, obstacles, scroll, clip, steer, jitter, nudge, now).player.alive
  {
  }

  // ---------------------------------------------------------------------------
  // The player's hit flag

  /** As written, nothing in this variant clears the player's hit flag: an
      enemy's `ai` only ever sets it, and `update_sprite` leaves it alone. So
      once hit, the player takes no further melee damage from any enemy. */
  lemma PlayerHitNeverClears(k: Kind, pk: Kind, s: CharState, p: CharState, obstacles: seq<Rect>, scroll: Vec,
                             clip: (Rect, Segment) -> Option<Segment>, steer: Vec -> Vec, jitter: int, nudge: Vec, now: int)
    requires p.hit && |pk.animLengths| == 2 && 0 <= p.anim.actionType < 2
    ensures UpdateSpriteStep(pk, p, now).0.hit
    ensures AiStep(k, s, p, obstacles, scroll, clip, steer, jitter, nudge, now).player == p
  {
  }

  /** With the hit cooldown, a living player hit more than 400 ms ago can be hit again. */
  lemma PlayerHitClearsAfterCooldown(pk: Kind, p: CharState, now: int)
    requires pk.charType == 0 && p.health > 0 && |pk.animLengths| == 2 && 0 <= p.anim.actionType < 2
    ensures var p' := UpdatePlayerSpriteStep(pk, p, now).0;
            (now - p.lastHit > 400 ==> !p'.hit) && (now - p.lastHit <= 400 ==> p'.hit == p.hit)
  {
  }
}
