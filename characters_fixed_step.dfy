/** `Character` of `IntoTheDeepWithoutSound/character.py`: the enemy AI that
    steers in fixed steps of `ENEMY_SPEED` pixels per axis, the death flash
    that answers 1 once spent, and the sprite update that clears the player's
    hit flag and picks the run or idle action. `move` is the shared one. */
module CharactersFixedStep {
  import opened Wrappers
  import opened Geometry
  import opened Constants
  import opened Sight
  import opened CharacterKinds
  import K = Kinematics

  /** The mutable state of a character of this variant, as one value. */
  datatype CharState = CharState(
    score: int, health: int, alive: bool,
    hit: bool, lastHit: int, attacked: bool, lastAttack: int, stunned: bool,
    deathCounter: int, deathUpdateTime: int,
    flipper: bool, isRunning: bool, anim: Anim, rect: Rect)

  /** What one `ai` call leaves behind: the enemy, the player and the fireball it spawned, if any. */
  datatype AiResult = AiResult(me: CharState, player: CharState, fireball: Option<Shot>)

  /** One axis of the fixed step: `ENEMY_SPEED` pixels toward the target, none when level with it. */
  function AxisStep(from: int, to: int): int
  {
    if to > from then K.Pixels(ENEMY_SPEED) else if to < from then -K.Pixels(ENEMY_SPEED) else 0
  }

  /** The requested velocity: a step toward the player while it is out of
      RANGE and no obstacle clips the sight line, no step otherwise. */
  function Heading(here: Vec, target: Vec, d2: nat, blocked: bool): Vec
  {
    if Farther(d2, RANGE) && !blocked then Vec(AxisStep(here.x, target.x), AxisStep(here.y, target.y))
    else Vec(0, 0)
  }

  /** The melee strike: enemy and player after it. There is no lower bound on the distance. */
  function StrikeStep(k: Kind, s: CharState, p: CharState, d2: nat, blocked: bool, jitter: int, now: int): (CharState, CharState)
  {
    if Closer(d2, ATTACK_RANGE) && !s.attacked && !p.hit && !blocked then
      (s.(attacked := true, lastAttack := now),
       p.(health := p.health - (k.attackDamage + jitter), hit := true, lastHit := now))
    else (s, p)
  }

  /** A boss's fireball, aimed at `target`; it does not look at `attacked`. */
  function ShootStep(k: Kind, s: CharState, target: Vec, d2: nat, blocked: bool, now: int): (CharState, Option<Shot>)
  {
    if k.boss && Closer(d2, 500) && Farther(d2, 50) && now - s.lastAttack > 1250 && !blocked then
      (s.(lastAttack := now), Some(Shot(s.rect.Center(), target)))
    else (s, None)
  }

  /** The unstunned branch of `ai`: move by `v` (which may be no step at all),
      strike the player when close enough, and let a boss spawn a fireball. */
  function Act(k: Kind, s: CharState, p: CharState, obstacles: seq<Rect>, v: Vec,
               d2: nat, blocked: bool, jitter: int, now: int): AiResult
  {
    var m := K.Move(s.rect, s.flipper, v.x, v.y, obstacles, false, None, false);
    var moved := s.(rect := m.rect, flipper := m.flipper, isRunning := m.isRunning);
    var struck := StrikeStep(k, moved, p, d2, blocked, jitter, now);
    var shot := ShootStep(k, struck.0, struck.1.rect.Center(), d2, blocked, now);
    AiResult(shot.0, struck.1, shot.1)
  }

  /** The middle of `ai`, after the scroll shift, for a living enemy. */
  function EngageStep(k: Kind, s: CharState, p: CharState, obstacles: seq<Rect>,
                      clip: (Rect, Segment) -> Option<Segment>, jitter: int, now: int): AiResult
  {
    var blocked := Blocked(obstacles, Segment(s.rect.Center(), p.rect.Center()), clip);
    var d2 := Dist2(s.rect.Center(), p.rect.Center());
    var v := Heading(s.rect.Center(), p.rect.Center(), d2, blocked);
    if !s.stunned then Act(k, s, p, obstacles, v, d2, blocked, jitter, now)
    else AiResult(s, p, None)
  }

  /** A hit non-boss is stunned: its hit flag clears, the stun clock starts
      and it stops running and idles. */
  function StunStep(k: Kind, s: CharState, now: int): CharState
  {
    if s.hit && !k.boss then
      s.(hit := false, lastHit := now, stunned := true, isRunning := false,
         anim := SwitchAction(s.anim, 0, now))
    else s
  }

  /** The stun wears off after 70 ms, and `attacked` clears once the archetype's cooldown has passed. */
  function ExpireStep(k: Kind, s: CharState, now: int): CharState
  {
    var s1 := if now - s.lastHit > 70 then s.(stunned := false) else s;
    if s1.attacked && now - s1.lastAttack > k.attackCooldown then s1.(attacked := false) else s1
  }

  /** One call of `ai`. The scroll shift comes first, so a dead enemy is still carried by the screen. */
  function AiStep(k: Kind, s: CharState, p: CharState, obstacles: seq<Rect>, scroll: Vec,
                  clip: (Rect, Segment) -> Option<Segment>, jitter: int, now: int): AiResult
  {
    var shifted := s.(rect := s.rect.ShiftBy(scroll));
    if !s.alive then AiResult(shifted, p, None)
    else
      var engaged := EngageStep(k, shifted, p, obstacles, clip, jitter, now);
      engaged.(me := ExpireStep(k, StunStep(k, engaged.me, now), now))
  }

  /** `death_flash`: the new state and the returned value, 1 once the flash is spent. */
  function DeathFlashStep(s: CharState, now: int): (CharState, int)
  {
    if s.deathCounter >= 15 then (s, 1)
    else if now - s.deathUpdateTime > 60 then
      (s.(deathCounter := s.deathCounter + 1, deathUpdateTime := now), s.deathCounter + 1)
    else (s, s.deathCounter)
  }

  /** `update_sprite`: a character at or below zero health, or already dead,
      is clamped to 0 and marked dead; a living one clears the player's hit
      flag 400 ms after the hit, switches to the run or idle action and
      advances its frame clock every 80 ms. */
  function UpdateSpriteStep(k: Kind, s: CharState, now: int): CharState
    requires |k.animLengths| == 2 && 0 <= s.anim.actionType < 2
  {
    if s.health <= 0 || !s.alive then s.(health := 0, alive := false)
    else
      var cleared := if k.charType == 0 && s.hit && now - s.lastHit > 400 then s.(hit := false) else s;
      var acting := SwitchAction(cleared.anim, if cleared.isRunning then 1 else 0, now);
      cleared.(anim := TickFrame(acting, k.animLengths, now, 80))
  }

  /** The fixed step as the source computes it: four independent comparisons of the centres. */
  method ComputeHeading(here: Vec, target: Vec, d2: nat, blocked: bool) returns (v: Vec)
    ensures v == Heading(here, target, d2, blocked)
  {
    var dx, dy := 0, 0;
    if Farther(d2, RANGE) && !blocked {
      if target.x > here.x {
        dx := K.Pixels(ENEMY_SPEED);
      }
      if target.x < here.x {
        dx := -K.Pixels(ENEMY_SPEED);
      }
      if target.y > here.y {
        dy := K.Pixels(ENEMY_SPEED);
      }
      if target.y < here.y {
        dy := -K.Pixels(ENEMY_SPEED);
      }
    }
    v := Vec(dx, dy);
  }

  class Character {
    const kind: Kind
    var score: int
    var health: int
    var alive: bool
    var hit: bool
    var lastHit: int
    var attacked: bool
    var lastAttack: int
    var stunned: bool
    var deathCounter: int
    var deathUpdateTime: int
    var flipper: bool
    var frameIndex: int
    var actionType: int
    var updateTime: int
    var isRunning: bool
    var rect: Rect

    function State(): CharState
      reads this
    {
      CharState(score, health, alive, hit, lastHit, attacked, lastAttack, stunned,
                deathCounter, deathUpdateTime, flipper, isRunning,
                Anim(actionType, frameIndex, updateTime), rect)
    }

    /** The invariant every method keeps: a valid frame index and a capped death counter. */
    predicate Valid()
      reads this
    {
      kind.Valid() && 0 <= actionType < 2 && 0 <= frameIndex < kind.animLengths[actionType] &&
      0 <= deathCounter <= 15
    }

    /** `__init__`: a living, idle character centred on (x, y), with every clock started at `now`. */
    constructor (x: int, y: int, health: int, animLengths: seq<int>, charType: int, boss: bool, size: int, now: int)
      requires -|ENEMY_DAMAGE| < charType <= |ENEMY_DAMAGE|
      requires size >= 1 && |animLengths| == 2 && animLengths[0] > 0 && animLengths[1] > 0
      ensures kind == MakeKind(charType, boss, size, animLengths)
      ensures State() == CharState(0, health, true, false, now, false, now, false, 0, now,
                                   false, false, Anim(0, 0, now), SpawnRect(x, y, size))
      ensures Valid()
    {
      kind := MakeKind(charType, boss, size, animLengths);
      score := 0;
      this.health := health;
      alive := true;
      hit := false;
      lastHit := now;
      attacked := false;
      lastAttack := now;
      stunned := false;
      deathCounter := 0;
      deathUpdateTime := now;
      flipper := false;
      frameIndex := 0;
      actionType := 0;
      updateTime := now;
      isRunning := false;
      rect := SpawnRect(x, y, size);
    }

    /** `move`: the player (type 0) must be given the exit tile. */
    method Move(dx: int, dy: int, obstacles: seq<Rect>, exit: Option<Rect>, interact: bool)
      returns (scroll: Vec, levelComplete: bool)
      requires kind.charType == 0 ==> exit.Some?
      requires Valid()
      modifies this`rect, this`flipper, this`isRunning
      ensures var m := K.Move(old(rect), old(flipper), dx, dy, obstacles, kind.charType == 0, exit, interact);
              State() == old(State()).(rect := m.rect, flipper := m.flipper, isRunning := m.isRunning) &&
              scroll == m.scroll && levelComplete == m.levelComplete
      ensures Valid()
    {
      var m := K.MoveBody(rect, flipper, dx, dy, obstacles, kind.charType == 0, exit, interact);
      rect, flipper, isRunning := m.rect, m.flipper, m.isRunning;
      scroll, levelComplete := m.scroll, m.levelComplete;
    }

    /** `update_action` */
    method UpdateAction(newAction: int, now: int)
      requires Valid() && 0 <= newAction < 2
      modifies this`actionType, this`frameIndex, this`updateTime
      ensures State() == old(State()).(anim := SwitchAction(old(State()).anim, newAction, now))
      ensures Valid()
    {
      if newAction != actionType {
        actionType := newAction;
        frameIndex := 0;
        updateTime := now;
      }
    }

    /** `ai`, for an enemy chasing `player`; `jitter` stands for `randint(-1, 1)`. */
    method Ai(player: Character, obstacles: seq<Rect>, scroll: Vec,
              clip: (Rect, Segment) -> Option<Segment>, jitter: int, now: int) returns (fireball: Option<Shot>)
      requires player != this && Valid() && kind.charType != 0 && -1 <= jitter <= 1
      modifies this, player
      ensures var r := AiStep(kind, old(State()), old(player.State()), obstacles, scroll, clip, jitter, now);
              State() == r.me && player.State() == r.player && fireball == r.fireball
      ensures Valid()
    {
      Scroll(scroll);
      if !alive {
        return None;
      }
      fireball := Engage(player, obstacles, clip, jitter, now);
      Stun(now);
      Expire(now);
    }

    /** Carry the character along with the screen scroll. */
    method Scroll(scroll: Vec)
      modifies this`rect
      ensures State() == old(State()).(rect := old(rect).ShiftBy(scroll))
    {
      rect := rect.ShiftBy(scroll);
    }

    /** The sight line, the distance, the fixed step and, unless stunned, the move and attacks. */
    method Engage(player: Character, obstacles: seq<Rect>, clip: (Rect, Segment) -> Option<Segment>,
                  jitter: int, now: int) returns (fireball: Option<Shot>)
      requires player != this && Valid() && kind.charType != 0
      modifies this, player
      ensures Valid()
      ensures var r := EngageStep(kind, old(State()), old(player.State()), obstacles, clip, jitter, now);
              State() == r.me && player.State() == r.player && fireball == r.fireball
    {
      fireball := None;
      var clipped := ClippedLine(obstacles, Segment(rect.Center(), player.rect.Center()), clip);
      var d2 := Dist2(rect.Center(), player.rect.Center());
      var v := ComputeHeading(rect.Center(), player.rect.Center(), d2, clipped.Some?);
      if !stunned {
        fireball := Pursue(player, obstacles, v, d2, clipped.Some?, jitter, now);
      }
    }

    /** The unstunned branch of `ai`. */
    method Pursue(player: Character, obstacles: seq<Rect>, v: Vec, d2: nat, blocked: bool,
                  jitter: int, now: int) returns (fireball: Option<Shot>)
      requires player != this && kind.charType != 0 && Valid()
      modifies this, player
      ensures Valid()
      ensures var r := Act(kind, old(State()), old(player.State()), obstacles, v, d2, blocked, jitter, now);
              State() == r.me && player.State() == r.player && fireball == r.fireball
    {
      var _, _ := Move(v.x, v.y, obstacles, None, false);
      Strike(player, d2, blocked, jitter, now);
      fireball := Shoot(player.rect.Center(), d2, blocked, now);
    }

    /** The melee attack. */
    method Strike(player: Character, d2: nat, blocked: bool, jitter: int, now: int)
      requires player != this
      modifies this`attacked, this`lastAttack, player`health, player`hit, player`lastHit
      ensures (State(), player.State()) == StrikeStep(kind, old(State()), old(player.State()), d2, blocked, jitter, now)
    {
      if Closer(d2, ATTACK_RANGE) && !attacked && !player.hit && !blocked {
        player.TakeHit(kind.attackDamage + jitter, now);
        attacked, lastAttack := true, now;
      }
    }

    /** The player's side of a melee strike: it loses `damage` health and is marked hit at `now`. */
    method TakeHit(damage: int, now: int)
      modifies this`health, this`hit, this`lastHit
      ensures State() == old(State()).(health := old(health) - damage, hit := true, lastHit := now)
    {
      health, hit, lastHit := health - damage, true, now;
    }

    /** The boss fireball. */
    method Shoot(target: Vec, d2: nat, blocked: bool, now: int) returns (fireball: Option<Shot>)
      requires Valid()
      modifies this`lastAttack
      ensures Valid()
      ensures (State(), fireball) == ShootStep(kind, old(State()), target, d2, blocked, now)
    {
      fireball := None;
      if kind.boss {
        if Closer(d2, 500) && Farther(d2, 50) && now - lastAttack > 1250 && !blocked {
          fireball := Some(Shot(rect.Center(), target));
          lastAttack := now;
        }
      }
    }

    /** The stun of a hit non-boss. */
    method Stun(now: int)
      requires Valid()
      modifies this`hit, this`lastHit, this`stunned, this`isRunning,
               this`actionType, this`frameIndex, this`updateTime
      ensures State() == StunStep(kind, old(State()), now)
      ensures Valid()
    {
      if hit && !kind.boss {
        hit, lastHit, stunned, isRunning := false, now, true, false;
        UpdateAction(0, now);
      }
    }

    /** The stun and attack timers of `ai`. */
    method Expire(now: int)
      modifies this`stunned, this`attacked
      ensures State() == ExpireStep(kind, old(State()), now)
    {
      if now - lastHit > 70 {
        stunned := false;
      }
      if attacked && now - lastAttack > kind.attackCooldown {
        attacked := false;
      }
    }

    /** `death_flash`: returns the flash counter, or 1 once it is spent. */
    method DeathFlash(now: int) returns (counter: int)
      requires Valid()
      modifies this`deathCounter, this`deathUpdateTime
      ensures (State(), counter) == DeathFlashStep(old(State()), now)
      ensures Valid()
    {
      if deathCounter >= 15 {
        return 1;
      }
      if now - deathUpdateTime > 60 {
        deathCounter := deathCounter + 1;
        deathUpdateTime := now;
      }
      return deathCounter;
    }

    /** `update_sprite` */
    method UpdateSprite(now: int)
      requires Valid()
      modifies this`health, this`alive, this`hit, this`actionType, this`frameIndex, this`updateTime
      ensures State() == UpdateSpriteStep(kind, old(State()), now)
      ensures Valid()
    {
      if health <= 0 || !alive {
        health, alive := 0, false;
        return;
      }
      if kind.charType == 0 && hit && now - lastHit > 400 {
        hit := false;
      }
      if isRunning {
        UpdateAction(1, now);
      } else {
        UpdateAction(0, now);
      }
      Animate(now);
    }

    /** The 80 ms frame clock of `update_sprite`. */
    method Animate(now: int)
      requires Valid()
      modifies this`frameIndex, this`updateTime
      ensures State() == old(State()).(anim := TickFrame(old(State()).anim, kind.animLengths, now, 80))
      ensures Valid()
    {
      if now - updateTime > 80 {
        frameIndex := frameIndex + 1;
        updateTime := now;
        if frameIndex >= kind.animLengths[actionType] {
          frameIndex := 0;
        }
      }
    }
  }

  // ---------------------------------------------------------------------------
  // Properties of one `ai` call

  /** A dead enemy is carried by the scroll and nothing else changes. */
  lemma AiDeadOnlyScrolls(k: Kind, s: CharState, p: CharState, obstacles: seq<Rect>, scroll: Vec,
                          clip: (Rect, Segment) -> Option<Segment>, jitter: int, now: int)
    requires !s.alive
    ensures AiStep(k, s, p, obstacles, scroll, clip, jitter, now) ==
            AiResult(s.(rect := s.rect.ShiftBy(scroll)), p, None)
  {
  }

  /** Each axis of the fixed step is one of no step or `ENEMY_SPEED` pixels,
      with the sign of the centre difference on that axis; there is no step at
      all within RANGE or when an obstacle clips the sight line. */
  lemma HeadingIsFixedStep(here: Vec, target: Vec, d2: nat, blocked: bool)
    ensures var v := Heading(here, target, d2, blocked);
            v.x in {-K.Pixels(ENEMY_SPEED), 0, K.Pixels(ENEMY_SPEED)} &&
            v.y in {-K.Pixels(ENEMY_SPEED), 0, K.Pixels(ENEMY_SPEED)} &&
            (Farther(d2, RANGE) && !blocked ==>
               v.x == Sign(target.x - here.x) * K.Pixels(ENEMY_SPEED) &&
               v.y == Sign(target.y - here.y) * K.Pixels(ENEMY_SPEED)) &&
            (!Farther(d2, RANGE) || blocked ==> v == Vec(0, 0))
  {
  }

  /** A stunned enemy neither moves nor attacks: only the scroll carries it, and the player is untouched. */
  lemma StunnedStaysPut(k: Kind, s: CharState, p: CharState, obstacles: seq<Rect>, scroll: Vec,
                        clip: (Rect, Segment) -> Option<Segment>, jitter: int, now: int)
    requires s.alive && s.stunned
    ensures var r := AiStep(k, s, p, obstacles, scroll, clip, jitter, now);
            r.me.rect == s.rect.ShiftBy(scroll) && r.player == p && r.fireball.None?
  {
  }

  /** The melee attack happens exactly when a living, unstunned enemy with a
      clear sight line is closer than ATTACK_RANGE (however close), has no
      attack pending and the player is not already hit; it lowers the player's
      health by the damage plus the jitter and marks the player hit. */
  lemma AttackIff(k: Kind, s: CharState, p: CharState, obstacles: seq<Rect>, scroll: Vec,
                  clip: (Rect, Segment) -> Option<Segment>, jitter: int, now: int)
    ensures var r := AiStep(k, s, p, obstacles, scroll, clip, jitter, now);
            var c := s.rect.ShiftBy(scroll).Center();
            var d2 := Dist2(c, p.rect.Center());
            var strike := s.alive && !s.stunned && !Blocked(obstacles, Segment(c, p.rect.Center()), clip) &&
                          Closer(d2, ATTACK_RANGE) && !s.attacked && !p.hit;
            r.player == (if strike then p.(health := p.health - (k.attackDamage + jitter), hit := true, lastHit := now) else p) &&
            (strike ==> r.me.lastAttack == now)
  {
  }

  /** A boss spawns a fireball exactly when it is alive and unstunned, sees the
      player, is farther than 50 and closer than 500, and its last attack,
      counting a strike in this same call, is more than 1250 ms ago; the
      attack clock then restarts. */
  lemma FireballIff(k: Kind, s: CharState, p: CharState, obstacles: seq<Rect>, scroll: Vec,
                    clip: (Rect, Segment) -> Option<Segment>, jitter: int, now: int)
    ensures var r := AiStep(k, s, p, obstacles, scroll, clip, jitter, now);
            var c := s.rect.ShiftBy(scroll).Center();
            var d2 := Dist2(c, p.rect.Center());
            var clear := !Blocked(obstacles, Segment(c, p.rect.Center()), clip);
            var strike := Closer(d2, ATTACK_RANGE) && !s.attacked && !p.hit;
            (r.fireball.Some? <==>
               s.alive && !s.stunned && clear && k.boss && Closer(d2, 500) && Farther(d2, 50) &&
               now - s.lastAttack > 1250 && !strike) &&
            (r.fireball.Some? ==> r.me.lastAttack == now)
  {
  }

  /** After `ai` a living enemy has an attack pending only within its cooldown of its last attack. */
  lemma AttackClears(k: Kind, s: CharState, p: CharState, obstacles: seq<Rect>, scroll: Vec,
                     clip: (Rect, Segment) -> Option<Segment>, jitter: int, now: int)
    requires s.alive
    ensures var r := AiStep(k, s, p, obstacles, scroll, clip, jitter, now);
            (r.me.attacked ==> now - r.me.lastAttack <= k.attackCooldown) &&
            (r.me.stunned ==> now - r.me.lastHit <= 70)
  {
  }

  // ---------------------------------------------------------------------------
  // Death and animation

  /** The flash counter never decreases, grows by at most one per call and
      never exceeds 15; the value returned is the counter while it is below
      15, and 1 from then on. */
  lemma DeathFlashReturnsOneWhenSpent(s: CharState, now: int)
    requires 0 <= s.deathCounter <= 15
    ensures var (s', n) := DeathFlashStep(s, now);
            s.deathCounter <= s'.deathCounter <= s.deathCounter + 1 && s'.deathCounter <= 15 &&
            (s.deathCounter == 15 ==> n == 1) &&
            (s.deathCounter < 15 ==> n == s'.deathCounter && 0 <= n <= 15)
  {
  }

  /** `update_sprite`: death is sticky and clamps health to 0; the player's
      hit flag clears exactly when it was hit more than 400 ms ago; the action
      afterwards is run exactly when the character is running. */
  lemma UpdateSpriteFacts(k: Kind, s: CharState, now: int)
    requires |k.animLengths| == 2 && 0 <= s.anim.actionType < 2
    ensures var s' := UpdateSpriteStep(k, s, now);
            (s.health <= 0 || !s.alive ==> !s'.alive && s'.health == 0) &&
            (s.health > 0 && s.alive ==>
               s'.alive && s'.health == s.health &&
               (s'.anim.actionType == 1 <==> s.isRunning) &&
               (s'.hit <==> s.hit && !(k.charType == 0 && now - s.lastHit > 400)))
  {
  }

  /** The frame index stays a valid index into the current action's frames. */
  lemma UpdateSpriteKeepsFrameValid(k: Kind, s: CharState, now: int)
    requires k.Valid() && AnimValid(s.anim, k.animLengths)
    ensures AnimValid(UpdateSpriteStep(k, s, now).anim, k.animLengths)
  {
  }

  /** Death is permanent: no step of a character sets `alive` back to true. */
  lemma DeathIsPermanent(k: Kind, s: CharState, p: CharState, obstacles: seq<Rect>, scroll: Vec,
                         clip: (Rect, Segment) -> Option<Segment>, jitter: int, now: int)
    requires !s.alive && |k.animLengths| == 2 && 0 <= s.anim.actionType < 2
    ensures !AiStep(k, s, p, obstacles, scroll, clip, jitter, now).me.alive
    ensures !DeathFlashStep(s, now).0.alive
    ensures !UpdateSpriteStep(k, s, now).alive
  {
  }
}
