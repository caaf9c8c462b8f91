/** What the two `Character` variants share: the per-archetype constants fixed
    at construction, the animation state with `update_action` and the frame
    clock, the spawn rectangle and the fireball spawn record. */
module CharacterKinds {
  import opened Geometry
  import opened Constants

  /** Constants of one character, fixed by its constructor. `animLengths[a]`
      is the number of frames of action `a` (0 idle, 1 run). */
  datatype Kind = Kind(charType: int, boss: bool, size: int,
                       attackDamage: int, attackCooldown: int, animLengths: seq<int>)
  {
    predicate Valid()
    {
      |animLengths| == 2 && animLengths[0] > 0 && animLengths[1] > 0 && size >= 1
    }
  }

  /** The constants `__init__` derives: damage and cooldown are read from the
      tables at `char_type - 1`, which for the player (type 0) is Python's last entry. */
  function MakeKind(charType: int, boss: bool, size: int, animLengths: seq<int>): (k: Kind)
    requires -|ENEMY_DAMAGE| < charType <= |ENEMY_DAMAGE|
    ensures k.charType == charType && k.boss == boss && k.size == size && k.animLengths == animLengths
    ensures 1 <= charType ==> k.attackDamage == ENEMY_DAMAGE[charType - 1] &&
                              k.attackCooldown == ENEMY_ATTACK_COOLDOWN[charType - 1]
    ensures charType == 0 ==> k.attackDamage == 15 && k.attackCooldown == 800
  {
    Kind(charType, boss, size, PyIndex(ENEMY_DAMAGE, charType - 1),
         PyIndex(ENEMY_ATTACK_COOLDOWN, charType - 1), animLengths)
  }

  /** The rectangle `__init__` builds: side `TILE_SIZE * size - 4`, centred on the spawn point. */
  function SpawnRect(x: int, y: int, size: int): (r: Rect)
    requires size >= 1
    ensures r.w == r.h == TILE_SIZE * size - 4
    ensures r.CenterX() == x && r.CenterY() == y
  {
    Rect(0, 0, TILE_SIZE * size - 4, TILE_SIZE * size - 4).WithCenter(x, y)
  }

  /** A fireball a boss spawns: it starts at the boss's centre and is aimed at the player's centre. */
  datatype Shot = Shot(origin: Vec, target: Vec)

  /** The animation state: current action, frame within it, time of the last frame change. */
  datatype Anim = Anim(actionType: int, frameIndex: int, updateTime: int)

  /** The frame index is a valid index into the current action's frames. */
  predicate AnimValid(a: Anim, lengths: seq<int>)
  {
    |lengths| == 2 && 0 <= a.actionType < 2 && 0 <= a.frameIndex < lengths[a.actionType]
  }

  /** `update_action`: a new action restarts at frame 0 and resets the clock; the same action changes nothing. */
  function SwitchAction(a: Anim, newAction: int, now: int): (a': Anim)
    ensures newAction == a.actionType ==> a' == a
    ensures newAction != a.actionType ==> a'.actionType == newAction && a'.frameIndex == 0 && a'.updateTime == now
  {
    if newAction != a.actionType then Anim(newAction, 0, now) else a
  }

  /** The frame clock of `update_sprite`: after more than `cooldown` ms the
      frame advances, wrapping to 0 past the last frame of the current action. */
  function TickFrame(a: Anim, lengths: seq<int>, now: int, cooldown: int): (a': Anim)
    requires |lengths| == 2 && 0 <= a.actionType < 2
    ensures a'.actionType == a.actionType
    ensures now - a.updateTime <= cooldown ==> a' == a
    ensures now - a.updateTime > cooldown ==>
              a'.updateTime == now &&
              a'.frameIndex == (if a.frameIndex + 1 >= lengths[a.actionType] then 0 else a.frameIndex + 1)
  {
    if now - a.updateTime > cooldown then
      var next := a.frameIndex + 1;
      Anim(a.actionType, if next >= lengths[a.actionType] then 0 else next, now)
    else a
  }

  /** Switching action keeps the frame index valid, given frames in every action. */
  lemma SwitchActionKeepsValid(a: Anim, lengths: seq<int>, newAction: int, now: int)
    requires AnimValid(a, lengths) && 0 <= newAction < 2 && lengths[0] > 0 && lengths[1] > 0
    ensures AnimValid(SwitchAction(a, newAction, now), lengths)
  {
  }

  /** The frame clock keeps the frame index below the current action's frame count. */
  lemma TickFrameKeepsValid(a: Anim, lengths: seq<int>, now: int, cooldown: int)
    requires AnimValid(a, lengths)
    ensures AnimValid(TickFrame(a, lengths, now, cooldown), lengths)
  {
  }
}
