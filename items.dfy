/** `Item` of `items.py`: a coin or a potion that drifts with the screen, is
    collected on contact with the player, and cycles its animation frames.
    A dummy coin is the score icon of the HUD: it never moves and is never
    collected. */
module Items {
  import opened Geometry
  import C = Characters

  /** The item kinds: 0 a coin, 1 a potion; other values are collected without effect. */
  const COIN: int := 0
  const POTION: int := 1

  /** An item's mutable state: its rectangle, animation frame and clock, and whether it was removed. */
  datatype ItemState = ItemState(rect: Rect, frameIndex: int, updateTime: int, killed: bool)

  /** The player after collecting an item of the given kind. */
  function Collect(itemType: int, p: C.CharState): (p': C.CharState)
    ensures itemType == COIN ==> p' == p.(score := p.score + 1)
    ensures itemType == POTION ==> p' == p.(health := if p.health + 25 > 100 then 100 else p.health + 25)
    ensures itemType != COIN && itemType != POTION ==> p' == p
  {
    if itemType == COIN then p.(score := p.score + 1)
    else if itemType == POTION then p.(health := Min(p.health + 25, 100))
    else p
  }

  /** The scroll shift of `Item.update`; the dummy coin does not move. */
  function DriftStep(dummy: bool, i: ItemState, scroll: Vec): ItemState
  {
    if !dummy then i.(rect := i.rect.ShiftBy(scroll)) else i
  }

  /** Collection: on overlap with the player, and never for the dummy coin,
      the player gets the item's effect and the item is removed. */
  function TakeStep(itemType: int, dummy: bool, i: ItemState, player: C.CharState): (ItemState, C.CharState)
  {
    if Overlaps(i.rect, player.rect) && !dummy then (i.(killed := true), Collect(itemType, player))
    else (i, player)
  }

  /** The 150 ms frame clock; the frame index wraps to 0 past the last frame. */
  function TickStep(frames: int, i: ItemState, now: int): ItemState
  {
    if now - i.updateTime > 150 then
      i.(updateTime := now, frameIndex := if i.frameIndex + 1 >= frames then 0 else i.frameIndex + 1)
    else i
  }

  /** `Item.update`: drift, collection, then the frame clock, which runs even
      on the call that collects the item. */
  function ItemStep(itemType: int, dummy: bool, frames: int, i: ItemState, scroll: Vec,
                    player: C.CharState, now: int): (ItemState, C.CharState)
  {
    var taken := TakeStep(itemType, dummy, DriftStep(dummy, i, scroll), player);
    (TickStep(frames, taken.0, now), taken.1)
  }

  class Item {
    const itemType: int
    const dummy: bool
    /** The number of frames in the item's animation. */
    const frames: int
    var rect: Rect
    var frameIndex: int
    var updateTime: int
    var killed: bool

    function State(): ItemState
      reads this
    {
      ItemState(rect, frameIndex, updateTime, killed)
    }

    /** The frame index is a valid index into the animation. */
    predicate Valid()
      reads this
    {
      0 <= frameIndex < frames
    }

    /** `__init__`: the first frame's rectangle centred on (x, y), its clock started at `now`. */
    constructor (x: int, y: int, itemType: int, frames: int, w: nat, h: nat, dummy: bool, now: int)
      requires frames > 0
      ensures this.itemType == itemType && this.dummy == dummy && this.frames == frames
      ensures State() == ItemState(Rect(0, 0, w, h).WithCenter(x, y), 0, now, false)
      ensures Valid()
    {
      this.itemType := itemType;
      this.dummy := dummy;
      this.frames := frames;
      rect := Rect(0, 0, w, h).WithCenter(x, y);
      frameIndex := 0;
      updateTime := now;
      killed := false;
    }

    /** `Item.update` */
    method Update(scroll: Vec, player: C.Character, now: int)
      requires Valid()
      modifies this, player
      ensures var (i', p') := ItemStep(itemType, dummy, frames, old(State()), scroll, old(player.State()), now);
              State() == i' && player.State() == p'
      ensures Valid()
    {
      Drift(scroll);
      Take(player);
      Tick(now);
    }

    method Drift(scroll: Vec)
      modifies this`rect
      ensures State() == DriftStep(dummy, old(State()), scroll)
    {
      if !dummy {
        rect := rect.ShiftBy(scroll);
      }
    }

    method Take(player: C.Character)
      modifies this`killed, player
      ensures (State(), player.State()) == TakeStep(itemType, dummy, old(State()), old(player.State()))
    {
      if Overlaps(rect, player.rect) && !dummy {
        if itemType == COIN {
          player.GainCoin();
        } else if itemType == POTION {
          player.DrinkPotion();
        }
        killed := true;
      }
    }

    method Tick(now: int)
      requires Valid()
      modifies this`frameIndex, this`updateTime
      ensures State() == TickStep(frames, old(State()), now)
      ensures Valid()
    {
      if now - updateTime > 150 {
        updateTime := now;
        frameIndex := frameIndex + 1;
        if frameIndex >= frames {
          frameIndex := 0;
        }
      }
    }
  }

  /** A non-dummy item drifts by exactly the scroll; a dummy coin stays where it is. */
  lemma ItemDriftsWithScroll(itemType: int, dummy: bool, frames: int, i: ItemState, scroll: Vec,
                             player: C.CharState, now: int)
    ensures var (i', _) := ItemStep(itemType, dummy, frames, i, scroll, player, now);
            i'.rect == (if dummy then i.rect else i.rect.Shift(scroll.x, scroll.y))
  {
  }

  /** Collection happens exactly on overlap after the shift, never for the
      dummy coin: a coin adds exactly one to the score, a potion heals 25 up
      to 100, and the item is removed. Without collection the player is unchanged
      and the item stays. */
  lemma CollectionFacts(itemType: int, dummy: bool, frames: int, i: ItemState, scroll: Vec,
                        player: C.CharState, now: int)
    ensures var (i', p') := ItemStep(itemType, dummy, frames, i, scroll, player, now);
            var collected := !dummy && Overlaps(i.rect.ShiftBy(scroll), player.rect);
            (collected && itemType == COIN ==> i'.killed && p' == player.(score := player.score + 1)) &&
            (collected && itemType == POTION ==>
               i'.killed && p' == player.(health := Min(player.health + 25, 100))) &&
            (!collected ==> p' == player && i'.killed == i.killed)
  {
  }

  /** A potion never leaves a player with at most 100 health above 100, and never lowers it. */
  lemma PotionClamps(p: C.CharState)
    requires p.health <= 100
    ensures var p' := Collect(POTION, p);
            p.health <= p'.health <= 100 && (p.health <= 75 ==> p'.health == p.health + 25)
  {
  }

  /** The frame index stays a valid index into the animation. */
  lemma FrameStaysValid(itemType: int, dummy: bool, frames: int, i: ItemState, scroll: Vec,
                        player: C.CharState, now: int)
    requires 0 <= i.frameIndex < frames
    ensures var (i', _) := ItemStep(itemType, dummy, frames, i, scroll, player, now);
            0 <= i'.frameIndex < frames
  {
  }
}
