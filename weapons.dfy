/** `weapon.py`: the bow's one-shot-per-click trigger, and the per-frame
    update of arrows and fireballs. Velocities derived from `atan2`, `cos` and
    `sin` are inputs, in the fixed-point units of `Kinematics`; a sprite's
    `kill()` sets its `killed` flag, and the owner of the group drops it. */
module Weapons {
  import opened Wrappers
  import opened Geometry
  import opened Constants
  import K = Kinematics
  import C = Characters

  /** A rectangle lies wholly beyond one of the screen's edges. */
  predicate OffScreen(r: Rect)
  {
    r.Right() < 0 || r.Left() > SCREEN_WIDTH || r.Bottom() < 0 || r.Top() > SCREEN_HEIGHT
  }

  /** Some obstacle overlaps the rectangle. */
  predicate AnyOverlap(obstacles: seq<Rect>, r: Rect)
  {
    exists k :: 0 <= k < |obstacles| && Overlaps(obstacles[k], r)
  }

  /** A rectangle moved by a fixed-point velocity, each coordinate truncated as pygame does. */
  function Travel(r: Rect, v: Vec): (r': Rect)
    ensures r'.w == r.w && r'.h == r.h
    ensures K.StepFollows(v.x, r'.x - r.x) && K.StepFollows(v.y, r'.y - r.y)
  {
    Rect(K.Advance(r.x, v.x), K.Advance(r.y, v.y), r.w, r.h)
  }

  /** The obstacle scan of both projectiles: true as soon as one obstacle overlaps. */
  method HitsObstacle(obstacles: seq<Rect>, r: Rect) returns (hit: bool)
    ensures hit <==> AnyOverlap(obstacles, r)
  {
    hit := false;
    var i := 0;
    while i < |obstacles|
      invariant 0 <= i <= |obstacles|
      invariant forall k :: 0 <= k < i ==> !Overlaps(obstacles[k], r)
    {
      if Overlaps(obstacles[i], r) {
        return true;
      }
      i := i + 1;
    }
  }

  // ---------------------------------------------------------------------------
  // The bow

  /** The bow's state: its rectangle, whether the current press already shot, and when the last arrow left. */
  datatype WeaponState = WeaponState(rect: Rect, fired: bool, lastShot: int)

  /** `update_weapon`: the bow follows the player's centre; a press fires
      when this press has not fired yet and more than 450 ms have passed since
      the last arrow; a release re-arms the trigger. The second component says
      whether an arrow was produced. */
  function TriggerStep(w: WeaponState, center: Vec, pressed: bool, now: int): (WeaponState, bool)
  {
    var placed := w.(rect := w.rect.WithCenter(center.x, center.y));
    var fires := pressed && !w.fired && now - w.lastShot > 450;
    var shot := if fires then placed.(fired := true, lastShot := now) else placed;
    (if !pressed then shot.(fired := false) else shot, fires)
  }

  /** Successive `update_weapon` calls at the given times with the button held:
      the final state and the number of arrows produced. */
  function HeldRun(w: WeaponState, center: Vec, times: seq<int>): (WeaponState, nat)
    decreases |times|
  {
    if times == [] then (w, 0)
    else
      var step := TriggerStep(w, center, true, times[0]);
      var rest := HeldRun(step.0, center, times[1..]);
      (rest.0, rest.1 + if step.1 then 1 else 0)
  }

  /** One arrow per click: however long the button is held, at most one arrow
      leaves, and none at all when this press has already fired. */
  lemma {:induction false} OneArrowPerPress(w: WeaponState, center: Vec, times: seq<int>)
    ensures HeldRun(w, center, times).1 <= 1
    ensures w.fired ==> HeldRun(w, center, times).1 == 0
    decreases |times|
  {
    if times != [] {
      var step := TriggerStep(w, center, true, times[0]);
      OneArrowPerPress(step.0, center, times[1..]);
    }
  }

  /** The trigger fires exactly on a fresh press past the cooldown, restarts
      the cooldown when it does, and is re-armed by a release. */
  lemma TriggerFacts(w: WeaponState, center: Vec, pressed: bool, now: int)
    ensures var (w', fires) := TriggerStep(w, center, pressed, now);
            (fires <==> pressed && !w.fired && now - w.lastShot > 450) &&
            (fires ==> w'.fired && w'.lastShot == now) &&
            (!fires ==> w'.lastShot == w.lastShot) &&
            (!pressed ==> !w'.fired) &&
            w'.rect.Center() == center
  {
  }

  class Weapon {
    var rect: Rect
    var fired: bool
    var lastShot: int

    function State(): WeaponState
      reads this
    {
      WeaponState(rect, fired, lastShot)
    }

    /** `__init__`: a bow of the image's size, not yet fired, its cooldown started at `now`. */
    constructor (w: nat, h: nat, now: int)
      ensures State() == WeaponState(Rect(0, 0, w, h), false, now)
    {
      rect := Rect(0, 0, w, h);
      fired := false;
      lastShot := now;
    }

    /** `update_weapon`. `pressed` is the left mouse button and `aim` the
        arrow velocity toward the mouse; `shotW` by `shotH` is the size of the
        arrow image rotated to this aim, which gives the arrow its rectangle. */
    method Update(player: Rect, pressed: bool, aim: Vec, shotW: nat, shotH: nat, now: int) returns (arrow: Arrow?)
      modifies this
      ensures var (w', fires) := TriggerStep(old(State()), player.Center(), pressed, now);
              State() == w' && (arrow != null <==> fires)
      ensures arrow != null ==>
                fresh(arrow) &&
                arrow.State() == ArrowState(Rect(0, 0, shotW, shotH).WithCenter(player.CenterX(), player.CenterY()),
                                            aim, false, 0, false)
    {
      arrow := null;
      rect := rect.WithCenter(player.CenterX(), player.CenterY());
      if pressed && !fired && now - lastShot > 450 {
        arrow := new Arrow(shotW, shotH, rect.CenterX(), rect.CenterY(), aim);
        fired := true;
        lastShot := now;
      }
      if !pressed {
        fired := false;
      }
    }
  }

  // ---------------------------------------------------------------------------
  // Arrows

  /** An arrow: its rectangle, velocity, wall latch, linger counter and whether it was removed. */
  datatype ArrowState = ArrowState(rect: Rect, velocity: Vec, collideWall: bool, counter: int, killed: bool)

  /** What an arrow sees of an enemy. */
  datatype Target = Target(alive: bool, rect: Rect)

  /** An arrow at `r` can hit this enemy. */
  predicate Hits(t: Target, r: Rect)
  {
    t.alive && Overlaps(t.rect, r)
  }

  /** The first enemy from index `i` on that the arrow hits. */
  function FirstHitFrom(ts: seq<Target>, r: Rect, i: nat): (v: Option<nat>)
    ensures v.Some? ==> i <= v.value < |ts| && Hits(ts[v.value], r) &&
                        forall j :: i <= j < v.value ==> !Hits(ts[j], r)
    ensures v.None? ==> forall j :: i <= j < |ts| ==> !Hits(ts[j], r)
    decreases |ts| - i
  {
    if i >= |ts| then None
    else if Hits(ts[i], r) then Some(i)
    else FirstHitFrom(ts, r, i + 1)
  }

  /** The first enemy in the list that the arrow hits. */
  function FirstHit(ts: seq<Target>, r: Rect): Option<nat>
  {
    FirstHitFrom(ts, r, 0)
  }

  /** What one `Arrow.update` produces: the arrow, the damage dealt and the index of the enemy hit. */
  datatype ArrowOutcome = ArrowOutcome(arrow: ArrowState, damage: int, victim: Option<nat>)

  /** `Arrow.update`. An arrow that lingered 120 frames is removed before the
      scroll; a latched arrow is carried by the scroll and counts; otherwise it
      flies, is removed off screen, latches on a wall, or hits the first living
      enemy it overlaps for `15 + jitter` and is removed. */
  function ArrowStep(a: ArrowState, scroll: Vec, targets: seq<Target>, obstacles: seq<Rect>, jitter: int): (r: ArrowOutcome)
    ensures r.victim.Some? ==> r.victim.value < |targets|
  {
    if a.counter >= 120 then ArrowOutcome(a.(killed := true), 0, None)
    else
      var shifted := a.rect.ShiftBy(scroll);
      if a.collideWall then ArrowOutcome(a.(rect := shifted, counter := a.counter + 1), 0, None)
      else
        var flown := a.(rect := Travel(shifted, a.velocity));
        if OffScreen(flown.rect) then ArrowOutcome(flown.(killed := true), 0, None)
        else if AnyOverlap(obstacles, flown.rect) then ArrowOutcome(flown.(collideWall := true), 0, None)
        else
          match FirstHit(targets, flown.rect)
          case None => ArrowOutcome(flown, 0, None)
          case Some(i) => ArrowOutcome(flown.(killed := true), 15 + jitter, Some(i))
  }

  /** The arrow's own flight does not depend on the enemies: the step either
      ends before the scan, as with no enemy at all, or scans them from the
      flown rectangle. */
  lemma ArrowStepSplit(a: ArrowState, scroll: Vec, targets: seq<Target>, obstacles: seq<Rect>, jitter: int)
    ensures var alone := ArrowStep(a, scroll, [], obstacles, 0);
            var flown := alone.arrow;
            var flying := a.counter < 120 && !a.collideWall && !OffScreen(flown.rect) && !AnyOverlap(obstacles, flown.rect);
            ArrowStep(a, scroll, targets, obstacles, jitter) ==
              if !flying then alone
              else match FirstHit(targets, flown.rect)
                   case None => alone
                   case Some(i) => ArrowOutcome(flown.(killed := true), 15 + jitter, Some(i))
  {
  }

  /** The enemies as an arrow sees them. */
  function Targets(enemies: seq<C.Character>): (ts: seq<Target>)
    reads enemies
    ensures |ts| == |enemies|
    ensures forall i :: 0 <= i < |enemies| ==> ts[i] == Target(enemies[i].alive, enemies[i].rect)
  {
    seq(|enemies|, i requires 0 <= i < |enemies| reads enemies => Target(enemies[i].alive, enemies[i].rect))
  }

  /** The enemy scan of `Arrow.update`: stop at the first living enemy the arrow overlaps. */
  method FindTarget(enemies: seq<C.Character>, r: Rect) returns (victim: Option<nat>)
    ensures victim == FirstHit(Targets(enemies), r)
  {
    ghost var ts := Targets(enemies);
    var i := 0;
    while i < |enemies|
      invariant 0 <= i <= |enemies|
      invariant FirstHitFrom(ts, r, i) == FirstHit(ts, r)
    {
      if enemies[i].alive && Overlaps(enemies[i].rect, r) {
        return Some(i);
      }
      i := i + 1;
    }
    return None;
  }

  class Arrow {
    var rect: Rect
    const velocity: Vec
    var collideWall: bool
    var collisionCounter: int
    var killed: bool

    function State(): ArrowState
      reads this
    {
      ArrowState(rect, velocity, collideWall, collisionCounter, killed)
    }

    /** `Arrow.__init__`: the rectangle of the arrow image, rotated to its aim (`w` by `h`), centred on (x, y), flying at `velocity`. */
    constructor (w: nat, h: nat, x: int, y: int, velocity: Vec)
      ensures State() == ArrowState(Rect(0, 0, w, h).WithCenter(x, y), velocity, false, 0, false)
    {
      rect := Rect(0, 0, w, h).WithCenter(x, y);
      this.velocity := velocity;
      collideWall := false;
      collisionCounter := 0;
      killed := false;
    }

    /** The arrow's own part of `Arrow.update`, up to the enemy scan.
        `flying` says whether the arrow is still in flight afterwards. */
    method Fly(scroll: Vec, obstacles: seq<Rect>) returns (flying: bool)
      modifies this
      ensures var r := ArrowStep(old(State()), scroll, [], obstacles, 0);
              State() == r.arrow &&
              (flying <==> old(collisionCounter) < 120 && !old(collideWall) &&
                           !OffScreen(rect) && !AnyOverlap(obstacles, rect))
    {
      if collisionCounter >= 120 {
        killed := true;
        return false;
      }
      rect := rect.ShiftBy(scroll);
      if collideWall {
        collisionCounter := collisionCounter + 1;
        return false;
      }
      rect := Travel(rect, velocity);
      if OffScreen(rect) {
        killed := true;
        return false;
      }
      var wall := HitsObstacle(obstacles, rect);
      if wall {
        collideWall := true;
        return false;
      }
      return true;
    }

    /** `Arrow.update`: the damage dealt and where, and at most one enemy wounded.
        `jitter` stands for `randint(-2, 2)`. */
    method Update(scroll: Vec, enemies: seq<C.Character>, obstacles: seq<Rect>, jitter: int)
      returns (damage: int, damagePos: Option<Rect>)
      modifies this, enemies
      ensures var r := ArrowStep(old(State()), scroll, old(Targets(enemies)), obstacles, jitter);
              State() == r.arrow && damage == r.damage &&
              damagePos == (if r.victim.Some? then Some(old(enemies[r.victim.value].rect)) else None) &&
              forall i :: 0 <= i < |enemies| ==>
                enemies[i].State() == (if r.victim.Some? && enemies[i] == enemies[r.victim.value]
                                       then old(enemies[i].State()).(health := old(enemies[i].health) - damage, hit := true)
                                       else old(enemies[i].State()))
    {
      ArrowStepSplit(State(), scroll, Targets(enemies), obstacles, jitter);
      damage, damagePos := 0, None;
      var flying := Fly(scroll, obstacles);
      if !flying {
        return;
      }
      var victim := FindTarget(enemies, rect);
      if victim.Some? {
        var enemy := enemies[victim.value];
        damage := 15 + jitter;
        damagePos := Some(enemy.rect);
        enemy.Wound(damage);
        killed := true;
      }
    }
  }

  /** A latched arrow that has not lingered 120 frames only drifts with the
      scroll and counts: it does not fly, hit or get removed. */
  lemma LatchedArrowOnlyCounts(a: ArrowState, scroll: Vec, targets: seq<Target>, obstacles: seq<Rect>, jitter: int)
    requires a.collideWall && a.counter < 120
    ensures ArrowStep(a, scroll, targets, obstacles, jitter) ==
            ArrowOutcome(a.(rect := a.rect.ShiftBy(scroll), counter := a.counter + 1), 0, None)
  {
  }

  /** An arrow that lingered 120 frames is removed at once, before the scroll, with no damage. */
  lemma LingeringArrowIsRemoved(a: ArrowState, scroll: Vec, targets: seq<Target>, obstacles: seq<Rect>, jitter: int)
    requires a.counter >= 120
    ensures ArrowStep(a, scroll, targets, obstacles, jitter) == ArrowOutcome(a.(killed := true), 0, None)
  {
  }

  /** Successive updates of an arrow with the given scrolls. */
  function ArrowRun(a: ArrowState, scrolls: seq<Vec>, targets: seq<Target>, obstacles: seq<Rect>): ArrowState
    decreases |scrolls|
  {
    if scrolls == [] then a
    else ArrowRun(ArrowStep(a, scrolls[0], targets, obstacles, 0).arrow, scrolls[1..], targets, obstacles)
  }

  /** A latched arrow lingers exactly until its counter reaches 120: after
      `120 - counter` more updates it is still there, latched, with counter 120. */
  lemma {:induction false} LatchedArrowLingers(a: ArrowState, scrolls: seq<Vec>, targets: seq<Target>, obstacles: seq<Rect>)
    requires a.collideWall && !a.killed && 0 <= a.counter <= 120 && |scrolls| == 120 - a.counter
    ensures var a' := ArrowRun(a, scrolls, targets, obstacles);
            a'.collideWall && !a'.killed && a'.counter == 120
    decreases |scrolls|
  {
    if scrolls != [] {
      LatchedArrowOnlyCounts(a, scrolls[0], targets, obstacles, 0);
      LatchedArrowLingers(ArrowStep(a, scrolls[0], targets, obstacles, 0).arrow, scrolls[1..], targets, obstacles);
    }
  }

  /** An arrow that flies off screen is removed and deals no damage. */
  lemma OffScreenArrowIsRemoved(a: ArrowState, scroll: Vec, targets: seq<Target>, obstacles: seq<Rect>, jitter: int)
    requires a.counter < 120 && !a.collideWall && OffScreen(Travel(a.rect.ShiftBy(scroll), a.velocity))
    ensures var r := ArrowStep(a, scroll, targets, obstacles, jitter);
            r.arrow.killed && r.damage == 0 && r.victim.None?
  {
  }

  /** An arrow that flies into a wall latches, deals no damage and touches no enemy. */
  lemma WallLatchesArrow(a: ArrowState, scroll: Vec, targets: seq<Target>, obstacles: seq<Rect>, jitter: int)
    requires a.counter < 120 && !a.collideWall && !a.killed
    requires var r := Travel(a.rect.ShiftBy(scroll), a.velocity); !OffScreen(r) && AnyOverlap(obstacles, r)
    ensures var r := ArrowStep(a, scroll, targets, obstacles, jitter);
            r.arrow.collideWall && !r.arrow.killed && r.damage == 0 && r.victim.None?
  {
  }

  /** An arrow wounds at most one enemy, the first living one it overlaps
      after flying, for between 13 and 17; it deals damage exactly when it
      wounds someone, and is removed when it does. */
  lemma ArrowWoundsFirstLivingEnemy(a: ArrowState, scroll: Vec, targets: seq<Target>, obstacles: seq<Rect>, jitter: int)
    requires -2 <= jitter <= 2
    ensures var r := ArrowStep(a, scroll, targets, obstacles, jitter);
            (r.damage != 0 <==> r.victim.Some?) &&
            (r.victim.Some? ==>
               var v := r.victim.value;
               13 <= r.damage <= 17 && r.arrow.killed && Hits(targets[v], r.arrow.rect) &&
               forall j :: 0 <= j < v ==> !Hits(targets[j], r.arrow.rect))
  {
  }

  // ---------------------------------------------------------------------------
  // Fireballs

  /** A fireball: its rectangle, velocity, wall latch, age counter and whether it was removed. */
  datatype FireballState = FireballState(rect: Rect, velocity: Vec, collideWall: bool, counter: int, killed: bool)

  /** `Fireball.update`, with whether it burns the player. The scroll comes
      first; a fireball whose counter reached 500 is removed; one overlapping
      an unhit player burns it and is removed (even when latched); a latched
      one counts; otherwise it flies, latches on a wall, or is removed off screen. */
  function FireballStep(f: FireballState, scroll: Vec, player: C.CharState, obstacles: seq<Rect>): (FireballState, bool)
  {
    var shifted := f.(rect := f.rect.ShiftBy(scroll));
    if f.counter >= 500 then (shifted.(killed := true), false)
    else if Overlaps(player.rect, shifted.rect) && !player.hit then (shifted.(killed := true), true)
    else if f.collideWall then (shifted.(counter := f.counter + 1), false)
    else
      var flown := shifted.(rect := Travel(shifted.rect, f.velocity));
      if AnyOverlap(obstacles, flown.rect) then (flown.(collideWall := true), false)
      else if OffScreen(flown.rect) then (flown.(killed := true), false)
      else (flown, false)
  }

  /** The player burnt by a fireball: 5 health lost and marked hit. `last_hit`
      is set to `True`, which Python counts as 1. */
  function Burnt(p: C.CharState): C.CharState
  {
    p.(health := p.health - 5, hit := true, lastHit := 1)
  }

  class Fireball {
    var rect: Rect
    const velocity: Vec
    var collideWall: bool
    var collisionCounter: int
    var killed: bool

    function State(): FireballState
      reads this
    {
      FireballState(rect, velocity, collideWall, collisionCounter, killed)
    }

    /** `Fireball.__init__`: an image's rectangle centred on the boss, flying at `velocity`. */
    constructor (w: nat, h: nat, x: int, y: int, velocity: Vec)
      ensures State() == FireballState(Rect(0, 0, w, h).WithCenter(x, y), velocity, false, 0, false)
    {
      rect := Rect(0, 0, w, h).WithCenter(x, y);
      this.velocity := velocity;
      collideWall := false;
      collisionCounter := 0;
      killed := false;
    }

    /** `Fireball.update` */
    method Update(scroll: Vec, player: C.Character, obstacles: seq<Rect>)
      modifies this, player
      ensures var (f', burns) := FireballStep(old(State()), scroll, old(player.State()), obstacles);
              State() == f' && player.State() == (if burns then Burnt(old(player.State())) else old(player.State()))
    {
      rect := rect.ShiftBy(scroll);
      if collisionCounter >= 500 {
        killed := true;
        return;
      }
      if Overlaps(player.rect, rect) && !player.hit {
        player.TakeHit(5, 1);
        killed := true;
        return;
      }
      if collideWall {
        collisionCounter := collisionCounter + 1;
        return;
      }
      rect := Travel(rect, velocity);
      var wall := HitsObstacle(obstacles, rect);
      if wall {
        collideWall := true;
        return;
      }
      if OffScreen(rect) {
        killed := true;
      }
    }
  }

  /** A fireball burns the player only when the player is not already hit, and
      is removed when it does; the test comes before the latch, so a latched
      fireball still burns. */
  lemma FireballBurnsOnlyUnhitPlayer(f: FireballState, scroll: Vec, player: C.CharState, obstacles: seq<Rect>)
    ensures var (f', burns) := FireballStep(f, scroll, player, obstacles);
            (burns <==> f.counter < 500 && !player.hit && Overlaps(player.rect, f.rect.ShiftBy(scroll))) &&
            (burns ==> f'.killed)
  {
  }

  /** A fireball that flies into a wall latches even when the flight also took
      it off screen: the wall test comes before the cull. */
  lemma FireballWallBeforeCull(f: FireballState, scroll: Vec, player: C.CharState, obstacles: seq<Rect>)
    requires f.counter < 500 && !f.collideWall && !f.killed
    requires !(Overlaps(player.rect, f.rect.ShiftBy(scroll)) && !player.hit)
    requires AnyOverlap(obstacles, Travel(f.rect.ShiftBy(scroll), f.velocity))
    ensures var (f', burns) := FireballStep(f, scroll, player, obstacles);
            f'.collideWall && !f'.killed && !burns
  {
  }

  /** A fireball whose counter reached 500 is removed without burning anyone. */
  lemma OldFireballIsRemoved(f: FireballState, scroll: Vec, player: C.CharState, obstacles: seq<Rect>)
    requires f.counter >= 500
    ensures var (f', burns) := FireballStep(f, scroll, player, obstacles);
            f'.killed && !burns
  {
  }
}
