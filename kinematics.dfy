/** Character movement shared by the player and every enemy (`Character.move`,
    identical in both character variants): facing and running flags, the
    diagonal scaling, axis-separated collision resolution against the obstacle
    tiles, the exit-tile trigger and the player's camera scroll. */
module Kinematics {
  import opened Wrappers
  import opened Geometry
  import opened Constants

  /** A position step `s` agrees with the velocity `v` it came from: none
      without a velocity, and never against its direction. */
  predicate StepFollows(v: int, s: int)
  {
    (v == 0 ==> s == 0) && (v > 0 ==> s >= 0) && (v < 0 ==> s <= 0)
  }

  /** Velocities are fixed-point numbers of 1/UNIT pixel, so that the source's
      fractional velocities (the diagonal scaling, an enemy's normalised
      steering) are represented to four decimal places. */
  const UNIT: int := 10000

  /** A fixed-point value converted to whole pixels, truncating toward zero as pygame does when it stores a float coordinate. */
  function Truncate(a: int): (q: int)
    ensures a >= 0 ==> q == a / UNIT
    ensures a < 0 ==> q == -((-a) / UNIT)
    ensures Abs(q) * UNIT <= Abs(a) < (Abs(q) + 1) * UNIT
  {
    if a >= 0 then a / UNIT else -((-a) / UNIT)
  }

  /** A velocity component multiplied by sqrt(2)/2 (0.7071, truncated toward zero). */
  function DiagonalScale(v: int): (s: int)
    ensures StepFollows(v, s)
    ensures Abs(s) <= Abs(v)
  {
    Truncate(v * 7071)
  }

  /** `rect.x += v`: the sum of an integer coordinate and a fractional velocity
      is stored back as an int, truncated toward zero. */
  function Advance(c: int, v: int): (c': int)
    ensures StepFollows(v, c' - c)
    ensures c * UNIT + v >= 0 ==> c' == c + v / UNIT
    ensures v % UNIT == 0 ==> c' == c + v / UNIT
  {
    Truncate(c * UNIT + v)
  }

  /** The velocity `move` applies: unchanged on an axis, scaled by sqrt(2)/2 when both components are non-zero. */
  function Velocity(dx: int, dy: int): (d: Vec)
    ensures dx == 0 || dy == 0 ==> d == Vec(dx, dy)
    ensures StepFollows(dx, d.x) && StepFollows(dy, d.y)
    ensures Abs(d.x) <= Abs(dx) && Abs(d.y) <= Abs(dy)
  {
    if dx != 0 && dy != 0 then Vec(DiagonalScale(dx), DiagonalScale(dy)) else Vec(dx, dy)
  }

  /** A whole-pixel velocity is a step of exactly that many pixels. */
  function Pixels(v: int): int { v * UNIT }

  /** The player's diagonal speed depends on direction and position: from x = 100
      a down-right step moves 2 pixels, an up-left step 3 pixels, and from
      x = -100 an up-left step moves 2 pixels again, because truncation rounds
      toward zero rather than down. */
  lemma DiagonalStepIsNotUniform()
    ensures var v := Velocity(Pixels(PLAYER_SPEED), Pixels(PLAYER_SPEED));
            Advance(100, v.x) == 102
    ensures var v := Velocity(-Pixels(PLAYER_SPEED), -Pixels(PLAYER_SPEED));
            Advance(100, v.x) == 97 && Advance(-100, v.x) == -102
  {
  }

  /** One obstacle of the x pass: on overlap the leading edge is snapped to the obstacle's near edge. */
  function SnapX(r: Rect, dx: int, obstacle: Rect): Rect
  {
    if Overlaps(obstacle, r) then
      if dx > 0 then r.WithRight(obstacle.Left())
      else if dx < 0 then r.WithLeft(obstacle.Right())
      else r
    else r
  }

  /** One obstacle of the y pass. */
  function SnapY(r: Rect, dy: int, obstacle: Rect): Rect
  {
    if Overlaps(obstacle, r) then
      if dy > 0 then r.WithBottom(obstacle.Top())
      else if dy < 0 then r.WithTop(obstacle.Bottom())
      else r
    else r
  }

  /** The x pass over the obstacles in list order; every obstacle is visited and the last snap wins. */
  function ResolveX(r: Rect, dx: int, obstacles: seq<Rect>): (r': Rect)
    ensures r'.y == r.y && r'.w == r.w && r'.h == r.h
    ensures dx == 0 ==> r' == r
    ensures dx > 0 ==> r'.x <= r.x
    ensures dx < 0 ==> r'.x >= r.x
    decreases |obstacles|
  {
    if obstacles == [] then r
    else SnapX(ResolveX(r, dx, obstacles[..|obstacles| - 1]), dx, obstacles[|obstacles| - 1])
  }

  /** The y pass over the obstacles in list order. */
  function ResolveY(r: Rect, dy: int, obstacles: seq<Rect>): (r': Rect)
    ensures r'.x == r.x && r'.w == r.w && r'.h == r.h
    ensures dy == 0 ==> r' == r
    ensures dy > 0 ==> r'.y <= r.y
    ensures dy < 0 ==> r'.y >= r.y
    decreases |obstacles|
  {
    if obstacles == [] then r
    else SnapY(ResolveY(r, dy, obstacles[..|obstacles| - 1]), dy, obstacles[|obstacles| - 1])
  }

  /** With no obstacle overlapping the stepped rectangle, the x pass leaves it where the step put it. */
  lemma {:induction false} ResolveXFree(r: Rect, dx: int, obstacles: seq<Rect>)
    requires forall k :: 0 <= k < |obstacles| ==> !Overlaps(obstacles[k], r)
    ensures ResolveX(r, dx, obstacles) == r
    decreases |obstacles|
  {
    if obstacles != [] {
      ResolveXFree(r, dx, obstacles[..|obstacles| - 1]);
    }
  }

  /** The same for the y pass. */
  lemma {:induction false} ResolveYFree(r: Rect, dy: int, obstacles: seq<Rect>)
    requires forall k :: 0 <= k < |obstacles| ==> !Overlaps(obstacles[k], r)
    ensures ResolveY(r, dy, obstacles) == r
    decreases |obstacles|
  {
    if obstacles != [] {
      ResolveYFree(r, dy, obstacles[..|obstacles| - 1]);
    }
  }

  /** When the x pass moves the rectangle at all, its leading edge ends on the
      near edge of an obstacle it overlapped: the right edge on an obstacle's
      left edge when moving right, the left edge on an obstacle's right edge
      when moving left. */
  lemma {:induction false} ResolveXSnapsToObstacle(r: Rect, dx: int, obstacles: seq<Rect>)
    requires ResolveX(r, dx, obstacles) != r
    ensures exists k :: (0 <= k < |obstacles| &&
      (if dx > 0 then ResolveX(r, dx, obstacles).Right() == obstacles[k].Left()
       else ResolveX(r, dx, obstacles).Left() == obstacles[k].Right()))
    decreases |obstacles|
  {
    var n := |obstacles|;
    var prefix := obstacles[..n - 1];
    var before := ResolveX(r, dx, prefix);
    if SnapX(before, dx, obstacles[n - 1]) != before {
      assert 0 <= n - 1 < n;
    } else {
      ResolveXSnapsToObstacle(r, dx, prefix);
      var k :| 0 <= k < |prefix| &&
        (if dx > 0 then before.Right() == prefix[k].Left() else before.Left() == prefix[k].Right());
      assert obstacles[k] == prefix[k];
    }
  }

  /** The player's rectangle is inside the camera's dead zone. */
  predicate InDeadZone(r: Rect)
  {
    SCREEN_THRESHOLD <= r.Left() && r.Right() <= SCREEN_WIDTH - SCREEN_THRESHOLD &&
    SCREEN_THRESHOLD <= r.Top() && r.Bottom() <= SCREEN_HEIGHT - SCREEN_THRESHOLD
  }

  /** A rectangle that fits in the dead zone. */
  predicate FitsDeadZone(r: Rect)
  {
    r.w <= SCREEN_WIDTH - 2 * SCREEN_THRESHOLD && r.h <= SCREEN_HEIGHT - 2 * SCREEN_THRESHOLD
  }

  /** One camera axis: the span [lo, lo + len) is pushed back below `max`, then
      above `min`; the pair is the scroll on this axis and the new `lo`. The
      scroll is zero when no push happens, and the second push overrides the first. */
  function CameraAxis(lo: int, len: int, min: int, max: int): (res: (int, int))
    ensures min <= lo && lo + len <= max ==> res == (0, lo)
    ensures len <= max - min ==> min <= res.1 && res.1 + len <= max && res.1 == lo + res.0
  {
    var (scroll, lo') := if lo + len > max then (max - (lo + len), max - len) else (0, lo);
    if lo' < min then (min - lo', min) else (scroll, lo')
  }

  /** The camera scroll for the player's rectangle, and the rectangle pushed back into the dead zone. */
  function Camera(r: Rect): (res: (Vec, Rect))
    ensures InDeadZone(r) ==> res == (Vec(0, 0), r)
    ensures FitsDeadZone(r) ==> InDeadZone(res.1) && res.1 == r.ShiftBy(res.0)
    ensures res.1.w == r.w && res.1.h == r.h
  {
    var (sx, x) := CameraAxis(r.x, r.w, SCREEN_THRESHOLD, SCREEN_WIDTH - SCREEN_THRESHOLD);
    var (sy, y) := CameraAxis(r.y, r.h, SCREEN_THRESHOLD, SCREEN_HEIGHT - SCREEN_THRESHOLD);
    (Vec(sx, sy), Rect(x, y, r.w, r.h))
  }

  /** What one call of `move` produces: the new rectangle and flags, the scroll and the exit trigger. */
  datatype Motion = Motion(rect: Rect, flipper: bool, isRunning: bool, scroll: Vec, levelComplete: bool)

  /** The rectangle after the x pass and then the y pass, before the camera. */
  function Collide(rect: Rect, dx: int, dy: int, obstacles: seq<Rect>): Rect
  {
    var v := Velocity(dx, dy);
    var afterX := ResolveX(rect.(x := Advance(rect.x, v.x)), dx, obstacles);
    ResolveY(afterX.(y := Advance(afterX.y, v.y)), dy, obstacles)
  }

  /** The whole of `move`, as a value. The exit tile is only consulted for the player. */
  function Move(rect: Rect, flipper: bool, dx: int, dy: int, obstacles: seq<Rect>,
                isPlayer: bool, exit: Option<Rect>, interact: bool): Motion
    requires isPlayer ==> exit.Some?
  {
    var facing := if dx < 0 then true else if dx > 0 then false else flipper;
    var running := dx != 0 || dy != 0;
    var collided := Collide(rect, dx, dy, obstacles);
    if isPlayer then
      var complete := ContainsPoint(collided, exit.value.CenterX(), exit.value.CenterY()) && interact;
      var (scroll, r) := Camera(collided);
      Motion(r, facing, running, scroll, complete)
    else
      Motion(collided, facing, running, Vec(0, 0), false)
  }

  /** The x collision loop of `move`: every obstacle the stepped rectangle overlaps snaps its leading edge. */
  method ResolveXLoop(start: Rect, dx: int, obstacles: seq<Rect>) returns (r: Rect)
    ensures r == ResolveX(start, dx, obstacles)
  {
    r := start;
    var i := 0;
    while i < |obstacles|
      invariant 0 <= i <= |obstacles|
      invariant r == ResolveX(start, dx, obstacles[..i])
    {
      if Overlaps(obstacles[i], r) {
        if dx > 0 {
          r := r.WithRight(obstacles[i].Left());
        }
        if dx < 0 {
          r := r.WithLeft(obstacles[i].Right());
        }
      }
      assert obstacles[..i + 1][..i] == obstacles[..i];
      i := i + 1;
    }
    assert obstacles[..|obstacles|] == obstacles;
  }

  /** The y collision loop of `move`. */
  method ResolveYLoop(start: Rect, dy: int, obstacles: seq<Rect>) returns (r: Rect)
    ensures r == ResolveY(start, dy, obstacles)
  {
    r := start;
    var i := 0;
    while i < |obstacles|
      invariant 0 <= i <= |obstacles|
      invariant r == ResolveY(start, dy, obstacles[..i])
    {
      if Overlaps(obstacles[i], r) {
        if dy > 0 {
          r := r.WithBottom(obstacles[i].Top());
        }
        if dy < 0 {
          r := r.WithTop(obstacles[i].Bottom());
        }
      }
      assert obstacles[..i + 1][..i] == obstacles[..i];
      i := i + 1;
    }
    assert obstacles[..|obstacles|] == obstacles;
  }

  /** The player's camera block of `move`: four sequential edge checks. */
  method CameraBody(rect: Rect) returns (scroll: Vec, r: Rect)
    ensures (scroll, r) == Camera(rect)
  {
    scroll := Vec(0, 0);
    r := rect;
    if r.Right() > SCREEN_WIDTH - SCREEN_THRESHOLD {
      scroll := scroll.(x := (SCREEN_WIDTH - SCREEN_THRESHOLD) - r.Right());
      r := r.WithRight(SCREEN_WIDTH - SCREEN_THRESHOLD);
    }
    if r.Left() < SCREEN_THRESHOLD {
      scroll := scroll.(x := SCREEN_THRESHOLD - r.Left());
      r := r.WithLeft(SCREEN_THRESHOLD);
    }
    if r.Bottom() > SCREEN_HEIGHT - SCREEN_THRESHOLD {
      scroll := scroll.(y := (SCREEN_HEIGHT - SCREEN_THRESHOLD) - r.Bottom());
      r := r.WithBottom(SCREEN_HEIGHT - SCREEN_THRESHOLD);
    }
    if r.Top() < SCREEN_THRESHOLD {
      scroll := scroll.(y := SCREEN_THRESHOLD - r.Top());
      r := r.WithTop(SCREEN_THRESHOLD);
    }
  }

  /** `move` as the source runs it: flags, the scaled step, the two collision
      loops, the exit check and the camera, one statement at a time. */
  method MoveBody(rect: Rect, flipper: bool, dx: int, dy: int, obstacles: seq<Rect>,
                  isPlayer: bool, exit: Option<Rect>, interact: bool) returns (m: Motion)
    requires isPlayer ==> exit.Some?
    ensures m == Move(rect, flipper, dx, dy, obstacles, isPlayer, exit, interact)
  {
    var scroll := Vec(0, 0);
    var levelComplete := false;
    var facing := flipper;
    if dx < 0 {
      facing := true;
    }
    if dx > 0 {
      facing := false;
    }
    var running := !(dx == 0 && dy == 0);
    var vx, vy := dx, dy;
    if dx != 0 && dy != 0 {
      vx, vy := DiagonalScale(dx), DiagonalScale(dy);
    }
    var r := ResolveXLoop(rect.(x := Advance(rect.x, vx)), dx, obstacles);
    r := ResolveYLoop(r.(y := Advance(r.y, vy)), dy, obstacles);
    assert r == Collide(rect, dx, dy, obstacles);
    if isPlayer {
      if ContainsPoint(r, exit.value.CenterX(), exit.value.CenterY()) && interact {
        levelComplete := true;
      }
      scroll, r := CameraBody(r);
    }
    m := Motion(r, facing, running, scroll, levelComplete);
  }

  /** Facing turns left on a leftward velocity, right on a rightward one, and is
      kept otherwise; the running flag says whether any velocity was requested. */
  lemma MoveSetsFacingAndRunning(rect: Rect, flipper: bool, dx: int, dy: int, obstacles: seq<Rect>,
                                 isPlayer: bool, exit: Option<Rect>, interact: bool)
    requires isPlayer ==> exit.Some?
    ensures var m := Move(rect, flipper, dx, dy, obstacles, isPlayer, exit, interact);
            (dx < 0 ==> m.flipper) && (dx > 0 ==> !m.flipper) && (dx == 0 ==> m.flipper == flipper) &&
            m.isRunning == (dx != 0 || dy != 0)
  {
  }

  /** An enemy's move never scrolls the camera and never completes the level. */
  lemma NonPlayerMoveHasNoScroll(rect: Rect, flipper: bool, dx: int, dy: int, obstacles: seq<Rect>,
                                 exit: Option<Rect>, interact: bool)
    ensures var m := Move(rect, flipper, dx, dy, obstacles, false, exit, interact);
            m.scroll == Vec(0, 0) && !m.levelComplete && m.rect == Collide(rect, dx, dy, obstacles)
  {
  }

  /** The y pass never moves the rectangle horizontally: after the x pass, x is final. */
  lemma YPassKeepsX(rect: Rect, dx: int, dy: int, obstacles: seq<Rect>)
    ensures var v := Velocity(dx, dy);
            Collide(rect, dx, dy, obstacles).x == ResolveX(rect.(x := Advance(rect.x, v.x)), dx, obstacles).x
  {
  }

  /** A horizontal move by whole pixels that meets no obstacle moves the rectangle by exactly the velocity. */
  lemma {:induction false} FreeAxialMove(rect: Rect, px: int, obstacles: seq<Rect>)
    requires forall k :: 0 <= k < |obstacles| ==> !Overlaps(obstacles[k], rect.Shift(px, 0))
    ensures Collide(rect, Pixels(px), 0, obstacles) == rect.Shift(px, 0)
  {
    assert Advance(rect.x, Pixels(px)) == rect.x + px;
    ResolveXFree(rect.Shift(px, 0), Pixels(px), obstacles);
  }

  /** The level is complete exactly when the interact signal was raised and the
      collision-resolved player rectangle contains the exit tile's centre. */
  lemma LevelCompleteIff(rect: Rect, flipper: bool, dx: int, dy: int, obstacles: seq<Rect>,
                         exit: Rect, interact: bool)
    ensures Move(rect, flipper, dx, dy, obstacles, true, Some(exit), interact).levelComplete <==>
            interact && ContainsPoint(Collide(rect, dx, dy, obstacles), exit.CenterX(), exit.CenterY())
  {
  }

  /** Camera, case 1: a player already inside the dead zone causes no scroll and is not moved by the camera. */
  lemma DeadZoneMeansNoScroll(rect: Rect, flipper: bool, dx: int, dy: int, obstacles: seq<Rect>,
                              exit: Rect, interact: bool)
    requires InDeadZone(Collide(rect, dx, dy, obstacles))
    ensures var m := Move(rect, flipper, dx, dy, obstacles, true, Some(exit), interact);
            m.scroll == Vec(0, 0) && m.rect == Collide(rect, dx, dy, obstacles)
  {
  }

  /** Camera, case 2: a player that fits the dead zone ends inside it, moved by exactly the scroll. */
  lemma ScrollPushesBackIntoDeadZone(rect: Rect, flipper: bool, dx: int, dy: int, obstacles: seq<Rect>,
                                     exit: Rect, interact: bool)
    requires FitsDeadZone(rect)
    ensures var m := Move(rect, flipper, dx, dy, obstacles, true, Some(exit), interact);
            var c := Collide(rect, dx, dy, obstacles);
            InDeadZone(m.rect) && m.rect.x == c.x + m.scroll.x && m.rect.y == c.y + m.scroll.y
  {
  }
}
