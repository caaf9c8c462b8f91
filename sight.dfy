/** Line of sight and distance tests used by the enemy AI. `Rect.clipline`
    (pygame's segment clipping) is not modelled: it is a function parameter
    `clip` that yields the clipped part of a segment, or nothing when the
    segment misses the rectangle. Distances are compared squared. */
module Sight {
  import opened Wrappers
  import opened Geometry

  /** A sight line from one centre to another. */
  datatype Segment = Segment(from: Vec, to: Vec)

  /** Some obstacle clips the segment. */
  predicate Blocked(obstacles: seq<Rect>, seg: Segment, clip: (Rect, Segment) -> Option<Segment>)
  {
    exists k :: 0 <= k < |obstacles| && clip(obstacles[k], seg).Some?
  }

  /** The wall test of the normalised-steering AI: scan the obstacles and stop at the first one that clips the line. */
  method WallInSight(obstacles: seq<Rect>, seg: Segment, clip: (Rect, Segment) -> Option<Segment>)
    returns (wall: bool)
    ensures wall <==> Blocked(obstacles, seg, clip)
  {
    wall := false;
    var i := 0;
    while i < |obstacles|
      invariant 0 <= i <= |obstacles|
      invariant !wall
      invariant forall k :: 0 <= k < i ==> clip(obstacles[k], seg).None?
    {
      if clip(obstacles[i], seg).Some? {
        wall := true;
        break;
      }
      i := i + 1;
    }
  }

  /** The wall test of the fixed-step AI: scan every obstacle and keep the last
      clipped part; the line counts as blocked when anything was kept. */
  method ClippedLine(obstacles: seq<Rect>, seg: Segment, clip: (Rect, Segment) -> Option<Segment>)
    returns (clipped: Option<Segment>)
    ensures clipped.Some? <==> Blocked(obstacles, seg, clip)
    ensures clipped.Some? ==> exists k :: 0 <= k < |obstacles| && clip(obstacles[k], seg) == clipped
  {
    clipped := None;
    var i := 0;
    while i < |obstacles|
      invariant 0 <= i <= |obstacles|
      invariant clipped.None? <==> forall k :: 0 <= k < i ==> clip(obstacles[k], seg).None?
      invariant clipped.Some? ==> exists k :: 0 <= k < i && clip(obstacles[k], seg) == clipped
    {
      if clip(obstacles[i], seg).Some? {
        clipped := clip(obstacles[i], seg);
      }
      i := i + 1;
    }
  }

  /** Squared Euclidean distance between two points. */
  function Dist2(a: Vec, b: Vec): (d: nat)
    ensures d == 0 <==> a == b
  {
    var dx := a.x - b.x;
    var dy := a.y - b.y;
    SquareNonNegative(dx);
    SquareNonNegative(dy);
    dx * dx + dy * dy
  }

  lemma SquareNonNegative(v: int)
    ensures v * v >= 0
    ensures v * v == 0 <==> v == 0
  {
    if v < 0 {
      assert v * v == (-v) * (-v);
    }
  }

  /** `dist > r` for a non-negative radius, compared squared. */
  predicate Farther(d2: nat, r: nat) { d2 > r * r }

  /** `dist < r`, compared squared. */
  predicate Closer(d2: nat, r: nat) { d2 < r * r }
}
