/** The sprite-group housekeeping of `main.py`: `limit_sprite_group` and
    `cleanup_offscreen_sprites`. A pygame group holds each sprite once and
    lists them in the order they were added; `kill()` takes a sprite out of
    every group it is in. */
module SpriteGroups {
  import opened Wrappers
  import opened Geometry
  import opened Constants

  /** A sprite as the helpers see it: an identity and its rectangle, if it has one. */
  datatype Sprite = Sprite(id: nat, rect: Option<Rect>)

  /** No sprite appears twice. */
  predicate Distinct(s: seq<Sprite>)
  {
    forall i, j :: 0 <= i < j < |s| ==> s[i] != s[j]
  }

  /** The sequence with every occurrence of x taken out. */
  function Without(s: seq<Sprite>, x: Sprite): (r: seq<Sprite>)
    ensures forall y :: y in r <==> y in s && y != x
  {
    if s == [] then [] else (if s[0] == x then [] else [s[0]]) + Without(s[1..], x)
  }

  /** Taking out a sprite that is not there changes nothing. */
  lemma {:induction false} WithoutAbsent(s: seq<Sprite>, x: Sprite)
    requires x !in s
    ensures Without(s, x) == s
  {
    if s != [] {
      WithoutAbsent(s[1..], x);
    }
  }

  /** Taking out a sprite that occurs once drops exactly that occurrence. */
  lemma {:induction false} WithoutSplit(a: seq<Sprite>, x: Sprite, b: seq<Sprite>)
    requires x !in a && x !in b
    ensures Without(a + [x] + b, x) == a + b
  {
    if a == [] {
      assert [x] + b == a + [x] + b;
      assert ([x] + b)[1..] == b;
      WithoutAbsent(b, x);
    } else {
      assert (a + [x] + b)[1..] == a[1..] + [x] + b;
      WithoutSplit(a[1..], x, b);
      assert a == [a[0]] + a[1..];
    }
  }

  /** A group of sprites, in the order they were added. */
  class Group {
    var sprites: seq<Sprite>

    predicate Valid()
      reads this
    {
      Distinct(sprites)
    }

    constructor ()
      ensures sprites == [] && Valid()
    {
      sprites := [];
    }

    /** `sprite.kill()` as this group sees it. */
    method Kill(x: Sprite)
      modifies this
      ensures sprites == Without(old(sprites), x)
    {
      sprites := Without(sprites, x);
    }
  }

  /** `limit_sprite_group`: when the group holds more than `maxCount`
      sprites, the oldest are killed until `maxCount` remain. */
  method LimitSpriteGroup(group: Group, maxCount: nat)
    requires group.Valid()
    modifies group
    ensures |old(group.sprites)| <= maxCount ==> group.sprites == old(group.sprites)
    ensures |old(group.sprites)| > maxCount ==>
              group.sprites == old(group.sprites)[|old(group.sprites)| - maxCount..]
    ensures group.Valid()
  {
    if |group.sprites| > maxCount {
      var sprites := group.sprites;
      var excess := |sprites| - maxCount;
      for k := 0 to excess
        invariant group.sprites == sprites[k..]
      {
        assert sprites[k..] == [] + [sprites[k]] + sprites[k + 1..];
        WithoutSplit([], sprites[k], sprites[k + 1..]);
        group.Kill(sprites[k]);
      }
    }
  }

  /** The screen grown by `margin` on every side. */
  function Surround(margin: int): Rect
    requires margin >= 0
  {
    Rect(-margin, -margin, SCREEN_WIDTH + 2 * margin, SCREEN_HEIGHT + 2 * margin)
  }

  /** A sprite `cleanup_offscreen_sprites` keeps: one without a rectangle, or one overlapping the grown screen. */
  predicate OnScreen(x: Sprite, margin: int)
    requires margin >= 0
  {
    x.rect.None? || Overlaps(Surround(margin), x.rect.value)
  }

  /** The sprites kept, in their order. */
  function KeepOnScreen(s: seq<Sprite>, margin: int): seq<Sprite>
    requires margin >= 0
  {
    if s == [] then [] else KeepOnScreen(s[..|s| - 1], margin) + if OnScreen(s[|s| - 1], margin) then [s[|s| - 1]] else []
  }

  /** `cleanup_offscreen_sprites`: every sprite with a rectangle off the grown screen is killed. */
  method CleanupOffscreenSprites(group: Group, margin: int)
    requires margin >= 0
    requires group.Valid()
    modifies group
    ensures group.sprites == KeepOnScreen(old(group.sprites), margin)
  {
    var sprites := group.sprites;
    for i := 0 to |sprites|
      invariant group.sprites == KeepOnScreen(sprites[..i], margin) + sprites[i..]
    {
      CleanupStep(sprites, i, margin);
      if !OnScreen(sprites[i], margin) {
        group.Kill(sprites[i]);
      }
    }
    assert sprites[..|sprites|] == sprites;
  }

  /** One pass of the cleanup loop: sprite i is kept, or killed, which takes out just that sprite. */
  lemma CleanupStep(sprites: seq<Sprite>, i: int, margin: int)
    requires margin >= 0 && Distinct(sprites) && 0 <= i < |sprites|
    ensures var before := KeepOnScreen(sprites[..i], margin) + sprites[i..];
            var after := KeepOnScreen(sprites[..i + 1], margin) + sprites[i + 1..];
            (OnScreen(sprites[i], margin) ==> before == after) &&
            (!OnScreen(sprites[i], margin) ==> Without(before, sprites[i]) == after)
  {
    var x := sprites[i];
    var kept := KeepOnScreen(sprites[..i], margin);
    assert sprites[..i + 1][..i] == sprites[..i];
    assert KeepOnScreen(sprites[..i + 1], margin) == kept + (if OnScreen(x, margin) then [x] else []);
    assert sprites[i..] == [x] + sprites[i + 1..];
    if !OnScreen(x, margin) {
      KeepOnScreenMembers(sprites[..i], margin);
      assert x !in sprites[..i] && x !in sprites[i + 1..] by {
        forall j | 0 <= j < |sprites| && j != i ensures sprites[j] != x {
          assert Distinct(sprites);
        }
      }
      assert kept + sprites[i..] == kept + [x] + sprites[i + 1..];
      WithoutSplit(kept, x, sprites[i + 1..]);
    }
  }

  /** The kept sprites are exactly those of the group that have no rectangle or overlap the grown screen. */
  lemma {:induction false} KeepOnScreenMembers(s: seq<Sprite>, margin: int)
    requires margin >= 0
    ensures forall x :: x in KeepOnScreen(s, margin) <==> x in s && OnScreen(x, margin)
  {
    if s != [] {
      KeepOnScreenMembers(s[..|s| - 1], margin);
      assert s == s[..|s| - 1] + [s[|s| - 1]];
    }
  }

  /** Cleaning up twice removes nothing more than cleaning up once. */
  lemma {:induction false} KeepOnScreenIdempotent(s: seq<Sprite>, margin: int)
    requires margin >= 0
    ensures KeepOnScreen(KeepOnScreen(s, margin), margin) == KeepOnScreen(s, margin)
  {
    if s != [] {
      var init := s[..|s| - 1];
      var last := s[|s| - 1];
      KeepOnScreenIdempotent(init, margin);
      var k := KeepOnScreen(init, margin);
      if OnScreen(last, margin) {
        assert KeepOnScreen(s, margin) == k + [last];
        assert (k + [last])[..|k + [last]| - 1] == k;
        assert (k + [last])[|k + [last]| - 1] == last;
      } else {
        assert KeepOnScreen(s, margin) == k;
      }
    }
  }

  /** The positions in the group of the kept sprites, in order. */
  function KeptPositions(s: seq<Sprite>, margin: int): seq<int>
    requires margin >= 0
  {
    if s == [] then [] else KeptPositions(s[..|s| - 1], margin) + if OnScreen(s[|s| - 1], margin) then [|s| - 1] else []
  }

  /** Each kept sprite sits at its recorded position, and the positions increase. */
  lemma {:induction false} KeptPositionsFacts(s: seq<Sprite>, margin: int)
    requires margin >= 0
    ensures var idx := KeptPositions(s, margin);
            |idx| == |KeepOnScreen(s, margin)| &&
            (forall k :: 0 <= k < |idx| ==> 0 <= idx[k] < |s| && s[idx[k]] == KeepOnScreen(s, margin)[k]) &&
            (forall j, k :: 0 <= j < k < |idx| ==> idx[j] < idx[k])
  {
    if s != [] {
      var init := s[..|s| - 1];
      KeptPositionsFacts(init, margin);
      var idx := KeptPositions(init, margin);
      var kept := KeepOnScreen(init, margin);
      assert forall k :: 0 <= k < |idx| ==> s[idx[k]] == init[idx[k]];
      if OnScreen(s[|s| - 1], margin) {
        assert KeptPositions(s, margin) == idx + [|s| - 1];
        assert KeepOnScreen(s, margin) == kept + [s[|s| - 1]];
      } else {
        assert KeptPositions(s, margin) == idx;
        assert KeepOnScreen(s, margin) == kept;
      }
    }
  }

  /** The kept sprites keep their relative order: they are the group with some sprites dropped. */
  lemma KeepOnScreenIsSubsequence(s: seq<Sprite>, margin: int)
    requires margin >= 0
    ensures |KeepOnScreen(s, margin)| <= |s|
    ensures exists idx: seq<int> :: |idx| == |KeepOnScreen(s, margin)| &&
              (forall k :: 0 <= k < |idx| ==> 0 <= idx[k] < |s| && s[idx[k]] == KeepOnScreen(s, margin)[k]) &&
              (forall j, k :: 0 <= j < k < |idx| ==> idx[j] < idx[k])
  {
    var idx := KeptPositions(s, margin);
    KeptPositionsFacts(s, margin);
    KeptPositionsFit(s, margin);
  }

  /** Increasing positions below |s| number at most |s|. */
  lemma {:induction false} KeptPositionsFit(s: seq<Sprite>, margin: int)
    requires margin >= 0
    ensures |KeptPositions(s, margin)| <= |s|
  {
    if s != [] {
      KeptPositionsFit(s[..|s| - 1], margin);
    }
  }
}
