/** The per-frame rules of the game loop in `main.py`: the frame counter that
    gates the bow, and the enemy pass, which runs `ai` and `update_sprite` for
    living enemies, plays the death flash for dead ones, spawns their health
    bars, and removes an enemy once its flash is spent. */
module MainLoop {
  import opened Wrappers
  import opened Geometry
  import opened Constants
  import opened CharacterKinds
  import opened Sight
  import C = Characters
  import Hud

  /** `if frame_counter <= 10: frame_counter += 1` */
  function FrameTick(fc: int): int
  {
    if fc <= 10 then fc + 1 else fc
  }

  /** The counter after n frames of play. */
  function FrameTicks(fc: int, n: nat): int
  {
    if n == 0 then fc else FrameTick(FrameTicks(fc, n - 1))
  }

  /** The counter counts frames of play from its reset to 0 and stays at 11 from then on. */
  lemma {:induction false} FrameCounterSaturates(n: nat)
    ensures FrameTicks(0, n) == Min(n, 11)
  {
    if n > 0 {
      FrameCounterSaturates(n - 1);
    }
  }

  /** The bow's arrow joins the arrow group only after more than 8 frames of play. */
  predicate ArrowAdmitted(hasArrow: bool, fc: int)
  {
    hasArrow && fc > 8
  }

  /** After the counter's reset (menu, pause), an arrow is admitted from the 9th frame of play on. */
  lemma ArrowsFromNinthFrame(n: nat)
    ensures ArrowAdmitted(true, FrameTicks(0, n)) <==> n >= 9
  {
    FrameCounterSaturates(n);
  }

  /** A health bar to spawn under an enemy: `HealthBar(centerx, bottom + 18, level, enemy)`. */
  datatype BarSpawn = BarSpawn(x: int, y: int, level: int, boss: bool)

  /** The bar of an enemy standing at `r`. */
  function BarUnder(r: Rect, level: int, boss: bool): BarSpawn
  {
    BarSpawn(r.CenterX(), r.Bottom() + 18, level, boss)
  }

  /** What one enemy's turn of the enemy pass produces. */
  datatype Turn = Turn(me: C.CharState, player: C.CharState, fireball: Option<Shot>,
                       bar: Option<BarSpawn>, remove: bool)

  /** The enemy pass's body for one enemy. A living enemy runs `ai`, then
      `update_sprite`, and gets a bar of its `calc_health` level (0 if it
      has just died). A dead enemy only advances its death flash; it shows an
      empty bar when the returned counter is even, and is removed when the
      counter reaches 15. */
  function EnemyTurn(k: Kind, s: C.CharState, p: C.CharState, obstacles: seq<Rect>, scroll: Vec,
                     clip: (Rect, Segment) -> Option<Segment>, steer: Vec -> Vec,
                     jitter: int, nudge: Vec, now: int): Turn
    requires |k.animLengths| == 2 && 0 <= s.anim.actionType < 2 && -6 < k.charType <= 6
  {
    if s.alive then
      var r := C.AiStep(k, s, p, obstacles, scroll, clip, steer, jitter, nudge, now);
      C.AiKeepsLife(k, s, p, obstacles, scroll, clip, steer, jitter, nudge, now);
      var u := C.UpdateSpriteStep(k, r.me, now).0;
      Turn(u, r.player, r.fireball, Some(BarUnder(u.rect, Hud.HealthLevel(u.alive, k.charType, u.health), k.boss)), false)
    else
      var (d, counter) := C.DeathFlashStep(s, now);
      Turn(d, p, None, if counter % 2 == 0 then Some(BarUnder(d.rect, 0, k.boss)) else None, counter >= 15)
  }

  /** A dead enemy whose flash is spent: its turn removes it. */
  predicate Expires(s: C.CharState, now: int)
  {
    !s.alive && C.DeathFlashStep(s, now).1 >= 15
  }

  /** A group after `add` of the sprite a turn produced, if it produced one. */
  function AddSome<T>(group: seq<T>, x: Option<T>): (r: seq<T>)
    ensures group <= r && |r| <= |group| + 1
    ensures x.Some? <==> |r| == |group| + 1
    ensures x.Some? ==> r[|group|] == x.value
  {
    if x.Some? then group + [x.value] else group
  }

  /** One enemy's turn. */
  method UpdateEnemy(enemy: C.Character, player: C.Character, obstacles: seq<Rect>, scroll: Vec,
                     clip: (Rect, Segment) -> Option<Segment>, steer: Vec -> Vec,
                     jitter: int, nudge: Vec, now: int)
    returns (fireball: Option<Shot>, bar: Option<BarSpawn>, remove: bool)
    requires enemy != player && enemy.Valid() && 1 <= enemy.kind.charType <= 6
    requires -1 <= jitter <= 1 && nudge.x in {-1, 1} && nudge.y in {-1, 1}
    modifies enemy, player
    ensures Turn(enemy.State(), player.State(), fireball, bar, remove) ==
            EnemyTurn(enemy.kind, old(enemy.State()), old(player.State()), obstacles, scroll, clip, steer, jitter, nudge, now)
    ensures enemy.Valid()
  {
    if enemy.alive {
      fireball := enemy.Ai(player, obstacles, scroll, clip, steer, jitter, nudge, now);
      var _ := enemy.UpdateSprite(now);
      var level := Hud.CalcHealth(enemy.alive, enemy.kind.charType, enemy.health);
      bar := Some(BarUnder(enemy.rect, level, enemy.kind.boss));
      remove := false;
    } else {
      fireball := None;
      var counter := enemy.DeathFlash(now);
      bar := if counter % 2 == 0 then Some(BarUnder(enemy.rect, 0, enemy.kind.boss)) else None;
      remove := counter >= 15;
    }
  }

  /** `list.remove(x)`: the first occurrence of x taken out. */
  function RemoveFirst<T(==)>(s: seq<T>, x: T): seq<T>
  {
    if s == [] then [] else if s[0] == x then s[1..] else [s[0]] + RemoveFirst(s[1..], x)
  }

  /** Removing an element that is not among the first ones removes it from the rest. */
  lemma {:induction false} RemoveFirstSplit<T>(a: seq<T>, x: T, b: seq<T>)
    requires x !in a
    ensures RemoveFirst(a + [x] + b, x) == a + b
  {
    if a == [] {
      assert a + [x] + b == [x] + b;
    } else {
      assert (a + [x] + b)[1..] == a[1..] + [x] + b;
      RemoveFirstSplit(a[1..], x, b);
      assert a == [a[0]] + a[1..];
    }
  }

  /** No element appears twice. */
  predicate Distinct<T(==)>(s: seq<T>)
  {
    forall i, j :: 0 <= i < j < |s| ==> s[i] != s[j]
  }

  /** The states of the characters of `s`, in order. */
  ghost function StatesOf(s: seq<C.Character>): (r: seq<C.CharState>)
    reads s
    ensures |r| == |s| && forall j :: 0 <= j < |s| ==> r[j] == s[j].State()
  {
    seq(|s|, j requires 0 <= j < |s| reads s => s[j].State())
  }

  /** Which of the states `S` expire this frame. */
  function ExpiryFlags(S: seq<C.CharState>, now: int): (r: seq<bool>)
    ensures |r| == |S| && forall j :: 0 <= j < |S| ==> (r[j] <==> Expires(S[j], now))
  {
    seq(|S|, j requires 0 <= j < |S| => Expires(S[j], now))
  }

  /** The elements of `s` whose flag in `drop` is false, in order. */
  function Kept<T>(s: seq<T>, drop: seq<bool>): seq<T>
    requires |drop| == |s|
  {
    if s == [] then []
    else Kept(s[..|s| - 1], drop[..|s| - 1]) + if drop[|s| - 1] then [] else [s[|s| - 1]]
  }

  /** The state the enemy pass works on. */
  class Game {
    var frameCounter: int
    var enemyList: seq<C.Character>
    var fireballs: seq<Shot>
    var healthBars: seq<BarSpawn>

    /** Each enemy is listed once, is not the player, and is a valid enemy. */
    predicate Valid(player: C.Character)
      reads this, enemyList
    {
      Distinct(enemyList) && player !in enemyList &&
      forall e :: e in enemyList ==> e.Valid() && 1 <= e.kind.charType <= 6
    }

    /** The frame counter step at the top of a frame of play. */
    method Tick()
      modifies this`frameCounter
      ensures frameCounter == FrameTick(old(frameCounter))
    {
      if frameCounter <= 10 {
        frameCounter := frameCounter + 1;
      }
    }

    /** The bow step of a frame: the arrow `update_weapon` produced joins the group only after 8 frames. */
    method AdmitArrow(hasArrow: bool) returns (added: bool)
      ensures added == ArrowAdmitted(hasArrow, frameCounter)
    {
      added := hasArrow && frameCounter > 8;
    }

    /** The enemy pass, over a copy of the enemy list. `jitters[i]` and
        `nudges[i]` are the random draws of the i-th enemy's `ai`. An enemy
        is removed from the list exactly when its turn ends its death flash;
        the others stay, and every enemy stays valid. */
    method UpdateEnemies(player: C.Character, obstacles: seq<Rect>, scroll: Vec,
                         clip: (Rect, Segment) -> Option<Segment>, steer: Vec -> Vec,
                         jitters: seq<int>, nudges: seq<Vec>, now: int)
      requires Valid(player)
      requires |jitters| == |enemyList| && |nudges| == |enemyList|
      requires forall i :: 0 <= i < |jitters| ==> -1 <= jitters[i] <= 1
      requires forall i :: 0 <= i < |nudges| ==> nudges[i].x in {-1, 1} && nudges[i].y in {-1, 1}
      modifies this`enemyList, this`fireballs, this`healthBars, player, enemyList
      ensures enemyList == Kept(old(enemyList), ExpiryFlags(old(StatesOf(enemyList)), now))
      ensures old(fireballs) <= fireballs && old(healthBars) <= healthBars
      ensures Valid(player)
    {
      var safe := enemyList;
      ghost var S := StatesOf(safe);
      ghost var X := ExpiryFlags(S, now);
      forall j | 0 <= j < |safe| ensures X[j] <==> Expires(safe[j].State(), now) {
        assert X[j] <==> Expires(S[j], now);
      }
      Pass(safe, X, player, obstacles, scroll, clip, steer, jitters, nudges, now);
      PassKeepsValid(safe, X, player);
    }

    /** The loop of the enemy pass over the copy `safe` of the list, where
        `X` flags the enemies whose death flash is spent this frame: the list
        ends up holding exactly the unflagged enemies, in order. */
    method Pass(safe: seq<C.Character>, ghost X: seq<bool>, player: C.Character, obstacles: seq<Rect>, scroll: Vec,
                clip: (Rect, Segment) -> Option<Segment>, steer: Vec -> Vec,
                jitters: seq<int>, nudges: seq<Vec>, now: int)
      requires enemyList == safe && |X| == |safe| && Distinct(safe) && player !in safe
      requires forall j :: 0 <= j < |safe| ==> safe[j].Valid() && 1 <= safe[j].kind.charType <= 6
      requires forall j :: 0 <= j < |safe| ==> (X[j] <==> Expires(safe[j].State(), now))
      requires |jitters| == |safe| && |nudges| == |safe|
      requires forall i :: 0 <= i < |jitters| ==> -1 <= jitters[i] <= 1
      requires forall i :: 0 <= i < |nudges| ==> nudges[i].x in {-1, 1} && nudges[i].y in {-1, 1}
      modifies this`enemyList, this`fireballs, this`healthBars, player, safe
      ensures enemyList == Kept(safe, X)
      ensures forall j :: 0 <= j < |safe| ==> safe[j].Valid() && 1 <= safe[j].kind.charType <= 6
      ensures old(fireballs) <= fireballs && old(healthBars) <= healthBars
    {
      KeptUpToNone(safe, X);
      for i := 0 to |safe|
        invariant enemyList == KeptUpTo(safe, X, i) + safe[i..]
        invariant forall j :: 0 <= j < |safe| ==> safe[j].Valid() && 1 <= safe[j].kind.charType <= 6
        invariant forall j :: i <= j < |safe| ==> (X[j] <==> Expires(safe[j].State(), now))
        invariant old(fireballs) <= fireballs && old(healthBars) <= healthBars
      {
        Visit(safe, X, i, safe[i], player, obstacles, scroll, clip, steer, jitters[i], nudges[i], now);
      }
      KeptUpToAll(safe, X);
    }

    /** One enemy's turn within the enemy pass, the i-th of the copy `safe`
        of the list, whose states at the start of the pass are `S`: its
        fireball and bar join their groups, and a spent enemy is taken out
        of the list. */
    method Visit(ghost safe: seq<C.Character>, ghost X: seq<bool>, i: int, enemy: C.Character,
                 player: C.Character, obstacles: seq<Rect>, scroll: Vec,
                 clip: (Rect, Segment) -> Option<Segment>, steer: Vec -> Vec,
                 jitter: int, nudge: Vec, now: int)
      requires Distinct(safe) && player !in safe && 0 <= i < |safe| && enemy == safe[i]
      requires |X| == |safe| && enemy.Valid() && 1 <= enemy.kind.charType <= 6
      requires enemyList == KeptUpTo(safe, X, i) + safe[i..]
      requires forall j :: 0 <= j < |safe| ==> safe[j].Valid() && 1 <= safe[j].kind.charType <= 6
      requires forall j :: i <= j < |safe| ==> (X[j] <==> Expires(safe[j].State(), now))
      requires -1 <= jitter <= 1 && nudge.x in {-1, 1} && nudge.y in {-1, 1}
      modifies this`enemyList, this`fireballs, this`healthBars, enemy, player
      ensures enemyList == KeptUpTo(safe, X, i + 1) + safe[i + 1..]
      ensures forall j :: 0 <= j < |safe| ==> safe[j].Valid() && 1 <= safe[j].kind.charType <= 6
      ensures forall j :: i < j < |safe| ==> (X[j] <==> Expires(safe[j].State(), now))
      ensures var t := EnemyTurn(enemy.kind, old(enemy.State()), old(player.State()), obstacles, scroll, clip, steer, jitter, nudge, now);
              enemy.State() == t.me && player.State() == t.player &&
              fireballs == AddSome(old(fireballs), t.fireball) && healthBars == AddSome(old(healthBars), t.bar)
      ensures !old(enemy.alive) ==> enemy.State() == C.DeathFlashStep(old(enemy.State()), now).0
      ensures old(fireballs) <= fireballs && old(healthBars) <= healthBars
    {
      var remove := Play(enemy, player, obstacles, scroll, clip, steer, jitter, nudge, now);
      Drop(safe, X, i, enemy, remove);
    }

    /** The enemy's turn proper: enemy and player take the states of the
        turn, its fireball and bar join their groups, and `remove` says
        whether the turn ended the enemy's death flash. */
    method Play(enemy: C.Character, player: C.Character, obstacles: seq<Rect>, scroll: Vec,
                clip: (Rect, Segment) -> Option<Segment>, steer: Vec -> Vec,
                jitter: int, nudge: Vec, now: int) returns (remove: bool)
      requires enemy != player && enemy.Valid() && 1 <= enemy.kind.charType <= 6
      requires -1 <= jitter <= 1 && nudge.x in {-1, 1} && nudge.y in {-1, 1}
      modifies this`fireballs, this`healthBars, enemy, player
      ensures var t := EnemyTurn(enemy.kind, old(enemy.State()), old(player.State()), obstacles, scroll, clip, steer, jitter, nudge, now);
              enemy.State() == t.me && player.State() == t.player && remove == t.remove &&
              fireballs == AddSome(old(fireballs), t.fireball) && healthBars == AddSome(old(healthBars), t.bar)
      ensures remove == Expires(old(enemy.State()), now)
      ensures enemy.Valid()
      ensures !old(enemy.alive) ==> enemy.State() == C.DeathFlashStep(old(enemy.State()), now).0
      ensures old(fireballs) <= fireballs && old(healthBars) <= healthBars
    {
      var fireball, bar;
      fireball, bar, remove := UpdateEnemy(enemy, player, obstacles, scroll, clip, steer, jitter, nudge, now);
      fireballs := AddSome(fireballs, fireball);
      healthBars := AddSome(healthBars, bar);
    }

    /** `if enemy in enemy_list: enemy_list.remove(enemy)` for the i-th enemy of the copy. */
    method Drop(ghost safe: seq<C.Character>, ghost X: seq<bool>, i: int, enemy: C.Character, remove: bool)
      requires Distinct(safe) && |X| == |safe| && 0 <= i < |safe| && enemy == safe[i] && remove == X[i]
      requires enemyList == KeptUpTo(safe, X, i) + safe[i..]
      modifies this`enemyList
      ensures enemyList == KeptUpTo(safe, X, i + 1) + safe[i + 1..]
    {
      PassStep(safe, X, i);
      if remove && enemy in enemyList {
        enemyList := RemoveFirst(enemyList, enemy);
      }
    }
  }

  /** The list bookkeeping of the i-th turn: the element is still listed, and
      removing it when it is flagged takes out just that element. */
  lemma PassStep<T>(safe: seq<T>, drop: seq<bool>, i: int)
    requires Distinct(safe) && |drop| == |safe| && 0 <= i < |safe|
    ensures var before := KeptUpTo(safe, drop, i) + safe[i..];
            safe[i] in before &&
            (if drop[i] then RemoveFirst(before, safe[i]) else before) == KeptUpTo(safe, drop, i + 1) + safe[i + 1..]
  {
    var x, rest := safe[i], safe[i + 1..];
    var kept := KeptUpTo(safe, drop, i);
    assert safe[i..] == [x] + rest;
    assert kept + safe[i..] == kept + [x] + rest;
    if drop[i] {
      KeptUpToIsKept(safe, drop, i);
      NotKeptAgain(safe, drop, i);
      RemoveFirstSplit(kept, x, rest);
    }
  }

  /** The elements of the first n of `s` whose flag is false, in order. */
  function KeptUpTo<T>(s: seq<T>, drop: seq<bool>, n: nat): seq<T>
    requires |drop| == |s| && n <= |s|
  {
    if n == 0 then [] else KeptUpTo(s, drop, n - 1) + if drop[n - 1] then [] else [s[n - 1]]
  }

  /** Before the first turn nothing is kept yet and everything is still to visit. */
  lemma KeptUpToNone<T>(s: seq<T>, drop: seq<bool>)
    requires |drop| == |s|
    ensures KeptUpTo(s, drop, 0) + s[0..] == s
  {
  }

  /** Counting up to the end keeps what `Kept` keeps, and nothing is left to visit. */
  lemma KeptUpToAll<T>(s: seq<T>, drop: seq<bool>)
    requires |drop| == |s|
    ensures KeptUpTo(s, drop, |s|) + s[|s|..] == Kept(s, drop)
  {
    KeptUpToIsKept(s, drop, |s|);
    assert s[..|s|] == s && drop[..|s|] == drop && s[|s|..] == [];
  }

  /** Counting up to n keeps what keeping from the first n elements keeps. */
  lemma {:induction false} KeptUpToIsKept<T>(s: seq<T>, drop: seq<bool>, n: nat)
    requires |drop| == |s| && n <= |s|
    ensures KeptUpTo(s, drop, n) == Kept(s[..n], drop[..n])
  {
    if n > 0 {
      KeptUpToIsKept(s, drop, n - 1);
      assert s[..n][..n - 1] == s[..n - 1] && drop[..n][..n - 1] == drop[..n - 1];
    }
  }

  /** An element of a distinct sequence is not among the kept elements before it. */
  lemma NotKeptAgain<T>(safe: seq<T>, drop: seq<bool>, i: int)
    requires Distinct(safe) && |drop| == |safe| && 0 <= i < |safe|
    ensures safe[i] !in Kept(safe[..i], drop[..i])
  {
    KeptFacts(safe[..i], drop[..i]);
    forall j | 0 <= j < i ensures safe[..i][j] != safe[i] {
      assert safe[..i][j] == safe[j];
    }
  }

  /** The enemies the pass keeps are still listed once each, without the player, and valid. */
  lemma PassKeepsValid(safe: seq<C.Character>, X: seq<bool>, player: C.Character)
    requires |X| == |safe| && Distinct(safe) && player !in safe
    requires forall j :: 0 <= j < |safe| ==> safe[j].Valid() && 1 <= safe[j].kind.charType <= 6
    ensures Distinct(Kept(safe, X)) && player !in Kept(safe, X)
    ensures forall e :: e in Kept(safe, X) ==> e.Valid() && 1 <= e.kind.charType <= 6
  {
    KeptAreListed(safe, X);
    KeptAreDistinct(safe, X);
  }

  /** The kept elements are those of `s` whose flag is false, each once. */
  lemma KeptFacts<T>(s: seq<T>, drop: seq<bool>)
    requires |drop| == |s|
    ensures forall e :: e in Kept(s, drop) ==> e in s
    ensures forall j :: 0 <= j < |s| && !drop[j] ==> s[j] in Kept(s, drop)
    ensures Distinct(s) ==> Distinct(Kept(s, drop))
    ensures Distinct(s) ==> forall j :: 0 <= j < |s| && drop[j] ==> s[j] !in Kept(s, drop)
  {
    KeptAreListed(s, drop);
    UnflaggedAreKept(s, drop);
    if Distinct(s) {
      KeptAreDistinct(s, drop);
      FlaggedAreDropped(s, drop);
    }
  }

  /** Every kept element comes from `s`. */
  lemma {:induction false} KeptAreListed<T>(s: seq<T>, drop: seq<bool>)
    requires |drop| == |s|
    ensures forall e :: e in Kept(s, drop) ==> e in s
  {
    if s != [] {
      var n := |s| - 1;
      KeptAreListed(s[..n], drop[..n]);
      assert s == s[..n] + [s[n]];
    }
  }

  /** Every element whose flag is false is kept. */
  lemma {:induction false} UnflaggedAreKept<T>(s: seq<T>, drop: seq<bool>)
    requires |drop| == |s|
    ensures forall j :: 0 <= j < |s| && !drop[j] ==> s[j] in Kept(s, drop)
  {
    if s != [] {
      var n := |s| - 1;
      var init, dinit := s[..n], drop[..n];
      UnflaggedAreKept(init, dinit);
      forall j | 0 <= j < |s| && !drop[j] ensures s[j] in Kept(s, drop) {
        if j < n {
          assert init[j] == s[j] && dinit[j] == drop[j];
        }
      }
    }
  }

  /** The kept elements of a distinct sequence are distinct. */
  lemma {:induction false} KeptAreDistinct<T>(s: seq<T>, drop: seq<bool>)
    requires |drop| == |s| && Distinct(s)
    ensures Distinct(Kept(s, drop))
  {
    if s != [] {
      var n := |s| - 1;
      var init, dinit := s[..n], drop[..n];
      assert Distinct(init);
      KeptAreDistinct(init, dinit);
      if !drop[n] {
        KeptAreListed(init, dinit);
        assert s[n] !in init by {
          forall j | 0 <= j < n ensures init[j] != s[n] {
            assert s[j] == init[j];
          }
        }
        DistinctSnoc(Kept(init, dinit), s[n]);
      }
    }
  }

  /** A distinct sequence extended by a new element stays distinct. */
  lemma DistinctSnoc<T>(a: seq<T>, x: T)
    requires Distinct(a) && x !in a
    ensures Distinct(a + [x])
  {
    forall i, j | 0 <= i < j < |a + [x]| ensures (a + [x])[i] != (a + [x])[j] {
      if j < |a| {
        assert (a + [x])[i] == a[i] && (a + [x])[j] == a[j];
      } else {
        assert (a + [x])[i] == a[i];
      }
    }
  }

  /** In a distinct sequence, an element whose flag is set is not kept. */
  lemma {:induction false} FlaggedAreDropped<T>(s: seq<T>, drop: seq<bool>)
    requires |drop| == |s| && Distinct(s)
    ensures forall j :: 0 <= j < |s| && drop[j] ==> s[j] !in Kept(s, drop)
  {
    if s != [] {
      var n := |s| - 1;
      var init, dinit := s[..n], drop[..n];
      assert Distinct(init);
      FlaggedAreDropped(init, dinit);
      KeptAreListed(init, dinit);
      forall j | 0 <= j < |s| && drop[j] ensures s[j] !in Kept(s, drop) {
        if j < n {
          assert init[j] == s[j] && dinit[j] == drop[j];
          assert s[j] != s[n];
        } else {
          assert s[n] !in init by {
            forall m | 0 <= m < n ensures init[m] != s[n] {
              assert s[m] == init[m];
            }
          }
        }
      }
    }
  }

  /** A living enemy's turn is its `ai` then `update_sprite`: it never removes the enemy. */
  lemma LivingEnemyStays(k: Kind, s: C.CharState, p: C.CharState, obstacles: seq<Rect>, scroll: Vec,
                         clip: (Rect, Segment) -> Option<Segment>, steer: Vec -> Vec,
                         jitter: int, nudge: Vec, now: int)
    requires |k.animLengths| == 2 && 0 <= s.anim.actionType < 2 && -6 < k.charType <= 6
    requires s.alive
    ensures var t := EnemyTurn(k, s, p, obstacles, scroll, clip, steer, jitter, nudge, now);
            !t.remove && t.bar.Some? && 0 <= t.bar.value.level <= 12 &&
            t.player == C.AiStep(k, s, p, obstacles, scroll, clip, steer, jitter, nudge, now).player
  {
    var r := C.AiStep(k, s, p, obstacles, scroll, clip, steer, jitter, nudge, now);
    C.AiKeepsLife(k, s, p, obstacles, scroll, clip, steer, jitter, nudge, now);
    var u := C.UpdateSpriteStep(k, r.me, now).0;
    Hud.HealthLevelIsLeast(u.alive, k.charType, u.health);
  }

  /** A dead enemy's turn never runs `ai`: the player is untouched, no fireball
      is spawned and the enemy does not move; it is removed exactly when its
      death flash returns 15. */
  lemma DeadEnemyOnlyFlashes(k: Kind, s: C.CharState, p: C.CharState, obstacles: seq<Rect>, scroll: Vec,
                             clip: (Rect, Segment) -> Option<Segment>, steer: Vec -> Vec,
                             jitter: int, nudge: Vec, now: int)
    requires |k.animLengths| == 2 && 0 <= s.anim.actionType < 2 && -6 < k.charType <= 6
    requires !s.alive && 0 <= s.deathCounter <= 15
    ensures var t := EnemyTurn(k, s, p, obstacles, scroll, clip, steer, jitter, nudge, now);
            t.player == p && t.fireball.None? && t.me.rect == s.rect && !t.me.alive &&
            (t.remove <==> t.me.deathCounter == 15) &&
            (t.bar.Some? ==> t.bar.value.level == 0)
  {
  }
}
