/** The heads-up display helpers of `main.py` (the copies in
    `IntoTheDeepWithSound/main.py` are the same code): the enemy health-bar
    level, the heart row, the floating health bar and damage text, and the
    screen fade. */
module Hud {
  import opened Geometry
  import opened Constants

  /** `max_health_list`, read at `char_type - 1` (Python indexing, so type 0 reads the last entry). */
  const MAX_HEALTH: seq<int> := [100, 50, 125, 175, 75, 300]

  /** `bar_percentages`: the upper bound of bar level x is `BAR_PERCENT[x]` percent of the maximum. */
  const BAR_PERCENT: seq<int> := [0, 8, 16, 25, 33, 41, 50, 58, 66, 75, 83, 91]

  /** `curr_health <= (bar_percentages[x] * max_health) / 100`; the division is
      Python's true division, so the test is exact: scaled by 100 on both sides. */
  predicate AtMostPercent(health: int, x: int, maxHealth: int)
    requires 0 <= x < |BAR_PERCENT|
  {
    health * 100 <= BAR_PERCENT[x] * maxHealth
  }

  /** The search of `calc_health` from bar level x: the first level whose bound the health does not exceed, else 12. */
  function LevelFrom(health: int, maxHealth: int, x: nat): (level: int)
    requires x <= |BAR_PERCENT|
    decreases |BAR_PERCENT| - x
  {
    if x == |BAR_PERCENT| then 12
    else if AtMostPercent(health, x, maxHealth) then x
    else LevelFrom(health, maxHealth, x + 1)
  }

  /** `calc_health`: 0 for a dead enemy, otherwise the search from level 0. */
  function HealthLevel(alive: bool, charType: int, health: int): int
    requires -|MAX_HEALTH| < charType <= |MAX_HEALTH|
  {
    if !alive then 0 else LevelFrom(health, PyIndex(MAX_HEALTH, charType - 1), 0)
  }

  /** `calc_health` with its search loop and early return. */
  method CalcHealth(alive: bool, charType: int, health: int) returns (level: int)
    requires -|MAX_HEALTH| < charType <= |MAX_HEALTH|
    ensures level == HealthLevel(alive, charType, health)
  {
    if !alive {
      return 0;
    }
    var maxHealth := PyIndex(MAX_HEALTH, charType - 1);
    var x := 0;
    while x < 12
      invariant 0 <= x <= 12
      invariant LevelFrom(health, maxHealth, 0) == LevelFrom(health, maxHealth, x)
    {
      if health * 100 <= BAR_PERCENT[x] * maxHealth {
        return x;
      }
      x := x + 1;
    }
    return 12;
  }

  /** The search from level x returns the least level at or after x whose bound is not exceeded, or 12. */
  lemma {:induction false} LevelFromIsLeast(health: int, maxHealth: int, x: nat)
    requires x <= |BAR_PERCENT|
    ensures var level := LevelFrom(health, maxHealth, x);
            x <= level <= 12 &&
            (level < 12 ==> AtMostPercent(health, level, maxHealth)) &&
            (forall j :: x <= j < level ==> !AtMostPercent(health, j, maxHealth))
    decreases |BAR_PERCENT| - x
  {
    if x < |BAR_PERCENT| && !AtMostPercent(health, x, maxHealth) {
      LevelFromIsLeast(health, maxHealth, x + 1);
    }
  }

  /** The bar level is 0 for a dead enemy and otherwise in 0..12, the least
      level whose bound the health does not exceed. */
  lemma HealthLevelIsLeast(alive: bool, charType: int, health: int)
    requires -|MAX_HEALTH| < charType <= |MAX_HEALTH|
    ensures var level := HealthLevel(alive, charType, health);
            var m := PyIndex(MAX_HEALTH, charType - 1);
            0 <= level < HEALTH_BAR_TYPES &&
            (!alive ==> level == 0) &&
            (alive && level < 12 ==> AtMostPercent(health, level, m)) &&
            (alive ==> forall j :: 0 <= j < level ==> !AtMostPercent(health, j, m))
  {
    LevelFromIsLeast(health, PyIndex(MAX_HEALTH, charType - 1), 0);
  }

  /** For a fixed type, more health never gives a lower bar level. */
  lemma HealthLevelMonotone(charType: int, h1: int, h2: int)
    requires -|MAX_HEALTH| < charType <= |MAX_HEALTH|
    requires h1 <= h2
    ensures HealthLevel(true, charType, h1) <= HealthLevel(true, charType, h2)
  {
    var m := PyIndex(MAX_HEALTH, charType - 1);
    LevelFromIsLeast(h1, m, 0);
    LevelFromIsLeast(h2, m, 0);
    var l2 := HealthLevel(true, charType, h2);
    if l2 < 12 {
      assert AtMostPercent(h1, l2, m);
    }
  }

  /** One heart of the row. */
  datatype Heart = Full | Half | Empty

  /** The choice `draw_info` makes for heart i, given whether a half heart was already drawn. */
  function NextHeart(health: int, i: nat, halfDrawn: bool): Heart
  {
    if health >= (i + 1) * 20 then Full
    else if health <= 0 then Empty
    else if (health % 20 >= 5 || health < 20) && !halfDrawn then Half
    else Empty
  }

  /** The heart-row loop of `draw_info` from heart i, with the half-heart flag. */
  function HeartsFrom(health: int, i: nat, halfDrawn: bool): (row: seq<Heart>)
    requires i <= 5
    ensures |row| == 5 - i
    decreases 5 - i
  {
    if i == 5 then []
    else
      var heart := NextHeart(health, i, halfDrawn);
      [heart] + HeartsFrom(health, i + 1, halfDrawn || heart == Half)
  }

  /** The five hearts `draw_info` draws for the player's health. */
  function HeartRow(health: int): seq<Heart>
  {
    HeartsFrom(health, 0, false)
  }

  /** The heart-selection loop of `draw_info`. */
  method SelectHearts(health: int) returns (row: seq<Heart>)
    ensures row == HeartRow(health)
  {
    row := [];
    var halfDrawn := false;
    for i := 0 to 5
      invariant row == HeartRow(health)[..i]
      invariant HeartsFrom(health, i, halfDrawn) == HeartRow(health)[i..]
    {
      ghost var before := halfDrawn;
      var heart;
      if health >= (i + 1) * 20 {
        heart := Full;
      } else if health <= 0 {
        heart := Empty;
      } else if (health % 20 >= 5 || health < 20) && !halfDrawn {
        heart := Half;
        halfDrawn := true;
      } else {
        heart := Empty;
      }
      assert heart == NextHeart(health, i, before) && halfDrawn == (before || heart == Half);
      ghost var all := HeartRow(health);
      ghost var tail := HeartsFrom(health, i + 1, halfDrawn);
      assert HeartsFrom(health, i, before) == [heart] + tail;
      assert all[i..] == [heart] + tail;
      assert all[i] == heart && all[i + 1..] == all[i..][1..];
      assert all[..i + 1] == all[..i] + [all[i]];
      row := row + [heart];
    }
    assert HeartRow(health)[..5] == HeartRow(health);
  }

  /** Heart i is full exactly when the health reaches (i+1)*20; it is half
      exactly for the first heart that is not full, when the health is
      positive and either below 20 or at least 5 past a multiple of 20; all
      other hearts are empty. */
  lemma {:induction false} HeartsFromShape(health: int, i: nat, halfDrawn: bool)
    requires i <= 5
    requires halfDrawn ==> health < i * 20
    requires !halfDrawn ==> health >= i * 20 || health <= 0 || (health % 20 < 5 && health >= 20)
    ensures forall k :: 0 <= k < 5 - i ==>
              var heart := HeartsFrom(health, i, halfDrawn)[k];
              (heart == Full <==> health >= (i + k + 1) * 20) &&
              (heart == Half <==> !halfDrawn && health > 0 && (health % 20 >= 5 || health < 20) &&
                                  health < (i + k + 1) * 20 && (i + k == 0 || health >= (i + k) * 20))
    decreases 5 - i
  {
    if i < 5 {
      var half := health > 0 && health < (i + 1) * 20 && (health % 20 >= 5 || health < 20) && !halfDrawn;
      HeartsFromShape(health, i + 1, halfDrawn || half);
    }
  }

  /** The heart row: heart i is full iff health >= (i+1)*20, so there are
      min(5, health div 20) full hearts first; heart i is half iff it is the
      heart right after the full ones and the health is positive and either
      below 20 or at least 5 past a multiple of 20, so there is at most one;
      with health <= 0 every heart is empty. */
  lemma HeartRowShape(health: int)
    ensures |HeartRow(health)| == 5
    ensures forall i :: 0 <= i < 5 ==> (HeartRow(health)[i] == Full <==> health >= (i + 1) * 20)
    ensures forall i :: 0 <= i < 5 ==>
              (HeartRow(health)[i] == Half <==>
                 health > 0 && (health % 20 >= 5 || health < 20) && health < (i + 1) * 20 && (i == 0 || health >= i * 20))
    ensures health <= 0 ==> forall i :: 0 <= i < 5 ==> HeartRow(health)[i] == Empty
    ensures health >= 0 ==> forall i :: 0 <= i < 5 ==> (HeartRow(health)[i] == Full <==> i < Min(5, health / 20))
    ensures forall i, j :: 0 <= i < 5 && 0 <= j < 5 && HeartRow(health)[i] == Half && HeartRow(health)[j] == Half ==> i == j
  {
    HeartsFromShape(health, 0, false);
  }

  /** A floating health bar: its rectangle, its update count, and whether it was removed. */
  datatype BarState = BarState(rect: Rect, counter: int, killed: bool)

  /** `HealthBar.update`: shift by the scroll, count, and remove at the second update. */
  function BarStep(b: BarState, scroll: Vec): BarState
  {
    var counted := b.(rect := b.rect.ShiftBy(scroll), counter := b.counter + 1);
    if counted.counter >= 2 then counted.(killed := true) else counted
  }

  class HealthBar {
    const healthLevel: int
    var rect: Rect
    var counter: int
    var killed: bool

    function State(): BarState
      reads this
    {
      BarState(rect, counter, killed)
    }

    /** `__init__`: the bar image of `healthLevel` (of size w x h, twice as
        wide for a boss) centred on (x, y). */
    constructor (x: int, y: int, healthLevel: int, w: nat, h: nat, boss: bool)
      ensures this.healthLevel == healthLevel
      ensures State() == BarState(Rect(0, 0, if boss then w * 2 else w, h).WithCenter(x, y), 0, false)
    {
      this.healthLevel := healthLevel;
      rect := Rect(0, 0, if boss then w * 2 else w, h).WithCenter(x, y);
      counter := 0;
      killed := false;
    }

    /** `HealthBar.update` */
    method Update(scroll: Vec)
      modifies this
      ensures State() == BarStep(old(State()), scroll)
    {
      rect := rect.ShiftBy(scroll);
      counter := counter + 1;
      if counter >= 2 {
        killed := true;
      }
    }
  }

  /** A new bar survives its first update and is removed on its second;
      either way it has moved by the scrolls. */
  lemma HealthBarLivesTwoUpdates(r: Rect, s1: Vec, s2: Vec)
    ensures var b1 := BarStep(BarState(r, 0, false), s1);
            !b1.killed && b1.rect == r.ShiftBy(s1) &&
            BarStep(b1, s2).killed && BarStep(b1, s2).rect == r.Shift(s1.x + s2.x, s1.y + s2.y)
  {
  }

  /** A floating damage number: its rectangle, its update count, and whether it was removed. */
  datatype TextState = TextState(rect: Rect, counter: int, killed: bool)

  /** `DamageText.update`: shift by the scroll, rise by one pixel, count, and remove after the 35th update. */
  function TextStep(t: TextState, scroll: Vec): TextState
  {
    var moved := t.(rect := t.rect.Shift(scroll.x, scroll.y - 1), counter := t.counter + 1);
    if moved.counter > 35 then moved.(killed := true) else moved
  }

  /** The text after one update per scroll. */
  function TextRun(t: TextState, scrolls: seq<Vec>): TextState
    decreases |scrolls|
  {
    if scrolls == [] then t else TextRun(TextStep(t, scrolls[0]), scrolls[1..])
  }

  /** The sum of the scrolls. */
  function Total(scrolls: seq<Vec>): Vec
  {
    if scrolls == [] then Vec(0, 0)
    else var rest := Total(scrolls[1..]); Vec(scrolls[0].x + rest.x, scrolls[0].y + rest.y)
  }

  class DamageText {
    var rect: Rect
    var counter: int
    var killed: bool

    function State(): TextState
      reads this
    {
      TextState(rect, counter, killed)
    }

    /** `__init__`: the rendered text (of size w x h) centred on (x, y). */
    constructor (x: int, y: int, w: nat, h: nat)
      ensures State() == TextState(Rect(0, 0, w, h).WithCenter(x, y), 0, false)
    {
      rect := Rect(0, 0, w, h).WithCenter(x, y);
      counter := 0;
      killed := false;
    }

    /** `DamageText.update` */
    method Update(scroll: Vec)
      modifies this
      ensures State() == TextStep(old(State()), scroll)
    {
      rect := rect.ShiftBy(scroll);
      rect := rect.Shift(0, -1);
      counter := counter + 1;
      if counter > 35 {
        killed := true;
      }
    }
  }

  /** After n updates the text has moved by the scrolls plus n pixels up, has
      counted n, and is removed exactly when it has counted past 35. */
  lemma {:induction false} TextRunMoves(t: TextState, scrolls: seq<Vec>)
    ensures var t' := TextRun(t, scrolls);
            t'.rect == t.rect.Shift(Total(scrolls).x, Total(scrolls).y - |scrolls|) &&
            t'.counter == t.counter + |scrolls| &&
            (t'.killed <==> t.killed || (|scrolls| > 0 && t.counter + |scrolls| > 35))
    decreases |scrolls|
  {
    if scrolls != [] {
      TextRunMoves(TextStep(t, scrolls[0]), scrolls[1..]);
    }
  }

  /** A new damage text is still shown after 35 updates and is removed on its 36th. */
  lemma DamageTextLivesThirtySixUpdates(r: Rect, scrolls: seq<Vec>)
    requires |scrolls| == 36
    ensures !TextRun(TextState(r, 0, false), scrolls[..35]).killed
    ensures TextRun(TextState(r, 0, false), scrolls).killed
  {
    TextRunMoves(TextState(r, 0, false), scrolls[..35]);
    TextRunMoves(TextState(r, 0, false), scrolls);
  }

  /** The fade kinds: 1 opens the screen from the centre, 2 closes it from the top. */
  const FADE_OPEN: int := 1
  const FADE_DOWN: int := 2

  /** `greater_resolution`: the larger of the screen's sides. */
  const GREATER_RESOLUTION: int := if SCREEN_WIDTH > SCREEN_HEIGHT then SCREEN_WIDTH else SCREEN_HEIGHT

  /** Whether a fade of the given kind is complete at the given counter. */
  predicate FadeComplete(fadeType: int, counter: int)
  {
    (counter >= GREATER_RESOLUTION && fadeType == FADE_OPEN) || (counter >= SCREEN_HEIGHT && fadeType == FADE_DOWN)
  }

  class ScreenFade {
    const fadeType: int
    const speed: int
    var fadeCounter: int

    constructor (fadeType: int, speed: int)
      ensures this.fadeType == fadeType && this.speed == speed && fadeCounter == 0
    {
      this.fadeType := fadeType;
      this.speed := speed;
      fadeCounter := 0;
    }

    /** `ScreenFade.fade`: advance the counter by `speed` and report completion. */
    method Fade() returns (complete: bool)
      modifies this
      ensures fadeCounter == old(fadeCounter) + speed
      ensures complete == FadeComplete(fadeType, fadeCounter)
    {
      fadeCounter := fadeCounter + speed;
      complete := false;
      if fadeCounter >= GREATER_RESOLUTION && fadeType == FADE_OPEN {
        complete := true;
      }
      if fadeCounter >= SCREEN_HEIGHT && fadeType == FADE_DOWN {
        complete := true;
      }
    }
  }

  /** A new fade with a positive speed reports completion on call n exactly
      when n * speed reaches the threshold of its kind (the larger screen
      side, 1280, when opening; the height, 720, when closing); an unknown kind never completes. */
  lemma FadeCompletesAtThreshold(fadeType: int, speed: int, n: nat)
    requires speed > 0
    ensures fadeType == FADE_OPEN ==> (FadeComplete(fadeType, n * speed) <==> n * speed >= 1280)
    ensures fadeType == FADE_DOWN ==> (FadeComplete(fadeType, n * speed) <==> n * speed >= 720)
    ensures fadeType != FADE_OPEN && fadeType != FADE_DOWN ==> !FadeComplete(fadeType, n * speed)
  {
  }

  /** Once complete, a fade with a non-negative speed stays complete. */
  lemma FadeStaysComplete(fadeType: int, counter: int, speed: int)
    requires speed >= 0 && FadeComplete(fadeType, counter)
    ensures FadeComplete(fadeType, counter + speed)
  {
  }
}
