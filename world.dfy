/** `World` of `IntoTheDeepWithSound/world.py`: the level built from a grid of
    tile ids, and the scroll that moves every tile each frame.

    A tile record is an object (`tile_data` is a mutable list the source
    shares between `map_tiles` and `obstacle_tiles`), so it is a `Tile`
    class here and the obstacle list holds the very objects of the map list.
    The characters and items the grid spawns are recorded by their
    constructor arguments. */
module WorldMap {
  import opened Wrappers
  import opened Geometry
  import opened Constants

  /** Grid ids with a meaning of their own. */
  const BLANK: int := -1
  const WALL: int := 7
  const LADDER: int := 8
  const COIN_TILE: int := 9
  const POTION_TILE: int := 10
  const PLAYER_TILE: int := 11
  const FIRST_ENEMY_TILE: int := 12
  const LAST_ENEMY_TILE: int := 16
  const BOSS_TILE: int := 17

  /** Health of the basic enemies, ids 12..16. */
  const ENEMY_HEALTH: seq<int> := [100, 50, 125, 175, 75]

  /** An item to spawn: `Item(x, y, item_type, ...)`. */
  datatype ItemSpawn = ItemSpawn(x: int, y: int, itemType: int)

  /** A character to spawn: `Character(x, y, health, ..., char_type, boss, size)`. */
  datatype CharSpawn = CharSpawn(x: int, y: int, health: int, charType: int, boss: bool, size: int)

  /** A tile record: the id of the image drawn, its rectangle, and its centre coordinates. */
  datatype TileState = TileState(image: int, rect: Rect, x: int, y: int)

  /** The tile's rectangle is centred on its coordinates. */
  predicate Centred(t: TileState)
  {
    t.rect.CenterX() == t.x && t.rect.CenterY() == t.y
  }

  /** The world's lists as values. */
  datatype Layout = Layout(tiles: seq<TileState>, obstacles: seq<TileState>, exit: Option<TileState>,
                           items: seq<ItemSpawn>, player: Option<CharSpawn>, enemies: seq<CharSpawn>)

  /** `tile_list[tile]`: Python indexing, so negative ids count from the end. */
  function ImageAt(images: seq<Rect>, tile: int): Rect
    requires -|images| <= tile < |images|
  {
    if tile >= 0 then images[tile] else images[|images| + tile]
  }

  /** Every id of the grid indexes the tile images. */
  predicate IdsIndexImages(data: seq<seq<int>>, images: seq<Rect>)
  {
    forall y, x :: 0 <= y < |data| && 0 <= x < |data[y]| ==> -|images| <= data[y][x] < |images|
  }

  /** The tile record built for the cell at column x, row y holding `tile`. */
  function CellTile(images: seq<Rect>, x: int, y: int, tile: int): (t: TileState)
    requires -|images| <= tile < |images|
    ensures t.x == x * TILE_SIZE && t.y == y * TILE_SIZE && Centred(t)
    ensures t.image == (if COIN_TILE <= tile <= BOSS_TILE then 0 else tile)
  {
    var image := if COIN_TILE <= tile <= BOSS_TILE then 0 else tile;
    TileState(image, ImageAt(images, tile).WithCenter(x * TILE_SIZE, y * TILE_SIZE), x * TILE_SIZE, y * TILE_SIZE)
  }

  /** The branches of `process_data` on the tile id, for the record `t` of a cell at (px, py). */
  function Classified(l: Layout, t: TileState, px: int, py: int, tile: int): Layout
  {
    if tile == WALL then l.(obstacles := l.obstacles + [t])
    else if tile == LADDER then l.(exit := Some(t))
    else if tile == COIN_TILE || tile == POTION_TILE then l.(items := l.items + [ItemSpawn(px, py, tile - COIN_TILE)])
    else if tile == PLAYER_TILE then l.(player := Some(CharSpawn(px, py, 100, 0, false, 1)))
    else if FIRST_ENEMY_TILE <= tile <= LAST_ENEMY_TILE then
      l.(enemies := l.enemies + [CharSpawn(px, py, ENEMY_HEALTH[tile - FIRST_ENEMY_TILE], tile - 11, false, 1)])
    else if tile == BOSS_TILE then l.(enemies := l.enemies + [CharSpawn(px, py, 400, 6, true, 2)])
    else l
  }

  /** The body of the cell loop of `process_data`, as a function of the lists
      so far. The map list and the classified lists are different lists, so
      appending to the map list first gives the same lists as the source's order. */
  function Place(l: Layout, images: seq<Rect>, x: int, y: int, tile: int): Layout
    requires -|images| <= tile < |images|
  {
    var t := CellTile(images, x, y, tile);
    var kept := if tile >= 0 then l.(tiles := l.tiles + [t]) else l;
    Classified(kept, t, x * TILE_SIZE, y * TILE_SIZE, tile)
  }

  /** The first |row| cells of row y, placed left to right. */
  function PlaceRow(l: Layout, images: seq<Rect>, row: seq<int>, y: int): Layout
    requires forall x :: 0 <= x < |row| ==> -|images| <= row[x] < |images|
  {
    if row == [] then l
    else Place(PlaceRow(l, images, row[..|row| - 1], y), images, |row| - 1, y, row[|row| - 1])
  }

  /** The first |rows| rows, placed top to bottom. */
  function PlaceRows(l: Layout, images: seq<Rect>, rows: seq<seq<int>>): Layout
    requires IdsIndexImages(rows, images)
  {
    if rows == [] then l
    else PlaceRow(PlaceRows(l, images, rows[..|rows| - 1]), images, rows[|rows| - 1], |rows| - 1)
  }

  /** `update`: the coordinates move by the scroll and the rectangle is re-centred on them. */
  function ShiftTile(t: TileState, scroll: Vec): (t': TileState)
    ensures t'.x == t.x + scroll.x && t'.y == t.y + scroll.y && t'.image == t.image
    ensures Centred(t') && t'.rect.w == t.rect.w && t'.rect.h == t.rect.h
  {
    t.(x := t.x + scroll.x, y := t.y + scroll.y, rect := t.rect.WithCenter(t.x + scroll.x, t.y + scroll.y))
  }

  /** The id classes of `process_data`'s branches. */
  predicate NonBlank(id: int) { id >= 0 }
  predicate IsWall(id: int) { id == WALL }
  predicate IsItem(id: int) { id == COIN_TILE || id == POTION_TILE }
  predicate IsEnemy(id: int) { FIRST_ENEMY_TILE <= id <= BOSS_TILE }

  /** A grid cell: column, row and id. */
  datatype Cell = Cell(x: int, y: int, id: int)

  /** The cells of one row, left to right. */
  function RowCells(row: seq<int>, y: int): (cs: seq<Cell>)
    ensures |cs| == |row|
    ensures forall k :: 0 <= k < |row| ==> cs[k] == Cell(k, y, row[k])
  {
    if row == [] then [] else RowCells(row[..|row| - 1], y) + [Cell(|row| - 1, y, row[|row| - 1])]
  }

  /** The cells of the grid in the order `process_data` visits them: row by row, left to right. */
  function Cells(data: seq<seq<int>>): seq<Cell>
  {
    if data == [] then [] else Cells(data[..|data| - 1]) + RowCells(data[|data| - 1], |data| - 1)
  }

  /** Every cell's id indexes the tile images. */
  predicate CellsIndexImages(cs: seq<Cell>, images: seq<Rect>)
  {
    forall k :: 0 <= k < |cs| ==> -|images| <= cs[k].id < |images|
  }

  /** The cells placed one after the other. */
  function PlaceAll(l: Layout, images: seq<Rect>, cs: seq<Cell>): Layout
    requires CellsIndexImages(cs, images)
  {
    if cs == [] then l
    else
      var c := cs[|cs| - 1];
      Place(PlaceAll(l, images, cs[..|cs| - 1]), images, c.x, c.y, c.id)
  }

  /** The tile records of the cells whose id satisfies `keep`, in order. */
  function TilesWhere(images: seq<Rect>, cs: seq<Cell>, keep: int -> bool): seq<TileState>
    requires CellsIndexImages(cs, images)
  {
    if cs == [] then []
    else
      var c := cs[|cs| - 1];
      TilesWhere(images, cs[..|cs| - 1], keep) + if keep(c.id) then [CellTile(images, c.x, c.y, c.id)] else []
  }

  /** Cell k is the last cell of `cs` holding `id`. */
  predicate LastWith(cs: seq<Cell>, id: int, k: int)
  {
    0 <= k < |cs| && cs[k].id == id && forall j :: k < j < |cs| ==> cs[j].id != id
  }

  /** Cell (x, y) comes before cell (x', y') in row-major order. */
  predicate Before(a: Cell, b: Cell)
  {
    a.y < b.y || (a.y == b.y && a.x < b.x)
  }

  /** `Cells` lists exactly the cells of the grid, each with its id, in strictly increasing row-major order. */
  lemma {:induction false} CellsAreRowMajor(data: seq<seq<int>>)
    ensures |Cells(data)| == CellCount(data)
    ensures forall k :: 0 <= k < |Cells(data)| ==>
              var c := Cells(data)[k];
              0 <= c.y < |data| && 0 <= c.x < |data[c.y]| && c.id == data[c.y][c.x]
    ensures forall j, k :: 0 <= j < k < |Cells(data)| ==> Before(Cells(data)[j], Cells(data)[k])
  {
    if data != [] {
      var init := data[..|data| - 1];
      CellsAreRowMajor(init);
      var a, b := Cells(init), RowCells(data[|data| - 1], |data| - 1);
      assert Cells(data) == a + b;
      forall k | 0 <= k < |Cells(data)|
        ensures var c := Cells(data)[k];
                0 <= c.y < |data| && 0 <= c.x < |data[c.y]| && c.id == data[c.y][c.x]
      {
        if k < |a| {
          assert Cells(data)[k] == a[k];
          assert data[a[k].y] == init[a[k].y];
        } else {
          assert Cells(data)[k] == b[k - |a|];
        }
      }
      forall j, k | 0 <= j < k < |Cells(data)|
        ensures Before(Cells(data)[j], Cells(data)[k])
      {
        if k < |a| {
          assert Before(a[j], a[k]);
        } else if j < |a| {
          assert a[j].y < |init|;
        }
      }
    }
  }

  /** The number of cells of the grid. */
  function CellCount(data: seq<seq<int>>): nat
  {
    if data == [] then 0 else CellCount(data[..|data| - 1]) + |data[|data| - 1]|
  }

  /** Placing a concatenation places one part after the other. */
  lemma {:induction false} PlaceAllAppend(l: Layout, images: seq<Rect>, a: seq<Cell>, b: seq<Cell>)
    requires CellsIndexImages(a, images) && CellsIndexImages(b, images)
    ensures CellsIndexImages(a + b, images)
    ensures PlaceAll(l, images, a + b) == PlaceAll(PlaceAll(l, images, a), images, b)
  {
    assert CellsIndexImages(a + b, images) by {
      forall k | 0 <= k < |a + b| ensures -|images| <= (a + b)[k].id < |images| {
        if k >= |a| { assert (a + b)[k] == b[k - |a|]; }
      }
    }
    if b != [] {
      var b' := b[..|b| - 1];
      assert (a + b)[..|a + b| - 1] == a + b';
      PlaceAllAppend(l, images, a, b');
    } else {
      assert a + b == a;
    }
  }

  /** Placing a row cell by cell is placing its cells. */
  lemma {:induction false} PlaceRowIsPlaceAll(l: Layout, images: seq<Rect>, row: seq<int>, y: int)
    requires forall x :: 0 <= x < |row| ==> -|images| <= row[x] < |images|
    ensures CellsIndexImages(RowCells(row, y), images)
    ensures PlaceRow(l, images, row, y) == PlaceAll(l, images, RowCells(row, y))
  {
    if row != [] {
      var row' := row[..|row| - 1];
      PlaceRowIsPlaceAll(l, images, row', y);
      assert RowCells(row, y)[..|row| - 1] == RowCells(row', y);
    }
  }

  /** `process_data`'s nested loops place the grid's cells in row-major order. */
  lemma {:induction false} PlaceRowsIsPlaceAll(l: Layout, images: seq<Rect>, data: seq<seq<int>>)
    requires IdsIndexImages(data, images)
    ensures CellsIndexImages(Cells(data), images)
    ensures PlaceRows(l, images, data) == PlaceAll(l, images, Cells(data))
  {
    if data != [] {
      var init := data[..|data| - 1];
      var last := data[|data| - 1];
      assert IdsIndexImages(init, images) by {
        forall y, x | 0 <= y < |init| && 0 <= x < |init[y]| ensures -|images| <= init[y][x] < |images| {
          assert init[y] == data[y];
        }
      }
      PlaceRowsIsPlaceAll(l, images, init);
      PlaceRowIsPlaceAll(PlaceRows(l, images, init), images, last, |data| - 1);
      PlaceAllAppend(l, images, Cells(init), RowCells(last, |data| - 1));
    }
  }

  /** Every non-blank cell becomes a map tile, in order, and blank cells
      (negative ids) are skipped; the obstacle list gets exactly the wall cells,
      in order. */
  lemma {:induction false} PlaceAllTiles(l: Layout, images: seq<Rect>, cs: seq<Cell>)
    requires CellsIndexImages(cs, images)
    ensures PlaceAll(l, images, cs).tiles == l.tiles + TilesWhere(images, cs, NonBlank)
    ensures PlaceAll(l, images, cs).obstacles == l.obstacles + TilesWhere(images, cs, IsWall)
  {
    if cs != [] {
      var cs' := cs[..|cs| - 1];
      assert CellsIndexImages(cs', images);
      PlaceAllTiles(l, images, cs');
    }
  }

  /** Every wall tile is also a map tile: the obstacle records are among the map records. */
  lemma {:induction false} WallsAreMapTiles(images: seq<Rect>, cs: seq<Cell>)
    requires CellsIndexImages(cs, images)
    ensures forall t :: t in TilesWhere(images, cs, IsWall) ==> t in TilesWhere(images, cs, NonBlank)
  {
    if cs != [] {
      var cs' := cs[..|cs| - 1];
      assert CellsIndexImages(cs', images);
      WallsAreMapTiles(images, cs');
    }
  }

  /** The exit is the tile of the last ladder cell; without a ladder cell it is unchanged. */
  lemma {:induction false} ExitIsLastLadder(l: Layout, images: seq<Rect>, cs: seq<Cell>)
    requires CellsIndexImages(cs, images)
    ensures forall k :: LastWith(cs, LADDER, k) ==>
              PlaceAll(l, images, cs).exit == Some(CellTile(images, cs[k].x, cs[k].y, LADDER))
    ensures (forall k :: 0 <= k < |cs| ==> cs[k].id != LADDER) ==> PlaceAll(l, images, cs).exit == l.exit
  {
    if cs != [] {
      var cs' := cs[..|cs| - 1];
      assert CellsIndexImages(cs', images);
      ExitIsLastLadder(l, images, cs');
      forall k | LastWith(cs, LADDER, k)
        ensures PlaceAll(l, images, cs).exit == Some(CellTile(images, cs[k].x, cs[k].y, LADDER))
      {
        if k < |cs| - 1 {
          assert LastWith(cs', LADDER, k);
        }
      }
    }
  }

  /** The player is spawned at the last player cell, with health 100, type 0, size 1; without one it is unchanged. */
  lemma {:induction false} PlayerIsLastPlayerCell(l: Layout, images: seq<Rect>, cs: seq<Cell>)
    requires CellsIndexImages(cs, images)
    ensures forall k :: LastWith(cs, PLAYER_TILE, k) ==>
              PlaceAll(l, images, cs).player ==
                Some(CharSpawn(cs[k].x * TILE_SIZE, cs[k].y * TILE_SIZE, 100, 0, false, 1))
    ensures (forall k :: 0 <= k < |cs| ==> cs[k].id != PLAYER_TILE) ==> PlaceAll(l, images, cs).player == l.player
  {
    if cs != [] {
      var cs' := cs[..|cs| - 1];
      assert CellsIndexImages(cs', images);
      PlayerIsLastPlayerCell(l, images, cs');
      forall k | LastWith(cs, PLAYER_TILE, k)
        ensures PlaceAll(l, images, cs).player ==
                  Some(CharSpawn(cs[k].x * TILE_SIZE, cs[k].y * TILE_SIZE, 100, 0, false, 1))
      {
        if k < |cs| - 1 {
          assert LastWith(cs', PLAYER_TILE, k);
        }
      }
    }
  }

  /** An enemy spawn as `process_data` builds it: ids 12..16 are basic
      enemies of type id - 11 with the health table's entry and size 1, id 17
      the boss, type 6, health 400, size 2; it stands on a grid point. */
  predicate EnemySpawnOk(e: CharSpawn)
  {
    1 <= e.charType <= 6 && (e.boss <==> e.charType == 6) &&
    e.health == (if e.boss then 400 else ENEMY_HEALTH[e.charType - 1]) &&
    e.size == (if e.boss then 2 else 1) &&
    e.x % TILE_SIZE == 0 && e.y % TILE_SIZE == 0
  }

  /** An item spawn: a coin (0) or a potion (1) on a grid point. */
  predicate ItemSpawnOk(i: ItemSpawn)
  {
    (i.itemType == 0 || i.itemType == 1) && i.x % TILE_SIZE == 0 && i.y % TILE_SIZE == 0
  }

  /** One enemy per cell with id 12..17 and one item per cell with id 9 or
      10, each well formed; the lists only grow. */
  lemma {:induction false} SpawnsAreWellFormed(l: Layout, images: seq<Rect>, cs: seq<Cell>)
    requires CellsIndexImages(cs, images)
    ensures var r := PlaceAll(l, images, cs);
            l.enemies <= r.enemies && l.items <= r.items &&
            |r.enemies| == |l.enemies| + |TilesWhere(images, cs, IsEnemy)| &&
            |r.items| == |l.items| + |TilesWhere(images, cs, IsItem)| &&
            (forall k :: |l.enemies| <= k < |r.enemies| ==> EnemySpawnOk(r.enemies[k])) &&
            (forall k :: |l.items| <= k < |r.items| ==> ItemSpawnOk(r.items[k]))
  {
    if cs != [] {
      var cs' := cs[..|cs| - 1];
      assert CellsIndexImages(cs', images);
      SpawnsAreWellFormed(l, images, cs');
    }
  }

  class Tile {
    var image: int
    var rect: Rect
    var x: int
    var y: int

    function State(): TileState
      reads this
    {
      TileState(image, rect, x, y)
    }

    constructor (t: TileState)
      ensures State() == t
    {
      image, rect, x, y := t.image, t.rect, t.x, t.y;
    }

    /** The loop body of `World.update` for this tile. */
    method Shift(scroll: Vec)
      modifies this
      ensures State() == ShiftTile(old(State()), scroll)
    {
      x := x + scroll.x;
      y := y + scroll.y;
      rect := rect.WithCenter(x, y);
    }
  }

  /** The states of a list of tiles, in order. */
  function States(ts: seq<Tile>): (r: seq<TileState>)
    reads ts
    ensures |r| == |ts|
    ensures forall i :: 0 <= i < |ts| ==> r[i] == ts[i].State()
  {
    if ts == [] then [] else States(ts[..|ts| - 1]) + [ts[|ts| - 1].State()]
  }

  class World {
    var mapTiles: seq<Tile>
    var obstacleTiles: seq<Tile>
    var exitTile: Tile?
    var itemList: seq<ItemSpawn>
    var player: Option<CharSpawn>
    var characterList: seq<CharSpawn>

    /** The lists as values. */
    function Contents(): Layout
      reads this, mapTiles, obstacleTiles, exitTile
    {
      Layout(States(mapTiles), States(obstacleTiles),
             if exitTile == null then None else Some(exitTile.State()),
             itemList, player, characterList)
    }

    /** No tile record appears twice in the map list; the obstacles and the
        exit are records of the map list, so the scroll moves them too. */
    predicate Valid()
      reads this
    {
      (forall i, j :: 0 <= i < j < |mapTiles| ==> mapTiles[i] != mapTiles[j]) &&
      (forall t :: t in obstacleTiles ==> t in mapTiles) &&
      (exitTile != null ==> exitTile in mapTiles)
    }

    /** `__init__`: every list empty, no exit and no player. */
    constructor ()
      ensures Contents() == Layout([], [], None, [], None, [])
      ensures Valid()
    {
      mapTiles, obstacleTiles, exitTile := [], [], null;
      itemList, player, characterList := [], None, [];
    }

    /** `process_data`: every cell of the grid, row by row. */
    method ProcessData(data: seq<seq<int>>, images: seq<Rect>)
      requires IdsIndexImages(data, images)
      requires Valid()
      modifies this
      ensures Contents() == PlaceRows(old(Contents()), images, data)
      ensures Valid()
    {
      var y := 0;
      while y < |data|
        invariant 0 <= y <= |data|
        invariant Valid()
        invariant Contents() == PlaceRows(old(Contents()), images, data[..y])
      {
        assert data[..y + 1][..y] == data[..y];
        ProcessRow(data[y], y, images);
        y := y + 1;
      }
      assert data[..y] == data;
    }

    /** The inner loop of `process_data`: the cells of row y, left to right. */
    method ProcessRow(row: seq<int>, y: int, images: seq<Rect>)
      requires forall x :: 0 <= x < |row| ==> -|images| <= row[x] < |images|
      requires Valid()
      modifies this
      ensures Contents() == PlaceRow(old(Contents()), images, row, y)
      ensures Valid()
    {
      var x := 0;
      while x < |row|
        invariant 0 <= x <= |row|
        invariant Valid()
        invariant Contents() == PlaceRow(old(Contents()), images, row[..x], y)
      {
        assert row[..x + 1][..x] == row[..x];
        PlaceCell(images, x, y, row[x]);
        x := x + 1;
      }
      assert row[..x] == row;
    }

    /** One cell of `process_data`: a new tile record, classified by its id,
        and kept in the map list unless the cell is blank. */
    method PlaceCell(images: seq<Rect>, x: int, y: int, tile: int)
      requires -|images| <= tile < |images|
      requires Valid()
      modifies this
      ensures Contents() == Place(old(Contents()), images, x, y, tile)
      ensures Valid()
    {
      var t := new Tile(CellTile(images, x, y, tile));
      if tile >= 0 {
        AddTile(t);
      }
      Classify(t, x * TILE_SIZE, y * TILE_SIZE, tile);
    }

    /** `map_tiles.append(tile_data)` of a record not yet in the map list. */
    method AddTile(t: Tile)
      requires Valid() && t !in mapTiles
      modifies this`mapTiles
      ensures Contents() == old(Contents()).(tiles := old(Contents()).tiles + [t.State()])
      ensures mapTiles == old(mapTiles) + [t]
      ensures Valid()
    {
      mapTiles := mapTiles + [t];
    }

    /** The branches of `process_data` on the tile id. */
    method Classify(t: Tile, px: int, py: int, tile: int)
      requires Valid() && (tile == WALL || tile == LADDER ==> t in mapTiles)
      modifies this`obstacleTiles, this`exitTile, this`itemList, this`player, this`characterList
      ensures Contents() == Classified(old(Contents()), t.State(), px, py, tile)
      ensures Valid()
    {
      if tile == WALL {
        AddObstacle(t);
      } else if tile == LADDER {
        SetExit(t);
      } else if tile == COIN_TILE || tile == POTION_TILE {
        AddItem(ItemSpawn(px, py, tile - COIN_TILE));
      } else if tile == PLAYER_TILE {
        SetPlayer(CharSpawn(px, py, 100, 0, false, 1));
      } else if FIRST_ENEMY_TILE <= tile <= LAST_ENEMY_TILE {
        AddCharacter(CharSpawn(px, py, ENEMY_HEALTH[tile - FIRST_ENEMY_TILE], tile - 11, false, 1));
      } else if tile == BOSS_TILE {
        AddCharacter(CharSpawn(px, py, 400, 6, true, 2));
      }
    }

    method AddObstacle(t: Tile)
      requires Valid() && t in mapTiles
      modifies this`obstacleTiles
      ensures Contents() == old(Contents()).(obstacles := old(Contents()).obstacles + [t.State()])
      ensures Valid()
    {
      obstacleTiles := obstacleTiles + [t];
    }

    method SetExit(t: Tile)
      requires Valid() && t in mapTiles
      modifies this`exitTile
      ensures Contents() == old(Contents()).(exit := Some(t.State()))
      ensures Valid()
    {
      exitTile := t;
    }

    method AddItem(item: ItemSpawn)
      requires Valid()
      modifies this`itemList
      ensures Contents() == old(Contents()).(items := old(Contents()).items + [item])
      ensures Valid()
    {
      itemList := itemList + [item];
    }

    method SetPlayer(p: CharSpawn)
      requires Valid()
      modifies this`player
      ensures Contents() == old(Contents()).(player := Some(p))
      ensures Valid()
    {
      player := Some(p);
    }

    method AddCharacter(c: CharSpawn)
      requires Valid()
      modifies this`characterList
      ensures Contents() == old(Contents()).(enemies := old(Contents()).enemies + [c])
      ensures Valid()
    {
      characterList := characterList + [c];
    }

    /** `update`: every tile record moves by the scroll; the lists themselves are unchanged. */
    method Update(scroll: Vec)
      requires Valid()
      modifies mapTiles
      ensures forall i :: 0 <= i < |mapTiles| ==> mapTiles[i].State() == ShiftTile(old(mapTiles[i].State()), scroll)
      ensures forall t :: t in obstacleTiles ==> t.State() == ShiftTile(old(t.State()), scroll)
      ensures exitTile != null ==> exitTile.State() == ShiftTile(old(exitTile.State()), scroll)
    {
      var i := 0;
      while i < |mapTiles|
        invariant 0 <= i <= |mapTiles|
        invariant forall j :: 0 <= j < i ==> mapTiles[j].State() == ShiftTile(old(mapTiles[j].State()), scroll)
        invariant forall j :: i <= j < |mapTiles| ==> mapTiles[j].State() == old(mapTiles[j].State())
      {
        mapTiles[i].Shift(scroll);
        i := i + 1;
      }
    }
  }
}
