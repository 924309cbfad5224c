// A board is saved as the list of its tiles, and its cells are rebuilt from that list.
//
// server/src/board/board.cpp: Board::load, Board::save

module SaveLoad {
  import opened Tiles
  import opened TileMaps
  import opened Operations

  // The cells that a tile is put on when a board is loaded.
  function LoadArea(t: Tile): (area: set<Location>)
    ensures TileOk(t) ==> forall l :: l in area <==> Covers(t, l)
  {
    if t.width > 1 || t.height > 1 then AreaOf(t) else {t.Origin()}
  }

  // Cells that are occupied already keep the tile they have.
  function Emplaced(cells: map<Location, Id>, area: set<Location>, id: Id): map<Location, Id> {
    (map l | l in area :: id) + cells
  }

  lemma EmplaceStep(cells: map<Location, Id>, seen: set<Location>, l: Location, id: Id)
    ensures var now := Emplaced(cells, seen, id);
      (if l in now then now else now[l := id]) == Emplaced(cells, seen + {l}, id)
    ensures Emplaced(cells, {}, id) == cells
  {
  }

  // Ids that do not name a tile are passed over.
  function Loaded(cells: map<Location, Id>, saved: map<Id, Tile>, ids: seq<Id>): map<Location, Id>
    decreases |ids|
  {
    if ids == [] then cells
    else
      var id := ids[0];
      Loaded(if id in saved then Emplaced(cells, LoadArea(saved[id]), id) else cells, saved, ids[1..])
  }

  // The tile objects that are loaded.
  function Picked(saved: map<Id, Tile>, ids: seq<Id>): (tiles: map<Id, Tile>)
    ensures forall id :: id in tiles <==> id in ids && id in saved
    ensures forall id :: id in tiles ==> tiles[id] == saved[id]
  {
    map id | id in ids && id in saved :: saved[id]
  }

  lemma PickedStep(tiles: map<Id, Tile>, saved: map<Id, Tile>, ids: seq<Id>, id: Id)
    ensures tiles + Picked(saved, ids + [id]) ==
            (if id in saved then (tiles + Picked(saved, ids))[id := saved[id]] else tiles + Picked(saved, ids))
    ensures tiles + Picked(saved, []) == tiles
  {
  }

  // The tiles with an origin outside rest are listed, each once.
  ghost predicate Saving(tiles: map<Id, Tile>, rest: set<Location>, ids: seq<Id>) {
    && (forall id :: id in ids <==> id in tiles && tiles[id].Origin() !in rest)
    && (forall i, j :: 0 <= i < j < |ids| ==> ids[i] != ids[j])
  }

  lemma SavingStep(tiles: map<Id, Tile>, rest: set<Location>, ids: seq<Id>, l: Location, id: Id)
    requires Saving(tiles, rest, ids)
    requires l in rest
    requires id in tiles
    requires forall x :: x in tiles && tiles[x].Origin() == l ==> x == id
    ensures Saving(tiles, rest - {l}, if tiles[id].Origin() == l then ids + [id] else ids)
  {
  }

  predicate Claims(saved: map<Id, Tile>, ids: seq<Id>, id: Id, l: Location) {
    id in ids && id in saved && l in LoadArea(saved[id])
  }

  // A cell is occupied after loading if it was before or a listed tile claims it; the tile
  // on it is the one it had, or one that claims it.
  lemma {:induction false} LoadedCell(cells: map<Location, Id>, saved: map<Id, Tile>, ids: seq<Id>, l: Location)
    ensures var after := Loaded(cells, saved, ids);
      && (l in after <==> l in cells || exists id :: Claims(saved, ids, id, l))
      && (l in cells ==> after[l] == cells[l])
      && (l in after && l !in cells ==> Claims(saved, ids, after[l], l))
    decreases |ids|
  {
    if ids != [] {
      var id, rest := ids[0], ids[1..];
      var next := if id in saved then Emplaced(cells, LoadArea(saved[id]), id) else cells;
      LoadedCell(next, saved, rest, l);
      assert forall i :: i in ids <==> i == id || i in rest;
      assert forall i :: Claims(saved, ids, i, l) <==> Claims(saved, [id], i, l) || Claims(saved, rest, i, l);
      if id in saved && l in LoadArea(saved[id]) {
        assert Claims(saved, ids, id, l);
      }
      forall i | Claims(saved, rest, i, l) ensures Claims(saved, ids, i, l) {
      }
    }
  }

  ghost predicate NoOverlap(tiles: map<Id, Tile>) {
    forall a, b, l :: a in tiles && b in tiles && Covers(tiles[a], l) && Covers(tiles[b], l) ==> a == b
  }

  // The list names exactly the tiles, in any order and any number of times.
  ghost predicate Lists(ids: seq<Id>, tiles: map<Id, Tile>) {
    forall id :: id in ids <==> id in tiles
  }

  lemma LoadedCells(tiles: map<Id, Tile>, ids: seq<Id>, l: Location)
    requires TilesOk(tiles)
    requires Lists(ids, tiles)
    ensures var cells := Loaded(map[], tiles, ids);
      && (l in cells ==> cells[l] in tiles && Covers(tiles[cells[l]], l))
      && (forall id :: id in tiles && Covers(tiles[id], l) ==> l in cells)
  {
    LoadedCell(map[], tiles, ids, l);
    forall id | id in tiles && Covers(tiles[id], l) ensures Claims(tiles, ids, id, l) {
    }
  }

  lemma TiledNoOverlap(m: TileMap)
    requires Tiled(m)
    ensures TilesOk(m.tiles)
    ensures NoOverlap(m.tiles)
  {
    forall a, b, l | a in m.tiles && b in m.tiles && Covers(m.tiles[a], l) && Covers(m.tiles[b], l) ensures a == b {
      assert m.cells[l] == a;
    }
  }

  lemma SavingStarts(tiles: map<Id, Tile>, all: set<Location>)
    requires forall id :: id in tiles ==> tiles[id].Origin() in all
    ensures Saving(tiles, all, [])
  {
  }

  lemma SavingEnds(tiles: map<Id, Tile>, ids: seq<Id>)
    requires Saving(tiles, {}, ids)
    ensures Lists(ids, tiles)
    ensures forall i, j :: 0 <= i < j < |ids| ==> ids[i] != ids[j]
  {
  }

  // Loading sound tiles gives a tiled board if and only if no two of them overlap.
  lemma LoadedIsTiled(tiles: map<Id, Tile>, ids: seq<Id>)
    requires TilesOk(tiles)
    requires Lists(ids, tiles)
    ensures Tiled(TileMap(Loaded(map[], tiles, ids), tiles)) <==> NoOverlap(tiles)
  {
    hide Loaded, TilesOk;
    var m := TileMap(Loaded(map[], tiles, ids), tiles);
    forall l ensures l in m.cells ==> m.cells[l] in tiles && Covers(tiles[m.cells[l]], l)
             ensures forall id :: id in tiles && Covers(tiles[id], l) ==> l in m.cells
    {
      LoadedCells(tiles, ids, l);
    }
    if Tiled(m) {
      TiledNoOverlap(m);
    }
  }

  // Only one cell map makes given tiles a tiled board.
  lemma CellsAreUnique(m: TileMap, n: TileMap)
    requires Tiled(m) && Tiled(n)
    requires m.tiles == n.tiles
    ensures m == n
  {
    assert m.cells == n.cells;
  }

  // Loading what was saved rebuilds the identical cell map, in whatever order the tiles
  // were listed.
  lemma LoadUndoesSave(m: TileMap, ids: seq<Id>)
    requires Tiled(m)
    requires Lists(ids, m.tiles)
    ensures Loaded(map[], m.tiles, ids) == m.cells
  {
    hide Tiled, NoOverlap, TilesOk;
    TiledNoOverlap(m);
    LoadedIsTiled(m.tiles, ids);
    CellsAreUnique(TileMap(Loaded(map[], m.tiles, ids), m.tiles), m);
  }
}
