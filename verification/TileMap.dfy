// The board's map from cells to tiles, and the tiles themselves.
//
// server/src/board/board.hpp

module TileMaps {
  import opened Tiles

  // A tile object is named by a number; a map entry per covered cell names the same tile.
  type Id = nat

  datatype TileMap = TileMap(cells: map<Location, Id>, tiles: map<Id, Tile>) {
    function At(l: Location): Tile
      requires l in cells && cells[l] in tiles
    {
      tiles[cells[l]]
    }
  }

  const EMPTY_MAP := TileMap(map[], map[])

  ghost predicate TilesOk(tiles: map<Id, Tile>) {
    forall id :: id in tiles ==> TileOk(tiles[id])
  }

  // A cell names a tile exactly when the tile covers it: tiles never overlap, and none is
  // only partly on the board.
  ghost predicate Tiled(m: TileMap) {
    && TilesOk(m.tiles)
    && (forall id, l :: id in m.tiles && Covers(m.tiles[id], l) ==> l in m.cells && m.cells[l] == id)
    && (forall l :: l in m.cells ==> m.cells[l] in m.tiles && Covers(m.tiles[m.cells[l]], l))
  }

  lemma TiledCells(m: TileMap)
    requires Tiled(m)
    ensures forall l :: l in m.cells ==> m.cells[l] in m.tiles
  {
  }

  lemma TiledTile(m: TileMap, l: Location)
    requires Tiled(m)
    requires l in m.cells
    ensures m.cells[l] in m.tiles && TileOk(m.At(l))
  {
  }

  // The tile that is looked up on a cell is the one that covers it.
  lemma TileOnCell(m: TileMap, l: Location, id: Id)
    requires Tiled(m)
    ensures l in m.cells && m.cells[l] == id <==> id in m.tiles && Covers(m.tiles[id], l)
  {
  }
}
