// The limits of a board and its bounding box, which resize_tile looks at neither of.
//
// server/src/board/board.cpp: resize_tile, updateSize

module Bounds {
  import opened Tiles
  import opened TileMaps
  import opened Operations
  import opened Replicas
  import opened BoardRuns
  import opened Extent

  // ---- the bounding box ----

  lemma CellsOutside(b: Box, before: TileMap, after: TileMap, id: Id, resized: Tile)
    requires Contains(b, before.cells.Keys)
    requires Holds(before, resized.Origin(), id)
    requires 0 < resized.width && 0 < resized.height
    requires forall c :: Holds(after, c, id) <==> Covers(resized, c)
    requires forall c, u :: u != id && Holds(after, c, u) ==> Holds(before, c, u)
    ensures Contains(b, after.cells.Keys) <==>
            resized.x + resized.width - 1 <= b.right && resized.y + resized.height - 1 <= b.bottom
  {
    var last := Location(resized.x + resized.width - 1, resized.y + resized.height - 1);
    assert Covers(resized, last);
    assert Holds(after, last, id);
    forall c | c in after.cells && after.cells[c] != id ensures c in before.cells {
      assert Holds(after, c, after.cells[c]);
    }
    forall c | c in after.cells && after.cells[c] == id ensures Covers(resized, c) {
      assert Holds(after, c, id);
    }
  }

  // A box around all cells is one after the resize if and only if the tile does not grow out
  // of it; a size that does not fit sixteen bits changes no cell.
  lemma ResizeKeepsBoxIff(m: TileMap, l: Location, width: nat, height: nat, b: Box)
    requires Tiled(m)
    requires CanResize(m, l, width, height)
    requires Contains(b, m.cells.Keys)
    ensures Contains(b, Resize(m, l, width, height).result.cells.Keys) <==>
            (FitsGrid(m.At(l).(width := width, height := height)) ==>
               l.x + width - 1 <= b.right && l.y + height - 1 <= b.bottom)
  {
    hide Tiled, Resize, TornOff, Contains;
    TiledCells(m);
    ResizeEffect(m, l, width, height);
    var id, resized := m.cells[l], m.At(l).(width := width, height := height);
    var after := Resize(m, l, width, height).result;
    if FitsGrid(resized) {
      forall c, u | u != id && Holds(after, c, u) ensures Holds(m, c, u) {
        assert Holds(after, c, id) <==> Covers(resized, c);
      }
      CellsOutside(b, m, after, id, resized);
    }
  }

  // ---- how the box follows the cells ----

  // std::clamp to the board's limits: the nearest coordinate within them
  function Clamp(x: int): (r: int)
    ensures SIZE_MIN <= r <= SIZE_MAX
    ensures x < r ==> r == SIZE_MIN
    ensures r < x ==> r == SIZE_MAX
  {
    if x < SIZE_MIN then SIZE_MIN else if SIZE_MAX < x then SIZE_MAX else x
  }

  function Clamped(b: Box): Box {
    Box(Clamp(b.left), Clamp(b.right), Clamp(b.top), Clamp(b.bottom))
  }

  ghost predicate CellsInLimits(cells: map<Location, Id>) {
    Contains(Box(SIZE_MIN, SIZE_MAX, SIZE_MIN, SIZE_MAX), cells.Keys)
  }

  // The box does not shrink while a cell is occupied, and grows no more than it has to.
  ghost predicate BoxFollows(before: Box, after: Box, cells: set<Location>) {
    && (cells == {} ==> after == Box(0, 0, 0, 0))
    && (forall extent :: IsExtent(extent, cells) ==> IsHull(after, before, Clamped(extent)))
  }

  // The hull of a box and the extent of some cells, and then of more cells.
  lemma BoxFollowsTwice(b0: Box, b1: Box, b2: Box, cells: set<Location>, more: set<Location>)
    requires BoxFollows(b0, b1, cells) && BoxFollows(b1, b2, more)
    requires cells != {} && cells <= more
    ensures BoxFollows(b0, b2, more)
  {
    ExtentExists(cells);
    var e :| IsExtent(e, cells);
    forall extent | IsExtent(extent, more) ensures IsHull(b2, b0, Clamped(extent)) {
      ExtentGrows(e, cells, extent, more);
      assert Encloses(Clamped(extent), Clamped(e));
    }
  }

  lemma BoxEncloses(before: Box, after: Box, cells: set<Location>)
    requires BoxFollows(before, after, cells)
    requires cells != {}
    ensures Encloses(after, before)
  {
    ExtentExists(cells);
  }

  // add_tile that does anything lets the box follow the cells; only when it takes the last
  // tile off first, the box starts anew.
  ghost predicate BoxAfterAdd(m: TileMap, l: Location, done: bool, before: Box, after: Box, cells: set<Location>)
    requires Tiled(m)
  {
    if !done then after == before
    else if l in m.cells && Delete(m, l).result.cells.Keys == {} then BoxFollows(Box(0, 0, 0, 0), after, cells)
    else BoxFollows(before, after, cells)
  }

  lemma BoxReplaced(m: TileMap, l: Location, b0: Box, b1: Box, b2: Box, more: set<Location>)
    requires Tiled(m)
    requires l in m.cells
    requires BoxFollows(b0, b1, Delete(m, l).result.cells.Keys)
    requires (b2 == b1 && more == Delete(m, l).result.cells.Keys) ||
             (BoxFollows(b1, b2, more) && Delete(m, l).result.cells.Keys <= more)
    ensures BoxAfterAdd(m, l, true, b0, b2, more)
  {
    hide Tiled, Delete, IsHull, IsExtent;
    var rest := Delete(m, l).result.cells.Keys;
    if rest != {} && BoxFollows(b1, b2, more) && rest <= more {
      BoxFollowsTwice(b0, b1, b2, rest, more);
    }
    if rest == {} && b2 == b1 && more == rest {
      NoExtent();
    }
  }

  lemma NoExtent()
    ensures forall extent :: !IsExtent(extent, {})
  {
  }

  // A box that contains all cells stays as it is.
  lemma BoxStays(before: Box, after: Box, cells: map<Location, Id>)
    requires BoxFollows(before, after, cells.Keys)
    requires cells.Keys != {}
    requires Contains(before, cells.Keys) && CellsInLimits(cells)
    ensures after == before
  {
    ExtentExists(cells.Keys);
    var e :| IsExtent(e, cells.Keys);
    assert Clamped(e) == e;
  }

  // ---- the limits ----

  // The tile and its end coordinates are within the board's limits.
  predicate WithinLimits(t: Tile) {
    SIZE_MIN <= t.x && t.x + t.width < SIZE_MAX && SIZE_MIN <= t.y && t.y + t.height < SIZE_MAX
  }

  ghost predicate AllWithinLimits(m: TileMap) {
    forall id :: id in m.tiles ==> WithinLimits(m.tiles[id])
  }

  lemma AddKeepsLimits(m: TileMap, newId: Id, l: Location, rotate: Rotation, tileClass: TileId, replace: bool)
    requires Tiled(m) && AllWithinLimits(m)
    requires newId !in m.tiles && IsInt16(l)
    requires CanAdd(m, l, rotate, tileClass, replace) ==> OnGrid(l)
    ensures AllWithinLimits(Add(m, newId, l, rotate, tileClass, replace).result)
  {
    hide Tiled, Add, Merged, Delete;
    AddSucceedsIff(m, newId, l, rotate, tileClass, replace);
    if CanAdd(m, l, rotate, tileClass, replace) {
      AddEffect(m, newId, l, rotate, tileClass, replace);
    } else {
      FailedAddRefines(m, newId, l, rotate, tileClass, replace);
      DeleteEffect(m, l);
    }
  }

  lemma GoalWithinLimits(t: Tile, from: Location, to: Location, rotate: Rotation)
    requires TileOk(t)
    requires CanStand(t, Shifted(t, from, to, rotate)) && FitsGrid(Shifted(t, from, to, rotate))
    ensures WithinLimits(Shifted(t, from, to, rotate))
  {
  }

  lemma MoveKeepsLimits(m: TileMap, from: Location, to: Location, rotate: Rotation, replace: bool)
    requires Tiled(m) && AllWithinLimits(m)
    requires CanMove(m, from, to, rotate, replace) ==> FitsGrid(Shifted(m.At(from), from, to, rotate))
    ensures AllWithinLimits(Move(m, from, to, rotate, replace).result)
  {
    hide Tiled, Move, CanStand, Shifted, TileOk, HasPlace, WithinLimits;
    MoveSucceedsIff(m, from, to, rotate, replace);
    MoveEffect(m, from, to, rotate, replace);
    if CanMove(m, from, to, rotate, replace) {
      TiledTile(m, from);
      GoalWithinLimits(m.At(from), from, to, rotate);
    }
  }

  lemma ResizeKeepsLimitsIff(m: TileMap, l: Location, width: nat, height: nat)
    requires Tiled(m) && AllWithinLimits(m)
    ensures AllWithinLimits(Resize(m, l, width, height).result) <==>
            (CanResize(m, l, width, height) ==> l.x + width < SIZE_MAX && l.y + height < SIZE_MAX)
  {
    hide Tiled, Resize;
    ResizeSucceedsIff(m, l, width, height);
    if CanResize(m, l, width, height) {
      TiledCells(m);
      ResizeEffect(m, l, width, height);
      var after := Resize(m, l, width, height).result;
      assert WithinLimits(m.At(l));
      assert after.tiles[m.cells[l]] == m.At(l).(width := width, height := height);
    }
  }

  // Every sound operation keeps all tiles within the limits, except a resize that lets a
  // tile grow out of them.
  lemma PerformKeepsLimitsIff(m: TileMap, op: Operation)
    requires Tiled(m) && AllWithinLimits(m)
    requires Possible(m, op) && Sound(m, op)
    ensures AllWithinLimits(Perform(m, op).result) <==>
            (op.ResizeTile? && CanResize(m, op.at, op.width, op.height) ==>
               op.at.x + op.width < SIZE_MAX && op.at.y + op.height < SIZE_MAX)
  {
    hide Tiled, AllWithinLimits, CanResize, CanAdd, CanMove;
    match op
    case AddTile(newId, at, rotate, tileClass, replace) => AddKeepsLimits(m, newId, at, rotate, tileClass, replace);
    case MoveTile(from, to, rotate, replace) => MoveKeepsLimits(m, from, to, rotate, replace);
    case ResizeTile(at, width, height) => ResizeKeepsLimitsIff(m, at, width, height);
    case DeleteTile(at) => DeleteKeepsLimits(m, at);
    case SetReservedState(id, state) => ReserveKeepsLimits(m, id, state);
  }

  lemma DeleteKeepsLimits(m: TileMap, l: Location)
    requires Tiled(m) && AllWithinLimits(m)
    ensures AllWithinLimits(Delete(m, l).result)
  {
    DeleteEffect(m, l);
  }

  lemma ReserveKeepsLimits(m: TileMap, id: Id, state: nat)
    requires Tiled(m) && AllWithinLimits(m)
    requires id in m.tiles
    ensures AllWithinLimits(Reserve(m, id, state).result)
  {
  }
}
