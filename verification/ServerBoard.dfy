// The server's board, updated in place (server/src/board/board.cpp, board.hpp).

module ServerBoard {
  import opened Wrappers
  import opened Tiles
  import opened TileMaps
  import opened Operations
  import opened Links
  import opened Track
  import opened BoardRuns
  import opened SaveLoad
  import opened Extent
  import opened Bounds

  class Board {
    var cells: map<Location, Id>   // m_tiles: the tile object on every occupied cell
    var tiles: map<Id, Tile>       // the fields of the tile objects
    var links: LinkMap             // the links kept by the tiles' nodes
    var modified: bool
    var sent: seq<TileEvent>       // tileDataChanged signals
    var box: Box                   // left, right, top and bottom

    ghost function State(): BoardState
      reads this`cells, this`tiles, this`links, this`modified, this`sent
    {
      BoardState(TileMap(cells, tiles), links, modified, sent)
    }

    ghost predicate Valid()
      reads this`cells, this`tiles, this`links, this`modified, this`sent
    {
      ValidState(State())
    }

    constructor ()
      ensures Valid() && State() == NEW_BOARD
      ensures box == Box(0, 0, 0, 0)
    {
      cells, tiles, links, modified, sent := map[], map[], map[], false, [];
      box := Box(0, 0, 0, 0);
    }

    method GetTile(l: Location) returns (r: Option<Id>)
      ensures r == if l in cells then Some(cells[l]) else Option.None
    {
      if l in cells {
        return Some(cells[l]);
      }
      return Option.None;
    }

    // The loops over the cells of an area.
    method EraseArea(x1: int, x2: int, y1: int, y2: int)
      modifies this`cells
      ensures cells == old(cells) - Area(x1, x2, y1, y2)
    {
      ghost var seen: set<Location> := {};
      VisitedNone(x1, y1, y2);
      var x := x1;
      while x < x2
        invariant Scanning(x1, x, x2)
        invariant cells == old(cells) - seen
        invariant seen == Visited(x1, x, y1, y2, y1)
      {
        var y := y1;
        while y < y2
          invariant Scanning(y1, y, y2)
          invariant cells == old(cells) - seen
          invariant seen == Visited(x1, x, y1, y2, y)
        {
          EraseStep(old(cells), seen, Location(x, y));
          VisitedStep(x1, x, y1, y2, y);
          cells, seen := cells - {Location(x, y)}, seen + {Location(x, y)};
          y := y + 1;
        }
        VisitedColumn(x1, x, y1, y2, y);
        x := x + 1;
      }
      VisitedAll(x1, x, x2, y1, y2);
    }

    // free: the program asserts that the cells are not occupied.
    method FillArea(x1: int, x2: int, y1: int, y2: int, id: Id, ghost free: bool)
      requires free ==> forall l :: l in Area(x1, x2, y1, y2) ==> l !in cells
      modifies this`cells
      ensures cells == Filled(old(cells), Area(x1, x2, y1, y2), id)
    {
      ghost var seen: set<Location> := {};
      VisitedNone(x1, y1, y2);
      var x := x1;
      while x < x2
        invariant Scanning(x1, x, x2)
        invariant cells == Filled(old(cells), seen, id)
        invariant seen == Visited(x1, x, y1, y2, y1)
      {
        var y := y1;
        while y < y2
          invariant Scanning(y1, y, y2)
          invariant cells == Filled(old(cells), seen, id)
          invariant seen == Visited(x1, x, y1, y2, y)
        {
          assert free ==> Location(x, y) !in cells;
          FillStep(old(cells), seen, Location(x, y), id);
          VisitedStep(x1, x, y1, y2, y);
          cells, seen := cells[Location(x, y) := id], seen + {Location(x, y)};
          y := y + 1;
        }
        VisitedColumn(x1, x, y1, y2, y);
        x := x + 1;
      }
      VisitedAll(x1, x, x2, y1, y2);
    }

    // Erases the cells of the tile at (x, y), whatever cell of it that is.
    method RemoveTile(x: Int16, y: Int16)
      requires Location(x, y) in cells ==> cells[Location(x, y)] in tiles
      modifies this`cells, this`sent
      ensures if Location(x, y) in old(cells) then
                var t := tiles[old(cells)[Location(x, y)]];
                cells == old(cells) - AreaOf(t) && sent == old(sent) + [Removed(t.Origin())]
              else
                cells == old(cells) && sent == old(sent)
    {
      var id := GetTile(Location(x, y));
      if id.None? {
        return;
      }
      var t := tiles[id.value];
      EraseArea(t.x, Narrow(t.x + t.width), t.y, Narrow(t.y + t.height));
      sent := sent + [Removed(t.Origin())];
    }

    // The tile object goes away, and with it the links of its node.
    method DestroyTile(id: Id)
      requires id in tiles && Paired(links) && NodeEnds(tiles, links)
      modifies this`tiles, this`links
      ensures tiles == old(tiles) - {id}
      ensures links == KeepTiles(old(links), tiles.Keys)
    {
      hide Paired, Disconnect, KeepTiles, Disconnecting, NodeSize;
      DisconnectingStarts(links, id);
      for i := 0 to NodeSize(tiles[id].id)
        invariant tiles == old(tiles)
        invariant Disconnecting(old(links), links, id, i)
      {
        DisconnectingStep(old(links), links, id, i);
        links := Disconnect(links, End(id, i));
      }
      DisconnectingEnds(old(links), links, tiles.Keys, id, NodeSize(tiles[id].id));
      tiles := tiles - {id};
      assert tiles.Keys == old(tiles).Keys - {id};
    }

    // Takes the tile at (x, y) off the board and destroys it.
    method Discard(x: Int16, y: Int16)
      requires Valid()
      requires Location(x, y) in cells
      modifies this`cells, this`tiles, this`links, this`sent
      ensures State().(modified := true) == After(old(State()), Delete(old(State()).map_, Location(x, y)))
      ensures cells.Keys <= old(cells).Keys
    {
      AfterDelete(State(), Location(x, y));
      var id := cells[Location(x, y)];
      RemoveTile(x, y);
      DestroyTile(id);
    }

    method DeleteTile(x: Int16, y: Int16) returns (ok: bool)
      requires Valid()
      modifies this
      ensures Valid()
      ensures ok
      ensures State() == After(old(State()), Delete(old(State()).map_, Location(x, y)))
      ensures old(BoxInv()) ==> BoxInv()
      ensures if Location(x, y) in old(cells) then BoxFollows(old(box), box, cells.Keys) else box == old(box)
    {
      hide ValidState, BoxFollows;
      ghost var s, l := State(), Location(x, y);
      var id := GetTile(Location(x, y));
      if id.Some? {
        AfterDelete(s, l);
        Discard(x, y);
        FewerCellsInLimits(cells, s.map_.cells);
        UpdateSize(false);
        modified := true;
      } else {
        NothingDone(s, true);
      }
      return true;
    }

    // ---- add_tile ----

    // Writes the tile object to all cells of its area, and tells the clients.
    method PutTile(id: Id, t: Tile, ghost free: bool)
      requires 1 <= t.width && 1 <= t.height
      requires free ==> forall l :: l in AreaOf(t) ==> l !in cells
      modifies this`cells, this`tiles, this`sent
      ensures State() ==
        var s := old(State());
        BoardState(Place(s.map_, id, t), s.links, s.modified, s.sent + [Changed(id, t)])
    {
      FillArea(t.x, Narrow(t.x + t.width), t.y, Narrow(t.y + t.height), id, free);
      tiles := tiles[id := t];
      sent := sent + [Changed(id, t)];
    }

    // Makes the tile of a class and puts it on the board.
    method CreateTile(newId: Id, x: Int16, y: Int16, rotate: Rotation, tileClass: TileId) returns (ok: bool)
      modifies this
      ensures ok <==> tileClass != TileId.None && InLimits(NewTile(tileClass, x, y, rotate))
      ensures State() ==
        if !ok then old(State())
        else
          var t, s := NewTile(tileClass, x, y, rotate), old(State());
          BoardState(Place(s.map_, newId, t), s.links, true, s.sent + [Changed(newId, t)])
      ensures old(BoxInv()) ==> BoxInv()
      ensures if ok then BoxFollows(old(box), box, cells.Keys) else box == old(box)
    {
      hide Filled, BoxFollows;
      if tileClass == TileId.None {
        return false;
      }
      var t := NewTile(tileClass, x, y, rotate);
      var x2, y2 := Narrow(t.x + t.width), Narrow(t.y + t.height);
      if t.x < SIZE_MIN || x2 >= SIZE_MAX || t.y < SIZE_MIN || y2 >= SIZE_MAX {
        return false;
      }
      FilledInLimits(cells, t, newId);
      PutTile(newId, t, false);
      UpdateSize(false);
      modified := true;
      return true;
    }

    // What a straight becomes together with another straight, or with something extra.
    method MergeTile(t: Tile, tileClass: TileId, rotate: Rotation)
      returns (ok: bool, newClass: TileId, newRotate: Rotation)
      ensures Merged(t, tileClass, rotate) == if ok then Some((newClass, newRotate)) else Option.None
    {
      if t.id == RailStraight && tileClass == RailStraight {
        if t.rotate == Turn(rotate, DEG_90) || t.rotate == TurnBack(rotate, DEG_90) {
          return true, RailBridge90, t.rotate;
        } else if t.rotate == Turn(rotate, DEG_45) || t.rotate == Turn(rotate, DEG_225) {
          return true, RailBridge45Left, t.rotate;
        } else if t.rotate == TurnBack(rotate, DEG_45) || t.rotate == TurnBack(rotate, DEG_225) {
          return true, RailBridge45Right, t.rotate;
        }
        return false, tileClass, rotate;
      }
      ok := t.id == RailStraight && CanUpgradeStraightRail(tileClass)
            && (t.rotate == rotate || Turn(t.rotate, DEG_180) == rotate);
      return ok, tileClass, rotate;
    }

    // Takes the tile that is in the way off the board, if it is to be replaced or merged.
    method MakeRoom(ghost newId: Id, x: Int16, y: Int16, rotate: Rotation, tileClass: TileId, replace: bool)
      returns (ok: bool, newClass: TileId, newRotate: Rotation)
      requires Valid()
      modifies this
      ensures var m, l := old(State()).map_, Location(x, y);
        if ok then
          && State() == After(old(State()), Delete(m, l))
          && Add(m, newId, l, rotate, tileClass, replace) == Create(Delete(m, l), newId, l, newClass, newRotate)
        else
          && State() == old(State())
          && Add(m, newId, l, rotate, tileClass, replace) == Outcome(m, false, [], false)
      ensures old(BoxInv()) ==> BoxInv()
      ensures if ok && Location(x, y) in old(cells) then BoxFollows(old(box), box, cells.Keys) else box == old(box)
    {
      hide After, Tiled, Create, Delete, Merged, BoxFollows;
      ghost var s := State();
      if Location(x, y) !in cells {
        NothingToDelete(s.map_, Location(x, y));
      }
      TiledCells(s.map_);
      NothingDone(s, true);
      ok, newClass, newRotate := true, tileClass, rotate;
      var id := GetTile(Location(x, y));
      if id.Some? {
        if !replace {
          ok, newClass, newRotate := MergeTile(tiles[id.value], tileClass, rotate);
          if !ok {
            return;
          }
        }
        var deleted := DeleteTile(x, y);
      }
    }

    method AddTile(newId: Id, x: Int16, y: Int16, rotate: Rotation, tileClass: TileId, replace: bool) returns (ok: bool)
      requires Valid()
      requires newId !in tiles
      modifies this
      ensures var o := Add(old(State()).map_, newId, Location(x, y), rotate, tileClass, replace);
        ok == o.ok && State() == After(old(State()), o)
      ensures old(BoxInv()) ==> BoxInv()
      ensures BoxAfterAdd(old(State()).map_, Location(x, y), sent != old(sent), old(box), box, cells.Keys)
    {
      hide After, Tiled, Delete, Add, Merged, BoxFollows;
      ghost var s, l, box0 := State(), Location(x, y), box;
      DeleteEffect(s.map_, l);
      AfterParts(s, Delete(s.map_, l));
      NothingDone(s, false);
      DeleteFrees(s.map_, l);
      var newClass, newRotate;
      ok, newClass, newRotate := MakeRoom(newId, x, y, rotate, tileClass, replace);
      if ok {
        AfterAdd(s, newId, l, rotate, tileClass, replace, Delete(s.map_, l), newClass, newRotate);
        ghost var box1 := box;
        ok := CreateTile(newId, x, y, newRotate, newClass);
        if l in s.map_.cells {
          BoxReplaced(s.map_, l, box0, box1, box, cells.Keys);
        }
      }
    }

    // ---- move_tile ----

    // One column of the cells a moved tile goes to.
    method ClearColumn(ghost s: BoardState, id: Id, goal: Tile, x: Int16, replace: bool) returns (ok: bool)
      requires ValidState(s) && id in s.map_.tiles
      requires IsInt16(goal.Origin()) && x < Narrow(goal.x + goal.width)
      requires Valid() && Clearing(s, State(), id, goal, x, goal.y)
      modifies this
      ensures Valid()
      ensures !replace ==> State() == old(State())
      ensures ok <==>
        (replace || forall y :: goal.y <= y < Narrow(goal.y + goal.height) ==>
           !Obstructs(old(State()).map_, id, Location(x, y)))
      ensures ok ==> Clearing(s, State(), id, goal, x + 1, goal.y)
      ensures !replace ==> box == old(box)
      ensures BoxKept(old(BoxInv()), old(box))
    {
      hide Clearing, ValidState, BoxFollows;
      var y, y2 := goal.y, Narrow(goal.y + goal.height);
      while y < y2
        invariant Scanning(goal.y, y, y2)
        invariant Valid() && Clearing(s, State(), id, goal, x, y)
        invariant !replace ==> State() == old(State())
        invariant !replace ==>
          forall k :: goal.y <= k < y ==> !Obstructs(old(State()).map_, id, Location(x, k))
        invariant !replace ==> box == old(box)
        invariant BoxKept(old(BoxInv()), old(box))
      {
        var t := GetTile(Location(x, y));
        if t.Some? && t.value != id {
          if !replace {
            assert Obstructs(old(State()).map_, id, Location(x, y));
            return false;
          }
          ClearingDeletes(s, State(), id, goal, x, y);
          ghost var before, inv := box, BoxInv();
          var deleted := DeleteTile(x, y);
          TileIsOnBoard(s, State(), id, goal, x, y + 1);
          BoxEncloses(before, box, cells.Keys);
          if inv {
            BoxStays(before, box, cells);
          }
        } else {
          ClearingPasses(s, State(), id, goal, x, y);
        }
        y := y + 1;
      }
      ClearingColumn(s, State(), id, goal, x, y);
      return true;
    }

    // Deletes what is in the way of a moved tile, or finds out that something is.
    method ClearTarget(id: Id, goal: Tile, replace: bool) returns (ok: bool)
      requires Valid()
      requires id in tiles
      requires IsInt16(goal.Origin())
      modifies this
      ensures !replace ==> State() == old(State())
      ensures ok <==> replace || !exists l :: l in AreaOf(goal) && Obstructs(old(State()).map_, id, l)
      ensures ok ==>
        && State().map_ == Clear(old(State()).map_, id, goal).0
        && sent == old(sent) + Clear(old(State()).map_, id, goal).1
        && links == KeepTiles(old(links), tiles.Keys)
      ensures !replace ==> box == old(box)
      ensures BoxKept(old(BoxInv()), old(box))
    {
      hide Clearing, ValidState;
      ghost var s := State();
      ClearingStarts(s, id, goal);
      var x, x2 := goal.x, Narrow(goal.x + goal.width);
      while x < x2
        invariant Scanning(goal.x, x, x2)
        invariant Valid() && Clearing(s, State(), id, goal, x, goal.y)
        invariant !replace ==> State() == s
        invariant !replace ==> forall l :: l in AreaOf(goal) && l.x < x ==> !Obstructs(s.map_, id, l)
        invariant !replace ==> box == old(box)
        invariant BoxKept(old(BoxInv()), old(box))
      {
        ok := ClearColumn(s, id, goal, x, replace);
        if !ok {
          return false;
        }
        x := x + 1;
      }
      ClearingEnds(s, State(), id, goal, x);
      return true;
    }

    // The tile as it is to be after the move.
    method FindGoal(t: Tile, xFrom: Int16, yFrom: Int16, xTo: Int16, yTo: Int16, rotate: Rotation)
      returns (goal: Option<Tile>)
      ensures goal == MoveGoal(t, Location(xFrom, yFrom), Location(xTo, yTo), rotate)
    {
      // correct coordinates, so the target is a tile origin
      var xDiff, yDiff := Narrow(xFrom - t.x), Narrow(yFrom - t.y);
      var x, y := Narrow(xTo - xDiff), Narrow(yTo - yDiff);

      var width, height := t.width, t.height;
      if t.rotate != rotate && width != height {
        if IsDiagonal(rotate) {
          return Option.None;
        }
        if Diff(t.rotate, rotate) == DEG_90 {
          width, height := height, width;
        }
      }
      var x2, y2 := Narrow(x + width), Narrow(y + height);
      if x < SIZE_MIN || x2 >= SIZE_MAX || y < SIZE_MIN || y2 >= SIZE_MAX {
        return Option.None;
      }
      return Some(t.(x := x, y := y, width := width, height := height, rotate := rotate));
    }

    // Takes the tile off its old cells and puts it on the new ones, which are free.
    method Relocate(id: Id, goal: Tile)
      requires id in tiles && IsInt16(tiles[id].Origin())
      requires tiles[id].Origin() in cells && cells[tiles[id].Origin()] == id
      requires 1 <= goal.width && 1 <= goal.height && InLimits(goal)
      requires forall l :: l in AreaOf(goal) ==> l !in cells - AreaOf(tiles[id])
      modifies this
      ensures var s := old(State());
        var t := s.map_.tiles[id];
        State() == BoardState(Place(TileMap(s.map_.cells - AreaOf(t), s.map_.tiles), id, goal), s.links, true,
                              s.sent + [Removed(t.Origin())] + [Changed(id, goal)])
      ensures old(BoxInv()) ==> BoxInv()
      ensures BoxFollows(old(box), box, cells.Keys)
    {
      hide Area, Narrow, BoxFollows;
      var t := tiles[id];
      FilledInLimits(cells - AreaOf(t), goal, id);
      FewerCellsInLimits(cells - AreaOf(t), cells);
      RemoveTile(t.x, t.y);
      PutTile(id, goal, true);
      UpdateSize(false);
      modified := true;
    }

    method MoveTile(xFrom: Int16, yFrom: Int16, xTo: Int16, yTo: Int16, rotate: Rotation, replace: bool)
      returns (ok: bool)
      requires Valid()
      modifies this
      ensures var o := Move(old(State()).map_, Location(xFrom, yFrom), Location(xTo, yTo), rotate, replace);
        ok == o.ok && State() == After(old(State()), o)
      ensures old(BoxInv()) ==> BoxInv()
      ensures !ok ==> box == old(box)
      ensures ok && cells.Keys != {} ==> Encloses(box, old(box))
      ensures ok && old(BoxInv()) ==> BoxFollows(old(box), box, cells.Keys)
    {
      hide BoxFollows, After, Tiled, TileOk, Delete, Clear, Place, Paired, Covers, MoveGoal, InLimits;
      ghost var s := State();
      ghost var from, to := Location(xFrom, yFrom), Location(xTo, yTo);
      NothingDone(s, false);
      var found := GetTile(Location(xFrom, yFrom));
      if found.None? {
        return false;
      }
      TiledTile(s.map_, from);
      var id, t := found.value, tiles[found.value];
      var goal := FindGoal(t, xFrom, yFrom, xTo, yTo, rotate);
      if goal.None? {
        return false;
      }
      GoalSize(t, from, to, rotate);
      ok := ClearTarget(id, goal.value, replace);
      if ok {
        TileAfterClear(s, State(), id, goal.value);
        AfterMove(s, State(), from, to, rotate, replace);
        ghost var before := box;
        Relocate(id, goal.value);
        if cells.Keys != {} {
          BoxEncloses(before, box, cells.Keys);
        }
      }
    }

    // ---- resize_tile ----

    method HasRoom(x1: int, x2: int, y1: int, y2: int, id: Id) returns (room: bool)
      ensures room <==> !exists l :: l in Area(x1, x2, y1, y2) && Obstructs(TileMap(cells, tiles), id, l)
    {
      var x := x1;
      while x < x2
        invariant Scanning(x1, x, x2)
        invariant forall l :: l in Area(x1, x2, y1, y2) && l.x < x ==> l in cells ==> cells[l] == id
      {
        var y := y1;
        while y < y2
          invariant Scanning(y1, y, y2)
          invariant forall l :: l in Area(x1, x2, y1, y2) && l.x < x ==> l in cells ==> cells[l] == id
          invariant forall k :: y1 <= k < y && Location(x, k) in cells ==> cells[Location(x, k)] == id
        {
          var t := GetTile(Location(x, y));
          if t.Some? && t.value != id {
            assert Location(x, y) in Area(x1, x2, y1, y2);
            return false;
          }
          y := y + 1;
        }
        x := x + 1;
      }
      return true;
    }

    // Writes the cells of an area that are inside the tile and erases the others.
    method RewriteArea(x1: int, x2: int, y1: int, y2: int, resized: Tile, id: Id)
      modifies this`cells
      ensures cells == Rewritten(old(cells), Area(x1, x2, y1, y2), resized, id)
    {
      hide Rewritten;
      ghost var seen: set<Location> := {};
      VisitedNone(x1, y1, y2);
      RewriteStep(cells, {}, resized, id, Location(x1, y1));
      var xNew, yNew := Narrow(resized.x + resized.width), Narrow(resized.y + resized.height);
      var x := x1;
      while x < x2
        invariant Scanning(x1, x, x2)
        invariant cells == Rewritten(old(cells), seen, resized, id)
        invariant seen == Visited(x1, x, y1, y2, y1)
      {
        var y := y1;
        while y < y2
          invariant Scanning(y1, y, y2)
          invariant cells == Rewritten(old(cells), seen, resized, id)
          invariant seen == Visited(x1, x, y1, y2, y)
        {
          RewriteStep(old(cells), seen, resized, id, Location(x, y));
          VisitedStep(x1, x, y1, y2, y);
          if x < xNew && y < yNew {
            cells := cells[Location(x, y) := id];
          } else {
            cells := cells - {Location(x, y)};
          }
          seen := seen + {Location(x, y)};
          y := y + 1;
        }
        VisitedColumn(x1, x, y1, y2, y);
        x := x + 1;
      }
      VisitedAll(x1, x, x2, y1, y2);
    }

    // Gives a tile that may have the new size its cells.
    method ApplySize(id: Id, width: nat, height: nat)
      requires id in tiles
      requires 1 <= width && 1 <= height
      modifies this`cells, this`tiles, this`sent, this`modified
      ensures var s := old(State());
        var resized := s.map_.tiles[id].(width := width, height := height);
        State() == BoardState(TileMap(ResizedCells(s.map_, id, width, height), s.map_.tiles[id := resized]),
                              s.links, true, s.sent + [Changed(id, resized)])
    {
      hide Rewritten, Area;
      var t := tiles[id];
      var resized := t.(width := width, height := height);
      var xMax, yMax := if width < t.width then t.width else width, if height < t.height then t.height else height;
      RewriteArea(t.x, Narrow(t.x + xMax), t.y, Narrow(t.y + yMax), resized, id);
      tiles := tiles[id := resized];
      sent := sent + [Changed(id, resized)];
      modified := true;
    }

    method ResizeTile(x: Int16, y: Int16, width: nat, height: nat) returns (ok: bool)
      requires Valid()
      requires width < 256 && height < 256
      modifies this`cells, this`tiles, this`sent, this`modified
      ensures var o := Resize(old(State()).map_, Location(x, y), width, height);
        ok == o.ok && State() == After(old(State()), o)
      ensures old(BoxInv()) ==>
        (BoxInv() <==> (ok ==> x + width - 1 <= Min(box.right, SIZE_MAX) && y + height - 1 <= Min(box.bottom, SIZE_MAX)))
    {
      hide After, Resize, ResizedCells, Area, CanResize, Contains;
      ghost var s, l := State(), Location(x, y);
      ResizeSucceedsIff(s.map_, l, width, height);
      if CanResize(s.map_, l, width, height) && BoxInv() {
        ResizeKeepsBoxesIff(s.map_, l, width, height, box);
      }
      NothingDone(s, false);
      ResizeFails(s.map_, l, width, height);
      if width == 0 || height == 0 {
        return false;
      }
      var found := GetTile(Location(x, y));
      if found.None? || tiles[found.value].x != x || tiles[found.value].y != y {
        return false;
      }
      var id, t := found.value, tiles[found.value];
      if width > t.width || height > t.height {
        var room := HasRoom(x, Narrow(x + width), y, Narrow(y + height), id);
        if !room {
          return false;
        }
      }
      if !(width <= t.widthMax && height <= t.heightMax) {
        return false;
      }
      AfterResize(s, l, width, height);
      ApplySize(id, width, height);
      return true;
    }

    // RailTile::setReservedState
    method SetReservedState(id: Id, state: nat)
      requires Valid()
      requires id in tiles
      modifies this`tiles, this`sent
      ensures State() == After(old(State()), Reserve(old(State()).map_, id, state))
    {
      hide After;
      NothingDone(State(), true);
      if tiles[id].reserved != state {
        AfterReserve(State(), id, state);
        tiles := tiles[id := tiles[id].(reserved := state)];
        sent := sent + [Changed(id, tiles[id])];
      }
    }

    // ---- links ----

    // Follows the rail behind a connector of a node to where it stops. ok is false if an
    // assertion of the program fails on the way.
    method FollowRail(start: Connector) returns (ok: bool, arrived: bool, at: Connector, passed: seq<Id>)
      requires Tiled(State().map_)
      requires OnNode(State().map_, start)
      ensures ok <==> RouteEnd(State().map_, start) != AssertFails
      ensures arrived ==> ok && RouteEnd(State().map_, start) == Arrives(at)
      ensures arrived ==>
        at.location in cells && cells[at.location] in tiles && IsNode(tiles[cells[at.location]].id)
      ensures ok && !arrived ==> RouteEnd(State().map_, start) == RailEnd.DeadEnd
      ensures ok ==> passed == RouteTiles(State().map_, start)
    {
      hide Tiled, Following, GraphOf, RouteEnd, RouteTiles, Opposite, OnNode;
      ghost var m := State().map_;
      TiledCells(m);
      at, passed := Opposite(start), [];
      ghost var walk := [at];
      FollowingStarts(m, start);
      while true
        invariant Following(m, start, walk, at, passed)
        decreases |m.tiles| - |walk|
      {
        if at.location !in cells {
          FollowingEnds(m, start, walk, at, passed);
          return true, false, at, passed;
        }
        var id := cells[at.location];
        var t := tiles[id];
        if IsNode(t.id) {
          FollowingEnds(m, start, walk, at, passed);
          return true, true, at, passed;
        }
        var connectors := Connectors(t);
        if |connectors| == 2 && (connectors[0] == at || connectors[1] == at) {
          FollowingOn(m, start, walk, at, passed);
          at := Opposite(connectors[if connectors[0] == at then 1 else 0]);
          passed := passed + [id];
          walk := walk + [at];
        } else {
          FollowingEnds(m, start, walk, at, passed);
          ok := |connectors| == 1 && connectors[0] == at;
          return ok, false, at, passed;
        }
      }
    }

    // Rebuilds the link behind one connector of a node.
    method UpdateLink(id: Id, index: nat, start: Connector) returns (ok: bool)
      requires Tiled(State().map_)
      requires IsEnd(State().map_, End(id, index)) && start == ConnectorOf(State().map_, End(id, index))
      modifies this`links
      ensures AssertionsHold(State().map_) ==> ok
      ensures ok ==> OnNode(State().map_, start) && RouteEnd(State().map_, start) != AssertFails
      ensures ok ==> links == Update(old(links), End(id, index), StatusOf(State().map_, End(id, index)))
    {
      hide Tiled, RouteEnd, RouteTiles, StatusOf, Connectors, Connect, Disconnect, OnNode;
      ghost var m, e := State().map_, End(id, index);
      EndOfConnector(m, e);
      var followed, arrived, at, passed := FollowRail(start);
      if !followed {
        return false;
      }
      if arrived {
        var t := tiles[cells[at.location]];
        var connectors := Connectors(t);
        if |connectors| != NodeSize(t.id) {
          return false;  // Node::getIndex asserts that they are equal
        }
        ArrivedStatus(m, e, at);
        if at in connectors {
          links := Connect(links, Link(passed, End(id, index), End(cells[at.location], IndexOf(connectors, at))));
        }
      } else {
        DeadEndStatus(m, e);
        links := Disconnect(links, End(id, index));
      }
      return true;
    }

    // Rebuilds the links behind all connectors of a node.
    method UpdateNode(id: Id, ghost before: LinkMap, ghost done: set<End>) returns (ok: bool)
      requires Tiled(State().map_)
      requires id in tiles && IsNode(tiles[id].id)
      requires CountsOk(State().map_) ==> Updating(before, Rails(State().map_), done, links)
      modifies this`links
      ensures AssertionsHold(State().map_) ==> ok
      ensures ok ==> NodeChecked(State().map_, id)
      ensures ok && CountsOk(State().map_) ==>
        Updating(before, Rails(State().map_), done + EndsOf(State().map_, id, |Connectors(tiles[id])|), links)
    {
      hide Tiled, Updating, Update, RouteEnd, Connectors, OnNode, StatusOf, Rails, CountsOk, IsNode, NodeSize, StatusOk,
           EndsOf;
      ghost var m := State().map_;
      RailsLeadBack(m);
      var connectors := Connectors(tiles[id]);
      NodeConnectors(m, id);
      if connectors == [] {
        return false;
      }
      EndsOfStep(m, id, 0, done);
      for i := 0 to |connectors|
        invariant EndsChecked(m, id, i)
        invariant CountsOk(m) ==> Updating(before, Rails(m), done + EndsOf(m, id, i), links)
      {
        ghost var e, links0 := End(id, i), links;
        ok := UpdateLink(id, i, connectors[i]);
        if !ok {
          return;
        }
        if CountsOk(m) {
          UpdateKeepsUpdating(before, Rails(m), done + EndsOf(m, id, i), links0, e);
          EndsOfStep(m, id, i, done);
        }
      }
      ok := true;
    }

    // Brings the links up to date if the board was modified. ok is false if an assertion of
    // the program fails; then the program has stopped.
    method Modified() returns (ok: bool)
      requires Valid()
      modifies this`links, this`modified
      ensures ok <==> !old(modified) || AssertionsHold(State().map_)
      ensures ok ==> !modified
      ensures if old(modified) then ok ==> Rebuilt(old(links), Rails(State().map_), links) else links == old(links)
      ensures ok ==> Enabled(old(State()), Rebuild(links)) && State() == Next(old(State()), Rebuild(links))
    {
      if !modified {
        return true;
      }
      hide Tiled, Paired, NodeEnds, Rebuilding;
      ghost var m, before := State().map_, links;
      ghost var done: set<End> := {};
      RebuildStarts(m, links);
      var rest := cells.Keys;
      while rest != {}
        invariant rest <= cells.Keys
        invariant Rebuilding(m, before, rest, done, links)
        decreases rest
      {
        var l :| l in rest;
        TiledCells(m);
        var id := cells[l];
        if IsNode(tiles[id].id) && l == tiles[id].Origin() {
          RebuildingLinks(m, before, rest, done, links);
          ok := UpdateNode(id, before, done);
          if !ok {
            return;
          }
          RebuildNode(m, before, rest, done, links, l);
          done := done + EndsOf(m, id, |Connectors(tiles[id])|);
        } else {
          RebuildPasses(m, before, rest, done, links, l);
        }
        rest := rest - {l};
      }
      RebuildEnds(m, before, done, links);
      modified := false;
      ok := true;
    }

    // ---- loading and saving ----

    method EmplaceArea(x1: int, x2: int, y1: int, y2: int, id: Id)
      modifies this`cells
      ensures cells == Emplaced(old(cells), Area(x1, x2, y1, y2), id)
    {
      hide Emplaced;
      ghost var seen: set<Location> := {};
      VisitedNone(x1, y1, y2);
      EmplaceStep(cells, {}, Location(x1, y1), id);
      var x := x1;
      while x < x2
        invariant Scanning(x1, x, x2)
        invariant cells == Emplaced(old(cells), seen, id)
        invariant seen == Visited(x1, x, y1, y2, y1)
      {
        var y := y1;
        while y < y2
          invariant Scanning(y1, y, y2)
          invariant cells == Emplaced(old(cells), seen, id)
          invariant seen == Visited(x1, x, y1, y2, y)
        {
          EmplaceStep(old(cells), seen, Location(x, y), id);
          VisitedStep(x1, x, y1, y2, y);
          if Location(x, y) !in cells {
            cells := cells[Location(x, y) := id];
          }
          seen := seen + {Location(x, y)};
          y := y + 1;
        }
        VisitedColumn(x1, x, y1, y2, y);
        x := x + 1;
      }
      VisitedAll(x1, x, x2, y1, y2);
    }

    // saved: the tile objects of the world that is loaded.
    method Load(ids: seq<Id>, saved: map<Id, Tile>)
      modifies this`cells, this`tiles
      ensures cells == SaveLoad.Loaded(old(cells), saved, ids)
      ensures tiles == old(tiles) + Picked(saved, ids)
    {
      hide Emplaced, LoadArea, Picked;
      PickedStep(tiles, saved, [], 0);
      for i := 0 to |ids|
        invariant SaveLoad.Loaded(cells, saved, ids[i..]) == SaveLoad.Loaded(old(cells), saved, ids)
        invariant tiles == old(tiles) + Picked(saved, ids[..i])
      {
        var id := ids[i];
        assert ids[i..][0] == id && ids[i..][1..] == ids[i + 1..];
        assert ids[..i + 1] == ids[..i] + [id];
        PickedStep(old(tiles), saved, ids[..i], id);
        if id in saved {
          PutLoaded(id, saved[id]);
        }
      }
      assert ids[..|ids|] == ids;
    }

    method PutLoaded(id: Id, t: Tile)
      modifies this`cells, this`tiles
      ensures cells == Emplaced(old(cells), LoadArea(t), id)
      ensures tiles == old(tiles)[id := t]
    {
      if t.width > 1 || t.height > 1 {
        EmplaceArea(t.x, Narrow(t.x + t.width), t.y, Narrow(t.y + t.height), id);
      } else if t.Origin() !in cells {
        cells := cells[t.Origin() := id];
      }
      tiles := tiles[id := t];
    }

    // The tiles that are written, each once.
    method Save() returns (ids: seq<Id>)
      requires Tiled(State().map_)
      ensures Lists(ids, tiles)
      ensures forall i, j :: 0 <= i < j < |ids| ==> ids[i] != ids[j]
    {
      hide Tiled, Saving;
      ghost var m := State().map_;
      TiledCells(m);
      OriginsOccupied(m);
      ids := [];
      var rest := cells.Keys;
      SavingStarts(tiles, rest);
      while rest != {}
        invariant rest <= cells.Keys
        invariant Saving(tiles, rest, ids)
        decreases rest
      {
        var l :| l in rest;
        var id := cells[l];
        SameOrigin(m, l);
        SavingStep(tiles, rest, ids, l, id);
        rest := rest - {l};
        if l == tiles[id].Origin() {
          ids := ids + [id];
        }
      }
      SavingEnds(tiles, ids);
    }

    // The links are built once everything is loaded.
    method Loaded() returns (ok: bool)
      requires Valid()
      modifies this`links, this`modified
      ensures ok <==> AssertionsHold(State().map_)
      ensures ok ==> !modified && Rebuilt(old(links), Rails(State().map_), links)
      ensures ok && old(links) == map[] ==> Current(Rails(State().map_), links)
    {
      hide Tiled, Paired, NodeEnds, Rebuilt, Current;
      modified := true;
      ok := Modified();
      if ok && old(links) == map[] {
        FirstRebuildIsCurrent(Rails(State().map_), links);
      }
    }

    // ---- the bounding box ----

    // The stored box contains every occupied cell.
    ghost predicate BoxInv()
      reads this`cells, this`box
    {
      CellsInLimits(cells) && Contains(box, cells.Keys)
    }

    // The box has not shrunk, and has not changed if it contained every cell.
    ghost predicate BoxKept(inv: bool, before: Box)
      reads this`cells, this`box
    {
      Encloses(box, before) && (inv ==> BoxInv() && box == before)
    }

    method UpdateSize(allowShrink: bool)
      modifies this`box
      ensures State() == old(State())
      ensures cells.Keys == {} ==> box == Box(0, 0, 0, 0)
      ensures allowShrink ==> forall extent :: IsExtent(extent, cells.Keys) ==> box == Clamped(extent)
      ensures !allowShrink ==> BoxFollows(old(box), box, cells.Keys)
      ensures CellsInLimits(cells) ==> BoxInv()
    {
      if cells.Keys != {} {
        var xMin, xMax, yMin, yMax := FindExtent(cells.Keys);
        ghost var extent := Box(xMin, xMax, yMin, yMax);
        xMin, yMin, xMax, yMax := Clamp(xMin), Clamp(yMin), Clamp(xMax), Clamp(yMax);
        if !allowShrink {
          xMin, yMin := Min(xMin, box.left), Min(yMin, box.top);
          xMax, yMax := Max(xMax, box.right), Max(yMax, box.bottom);
        }
        box := Box(xMin, xMax, yMin, yMax);
        ClampKeeps(extent, cells.Keys);
        forall b | IsExtent(b, cells.Keys) ensures b == extent {
          ExtentIsUnique(b, extent, cells.Keys);
        }
      } else {
        box := Box(0, 0, 0, 0);
      }
    }

    method ResizeToContents()
      modifies this`box
      ensures CellsInLimits(cells) && cells.Keys != {} ==> IsExtent(box, cells.Keys)
      ensures forall extent :: IsExtent(extent, cells.Keys) ==> box == Clamped(extent)
      ensures cells.Keys == {} ==> box == Box(0, 0, 0, 0)
    {
      UpdateSize(true);
      if cells.Keys != {} {
        ExtentExists(cells.Keys);
        ghost var extent :| IsExtent(extent, cells.Keys);
        ClampKeeps(extent, cells.Keys);
      }
    }
  }

  // A tile is the one on its origin.
  lemma SameOrigin(m: TileMap, l: Location)
    requires Tiled(m)
    requires l in m.cells
    ensures forall id :: id in m.tiles && m.tiles[id].Origin() == l ==> id == m.cells[l]
  {
    forall id | id in m.tiles ensures Covers(m.tiles[id], m.tiles[id].Origin()) {
    }
  }

  lemma OriginsOccupied(m: TileMap)
    requires Tiled(m)
    ensures forall id :: id in m.tiles ==> m.tiles[id].Origin() in m.cells
  {
    forall id | id in m.tiles ensures Covers(m.tiles[id], m.tiles[id].Origin()) {
    }
  }

  lemma NodeConnectors(m: TileMap, id: Id)
    requires Tiled(m)
    requires id in m.tiles && IsNode(m.tiles[id].id)
    ensures |Connectors(m.tiles[id])| == NodeSize(m.tiles[id].id) <==> Connectors(m.tiles[id]) != []
    ensures NodeSize(m.tiles[id].id) != 0
    ensures forall i :: 0 <= i < |Connectors(m.tiles[id])| ==> IsEnd(m, End(id, i))
  {
    SomeConnectors(m.tiles[id]);
  }

  // The cells in rest are still to be looked at; the ends in done are up to date.
  ghost predicate Rebuilding(m: TileMap, before: LinkMap, rest: set<Location>, done: set<End>, links: LinkMap)
    requires Tiled(m)
  {
    && (CountsOk(m) ==> Updating(before, Rails(m), done, links))
    && (forall id :: id in m.tiles && IsNode(m.tiles[id].id) && m.tiles[id].Origin() !in rest ==>
          NodeChecked(m, id) && EndsOf(m, id, |Connectors(m.tiles[id])|) <= done)
  }

  lemma StartUpdating(m: TileMap, links: LinkMap)
    requires Tiled(m)
    requires Paired(links) && NodeEnds(m.tiles, links)
    requires CountsOk(m)
    ensures Updating(links, Rails(m), {}, links)
  {
    hide Tiled, StatusOf, Connectors, Describes;
    forall e | e in links ensures e in Rails(m) {
      assert IsEnd(m, e);
    }
  }

  lemma RebuildStarts(m: TileMap, links: LinkMap)
    requires Tiled(m)
    requires Paired(links) && NodeEnds(m.tiles, links)
    ensures Rebuilding(m, links, m.cells.Keys, {}, links)
  {
    hide Tiled, StatusOf, EndsOf, Rails, Connectors, Paired, NodeEnds, CountsOk, Updating, NodeChecked;
    OriginsOccupied(m);
    if CountsOk(m) {
      StartUpdating(m, links);
    }
  }

  lemma RebuildingLinks(m: TileMap, before: LinkMap, rest: set<Location>, done: set<End>, links: LinkMap)
    requires Tiled(m)
    requires Rebuilding(m, before, rest, done, links)
    ensures CountsOk(m) ==> Updating(before, Rails(m), done, links)
  {
  }

  lemma RebuildNode(m: TileMap, before: LinkMap, rest: set<Location>, done: set<End>, links: LinkMap, l: Location)
    requires Tiled(m)
    requires exists links0 :: Rebuilding(m, before, rest, done, links0)
    requires l in m.cells && m.cells[l] in m.tiles && IsNode(m.At(l).id) && NodeChecked(m, m.cells[l])
    requires var more := done + EndsOf(m, m.cells[l], |Connectors(m.At(l))|);
      CountsOk(m) ==> Updating(before, Rails(m), more, links)
    ensures var more := done + EndsOf(m, m.cells[l], |Connectors(m.At(l))|);
      Rebuilding(m, before, rest - {l}, more, links)
  {
    hide Tiled, Updating, NodeChecked, Connectors;
    SameOrigin(m, l);
  }

  lemma RebuildPasses(m: TileMap, before: LinkMap, rest: set<Location>, done: set<End>, links: LinkMap, l: Location)
    requires Tiled(m)
    requires Rebuilding(m, before, rest, done, links)
    requires l in m.cells && m.cells[l] in m.tiles && (!IsNode(m.At(l).id) || m.At(l).Origin() != l)
    ensures Rebuilding(m, before, rest - {l}, done, links)
  {
    hide Tiled, Updating, NodeChecked, Connectors;
    SameOrigin(m, l);
  }

  lemma RebuildEnds(m: TileMap, before: LinkMap, done: set<End>, links: LinkMap)
    requires Tiled(m)
    requires Rebuilding(m, before, {}, done, links)
    ensures AssertionsHold(m)
    ensures Rebuilt(before, Rails(m), links)
  {
    hide Tiled, StatusOf, Updating, RouteEnd, Connectors, OnNode;
    CheckedAll(m);
    RailsLeadBack(m);
    forall e | e in Rails(m) ensures e in done {
      assert e in EndsOf(m, e.tile, |Connectors(m.tiles[e.tile])|);
    }
    DoneIsAll(m, before, done, links);
  }

  lemma DoneIsAll(m: TileMap, before: LinkMap, done: set<End>, links: LinkMap)
    requires Tiled(m)
    requires StatusOk(Rails(m))
    requires Updating(before, Rails(m), done, links)
    requires Rails(m).Keys <= done
    ensures Rebuilt(before, Rails(m), links)
  {
    hide Tiled, StatusOf, StatusOk, IsEnd, Rails;
    assert done == Rails(m).Keys;
    UpdatedAll(before, Rails(m), links);
  }

  // The scan over the occupied cells, in whatever order they come.
  method FindExtent(cells: set<Location>) returns (xMin: int, xMax: int, yMin: int, yMax: int)
    requires cells != {}
    ensures IsExtent(Box(xMin, xMax, yMin, yMax), cells)
  {
    var l :| l in cells;
    var rest := cells - {l};
    ghost var seen := {l};
    xMin, xMax, yMin, yMax := l.x, l.x, l.y, l.y;
    assert l in seen;
    while rest != {}
      invariant seen + rest == cells
      invariant IsExtent(Box(xMin, xMax, yMin, yMax), seen)
      invariant xMin <= xMax && yMin <= yMax
      decreases rest
    {
      l :| l in rest;
      WidenedExtent(Box(xMin, xMax, yMin, yMax), seen, l);
      rest, seen := rest - {l}, seen + {l};
      if l.x < xMin {
        xMin := l.x;
      } else if l.x > xMax {
        xMax := l.x;
      }
      if l.y < yMin {
        yMin := l.y;
      } else if l.y > yMax {
        yMax := l.y;
      }
    }
  }

  // The moved tile is on the board while the target is cleared.
  lemma TileIsOnBoard(before: BoardState, s: BoardState, id: Id, goal: Tile, x: int, y: int)
    requires ValidState(before) && id in before.map_.tiles
    requires goal.y <= y
    requires Clearing(before, s, id, goal, x, y)
    ensures s.map_.cells.Keys != {}
  {
    assert id in s.map_.tiles;
    OriginOccupied(s.map_, id);
  }

  lemma OriginOccupied(m: TileMap, id: Id)
    requires Tiled(m)
    requires id in m.tiles
    ensures m.tiles[id].Origin() in m.cells
  {
    assert Covers(m.tiles[id], m.tiles[id].Origin());
  }

  // A resize leaves the cells in the box and within the limits if and only if the tile does
  // not grow out of them.
  lemma ResizeKeepsBoxesIff(m: TileMap, l: Location, width: nat, height: nat, box: Box)
    requires Tiled(m)
    requires CanResize(m, l, width, height)
    requires CellsInLimits(m.cells) && Contains(box, m.cells.Keys)
    ensures var cells := ResizedCells(m, m.cells[l], width, height);
      CellsInLimits(cells) && Contains(box, cells.Keys) <==>
      l.x + width - 1 <= Min(box.right, SIZE_MAX) && l.y + height - 1 <= Min(box.bottom, SIZE_MAX)
  {
    hide Tiled, Resize, Contains, ResizedCells;
    TiledTile(m, l);
    ResizeFound(m, l, width, height);
    CellWithin(m, l);
    ResizeKeepsBoxIff(m, l, width, height, box);
    ResizeKeepsBoxIff(m, l, width, height, Box(SIZE_MIN, SIZE_MAX, SIZE_MIN, SIZE_MAX));
  }

  lemma CellWithin(m: TileMap, l: Location)
    requires CellsInLimits(m.cells) && l in m.cells
    ensures l.x <= SIZE_MAX && l.y <= SIZE_MAX
  {
  }

  lemma FewerCellsInLimits(cells: map<Location, Id>, more: map<Location, Id>)
    requires cells.Keys <= more.Keys
    ensures CellsInLimits(more) ==> CellsInLimits(cells)
  {
  }

  lemma FilledInLimits(cells: map<Location, Id>, t: Tile, id: Id)
    requires InLimits(t)
    ensures CellsInLimits(cells) ==> CellsInLimits(Filled(cells, AreaOf(t), id))
  {
  }

  lemma ClampKeeps(extent: Box, cells: set<Location>)
    requires IsExtent(extent, cells)
    ensures Contains(Box(SIZE_MIN, SIZE_MAX, SIZE_MIN, SIZE_MAX), cells) ==> Clamped(extent) == extent
  {
  }
}
