// Inputs for which the program does not do what it is meant to do. The exact conditions
// are PerformKeepsTiled, FailedAddRefines, ResizeKeepsBoxIff, PerformKeepsLimitsIff,
// CurrentIffNoneStuck and EmplaceRightIff.

module Findings {
  import opened Wrappers
  import opened Tiles
  import opened TileMaps
  import opened Operations
  import opened Replicas
  import opened Links
  import opened Track
  import opened BoardRuns
  import opened ClientBoards
  import opened Convergence
  import opened Extent
  import opened Bounds
  import ServerBoard

  // ---- coordinates ----

  // A tile added in the last column that sixteen bits can name passes the check of the
  // board's limits, because its end coordinate wraps around. The call reports success and
  // tells the clients, but the tile is on no cell.
  lemma LastColumnIsLost(m: TileMap, newId: Id, y: Int16, rotate: Rotation, tileClass: TileId)
    requires Tiled(m)
    requires newId !in m.tiles && tileClass != TileId.None
    requires SIZE_MIN <= y < SIZE_MAX - 1
    requires Location(32767, y) !in m.cells
    ensures var o := Add(m, newId, Location(32767, y), rotate, tileClass, false);
      var t := NewTile(tileClass, 32767, y, rotate);
      && o.ok && o.events == [Changed(newId, t)]
      && o.result == TileMap(m.cells, m.tiles[newId := t])
      && !Tiled(o.result)
  {
    hide Tiled, Delete, Add, Merged, PassesLimits, AreaOf, CanAdd;
    var l, t := Location(32767, y), NewTile(tileClass, 32767, y, rotate);
    LastColumnPasses(m, y, rotate, tileClass);
    AddSucceedsIff(m, newId, l, rotate, tileClass, false);
    AddIsPlace(m, newId, l, rotate, tileClass, false);
    NothingToDelete(m, l);
    UnitTileArea(t);
    FillStep(m.cells, {}, l, newId);
    AddKeepsTiled(m, newId, l, rotate, tileClass, false);
  }

  lemma LastColumnPasses(m: TileMap, y: Int16, rotate: Rotation, tileClass: TileId)
    requires Tiled(m)
    requires tileClass != TileId.None && SIZE_MIN <= y < SIZE_MAX - 1
    requires Location(32767, y) !in m.cells
    ensures CanAdd(m, Location(32767, y), rotate, tileClass, false)
  {
    hide Tiled;
  }

  // An add that is to replace a tile by one of a class that does not exist reports failure,
  // after it has deleted the tile.
  lemma UnknownClassDeletes(m: TileMap, newId: Id, l: Location, rotate: Rotation)
    requires Tiled(m)
    requires l in m.cells
    ensures var o := Add(m, newId, l, rotate, TileId.None, true);
      && !o.ok
      && m.cells[l] !in o.result.tiles && l !in o.result.cells
      && o.events == [Removed(m.At(l).Origin())]
  {
    hide Tiled;
    TiledCells(m);
    DeleteFrees(m, l);
    DeleteEffect(m, l);
  }

  // ---- resizing ----

  // A tile one wide and two high, with a free cell to the right of its origin and another
  // tile below that cell: made two wide and one high, it takes that tile off the board,
  // although the call checked that it has room.
  lemma ResizeTearsOffNeighbour(m: TileMap, l: Location, corner: Location)
    requires Tiled(m)
    requires l in m.cells && m.At(l).Origin() == l && l.x < 32700 && l.y < 32700
    requires m.At(l).width == 1 && m.At(l).height == 2 && 2 <= m.At(l).widthMax
    requires corner == Location(l.x + 1, l.y + 1) && corner in m.cells
    requires Location(l.x + 1, l.y) !in m.cells
    ensures var o := Resize(m, l, 2, 1);
      && o.ok
      && m.cells[corner] in o.result.tiles && Covers(o.result.tiles[m.cells[corner]], corner)
      && corner !in o.result.cells
      && !Tiled(o.result)
  {
    var id, t := m.cells[l], m.At(l);
    var resized := t.(width := 2, height := 1);
    assert m.cells[corner] != id;
    forall c | c in AreaOf(resized) ensures !Obstructs(m, id, c) {
      assert c == l || c == Location(l.x + 1, l.y);
    }
    TornCorner(m, id, corner);
    TornOffBreaksTiling(m, id, 2, 1, corner);
  }

  lemma TornCorner(m: TileMap, id: Id, corner: Location)
    requires id in m.tiles
    requires var t := m.tiles[id];
      && t.width == 1 && t.height == 2 && -32768 <= t.x < 32700 && -32768 <= t.y < 32700
      && corner == Location(t.x + 1, t.y + 1)
    requires Obstructs(m, id, corner)
    ensures TornOff(m, id, 2, 1, corner)
    ensures corner !in ResizedCells(m, id, 2, 1)
  {
  }

  // A label on the right edge of the bounding box grows out of it, and out of the board if
  // that is where the board ends.
  lemma LabelGrowsOutOfBox(m: TileMap, l: Location, b: Box)
    requires Tiled(m)
    requires IsExtent(b, m.cells.Keys)
    requires l in m.cells && m.At(l).Origin() == l && m.At(l).width == 1 && m.At(l).height == 1
    requires 2 <= m.At(l).widthMax
    requires l.x == b.right && l.x < 32766
    ensures var o := Resize(m, l, 2, 1);
      && o.ok
      && !Contains(b, o.result.cells.Keys)
      && (m.At(l).x + 1 == SIZE_MAX - 1 ==> !WithinLimits(o.result.tiles[m.cells[l]]))
  {
    hide Tiled, Resize;
    TiledTile(m, l);
    NothingBeside(m, l, b);
    ResizeSucceedsIff(m, l, 2, 1);
    ResizeEffect(m, l, 2, 1);
    ResizeKeepsBoxIff(m, l, 2, 1, b);
  }

  lemma NothingBeside(m: TileMap, l: Location, b: Box)
    requires Tiled(m)
    requires Contains(b, m.cells.Keys)
    requires l in m.cells && m.At(l).Origin() == l && m.At(l).width == 1 && m.At(l).height == 1
    requires 2 <= m.At(l).widthMax
    requires l.x == b.right
    ensures CanResize(m, l, 2, 1)
  {
    var resized := m.At(l).(width := 2, height := 1);
    forall id, c | id in m.tiles && id != m.cells[l] && Covers(m.tiles[id], c) ensures !Covers(resized, c) {
      assert c in m.cells && m.cells[c] == id && c != l;
    }
  }

  const CORNER := Location(0, 0)

  // A board with one tile, on one cell.
  ghost predicate OneLabel(s: BoardState) {
    && ValidState(s)
    && s.map_.cells.Keys == {CORNER}
    && s.map_.At(CORNER) == NewTile(Label, 0, 0, DEG_0)
  }

  lemma OnlyTile(m: TileMap, id: Id, l: Location)
    requires forall c :: Holds(m, c, id) <==> c == l
    requires forall c, u :: u != id ==> !Holds(m, c, u)
    ensures m.cells.Keys == {l} && m.cells[l] == id
  {
    assert Holds(m, l, id);
    forall c | c in m.cells ensures c == l {
      assert Holds(m, c, m.cells[c]);
    }
  }

  lemma FirstLabel()
    ensures Tiled(NEW_BOARD.map_)
    ensures OneLabel(After(NEW_BOARD, Add(NEW_BOARD.map_, 1, CORNER, DEG_0, Label, false)))
  {
    hide Tiled, Add, Merged, Holds, ValidState, NewTile, IsNew, Becomes;
    NewBoardInv();
    NewBoardValid();
    var op := AddTile(1, CORNER, DEG_0, Label, false);
    AddEffect(NEW_BOARD.map_, 1, CORNER, DEG_0, Label, false);
    OnlyNewTile(Add(NEW_BOARD.map_, 1, CORNER, DEG_0, Label, false).result.tiles[1], Label, CORNER, DEG_0);
    SoundKeepsValid(NEW_BOARD, op);
    forall c, u ensures !Holds(NEW_BOARD.map_, c, u) {
      NothingHeld(c, u);
    }
    OnlyTile(Add(NEW_BOARD.map_, 1, CORNER, DEG_0, Label, false).result, 1, CORNER);
  }

  lemma NothingHeld(c: Location, id: Id)
    ensures !Holds(NEW_BOARD.map_, c, id)
  {
  }

  lemma NewBoardValid()
    ensures ValidState(NEW_BOARD) && Tiled(NEW_BOARD.map_)
  {
    hide AssertionsHold, Cached;
    NewBoardInv();
  }

  lemma LabelInLimits(s: BoardState)
    requires OneLabel(s)
    ensures s.map_.cells.Keys != {} && CellsInLimits(s.map_.cells)
    ensures ValidState(s) && Tiled(s.map_)
  {
  }

  lemma LabelGrows(s: BoardState, b: Box)
    requires OneLabel(s)
    requires IsExtent(b, s.map_.cells.Keys)
    ensures b == Box(0, 0, 0, 0)
    ensures var o := Resize(s.map_, CORNER, 2, 1);
      && o.ok
      && ValidState(After(s, o))
      && Location(1, 0) in After(s, o).map_.cells
  {
    hide Tiled, Resize, Paired, NodeEnds;
    var m := s.map_;
    TiledCells(m);
    assert CORNER in m.cells;
    NothingBeside(m, CORNER, b);
    ResizeSucceedsIff(m, CORNER, 2, 1);
    ResizeEffect(m, CORNER, 2, 1);
    SoundKeepsValid(s, ResizeTile(CORNER, 2, 1));
    assert Covers(m.At(CORNER).(width := 2, height := 1), Location(1, 0));
    assert Holds(Resize(m, CORNER, 2, 1).result, Location(1, 0), m.cells[CORNER]);
  }

  // The first label of a new board, made two cells wide, is not in the board's box, although
  // the box was that of the board's contents before.
  method GrowLabel() returns (board: ServerBoard.Board, ok: bool)
    ensures fresh(board) && ok
    ensures board.Valid() && !board.BoxInv()
    ensures Location(1, 0) in board.cells && board.box == Box(0, 0, 0, 0)
  {
    hide After, Add, Resize, Tiled, ValidState, IsExtent, OneLabel, CellsInLimits;
    board := new ServerBoard.Board();
    FirstLabel();
    var added := board.AddTile(1, 0, 0, DEG_0, Label, false);
    ghost var s := board.State();
    LabelInLimits(s);
    board.ResizeToContents();
    LabelGrows(s, board.box);
    ok := board.ResizeTile(0, 0, 2, 1);
  }

  // ---- turning ----

  predicate IsQuarterTurn(a: Rotation, b: Rotation) {
    Turn(a, DEG_90) == b || Turn(b, DEG_90) == a
  }

  // A tile that is not square changes width and height when it is turned by a quarter,
  // except between 0 and 270 degrees: the program takes the plain difference of the two
  // rotations.
  lemma QuarterTurnSwapsIff(t: Tile, from: Location, to: Location, rotate: Rotation)
    requires t.width != t.height
    requires MoveGoal(t, from, to, rotate).Some?
    ensures var goal := MoveGoal(t, from, to, rotate).value;
      (if IsQuarterTurn(t.rotate, rotate) then goal.width == t.height && goal.height == t.width
       else goal.width == t.width && goal.height == t.height)
      <==> !(t.rotate == DEG_0 && rotate == DEG_270) && !(t.rotate == DEG_270 && rotate == DEG_0)
  {
    hide Narrow, InLimits;
  }

  // ---- a link that is out of date ----

  lemma TurnInPlace(m: TileMap, l: Location, rotate: Rotation)
    requires Tiled(m)
    requires l in m.cells && m.At(l).Origin() == l && m.At(l).width == 1 && m.At(l).height == 1
    requires SIZE_MIN <= l.x < SIZE_MAX - 1 && SIZE_MIN <= l.y < SIZE_MAX - 1
    ensures var o, id := Move(m, l, l, rotate, false), m.cells[l];
      && o.ok && o.touched
      && o.result == TileMap(m.cells, m.tiles[id := m.tiles[id].(rotate := rotate)])
      && Tiled(o.result)
      && CanMove(m, l, l, rotate, false) && FitsGrid(Shifted(m.At(l), l, l, rotate))
  {
    hide Move, Clear, Tiled, AreaOf, Shifted, CanStand, Without, Place, Lift, HasPlace;
    TiledTile(m, l);
    var id := m.cells[l];
    var goal := m.tiles[id].(rotate := rotate);
    ShiftedInPlace(m.tiles[id], l, rotate);
    UnitTileArea(goal);
    UnitTileArea(m.tiles[id]);
    assert Victims(m, id, {l}) == {};
    PlaceIff(m, id, goal);
    MoveSucceedsIff(m, l, l, rotate, false);
    MoveEffect(m, l, l, rotate, false);
    MoveKeepsTiled(m, l, l, rotate, false);
    assert {} + {id} == {id};
    LiftIsWithout(m, id);
    PutBack(m, id, goal, l);
  }

  lemma ShiftedInPlace(t: Tile, l: Location, rotate: Rotation)
    requires t.Origin() == l && t.width == 1 && t.height == 1
    requires SIZE_MIN <= l.x < SIZE_MAX - 1 && SIZE_MIN <= l.y < SIZE_MAX - 1
    ensures Shifted(t, l, l, rotate) == t.(rotate := rotate)
    ensures CanStand(t, t.(rotate := rotate))
  {
  }

  lemma PutBack(m: TileMap, id: Id, goal: Tile, l: Location)
    requires id in m.tiles && l in m.cells && m.cells[l] == id
    requires AreaOf(goal) == {l} && AreaOf(m.tiles[id]) == {l}
    ensures Place(Lift(m, id), id, goal) == TileMap(m.cells, m.tiles[id := goal])
  {
    var n := Place(Lift(m, id), id, goal);
    assert n.cells == m.cells;
    assert n.tiles == m.tiles[id := goal];
  }

  ghost predicate IsSignal(m: TileMap, l: Location, rotate: Rotation)
    requires Tiled(m)
  {
    && l in m.cells
    && var t := m.At(l);
       t.id == RailSignal2Aspect && t.Origin() == l && t.width == 1 && t.height == 1 && t.rotate == rotate
  }

  lemma SignalConnectors(m: TileMap, l: Location, rotate: Rotation)
    requires Tiled(m)
    requires IsSignal(m, l, rotate)
    requires rotate == DEG_0 || rotate == DEG_90
    ensures Connectors(m.At(l)) ==
            if rotate == DEG_0 then [Connector(l, South), Connector(l, North)]
            else [Connector(l, West), Connector(l, East)]
    ensures forall i :: 0 <= i < 2 ==> IsEnd(m, End(m.cells[l], i))
  {
    var t := m.At(l);
    assert Turns(t.id) == [DEG_0, DEG_180];
    assert Connectors(t) == [Connector(l, DirectionOf(Turn(rotate, DEG_0))), Connector(l, DirectionOf(Turn(rotate, DEG_180)))];
  }

  // A signal at (x, y) that faces another one to its right.
  lemma FacingSignals(m: TileMap, a: Location, b: Location)
    requires Tiled(m)
    requires IsSignal(m, a, DEG_90) && IsSignal(m, b, DEG_90)
    requires IsInt16(a) && a.x < 32767 && b == Location(a.x + 1, a.y)
    ensures End(m.cells[a], 1) in Rails(m)
    ensures Rails(m)[End(m.cells[a], 1)] == Joined(End(m.cells[b], 0), [])
  {
    hide Tiled, Connectors, StatusOf;
    SignalConnectors(m, a, DEG_90);
    SignalConnectors(m, b, DEG_90);
    TiledCells(m);
    FacingStatus(m, End(m.cells[a], 1));
    assert Connectors(m.At(b))[0] == Connector(b, West);
  }

  lemma FacingSide(m: TileMap, a: Location, index: nat, b: Location)
    requires Tiled(m)
    requires IsSignal(m, a, DEG_0) || IsSignal(m, a, DEG_90)
    requires IsSignal(m, b, DEG_0) || IsSignal(m, b, DEG_90)
    requires index < 2
    requires var c := Opposite(Connectors(m.At(a))[index]); c.location == b && c !in Connectors(m.At(b))
    ensures End(m.cells[a], index) in Rails(m)
    ensures Rails(m)[End(m.cells[a], index)] == Misfit
  {
    hide Tiled, Connectors, StatusOf;
    TiledCells(m);
    SignalConnectors(m, a, m.At(a).rotate);
    SignalConnectors(m, b, m.At(b).rotate);
    FacingStatus(m, End(m.cells[a], index));
  }

  // After the turn the rail between the two signals leads nowhere it could be connected.
  lemma TurnedRails(m: TileMap, n: TileMap, a: Location, b: Location, c: Location)
    requires Tiled(m) && Tiled(n)
    requires IsInt16(a) && a.x < 32767 && a.y < 32767
    requires b == Location(a.x + 1, a.y) && c == Location(a.x + 1, a.y + 1)
    requires IsSignal(m, a, DEG_90) && IsSignal(m, b, DEG_90)
    requires IsSignal(n, a, DEG_90) && IsSignal(n, b, DEG_0) && IsSignal(n, c, DEG_90)
    requires n.cells == m.cells
    ensures var e, f := End(m.cells[a], 1), End(m.cells[b], 0);
      && e in Rails(m) && Rails(m)[e] == Joined(f, [])
      && e in Rails(n) && Rails(n)[e] == Misfit
      && f in Rails(n) && Rails(n)[f] == Misfit
  {
    hide Tiled, Connectors, StatusOf, Rails, IsSignal;
    FacingSignals(m, a, b);
    SignalConnectors(n, a, DEG_90);
    SignalConnectors(n, b, DEG_0);
    SignalConnectors(n, c, DEG_90);
    FacingSide(n, a, 1, b);
    FacingSide(n, b, 0, c);
  }

  lemma TurnedState(s: BoardState, b: Location)
    requires Tiled(s.map_) && Paired(s.links) && NodeEnds(s.map_.tiles, s.links)
    requires SIZE_MIN <= b.x < SIZE_MAX - 1 && SIZE_MIN <= b.y < SIZE_MAX - 1
    requires IsSignal(s.map_, b, DEG_90)
    ensures var turn := Operate(MoveTile(b, b, DEG_0, false));
      && Enabled(s, turn)
      && Next(s, turn).links == s.links
      && Next(s, turn).modified
      && Next(s, turn).map_ ==
         TileMap(s.map_.cells, s.map_.tiles[s.map_.cells[b] := s.map_.At(b).(rotate := DEG_0)])
      && Tiled(Next(s, turn).map_)
  {
    hide Tiled, Move;
    TiledCells(s.map_);
    TurnInPlace(s.map_, b, DEG_0);
    assert s.map_.tiles[s.map_.cells[b] := s.map_.At(b).(rotate := DEG_0)].Keys == s.map_.tiles.Keys;
    KeepAllTiles(s.links, s.map_.tiles.Keys);
  }

  lemma TurnedSignals(m: TileMap, n: TileMap, a: Location, b: Location, c: Location)
    requires Tiled(m) && Tiled(n)
    requires IsSignal(m, a, DEG_90) && IsSignal(m, b, DEG_90) && IsSignal(m, c, DEG_90)
    requires a != b && c != b
    requires n == TileMap(m.cells, m.tiles[m.cells[b] := m.At(b).(rotate := DEG_0)])
    ensures IsSignal(n, a, DEG_90) && IsSignal(n, b, DEG_0) && IsSignal(n, c, DEG_90)
  {
    hide Tiled;
  }

  lemma StuckStays(rails0: map<End, Status>, before: LinkMap, rails: map<End, Status>, links: LinkMap, e: End, f: End)
    requires Cached(rails0, before)
    requires e in rails0 && rails0[e] == Joined(f, [])
    requires e in rails && rails[e] == Misfit && f in rails && rails[f] == Misfit
    requires Rebuilt(before, rails, links)
    ensures e in before && e in links && f in links && links[e] == before[e] == links[f]
    ensures !Current(rails, links)
  {
    assert Stuck(before, rails, e) && Stuck(before, rails, f);
  }

  // Two signals face each other, and a third one stands below the second. When the second
  // one is turned towards the third, which it does not fit, every rebuild keeps its link to
  // the first one, although the rail behind neither end of that link fits any more.
  lemma TurnedSignalKeepsLink(s: BoardState, t: BoardState, a: Location, b: Location, links: LinkMap)
    requires BoardInv(s) && !s.modified
    requires SIZE_MIN <= a.x < SIZE_MAX - 2 && SIZE_MIN <= a.y < SIZE_MAX - 1
    requires b == Location(a.x + 1, a.y)
    requires IsSignal(s.map_, a, DEG_90) && IsSignal(s.map_, b, DEG_90)
    requires IsSignal(s.map_, Location(a.x + 1, a.y + 1), DEG_90)
    requires Enabled(s, Operate(MoveTile(b, b, DEG_0, false))) ==> t == Next(s, Operate(MoveTile(b, b, DEG_0, false)))
    requires Enabled(t, Rebuild(links))
    ensures Enabled(s, Operate(MoveTile(b, b, DEG_0, false)))
    ensures var e, f := End(s.map_.cells[a], 1), End(s.map_.cells[b], 0);
      && e in s.links && e in links && f in links && links[e] == s.links[e] == links[f]
      && e in Rails(t.map_) && Rails(t.map_)[e] == Misfit
      && f in Rails(t.map_) && Rails(t.map_)[f] == Misfit
      && !Current(Rails(t.map_), links)
  {
    hide Tiled, NodeEnds, Next, Rails, Cached, Rebuilt, Current, AssertionsHold;
    var c := Location(a.x + 1, a.y + 1);
    TurnedState(s, b);
    TurnedSignals(s.map_, t.map_, a, b, c);
    TurnedRails(s.map_, t.map_, a, b, c);
    StuckStays(Rails(s.map_), s.links, Rails(t.map_), links, End(s.map_.cells[a], 1), End(s.map_.cells[b], 0));
  }

  // A board on which every tile is a signal.
  ghost predicate AllSignals(m: TileMap) {
    forall id :: id in m.tiles ==>
      m.tiles[id].id == RailSignal2Aspect && m.tiles[id].width == 1 && m.tiles[id].height == 1
  }

  lemma NodesOnly(m: TileMap, a: Connector)
    requires Tiled(m) && AllSignals(m)
    requires OnNode(m, a)
    ensures RouteEnd(m, a) != AssertFails
  {
    hide GraphOf, RouteEnd, RouteTiles, Following, Connectors;
    FollowingStarts(m, a);
    FollowingEnds(m, a, [Opposite(a)], Opposite(a), []);
  }

  lemma SignalsMeetAssertions(m: TileMap)
    requires Tiled(m) && AllSignals(m)
    ensures AssertionsHold(m)
  {
    hide Tiled, RouteEnd, OnNode;
    forall a | OnNode(m, a) ensures RouteEnd(m, a) != AssertFails {
      NodesOnly(m, a);
    }
    forall id | id in m.tiles ensures |Connectors(m.tiles[id])| == NodeSize(m.tiles[id].id) {
      assert Turns(RailSignal2Aspect) == [DEG_0, DEG_180];
    }
  }

  lemma AddSignal(s: BoardState, id: Id, l: Location)
    requires BoardInv(s) && AllSignals(s.map_)
    requires id !in s.map_.tiles && l !in s.map_.cells
    requires 0 <= l.x < 10 && 0 <= l.y < 10
    ensures Tiled(s.map_)
    ensures var o := Add(s.map_, id, l, DEG_90, RailSignal2Aspect, false);
      && BoardInv(After(s, o)) && After(s, o).map_ == o.result
      && Tiled(o.result) && AllSignals(o.result)
      && IsSignal(o.result, l, DEG_90)
      && (forall k :: IsSignal(s.map_, k, DEG_90) ==> IsSignal(o.result, k, DEG_90))
      && (forall k :: k in o.result.cells ==> k in s.map_.cells || k == l)
      && (forall u :: u in o.result.tiles ==> u in s.map_.tiles || u == id)
  {
    hide Tiled, Add, BoardInv, NewTile, Merged;
    var m, op := s.map_, AddTile(id, l, DEG_90, RailSignal2Aspect, false);
    BoardSizes(s);
    TiledCells(m);
    AddEffect(m, id, l, DEG_90, RailSignal2Aspect, false);
    OperateKeepsBoardInv(s, op);
    var n := Add(m, id, l, DEG_90, RailSignal2Aspect, false).result;
    BoardSizes(After(s, Add(m, id, l, DEG_90, RailSignal2Aspect, false)));
    assert Holds(n, l, id);
    forall k | IsSignal(m, k, DEG_90) ensures IsSignal(n, k, DEG_90) {
      assert Holds(m, k, m.cells[k]);
      assert Holds(n, k, m.cells[k]);
    }
    forall k | k in n.cells ensures k in m.cells || k == l {
      assert Holds(n, k, n.cells[k]);
    }
  }

  ghost predicate SignalBoard(s: BoardState) {
    BoardInv(s) && AllSignals(s.map_)
  }

  lemma SignalBoardOk(s: BoardState)
    requires SignalBoard(s)
    ensures ValidState(s) && Tiled(s.map_) && AssertionsHold(s.map_)
  {
    hide Tiled, Cached, AllSignals, AssertionsHold;
    SignalsMeetAssertions(s.map_);
  }

  method PutSignal(board: ServerBoard.Board, id: Id, x: Int16, y: Int16)
    requires SignalBoard(board.State())
    requires id !in board.tiles && Location(x, y) !in board.cells
    requires 0 <= x < 10 && 0 <= y < 10
    modifies board
    ensures SignalBoard(board.State())
    ensures Tiled(board.State().map_) && old(Tiled(board.State().map_))
    ensures IsSignal(board.State().map_, Location(x, y), DEG_90)
    ensures forall k :: IsSignal(old(board.State()).map_, k, DEG_90) ==> IsSignal(board.State().map_, k, DEG_90)
    ensures board.cells.Keys <= old(board.cells).Keys + {Location(x, y)}
    ensures board.tiles.Keys <= old(board.tiles).Keys + {id}
  {
    hide BoardInv, ValidState, Tiled, After, Add, AllSignals, IsSignal;
    SignalBoardOk(board.State());
    AddSignal(board.State(), id, Location(x, y));
    var ok := board.AddTile(id, x, y, DEG_90, RailSignal2Aspect, false);
  }

  method BringUpToDate(board: ServerBoard.Board)
    requires SignalBoard(board.State())
    modifies board
    ensures SignalBoard(board.State()) && !board.modified
    ensures board.State().map_ == old(board.State()).map_
    ensures Enabled(old(board.State()), Rebuild(board.links))
  {
    hide ValidState, Tiled, AllSignals, AssertionsHold, Cached, Rebuilt;
    ghost var s := board.State();
    SignalBoardOk(s);
    var ok := board.Modified();
    RebuildKeepsBoardInv(s, board.links);
  }

  lemma TurnKeepsSignals(s: BoardState, b: Location)
    requires SignalBoard(s) && Tiled(s.map_)
    requires 0 <= b.x < 10 && 0 <= b.y < 10
    requires IsSignal(s.map_, b, DEG_90)
    ensures var turn := MoveTile(b, b, DEG_0, false);
      && Enabled(s, Operate(turn))
      && SignalBoard(After(s, Move(s.map_, b, b, DEG_0, false)))
      && Next(s, Operate(turn)) == After(s, Move(s.map_, b, b, DEG_0, false))
  {
    hide Tiled, Move, AssertionsHold, Cached, Paired, NodeEnds, After;
    TurnedState(s, b);
    TiledCells(s.map_);
    OperateKeepsBoardInv(s, MoveTile(b, b, DEG_0, false));
  }

  // A signal that faces another one, with a third one below that.
  ghost predicate ThreeSignals(m: TileMap)
    requires Tiled(m)
  {
    IsSignal(m, Location(0, 0), DEG_90) && IsSignal(m, Location(1, 0), DEG_90) && IsSignal(m, Location(1, 1), DEG_90)
  }

  method PutSignals() returns (board: ServerBoard.Board)
    ensures fresh(board)
    ensures SignalBoard(board.State()) && Tiled(board.State().map_) && ThreeSignals(board.State().map_)
  {
    hide SignalBoard, Tiled, IsSignal;
    board := new ServerBoard.Board();
    NoSignalsYet();
    PutSignal(board, 1, 0, 0);
    PutSignal(board, 2, 1, 0);
    PutSignal(board, 3, 1, 1);
  }

  method TurnSecond(board: ServerBoard.Board)
    requires SignalBoard(board.State()) && Tiled(board.State().map_) && ThreeSignals(board.State().map_)
    modifies board
    ensures var turn := Operate(MoveTile(Location(1, 0), Location(1, 0), DEG_0, false));
      Enabled(old(board.State()), turn) && board.State() == Next(old(board.State()), turn)
    ensures SignalBoard(board.State())
  {
    hide BoardInv, ValidState, Tiled, AllSignals, After, Move, IsSignal, Next, Enabled;
    SignalBoardOk(board.State());
    TurnKeepsSignals(board.State(), Location(1, 0));
    var ok := board.MoveTile(1, 0, 1, 0, DEG_0, false);
  }

  ghost predicate HasStuckEnd(m: TileMap, links: LinkMap, e: End)
    requires Tiled(m)
  {
    e in links && e in Rails(m) && Rails(m)[e] == Misfit && !Current(Rails(m), links)
  }

  lemma SecondTurned(s: BoardState, t: BoardState, links: LinkMap)
    requires SignalBoard(s) && Tiled(s.map_) && ThreeSignals(s.map_) && !s.modified
    requires var turn := Operate(MoveTile(Location(1, 0), Location(1, 0), DEG_0, false));
      Enabled(s, turn) && t == Next(s, turn)
    requires Enabled(t, Rebuild(links))
    ensures Tiled(t.map_) && Location(0, 0) in s.map_.cells
    ensures HasStuckEnd(t.map_, links, End(s.map_.cells[Location(0, 0)], 1))
  {
    hide BoardInv, Tiled, AllSignals, Next, Rails, Current;
    TurnedSignalKeepsLink(s, t, Location(0, 0), Location(1, 0), links);
  }

  // The program runs into a link that is out of date: three signals are added to a new
  // board, its links are built, the second signal is turned, and its links are built again.
  method TurnSignal() returns (board: ServerBoard.Board, ghost e: End)
    ensures fresh(board)
    ensures BoardInv(board.State()) && !board.modified
    ensures HasStuckEnd(board.State().map_, board.links, e)
  {
    hide SignalBoard, Tiled, ThreeSignals, HasStuckEnd, Next, Enabled, BoardInv;
    board := PutSignals();
    BringUpToDate(board);
    ghost var s := board.State();
    TurnSecond(board);
    ghost var t := board.State();
    BringUpToDate(board);
    SecondTurned(s, t, board.links);
    SignalBoardInv(board.State());
    e := End(s.map_.cells[Location(0, 0)], 1);
  }

  lemma SignalBoardInv(s: BoardState)
    requires SignalBoard(s)
    ensures BoardInv(s)
  {
    hide BoardInv;
  }

  lemma NoSignalsYet()
    ensures SignalBoard(NEW_BOARD)
  {
    NewBoardInv();
  }

  // ---- a client that missed an event ----

  lemma Onwards(s: System, a: Action, actions: seq<Action>, t: System)
    requires CanAct(s, a)
    requires Reaches(Act(s, a), actions, t)
    ensures Reaches(s, [a] + actions, t)
  {
    hide Act, CanAct;
    assert ([a] + actions)[1..] == actions;
  }

  // The board object is pending release when a tile is deleted.
  lemma MissedDeletion(s: System, l: Location) returns (t: System)
    requires BoardInv(s.board) && s.live && s.channel == [] && l in s.board.map_.cells
    ensures var o := Delete(s.board.map_, l);
      && t.board.map_ == o.result
      && t.client == s.client && !t.live && t.answered == s.answered && t.asked == s.asked && t.channel == []
      && Tiled(o.result)
    ensures forall actions, u :: Reaches(t, actions, u) ==>
              Reaches(s, [DropBoard] + ([BoardStep(Operate(DeleteTile(l)))] + ([Deliver] + actions)), u)
  {
    hide Tiled;
    var delete := BoardStep(Operate(DeleteTile(l)));
    DeleteKeepsTiled(s.board.map_, l);
    var s1 := Act(s, DropBoard);
    var s2 := Act(s1, delete);
    t := Act(s2, Deliver);
    forall actions, u | Reaches(t, actions, u)
      ensures Reaches(s, [DropBoard] + ([delete] + ([Deliver] + actions)), u)
    {
      hide BoardInv, Act, CanAct, Reaches;
      Onwards(s2, Deliver, actions, u);
      Onwards(s1, delete, [Deliver] + actions, u);
      Onwards(s, DropBoard, [delete] + ([Deliver] + actions), u);
    }
  }

  // The board object is used again, and asks for all tile data.
  lemma AsksAgain(s: System, entries: seq<TileEvent>) returns (t: System)
    requires Tiled(s.board.map_) && !s.live && s.channel == []
    requires ListsCopy(entries, Project(s.board.map_))
    ensures t.client == EmplaceAll(s.client, entries) && t.board == s.board
    ensures t.live && t.answered && t.asked == s.asked && t.channel == []
    ensures Reaches(s, [ResurrectBoard] + ([Ask] + ([Answer(entries)] + ([Deliver] + []))), t)
  {
    hide Tiled, ListsCopy, Project, EmplaceAll;
    var s1 := Act(s, ResurrectBoard);
    var s2 := Act(s1, Ask);
    var s3 := Act(s2, Answer(entries));
    t := Act(s3, Deliver);
    Onwards(s3, Deliver, [], t);
    Onwards(s2, Answer(entries), [Deliver] + [], t);
    Onwards(s1, Ask, [Answer(entries)] + ([Deliver] + []), t);
    Onwards(s, ResurrectBoard, [Ask] + ([Answer(entries)] + ([Deliver] + [])), t);
  }

  // In every settled state, if a tile is deleted while the client's board object is pending
  // release, the object that is used again keeps the tile, although it has asked for and
  // received all tile data.
  lemma StaleAfterResurrection(s: System, l: Location, entries: seq<TileEvent>) returns (actions: seq<Action>, t: System)
    requires Converging(s)
    requires s.live && s.answered && s.lost == {} && s.channel == []
    requires l in s.board.map_.cells
    requires Tiled(Delete(s.board.map_, l).result) && ListsCopy(entries, Project(Delete(s.board.map_, l).result))
    ensures Reaches(s, actions, t)
    ensures t.live && t.answered && t.asked == s.asked && t.channel == []
    ensures var origin := s.board.map_.At(l).Origin();
      origin in t.client.data && origin !in t.board.map_.cells
  {
    hide BoardInv, ListsCopy, Reaches, Tiled;
    BoardSizes(s.board);
    TiledCells(s.board.map_);
    var origin := s.board.map_.At(l).Origin();
    KnownOrigin(s, l);
    OriginGone(s.board.map_, l);
    var s1 := MissedDeletion(s, l);
    t := AsksAgain(s1, entries);
    KeepsData(s.client, entries, origin);
    actions := [ResurrectBoard] + ([Ask] + ([Answer(entries)] + ([Deliver] + [])));
    actions := [DropBoard] + ([BoardStep(Operate(DeleteTile(l)))] + ([Deliver] + actions));
  }

  lemma KnownOrigin(s: System, l: Location)
    requires Converging(s)
    requires s.answered && s.lost == {} && s.channel == []
    requires l in s.board.map_.cells
    ensures l in s.board.map_.cells && s.board.map_.cells[l] in s.board.map_.tiles
    ensures s.board.map_.At(l).Origin() in s.client.data
  {
    BoardSizes(s.board);
    OriginOf(s.board.map_, s.board.map_.cells[l]);
    assert KnowsAt(s, s.board.map_.At(l).Origin());
  }

  lemma OriginGone(m: TileMap, l: Location)
    requires Tiled(m)
    requires l in m.cells
    ensures m.At(l).Origin() !in Delete(m, l).result.cells
  {
    OriginOf(m, m.cells[l]);
    assert Covers(m.At(l), m.At(l).Origin());
  }

  lemma {:induction false} KeepsData(r: Replica, entries: seq<TileEvent>, l: Location)
    requires l in r.data
    ensures l in EmplaceAll(r, entries).data
    decreases |entries|
  {
    if entries != [] {
      KeepsData(EmplaceOne(r, entries[0]), entries[1..], l);
    }
  }
}
