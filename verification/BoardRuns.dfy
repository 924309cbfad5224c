// Whole runs of board operations and link rebuilds.
//
// server/src/board/board.cpp, server/src/board/boardlist.cpp

module BoardRuns {
  import opened Tiles
  import opened TileMaps
  import opened Operations
  import opened Replicas
  import opened SaveLoad
  import opened Links
  import opened Track

  // ---- operations ----

  datatype Operation =
    | AddTile(newId: Id, at: Location, rotate: Rotation, tileClass: TileId, replace: bool)
    | MoveTile(from: Location, to: Location, rotate: Rotation, replace: bool)
    | ResizeTile(at: Location, width: nat, height: nat)
    | DeleteTile(at: Location)
    | SetReservedState(id: Id, state: nat)

  // What the world provides: a new tile object is new, coordinates have sixteen bits, and
  // only tiles of the board change their state.
  ghost predicate Possible(m: TileMap, op: Operation) {
    match op
    case AddTile(newId, at, _, _, _) => newId !in m.tiles && IsInt16(at)
    case SetReservedState(id, _) => id in m.tiles
    case _ => true
  }

  function Perform(m: TileMap, op: Operation): Outcome
    requires Tiled(m)
    requires Possible(m, op)
  {
    match op
    case AddTile(newId, at, rotate, tileClass, replace) => Add(m, newId, at, rotate, tileClass, replace)
    case MoveTile(from, to, rotate, replace) => Move(m, from, to, rotate, replace)
    case ResizeTile(at, width, height) => Resize(m, at, width, height)
    case DeleteTile(at) => Delete(m, at)
    case SetReservedState(id, state) => Reserve(m, id, state)
  }

  // What a caller has to see to for a call to do what it says: the end coordinates of the
  // tile fit sixteen bits, and a tile that is resized has no neighbour in the corner
  // outside both footprints.
  ghost predicate Sound(m: TileMap, op: Operation)
    requires Tiled(m)
    requires Possible(m, op)
  {
    match op
    case AddTile(_, at, rotate, tileClass, replace) => CanAdd(m, at, rotate, tileClass, replace) ==> OnGrid(at)
    case MoveTile(from, to, rotate, replace) =>
      CanMove(m, from, to, rotate, replace) ==> FitsGrid(Shifted(m.At(from), from, to, rotate))
    case ResizeTile(at, width, height) =>
      CanResize(m, at, width, height) ==>
        && FitsGrid(m.At(at).(width := width, height := height))
        && forall c :: !TornOff(m, m.cells[at], width, height, c)
    case _ => true
  }

  // An operation keeps the board tiled if and only if the call is sound.
  lemma PerformKeepsTiled(m: TileMap, op: Operation)
    requires Tiled(m)
    requires Possible(m, op)
    ensures Tiled(Perform(m, op).result) <==> Sound(m, op)
  {
    match op
    case AddTile(newId, at, rotate, tileClass, replace) => AddKeepsTiled(m, newId, at, rotate, tileClass, replace);
    case MoveTile(from, to, rotate, replace) => MoveKeepsTiled(m, from, to, rotate, replace);
    case ResizeTile(at, width, height) => ResizeKeepsTiled(m, at, width, height);
    case DeleteTile(at) => DeleteKeepsTiled(m, at);
    case SetReservedState(id, state) => ReserveKeepsTiled(m, id, state);
  }

  // The events of a sound operation turn the copy of the old board into that of the new.
  lemma PerformRefines(m: TileMap, op: Operation)
    requires Tiled(m)
    requires Possible(m, op) && Sound(m, op)
    ensures Tiled(Perform(m, op).result)
    ensures ApplyAll(Project(m), Perform(m, op).events) == Project(Perform(m, op).result)
  {
    PerformKeepsTiled(m, op);
    match op
    case AddTile(newId, at, rotate, tileClass, replace) => AddRefines(m, newId, at, rotate, tileClass, replace);
    case MoveTile(from, to, rotate, replace) => MoveRefines(m, from, to, rotate, replace);
    case ResizeTile(at, width, height) => ResizeRefines(m, at, width, height);
    case DeleteTile(at) => DeleteRefines(m, at);
    case SetReservedState(id, state) => ReserveRefines(m, id, state);
  }

  // ---- the links as a cache ----

  // map_, links and modified are the board's fields; sent lists its tileDataChanged signals.
  datatype BoardState = BoardState(map_: TileMap, links: LinkMap, modified: bool, sent: seq<TileEvent>)

  const NEW_BOARD := BoardState(EMPTY_MAP, map[], false, [])

  // The links of a node go away with its tile.
  function After(s: BoardState, o: Outcome): BoardState {
    BoardState(o.result, KeepTiles(s.links, o.result.tiles.Keys), s.modified || o.touched, s.sent + o.events)
  }

  datatype Step =
    | Operate(op: Operation)
    | Rebuild(links: LinkMap)         // Board::modified, with the links it leaves
    | ForcedRebuild(links: LinkMap)   // the same after the flag was set: a board was loaded, or another one changed

  ghost predicate Enabled(s: BoardState, step: Step) {
    && Tiled(s.map_)
    && match step
       case Operate(op) => Possible(s.map_, op) && Sound(s.map_, op)
       case Rebuild(links) =>
         if s.modified then AssertionsHold(s.map_) && Rebuilt(s.links, Rails(s.map_), links)
         else links == s.links
       case ForcedRebuild(links) => AssertionsHold(s.map_) && Rebuilt(s.links, Rails(s.map_), links)
  }

  function Next(s: BoardState, step: Step): BoardState
    requires Enabled(s, step)
  {
    match step
    case Operate(op) =>
      After(s, Perform(s.map_, op))
    case Rebuild(links) => s.(links := links, modified := false)
    case ForcedRebuild(links) => s.(links := links, modified := false)
  }

  ghost predicate NodeEnds(tiles: map<Id, Tile>, links: LinkMap) {
    forall e :: e in links ==> e.tile in tiles && e.index < NodeSize(tiles[e.tile].id)
  }

  // What every operation relies on: the board is tiled, and each link is kept by two nodes
  // of the board, which have room for it.
  ghost predicate ValidState(s: BoardState) {
    && Tiled(s.map_)
    && Paired(s.links)
    && NodeEnds(s.map_.tiles, s.links)
  }

  lemma SoundKeepsValid(s: BoardState, op: Operation)
    requires ValidState(s)
    requires Possible(s.map_, op) && Sound(s.map_, op)
    ensures ValidState(After(s, Perform(s.map_, op)))
  {
    hide Perform, Sound, Possible, Tiled;
    PerformKeepsTiled(s.map_, op);
    var tiles := Perform(s.map_, op).result.tiles;
    KeepTilesPaired(s.links, tiles.Keys);
    forall e | e in KeepTiles(s.links, tiles.Keys) ensures e.tile in tiles && e.index < NodeSize(tiles[e.tile].id) {
      PerformKeepsKinds(s.map_, op, e.tile);
    }
  }

  lemma AfterDelete(s: BoardState, l: Location)
    requires ValidState(s)
    requires l in s.map_.cells
    ensures var id, m := s.map_.cells[l], s.map_;
      After(s, Delete(m, l)) ==
      BoardState(TileMap(m.cells - AreaOf(m.tiles[id]), m.tiles - {id}),
                 KeepTiles(s.links, (m.tiles - {id}).Keys),
                 true, s.sent + [Removed(m.tiles[id].Origin())])
    ensures ValidState(After(s, Delete(s.map_, l)))
  {
    SoundKeepsValid(s, DeleteTile(l));
  }

  lemma AfterParts(s: BoardState, o: Outcome)
    ensures After(s, o).map_ == o.result && After(s, o).sent == s.sent + o.events
  {
  }

  lemma NothingDone(s: BoardState, ok: bool)
    requires ValidState(s)
    ensures After(s, Outcome(s.map_, ok, [], false)) == s
  {
    KeepAllTiles(s.links, s.map_.tiles.Keys);
    assert s.sent + [] == s.sent;
  }

  // A new tile put on the board that is left after an operation.
  lemma AfterCreate(s: BoardState, o: Outcome, newId: Id, l: Location, tileClass: TileId, rotate: Rotation)
    requires Paired(s.links)
    requires forall e :: e in s.links ==> e.tile in s.map_.tiles
    requires o.result.tiles.Keys <= s.map_.tiles.Keys && newId !in s.map_.tiles
    ensures var t := NewTile(tileClass, l.x, l.y, rotate);
      var s1, c := After(s, o), Create(o, newId, l, tileClass, rotate);
      After(s, c) ==
      if tileClass == TileId.None || !InLimits(t) then s1
      else BoardState(Place(o.result, newId, t), s1.links, true, s1.sent + [Changed(newId, t)])
  {
    hide Paired, KeepTiles, Filled, Narrow;
    KeepNewTile(s.links, o.result.tiles.Keys, newId);
    var t := NewTile(tileClass, l.x, l.y, rotate);
    if tileClass != TileId.None && InLimits(t) {
      assert o.result.tiles[newId := t].Keys == o.result.tiles.Keys + {newId};
      assert s.sent + (o.events + [Changed(newId, t)]) == s.sent + o.events + [Changed(newId, t)];
    }
  }

  // add_tile is a delete_tile, if there is a tile to replace, and then a tile put on.
  lemma AfterAdd(s: BoardState, newId: Id, l: Location, rotate: Rotation, tileClass: TileId, replace: bool,
                 first: Outcome, madeClass: TileId, madeRotate: Rotation)
    requires ValidState(s)
    requires newId !in s.map_.tiles
    requires first == Delete(s.map_, l)
    requires Add(s.map_, newId, l, rotate, tileClass, replace) == Create(first, newId, l, madeClass, madeRotate)
    ensures var t := NewTile(madeClass, l.x, l.y, madeRotate);
      var s1 := After(s, first);
      After(s, Add(s.map_, newId, l, rotate, tileClass, replace)) ==
      if madeClass == TileId.None || !InLimits(t) then s1
      else BoardState(Place(s1.map_, newId, t), s1.links, true, s1.sent + [Changed(newId, t)])
  {
    DeleteFrees(s.map_, l);
    AfterCreate(s, first, newId, l, madeClass, madeRotate);
  }

  // What resize_tile checks, in this order.
  ghost predicate NoTileToResize(m: TileMap, l: Location, width: nat, height: nat)
    requires Tiled(m)
  {
    width == 0 || height == 0 || l !in m.cells || m.tiles[m.cells[l]].Origin() != l
  }

  ghost predicate NoRoomToResize(m: TileMap, l: Location, width: nat, height: nat)
    requires Tiled(m)
    requires l in m.cells
  {
    var id, t := m.cells[l], m.tiles[m.cells[l]];
    && (t.width < width || t.height < height)
    && exists c :: c in AreaOf(t.(width := width, height := height)) && Obstructs(m, id, c)
  }

  lemma ResizeFails(m: TileMap, l: Location, width: nat, height: nat)
    requires Tiled(m)
    ensures Resize(m, l, width, height).ok <==>
      && !NoTileToResize(m, l, width, height)
      && !NoRoomToResize(m, l, width, height)
      && width <= m.At(l).widthMax && height <= m.At(l).heightMax
    ensures !Resize(m, l, width, height).ok ==> Resize(m, l, width, height) == Outcome(m, false, [], false)
  {
  }

  lemma AfterResize(s: BoardState, l: Location, width: nat, height: nat)
    requires ValidState(s)
    requires Resize(s.map_, l, width, height).ok
    ensures var id := s.map_.cells[l];
      var resized := s.map_.tiles[id].(width := width, height := height);
      After(s, Resize(s.map_, l, width, height)) ==
      BoardState(TileMap(ResizedCells(s.map_, id, width, height), s.map_.tiles[id := resized]),
                 s.links, true, s.sent + [Changed(id, resized)])
  {
    var id := s.map_.cells[l];
    KeepAllTiles(s.links, s.map_.tiles.Keys);
    assert s.map_.tiles[id := s.map_.tiles[id].(width := width, height := height)].Keys == s.map_.tiles.Keys;
  }

  lemma AfterReserve(s: BoardState, id: Id, state: nat)
    requires ValidState(s)
    requires id in s.map_.tiles && s.map_.tiles[id].reserved != state
    ensures var t := s.map_.tiles[id].(reserved := state);
      After(s, Reserve(s.map_, id, state)) ==
      BoardState(TileMap(s.map_.cells, s.map_.tiles[id := t]), s.links, s.modified, s.sent + [Changed(id, t)])
  {
    KeepAllTiles(s.links, s.map_.tiles.Keys);
    assert s.map_.tiles[id := s.map_.tiles[id].(reserved := state)].Keys == s.map_.tiles.Keys;
  }

  // ---- clearing the target of a move ----

  // The state s of a scan: clearing the rest of the target leads to the cleared board.
  ghost predicate LeadsToCleared(before: BoardState, s: BoardState, id: Id,
                                 all: (TileMap, seq<TileEvent>), rest: (TileMap, seq<TileEvent>))
    requires id in before.map_.tiles
  {
    && ValidState(s)
    && id in s.map_.tiles && s.map_.tiles[id] == before.map_.tiles[id]
    && s.links == KeepTiles(before.links, s.map_.tiles.Keys)
    && s.map_.cells.Keys <= before.map_.cells.Keys
    && rest.0 == all.0
    && s.sent + rest.1 == before.sent + all.1
  }

  function RestOfClear(m: TileMap, id: Id, goal: Tile, x: int, y: int): (TileMap, seq<TileEvent>)
    requires Tiled(m)
    requires goal.y <= y
  {
    ClearFrom(m, id, x, Narrow(goal.x + goal.width), y, goal.y, Narrow(goal.y + goal.height))
  }

  // The scan has reached cell (x, y) of the target.
  ghost predicate Clearing(before: BoardState, s: BoardState, id: Id, goal: Tile, x: int, y: int)
    requires ValidState(before)
    requires id in before.map_.tiles
    requires goal.y <= y
  {
    ValidState(s) && LeadsToCleared(before, s, id, Clear(before.map_, id, goal), RestOfClear(s.map_, id, goal, x, y))
  }

  lemma ClearingStarts(before: BoardState, id: Id, goal: Tile)
    requires ValidState(before)
    requires id in before.map_.tiles
    ensures Clearing(before, before, id, goal, goal.x, goal.y)
  {
    KeepAllTiles(before.links, before.map_.tiles.Keys);
  }

  lemma ClearingPasses(before: BoardState, s: BoardState, id: Id, goal: Tile, x: int, y: int)
    requires ValidState(before) && id in before.map_.tiles
    requires goal.y <= y < Narrow(goal.y + goal.height) && x < Narrow(goal.x + goal.width)
    requires Clearing(before, s, id, goal, x, y)
    requires !Obstructs(s.map_, id, Location(x, y))
    ensures Clearing(before, s, id, goal, x, y + 1)
  {
    hide LeadsToCleared;
  }

  lemma ClearFromStep(m: TileMap, id: Id, x: int, x2: int, y: int, y1: int, y2: int)
    requires Tiled(m)
    requires y1 <= y < y2 && x < x2
    requires Obstructs(m, id, Location(x, y))
    ensures var d := Delete(m, Location(x, y));
      && Tiled(d.result)
      && ClearFrom(m, id, x, x2, y, y1, y2).0 == ClearFrom(d.result, id, x, x2, y + 1, y1, y2).0
      && ClearFrom(m, id, x, x2, y, y1, y2).1 == d.events + ClearFrom(d.result, id, x, x2, y + 1, y1, y2).1
  {
    DeleteKeepsTiled(m, Location(x, y));
  }

  lemma DeleteLinks(before: LinkMap, s: BoardState, l: Location)
    requires ValidState(s)
    requires s.links == KeepTiles(before, s.map_.tiles.Keys)
    requires l in s.map_.cells
    ensures var t := After(s, Delete(s.map_, l));
      && ValidState(t)
      && t.links == KeepTiles(before, t.map_.tiles.Keys)
      && t.map_.cells.Keys <= s.map_.cells.Keys
      && t.sent == s.sent + Delete(s.map_, l).events
      && (forall id :: id in t.map_.tiles <==> id in s.map_.tiles && id != s.map_.cells[l])
      && (forall id :: id in t.map_.tiles ==> t.map_.tiles[id] == s.map_.tiles[id])
  {
    AfterDelete(s, l);
    KeepTilesTwice(before, s.map_.tiles.Keys, Delete(s.map_, l).result.tiles.Keys);
  }

  lemma ClearedOneMore(before: BoardState, s: BoardState, l: Location, id: Id, all: (TileMap, seq<TileEvent>),
                       rest: (TileMap, seq<TileEvent>), later: (TileMap, seq<TileEvent>))
    requires id in before.map_.tiles
    requires LeadsToCleared(before, s, id, all, rest)
    requires Obstructs(s.map_, id, l)
    requires rest.0 == later.0 && rest.1 == Delete(s.map_, l).events + later.1
    ensures LeadsToCleared(before, After(s, Delete(s.map_, l)), id, all, later)
  {
    DeleteLinks(before.links, s, l);
    assert s.sent + (Delete(s.map_, l).events + later.1) == s.sent + Delete(s.map_, l).events + later.1;
  }

  lemma ClearingDeletes(before: BoardState, s: BoardState, id: Id, goal: Tile, x: int, y: int)
    requires ValidState(before) && id in before.map_.tiles
    requires goal.y <= y < Narrow(goal.y + goal.height) && x < Narrow(goal.x + goal.width)
    requires Clearing(before, s, id, goal, x, y)
    requires Obstructs(s.map_, id, Location(x, y))
    ensures Clearing(before, After(s, Delete(s.map_, Location(x, y))), id, goal, x, y + 1)
  {
    hide LeadsToCleared, Clear, ClearFrom, Delete, Tiled;
    var l := Location(x, y);
    ClearFromStep(s.map_, id, x, Narrow(goal.x + goal.width), y, goal.y, Narrow(goal.y + goal.height));
    ClearedOneMore(before, s, l, id, Clear(before.map_, id, goal), RestOfClear(s.map_, id, goal, x, y),
                   RestOfClear(Delete(s.map_, l).result, id, goal, x, y + 1));
  }

  lemma ClearingColumn(before: BoardState, s: BoardState, id: Id, goal: Tile, x: int, y: int)
    requires ValidState(before) && id in before.map_.tiles
    requires goal.y <= y && Narrow(goal.y + goal.height) <= y && x < Narrow(goal.x + goal.width)
    requires Clearing(before, s, id, goal, x, y)
    ensures Clearing(before, s, id, goal, x + 1, goal.y)
  {
    hide LeadsToCleared;
  }

  lemma ClearingEnds(before: BoardState, s: BoardState, id: Id, goal: Tile, x: int)
    requires ValidState(before) && id in before.map_.tiles
    requires Narrow(goal.x + goal.width) <= x
    requires Clearing(before, s, id, goal, x, goal.y)
    ensures s.map_ == Clear(before.map_, id, goal).0
    ensures s.sent == before.sent + Clear(before.map_, id, goal).1
    ensures s.links == KeepTiles(before.links, s.map_.tiles.Keys)
  {
    assert s.sent + [] == s.sent;
  }

  // The tile's own cells after the target was cleared, and the cells of the target.
  lemma TileAfterClear(before: BoardState, s: BoardState, id: Id, goal: Tile)
    requires ValidState(before) && id in before.map_.tiles
    requires s.map_ == Clear(before.map_, id, goal).0
    ensures var t := before.map_.tiles[id];
      && id in s.map_.tiles && s.map_.tiles[id] == t
      && t.Origin() in s.map_.cells && s.map_.cells[t.Origin()] == id
      && forall l :: l in AreaOf(goal) ==> l !in s.map_.cells - AreaOf(t)
  {
    assert Covers(before.map_.tiles[id], before.map_.tiles[id].Origin());
    TargetIsFree(before.map_, id, goal);
  }

  lemma MovedState(before: BoardState, s: BoardState, id: Id, goal: Tile)
    requires ValidState(before) && id in before.map_.tiles
    requires 1 <= goal.width && 1 <= goal.height
    requires s.map_ == Clear(before.map_, id, goal).0
    requires s.sent == before.sent + Clear(before.map_, id, goal).1
    requires s.links == KeepTiles(before.links, s.map_.tiles.Keys)
    ensures var t := before.map_.tiles[id];
      var events := Clear(before.map_, id, goal).1 + [Removed(t.Origin()), Changed(id, goal)];
      After(before, Outcome(Place(Lift(s.map_, id), id, goal), true, events, true)) ==
      BoardState(Place(TileMap(s.map_.cells - AreaOf(t), s.map_.tiles), id, goal), s.links, true,
                 s.sent + [Removed(t.Origin())] + [Changed(id, goal)])
  {
    var t := before.map_.tiles[id];
    TileAfterClear(before, s, id, goal);
    assert (s.map_.tiles - {id})[id := goal] == s.map_.tiles[id := goal];
    assert s.map_.tiles[id := goal].Keys == s.map_.tiles.Keys;
    ThreeEvents(before.sent, Clear(before.map_, id, goal).1, Removed(t.Origin()), Changed(id, goal));
  }

  lemma ThreeEvents(sent: seq<TileEvent>, events: seq<TileEvent>, a: TileEvent, b: TileEvent)
    ensures sent + (events + [a, b]) == sent + events + [a] + [b]
  {
  }

  lemma AfterMove(before: BoardState, s: BoardState, from: Location, to: Location, rotate: Rotation, replace: bool)
    requires ValidState(before)
    requires from in before.map_.cells
    requires MoveGoal(before.map_.At(from), from, to, rotate).Some?
    requires var id := before.map_.cells[from];
      var goal := MoveGoal(before.map_.tiles[id], from, to, rotate).value;
      && (replace || !exists l :: l in AreaOf(goal) && Obstructs(before.map_, id, l))
      && s.map_ == Clear(before.map_, id, goal).0
      && s.sent == before.sent + Clear(before.map_, id, goal).1
      && s.links == KeepTiles(before.links, s.map_.tiles.Keys)
    ensures var id := before.map_.cells[from];
      var goal := MoveGoal(before.map_.tiles[id], from, to, rotate).value;
      var t := before.map_.tiles[id];
      && Move(before.map_, from, to, rotate, replace).ok
      && After(before, Move(before.map_, from, to, rotate, replace)) ==
         BoardState(Place(TileMap(s.map_.cells - AreaOf(t), s.map_.tiles), id, goal), s.links, true,
                    s.sent + [Removed(t.Origin())] + [Changed(id, goal)])
  {
    var id := before.map_.cells[from];
    GoalSize(before.map_.tiles[id], from, to, rotate);
    MovedState(before, s, id, MoveGoal(before.map_.tiles[id], from, to, rotate).value);
  }

  lemma GoalSize(t: Tile, from: Location, to: Location, rotate: Rotation)
    requires TileOk(t)
    requires MoveGoal(t, from, to, rotate).Some?
    ensures var goal := MoveGoal(t, from, to, rotate).value;
      1 <= goal.width && 1 <= goal.height && IsInt16(goal.Origin()) && InLimits(goal)
  {
  }

  ghost predicate BoardInv(s: BoardState) {
    && ValidState(s)
    && (!s.modified ==> AssertionsHold(s.map_) && Cached(Rails(s.map_), s.links))
  }

  lemma NewBoardInv()
    ensures BoardInv(NEW_BOARD)
  {
  }

  lemma MoveKeepsKinds(m: TileMap, from: Location, to: Location, rotate: Rotation, replace: bool, id: Id)
    requires Tiled(m)
    requires id in m.tiles && id in Move(m, from, to, rotate, replace).result.tiles
    ensures Move(m, from, to, rotate, replace).result.tiles[id].id == m.tiles[id].id
  {
    MoveEffect(m, from, to, rotate, replace);
  }

  // A tile never becomes one of another kind.
  lemma PerformKeepsKinds(m: TileMap, op: Operation, id: Id)
    requires Tiled(m)
    requires Possible(m, op)
    requires id in m.tiles && id in Perform(m, op).result.tiles
    ensures Perform(m, op).result.tiles[id].id == m.tiles[id].id
  {
    if op.MoveTile? {
      MoveKeepsKinds(m, op.from, op.to, op.rotate, op.replace, id);
    }
  }

  // An operation that does not set the flag leaves the rails as they are.
  lemma UntouchedKeepsRails(m: TileMap, op: Operation)
    requires Tiled(m)
    requires Possible(m, op)
    requires !Perform(m, op).touched
    ensures SameRails(m, Perform(m, op).result)
  {
    hide Tiled;
    if op.MoveTile? {
      MoveEffect(m, op.from, op.to, op.rotate, op.replace);
    }
  }

  lemma OperateKeepsBoardInv(s: BoardState, op: Operation)
    requires BoardInv(s)
    requires Enabled(s, Operate(op))
    ensures BoardInv(Next(s, Operate(op)))
  {
    hide ValidState, Cached, AssertionsHold, Perform, Sound, Possible;
    SoundKeepsValid(s, op);
    if !s.modified && !Perform(s.map_, op).touched {
      UntouchedKeepsCache(s, op);
    }
  }

  lemma UntouchedKeepsCache(s: BoardState, op: Operation)
    requires BoardInv(s) && !s.modified
    requires Enabled(s, Operate(op))
    requires !Perform(s.map_, op).touched
    ensures var m := Perform(s.map_, op).result;
      && Tiled(m)
      && AssertionsHold(m)
      && KeepTiles(s.links, m.tiles.Keys) == s.links
      && Rails(m) == Rails(s.map_)
  {
    var m := Perform(s.map_, op).result;
    PerformKeepsTiled(s.map_, op);
    UntouchedKeepsRails(s.map_, op);
    SameRailsSameStatus(s.map_, m);
    SameRailsSameAssertions(s.map_, m);
    KeepAllTiles(s.links, m.tiles.Keys);
  }

  // Links between the ends there are belong to nodes that have room for them.
  lemma CachedNodeEnds(m: TileMap, links: LinkMap)
    requires Tiled(m) && AssertionsHold(m)
    requires Cached(Rails(m), links)
    ensures NodeEnds(m.tiles, links)
  {
    hide Tiled, StatusOf, Connectors, RouteEnd;
    forall e | e in links ensures e.tile in m.tiles && e.index < NodeSize(m.tiles[e.tile].id) {
      assert IsEnd(m, e);
    }
  }

  lemma RebuildKeepsBoardInv(s: BoardState, links: LinkMap)
    requires BoardInv(s)
    requires Enabled(s, Rebuild(links)) || Enabled(s, ForcedRebuild(links))
    ensures BoardInv(s.(links := links, modified := false))
  {
    hide Tiled, Rails, AssertionsHold, NodeEnds;
    if links != s.links || s.modified {
      RebuiltIsCached(s.links, Rails(s.map_), links);
      CachedNodeEnds(s.map_, links);
    }
  }

  // A board that was loaded starts a run, too.
  lemma LoadedBoardInv(tiles: map<Id, Tile>, ids: seq<Id>)
    requires TilesOk(tiles) && NoOverlap(tiles)
    requires Lists(ids, tiles)
    ensures BoardInv(BoardState(TileMap(Loaded(map[], tiles, ids), tiles), map[], true, []))
  {
    hide TilesOk, NoOverlap, Lists, Tiled;
    LoadedIsTiled(tiles, ids);
  }

  ghost predicate Leads(s: BoardState, steps: seq<Step>, t: BoardState)
    decreases |steps|
  {
    if steps == [] then s == t
    else Enabled(s, steps[0]) && Leads(Next(s, steps[0]), steps[1..], t)
  }

  // A step adds to the signals that were sent, and what it adds turns a copy of the board
  // before it into a copy of the board after it.
  lemma StepKeepsBoard(s: BoardState, step: Step)
    requires BoardInv(s)
    requires Enabled(s, step)
    ensures BoardInv(Next(s, step))
    ensures s.sent <= Next(s, step).sent
    ensures ApplyAll(Project(s.map_), Next(s, step).sent[|s.sent|..]) == Project(Next(s, step).map_)
  {
    hide Project, ApplyAll;
    match step {
      case Operate(op) =>
        OperateKeepsBoardInv(s, op);
        PerformRefines(s.map_, op);
        assert Next(s, step).sent[|s.sent|..] == Perform(s.map_, op).events;
      case Rebuild(links) =>
        RebuildKeepsBoardInv(s, links);
        assert s.sent[|s.sent|..] == [];
        NoEvents(Project(s.map_));
      case ForcedRebuild(links) =>
        RebuildKeepsBoardInv(s, links);
        assert s.sent[|s.sent|..] == [];
        NoEvents(Project(s.map_));
    }
  }

  // Every run keeps the board tiled and the links a cache of it, and the events it sends
  // turn a copy of the board at its start into a copy of the board at its end.
  lemma {:induction false} RunKeepsBoard(s: BoardState, steps: seq<Step>, t: BoardState)
    requires BoardInv(s)
    requires Leads(s, steps, t)
    ensures BoardInv(t)
    ensures s.sent <= t.sent
    ensures ApplyAll(Project(s.map_), t.sent[|s.sent|..]) == Project(t.map_)
    decreases |steps|
  {
    hide Project, ApplyAll, Next;
    if steps == [] {
      assert t.sent[|s.sent|..] == [];
      NoEvents(Project(s.map_));
    } else {
      var s1 := Next(s, steps[0]);
      StepKeepsBoard(s, steps[0]);
      RunKeepsBoard(s1, steps[1..], t);
      var events := s1.sent[|s.sent|..];
      assert t.sent[|s.sent|..] == events + t.sent[|s1.sent|..];
      ApplyAllConcat(Project(s.map_), events, t.sent[|s1.sent|..]);
    }
  }
}
