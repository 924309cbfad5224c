// A straight that is added on top of a straight: which track is there afterwards.
//
// server/src/board/board.cpp: add_tile
// client/src/board/tilepainter.cpp: drawBridge, drawStraight

module TrackMerge {
  import opened Tiles
  import opened TileMaps
  import opened Operations
  import opened Replicas
  import opened BoardRuns

  // The straight pieces of track on a tile, as they are drawn; none for the other kinds.
  function Axes(t: Tile): set<Axis> {
    match t.id
    case RailStraight | RailTunnel | RailOneWay | RailDirectionControl | RailDecoupler
       | RailNXButton | RailSensor | RailSignal2Aspect | RailSignal3Aspect | RailBlock => {AxisOf(t.rotate)}
    case RailBridge45Left => {AxisOf(t.rotate), AxisOf(TurnBack(t.rotate, DEG_45))}
    case RailBridge45Right => {AxisOf(t.rotate), AxisOf(Turn(t.rotate, DEG_45))}
    case RailBridge90 => {AxisOf(t.rotate), AxisOf(Turn(t.rotate, DEG_90))}
    case _ => {}
  }

  predicate HasEnd(t: Tile, r: Rotation) {
    Connector(t.Origin(), DirectionOf(r)) in Connectors(t)
  }

  lemma TurnedBack(a: Rotation, b: Rotation, r: Rotation)
    ensures Turn(a, b) == r <==> b == TurnBack(r, a)
    ensures TurnBack(Turn(r, DEG_180), a) == Turn(TurnBack(r, a), DEG_180)
  {
    hide Turn, TurnBack, AxisOf;
    TurnCases(a, b);
    TurnCases(r, a);
    TurnCases(r, DEG_180);
    TurnCases(Turn(r, DEG_180), a);
    TurnCases(TurnBack(r, a), DEG_180);
  }

  lemma EndsTurned(t: Tile, r: Rotation)
    requires t.id != RailBlock
    ensures HasEnd(t, r) <==> TurnBack(r, t.rotate) in Turns(t.id)
  {
    hide Turn, TurnBack, Turns, DirectionOf;
    var cs, turns := Connectors(t), Turns(t.id);
    if TurnBack(r, t.rotate) in turns {
      var i :| 0 <= i < |turns| && turns[i] == TurnBack(r, t.rotate);
      TurnedBack(t.rotate, turns[i], r);
      assert cs[i] == Connector(t.Origin(), DirectionOf(r));
    }
    if HasEnd(t, r) {
      var i :| 0 <= i < |cs| && cs[i] == Connector(t.Origin(), DirectionOf(r));
      TurnedBack(t.rotate, turns[i], r);
      DirectionsDiffer(Turn(t.rotate, turns[i]), r);
    }
  }

  lemma DirectionsDiffer(a: Rotation, b: Rotation)
    ensures DirectionOf(a) == DirectionOf(b) ==> a == b
  {
  }

  // What is drawn is what trains run on: a straight piece of track is drawn along an axis
  // exactly if the tile has connectors at both ends of that axis.
  lemma DrawnTrackIsConnected(t: Tile, a: Axis)
    requires Axes(t) != {} && t.id != RailBlock
    ensures a in Axes(t) <==> HasEnd(t, a) && HasEnd(t, Turn(a, DEG_180))
  {
    hide HasEnd, Turn, TurnBack;
    var d := TurnBack(a, t.rotate);
    EndsTurned(t, a);
    EndsTurned(t, Turn(a, DEG_180));
    TurnedBack(t.rotate, d, a);
    AxesTurned(t, a, d);
  }

  lemma AxisTurned(a: Axis, r: Rotation, k: Rotation)
    ensures a == AxisOf(Turn(r, k)) <==> AxisOf(TurnBack(a, r)) == AxisOf(k)
    ensures a == AxisOf(r) <==> AxisOf(TurnBack(a, r)) == AxisOf(DEG_0)
    ensures k != DEG_0 ==> TurnBack(r, k) == Turn(r, 8 - k)
  {
    hide Turn, TurnBack, AxisOf;
    TurnCases(r, k);
    TurnCases(a, r);
    TurnCases(Turn(r, k), DEG_0);
    TurnCases(TurnBack(a, r), DEG_0);
    TurnCases(k, DEG_0);
    TurnCases(DEG_0, DEG_0);
    if k != DEG_0 {
      TurnCases(r, 8 - k);
    }
  }

  // Both ends of an axis, among a tile's turns.
  lemma AxisOfTurns(id: TileId, d: Rotation)
    requires Turns(id) == [DEG_0, DEG_180] || id == RailBridge45Left || id == RailBridge45Right || id == RailBridge90
    ensures d in Turns(id) && Turn(d, DEG_180) in Turns(id) <==> AxisOf(d) in TurnedAxes(id)
  {
    var turns := Turns(id);
    if id == RailBridge45Left {
      InFour(turns, DEG_0, DEG_135, DEG_180, DEG_315);
    } else if id == RailBridge45Right {
      InFour(turns, DEG_0, DEG_45, DEG_180, DEG_225);
    } else if id == RailBridge90 {
      InFour(turns, DEG_0, DEG_90, DEG_180, DEG_270);
    } else {
      assert turns == [DEG_0, DEG_180];
    }
  }

  function TurnedAxes(id: TileId): set<Axis> {
    match id
    case RailBridge45Left => {AxisOf(DEG_0), AxisOf(DEG_315)}
    case RailBridge45Right => {AxisOf(DEG_0), AxisOf(DEG_45)}
    case RailBridge90 => {AxisOf(DEG_0), AxisOf(DEG_90)}
    case _ => {AxisOf(DEG_0)}
  }

  lemma InFour(turns: seq<Rotation>, a: Rotation, b: Rotation, c: Rotation, d: Rotation)
    requires turns == [a, b, c, d]
    ensures forall x :: x in turns <==> x == a || x == b || x == c || x == d
  {
  }

  // Seen from the tile's own rotation.
  lemma AxesTurned(t: Tile, a: Axis, d: Rotation)
    requires Axes(t) != {} && t.id != RailBlock
    requires d == TurnBack(a, t.rotate)
    ensures a in Axes(t) <==> d in Turns(t.id) && Turn(d, DEG_180) in Turns(t.id)
  {
    hide Turn, TurnBack, AxisOf;
    AxisOfTurns(t.id, d);
    AxisTurned(a, t.rotate, DEG_45);
    AxisTurned(a, t.rotate, DEG_90);
    AxisTurned(a, t.rotate, DEG_315);
  }

  // A block cannot lie diagonally, nor be turned by 270 degrees: it is put down unturned.
  predicate CannotTurn(tileClass: TileId, rotate: Rotation) {
    tileClass == RailBlock && AxisOf(rotate) != AxisOf(DEG_0) && rotate != DEG_90
  }

  // The merged tile has the track that was there and the track that was added, unless it
  // is a block that cannot be turned like that.
  lemma MergedTrack(t: Tile, tileClass: TileId, rotate: Rotation, l: Location)
    requires Merged(t, tileClass, rotate).Some?
    ensures var (madeClass, madeRotate) := Merged(t, tileClass, rotate).value;
      Axes(NewTile(madeClass, l.x, l.y, madeRotate)) == Axes(t) + {AxisOf(rotate)} <==> !CannotTurn(tileClass, rotate)
  {
    MergesIff(t, tileClass, rotate);
    var (madeClass, madeRotate) := Merged(t, tileClass, rotate).value;
    var made := NewTile(madeClass, l.x, l.y, madeRotate);
    assert Axes(t) == {AxisOf(t.rotate)};
    if tileClass == RailStraight {
      BridgeAxes(t.rotate, rotate);
    } else {
      assert Axes(t) + {AxisOf(rotate)} == {AxisOf(rotate)};
      if tileClass == RailBlock {
        assert AxisOf(made.rotate) in Axes(made);
      }
    }
  }

  // ---- on the board ----

  ghost predicate HasTrack(m: TileMap, l: Location, a: Axis) {
    l in m.cells && m.cells[l] in m.tiles && a in Axes(m.At(l))
  }

  lemma MergeOnBoard(m: TileMap, newId: Id, l: Location, rotate: Rotation, tileClass: TileId)
    requires Tiled(m)
    requires newId !in m.tiles
    requires IsInt16(l) && l in m.cells
    requires Add(m, newId, l, rotate, tileClass, false).ok
    ensures var merged := Merged(m.At(l), tileClass, rotate);
      && merged.Some?
      && var t := NewTile(merged.value.0, l.x, l.y, merged.value.1);
      && Add(m, newId, l, rotate, tileClass, false).result == Place(Lift(m, m.cells[l]), newId, t)
      && m.At(l).id == RailStraight
  {
  }

  lemma UnitArea(t: Tile, l: Location)
    requires t.width == 1 && t.height == 1 && Covers(t, l)
    requires -32768 <= t.x < 32767 && -32768 <= t.y < 32767
    ensures AreaOf(t) == {l}
  {
  }

  lemma OneCell(m: TileMap, n: TileMap, id: Id, newId: Id, l: Location, t: Tile, c: Location)
    requires Tiled(m)
    requires l in m.cells && m.cells[l] == id && m.tiles[id].width == 1 && m.tiles[id].height == 1
    requires newId !in m.tiles
    requires t.Origin() == l && t.width == 1 && t.height == 1
    requires n == Place(Lift(m, id), newId, t)
    ensures c in n.cells <==> c in m.cells
    ensures c in m.cells ==> n.cells[c] in n.tiles && n.At(c) == if c == l then t else m.At(c)
  {
    hide AreaOf, Narrow, TilesOk;
    TiledTile(m, l);
    UnitArea(m.tiles[id], l);
    UnitArea(t, l);
  }

  // Every straight is one cell large, and stays so.
  ghost predicate UnitStraights(tiles: map<Id, Tile>) {
    forall id :: id in tiles && tiles[id].id == RailStraight ==>
      tiles[id].width == 1 && tiles[id].height == 1 && tiles[id].widthMax == 1 && tiles[id].heightMax == 1
  }

  // Whenever the call succeeds, the track on the board is what it was, and on that cell
  // what was added; only a block that cannot be turned changes the track.
  lemma AddConservesTrack(m: TileMap, newId: Id, l: Location, rotate: Rotation, tileClass: TileId)
    requires Tiled(m)
    requires newId !in m.tiles
    requires IsInt16(l) && l in m.cells
    requires UnitStraights(m.tiles)
    requires CanAdd(m, l, rotate, tileClass, false)
    ensures (forall c, a :: HasTrack(Add(m, newId, l, rotate, tileClass, false).result, c, a) <==>
                              HasTrack(m, c, a) || (c == l && a == AxisOf(rotate)))
            <==> !CannotTurn(tileClass, rotate)
  {
    hide Add, Tiled, Merged, Axes, Place, Lift;
    TiledCells(m);
    AddSucceedsIff(m, newId, l, rotate, tileClass, false);
    var n := Add(m, newId, l, rotate, tileClass, false).result;
    MergeOnBoard(m, newId, l, rotate, tileClass);
    var merged := Merged(m.At(l), tileClass, rotate).value;
    var t := NewTile(merged.0, l.x, l.y, merged.1);
    MergedTrack(m.At(l), tileClass, rotate, l);
    forall c ensures c in n.cells <==> c in m.cells
             ensures c in m.cells ==> n.cells[c] in n.tiles && n.At(c) == if c == l then t else m.At(c)
    {
      OneCell(m, n, m.cells[l], newId, l, t, c);
    }
    TrackChange(m, n, l, t, AxisOf(rotate));
  }

  lemma TrackChange(m: TileMap, n: TileMap, l: Location, t: Tile, added: Axis)
    requires l in m.cells
    requires forall c :: c in m.cells ==> m.cells[c] in m.tiles
    requires forall c :: c in n.cells <==> c in m.cells
    requires forall c :: c in m.cells ==> n.cells[c] in n.tiles && n.At(c) == if c == l then t else m.At(c)
    ensures (forall c, a :: HasTrack(n, c, a) <==> HasTrack(m, c, a) || (c == l && a == added)) <==>
            Axes(t) == Axes(m.At(l)) + {added}
  {
    if forall c, a :: HasTrack(n, c, a) <==> HasTrack(m, c, a) || (c == l && a == added) {
      forall a ensures a in Axes(t) <==> a in Axes(m.At(l)) + {added} {
        assert HasTrack(n, l, a) <==> HasTrack(m, l, a) || a == added;
      }
    }
  }

  // ---- over whole runs ----

  lemma GoalIsUnit(t: Tile, from: Location, to: Location, rotate: Rotation)
    ensures var goal := Shifted(t, from, to, rotate);
      && goal.id == t.id && goal.widthMax == t.widthMax && goal.heightMax == t.heightMax
      && (t.width == t.height ==> goal.width == t.width && goal.height == t.height)
  {
  }

  lemma MoveKeepsUnitStraights(m: TileMap, from: Location, to: Location, rotate: Rotation, replace: bool)
    requires Tiled(m)
    requires UnitStraights(m.tiles)
    ensures UnitStraights(Move(m, from, to, rotate, replace).result.tiles)
  {
    hide Tiled, Move, Shifted;
    MoveEffect(m, from, to, rotate, replace);
    if Move(m, from, to, rotate, replace).ok {
      TiledCells(m);
      GoalIsUnit(m.At(from), from, to, rotate);
    }
  }

  lemma NewStraightIsUnit(t: Tile, tileClass: TileId, l: Location, rotate: Rotation)
    requires IsNew(t, tileClass, l, rotate)
    ensures t.id == RailStraight ==> t.width == 1 && t.height == 1 && t.widthMax == 1 && t.heightMax == 1
  {
  }

  lemma AddKeepsUnitStraights(m: TileMap, newId: Id, l: Location, rotate: Rotation, tileClass: TileId, replace: bool)
    requires Tiled(m)
    requires newId !in m.tiles && IsInt16(l)
    requires UnitStraights(m.tiles)
    ensures UnitStraights(Add(m, newId, l, rotate, tileClass, replace).result.tiles)
  {
    hide Tiled, Add, CanAdd, Merged, Delete, IsNew, Becomes;
    AddSucceedsIff(m, newId, l, rotate, tileClass, replace);
    if CanAdd(m, l, rotate, tileClass, replace) {
      AddEffect(m, newId, l, rotate, tileClass, replace);
      var t := Add(m, newId, l, rotate, tileClass, replace).result.tiles[newId];
      var made: (TileId, Rotation) :| IsNew(t, made.0, l, made.1);
      NewStraightIsUnit(t, made.0, l, made.1);
    } else {
      FailedAddRefines(m, newId, l, rotate, tileClass, replace);
      DeleteEffect(m, l);
    }
  }

  lemma ResizeKeepsUnitStraights(m: TileMap, l: Location, width: nat, height: nat)
    requires Tiled(m)
    requires UnitStraights(m.tiles)
    ensures UnitStraights(Resize(m, l, width, height).result.tiles)
  {
    hide Tiled, Resize;
    ResizeSucceedsIff(m, l, width, height);
    if CanResize(m, l, width, height) {
      TiledCells(m);
      ResizeEffect(m, l, width, height);
    }
  }

  lemma PerformKeepsUnitStraights(m: TileMap, op: Operation)
    requires Tiled(m)
    requires Possible(m, op)
    requires UnitStraights(m.tiles)
    ensures UnitStraights(Perform(m, op).result.tiles)
  {
    hide Tiled;
    match op
    case AddTile(newId, at, rotate, tileClass, replace) =>
      AddKeepsUnitStraights(m, newId, at, rotate, tileClass, replace);
    case MoveTile(from, to, rotate, replace) => MoveKeepsUnitStraights(m, from, to, rotate, replace);
    case ResizeTile(at, width, height) => ResizeKeepsUnitStraights(m, at, width, height);
    case DeleteTile(at) => DeleteEffect(m, at);
    case SetReservedState(_, _) =>
  }

  lemma {:induction false} RunKeepsUnitStraights(s: BoardState, steps: seq<Step>, t: BoardState)
    requires BoardInv(s) && UnitStraights(s.map_.tiles)
    requires Leads(s, steps, t)
    ensures UnitStraights(t.map_.tiles)
    decreases |steps|
  {
    hide BoardInv, UnitStraights, Perform;
    if steps != [] {
      StepKeepsBoard(s, steps[0]);
      if steps[0].Operate? {
        PerformKeepsUnitStraights(s.map_, steps[0].op);
      }
      RunKeepsUnitStraights(Next(s, steps[0]), steps[1..], t);
    }
  }

  // On every board that a run from a new board leads to, an add without replace on a tile
  // keeps all track and adds what was asked for, unless it is a block that cannot be turned
  // like that.
  lemma RunsConserveTrack(steps: seq<Step>, s: BoardState, newId: Id, l: Location, rotate: Rotation, tileClass: TileId)
    requires Leads(NEW_BOARD, steps, s)
    requires newId !in s.map_.tiles && IsInt16(l) && l in s.map_.cells
    ensures Tiled(s.map_)
    ensures CanAdd(s.map_, l, rotate, tileClass, false) ==>
      ((forall c, a :: HasTrack(Add(s.map_, newId, l, rotate, tileClass, false).result, c, a) <==>
                         HasTrack(s.map_, c, a) || (c == l && a == AxisOf(rotate)))
       <==> !CannotTurn(tileClass, rotate))
  {
    hide Leads, UnitStraights, CanAdd, Add, Axes;
    NewBoardInv();
    RunKeepsBoard(NEW_BOARD, steps, s);
    NoStraights();
    RunKeepsUnitStraights(NEW_BOARD, steps, s);
    if CanAdd(s.map_, l, rotate, tileClass, false) {
      AddConservesTrack(s.map_, newId, l, rotate, tileClass);
    }
  }

  lemma NoStraights()
    ensures UnitStraights(NEW_BOARD.map_.tiles)
  {
  }
}
