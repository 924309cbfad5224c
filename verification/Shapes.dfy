// The shapes tiles have in runs, and what follows for what is drawn and linked.
//
// server/src/board/tile, server/src/board/board.cpp

module Shapes {
  import opened Tiles
  import opened TileMaps
  import opened Operations
  import opened Replicas
  import opened Track
  import opened BoardRuns
  import opened Drawing

  // A block lies north to south or west to east, and has its size and may grow in that
  // direction only; a label may have any size; every other tile has one cell for good.
  predicate Fits(t: Tile) {
    match t.id
    case RailBlock =>
      || (t.rotate == DEG_0 && t.width == 1 && t.widthMax == 1 && t.heightMax == SIZE_LIMIT)
      || (t.rotate == DEG_90 && t.height == 1 && t.widthMax == SIZE_LIMIT && t.heightMax == 1)
    case Label => true
    case _ => t.width == 1 && t.height == 1 && t.widthMax == 1 && t.heightMax == 1
  }

  ghost predicate AllFit(tiles: map<Id, Tile>) {
    forall id :: id in tiles ==> Fits(tiles[id])
  }

  // A block is turned: move_tile sets its rotation, but not how it may grow.
  ghost predicate TurnsBlock(m: TileMap, op: Operation)
    requires Tiled(m)
  {
    && op.MoveTile?
    && CanMove(m, op.from, op.to, op.rotate, op.replace)
    && m.At(op.from).id == RailBlock && m.At(op.from).rotate != op.rotate
  }

  lemma ShiftedFitsIff(t: Tile, from: Location, to: Location, rotate: Rotation)
    requires Fits(t)
    requires t.width == t.height || t.rotate == rotate || t.id == RailBlock || t.id == Label
    ensures Fits(Shifted(t, from, to, rotate)) <==> !(t.id == RailBlock && t.rotate != rotate)
  {
  }

  lemma MoveKeepsFitIff(m: TileMap, from: Location, to: Location, rotate: Rotation, replace: bool)
    requires Tiled(m)
    requires AllFit(m.tiles)
    ensures AllFit(Move(m, from, to, rotate, replace).result.tiles) <==>
            !TurnsBlock(m, MoveTile(from, to, rotate, replace))
  {
    hide Tiled, Move, Shifted, CanMove, Fits;
    MoveSucceedsIff(m, from, to, rotate, replace);
    MoveEffect(m, from, to, rotate, replace);
    var o := Move(m, from, to, rotate, replace);
    if o.ok {
      TiledCells(m);
      var id := m.cells[from];
      OnlyUnits(m.tiles[id]);
      ShiftedFitsIff(m.tiles[id], from, to, rotate);
      assert o.result.tiles[id] == Shifted(m.tiles[id], from, to, rotate);
    }
  }

  lemma OnlyUnits(t: Tile)
    requires Fits(t)
    ensures t.width == t.height || t.id == RailBlock || t.id == Label
  {
  }

  lemma NewTileFits(t: Tile, tileClass: TileId, l: Location, rotate: Rotation)
    requires IsNew(t, tileClass, l, rotate)
    ensures Fits(t)
  {
  }

  lemma AddKeepsFit(m: TileMap, newId: Id, l: Location, rotate: Rotation, tileClass: TileId, replace: bool)
    requires Tiled(m)
    requires newId !in m.tiles && IsInt16(l)
    requires AllFit(m.tiles)
    ensures AllFit(Add(m, newId, l, rotate, tileClass, replace).result.tiles)
  {
    hide Tiled, Add, CanAdd, Merged, Delete, Fits, IsNew, Becomes;
    AddSucceedsIff(m, newId, l, rotate, tileClass, replace);
    var o := Add(m, newId, l, rotate, tileClass, replace);
    if CanAdd(m, l, rotate, tileClass, replace) {
      AddEffect(m, newId, l, rotate, tileClass, replace);
      var made: (TileId, Rotation) :| IsNew(o.result.tiles[newId], made.0, l, made.1);
      NewTileFits(o.result.tiles[newId], made.0, l, made.1);
    } else {
      FailedAddRefines(m, newId, l, rotate, tileClass, replace);
      DeleteEffect(m, l);
    }
  }

  lemma ResizedFits(t: Tile, width: nat, height: nat)
    requires Fits(t)
    requires 0 < width <= t.widthMax && 0 < height <= t.heightMax
    ensures Fits(t.(width := width, height := height))
  {
  }

  lemma ResizeKeepsFit(m: TileMap, l: Location, width: nat, height: nat)
    requires Tiled(m)
    requires AllFit(m.tiles)
    ensures AllFit(Resize(m, l, width, height).result.tiles)
  {
    hide Tiled, Resize, Fits;
    ResizeSucceedsIff(m, l, width, height);
    if CanResize(m, l, width, height) {
      TiledCells(m);
      ResizeEffect(m, l, width, height);
      ResizedFits(m.At(l), width, height);
    }
  }

  // Every tile keeps a shape that fits its kind exactly if no block is turned.
  lemma PerformKeepsFitIff(m: TileMap, op: Operation)
    requires Tiled(m)
    requires Possible(m, op)
    requires AllFit(m.tiles)
    ensures AllFit(Perform(m, op).result.tiles) <==> !TurnsBlock(m, op)
  {
    hide Tiled, TurnsBlock, CanMove;
    match op
    case AddTile(newId, at, rotate, tileClass, replace) =>
      AddKeepsFit(m, newId, at, rotate, tileClass, replace);
      NotMoved(m, op);
    case MoveTile(from, to, rotate, replace) => MoveKeepsFitIff(m, from, to, rotate, replace);
    case ResizeTile(at, width, height) =>
      ResizeKeepsFit(m, at, width, height);
      NotMoved(m, op);
    case DeleteTile(at) =>
      DeleteEffect(m, at);
      NotMoved(m, op);
    case SetReservedState(_, _) => NotMoved(m, op);
  }

  lemma NotMoved(m: TileMap, op: Operation)
    requires Tiled(m)
    requires !op.MoveTile?
    ensures !TurnsBlock(m, op)
  {
  }

  // ---- over whole runs ----

  ghost predicate TurnsNoBlock(s: BoardState, steps: seq<Step>)
    decreases |steps|
  {
    steps != [] && Enabled(s, steps[0]) ==>
      && (steps[0].Operate? ==> !TurnsBlock(s.map_, steps[0].op))
      && TurnsNoBlock(Next(s, steps[0]), steps[1..])
  }

  lemma {:induction false} RunKeepsFit(s: BoardState, steps: seq<Step>, t: BoardState)
    requires BoardInv(s) && AllFit(s.map_.tiles)
    requires Leads(s, steps, t) && TurnsNoBlock(s, steps)
    ensures AllFit(t.map_.tiles)
    decreases |steps|
  {
    hide BoardInv, AllFit, Perform, TurnsBlock;
    if steps != [] {
      StepKeepsBoard(s, steps[0]);
      if steps[0].Operate? {
        PerformKeepsFitIff(s.map_, steps[0].op);
      }
      RunKeepsFit(Next(s, steps[0]), steps[1..], t);
    }
  }

  lemma FitIsShaped(t: Tile)
    requires TileOk(t) && Fits(t)
    ensures IsShaped(t)
    ensures IsNode(t.id) ==> |Connectors(t)| == NodeSize(t.id)
  {
    hide Connectors, ConnectedAt, Drawn;
    if t.id == RailBlock {
      DrawnBlockIsConnectedIff(t);
    } else {
      ConnectorsOnTile(t);
    }
  }

  // In every run from a new board in which no block is turned, all tiles have their
  // connectors where their track ends as it is drawn, and every node has as many of them as
  // it has links, which each rebuild asserts.
  lemma RunsAreDrawnAsConnected(steps: seq<Step>, s: BoardState)
    requires Leads(NEW_BOARD, steps, s) && TurnsNoBlock(NEW_BOARD, steps)
    ensures Tiled(s.map_) && Shaped(s.map_) && CountsOk(s.map_)
    ensures forall id :: id in s.map_.tiles ==> ConnectedAt(Connectors(s.map_.tiles[id])) == Drawn(s.map_.tiles[id])
  {
    hide Leads, TurnsNoBlock, Connectors, ConnectedAt, Drawn, Fits, IsShaped, IsNode, NodeSize;
    NewBoardInv();
    RunKeepsBoard(NEW_BOARD, steps, s);
    NothingUnfit();
    RunKeepsFit(NEW_BOARD, steps, s);
    forall id | id in s.map_.tiles
      ensures IsShaped(s.map_.tiles[id])
      ensures IsNode(s.map_.tiles[id].id) ==> |Connectors(s.map_.tiles[id])| == NodeSize(s.map_.tiles[id].id)
      ensures ConnectedAt(Connectors(s.map_.tiles[id])) == Drawn(s.map_.tiles[id])
    {
      FitIsShaped(s.map_.tiles[id]);
      DrawnIsConnected(s.map_.tiles[id]);
    }
  }

  lemma NothingUnfit()
    ensures AllFit(NEW_BOARD.map_.tiles)
  {
  }

  // A block of one cell that was made north to south and then turned to west to east.
  predicate IsTurnedBlock(t: Tile) {
    && t.id == RailBlock && t.rotate == DEG_90 && t.width == 1 && t.height == 1
    && t.widthMax == 1 && t.heightMax == SIZE_LIMIT
  }

  lemma BlockIsTurned(m: TileMap, from: Location, to: Location, replace: bool)
    requires Tiled(m)
    requires CanMove(m, from, to, DEG_90, replace)
    requires var t := m.At(from); t.id == RailBlock && Fits(t) && t.rotate == DEG_0 && t.height == 1
    ensures var n := Move(m, from, to, DEG_90, replace).result;
      m.cells[from] in n.tiles && IsTurnedBlock(n.tiles[m.cells[from]])
  {
    hide Move, CanMove, Without, Narrow, Tiled, Victims;
    TiledCells(m);
    MoveSucceedsIff(m, from, to, DEG_90, replace);
    MoveEffect(m, from, to, DEG_90, replace);
  }

  // It can grow to the south, and to the south only: where there is room for that, the
  // client draws its rail across its middle, while the server connects its first row.
  lemma TurnedBlockGrowsAcross(m: TileMap, l: Location, width: nat, height: nat)
    requires Tiled(m)
    requires l in m.cells && m.At(l).Origin() == l && IsTurnedBlock(m.At(l))
    requires width != 1 || height != 1
    requires l.y + height < 32768
    ensures var o := Resize(m, l, width, height);
      && (o.ok <==> width == 1 && 1 < height <= SIZE_LIMIT && HasPlace(m, m.cells[l], m.At(l).(height := height)))
      && (o.ok ==> var t := o.result.tiles[m.cells[l]]; ConnectedAt(Connectors(t)) != Drawn(t))
  {
    hide Resize, Connectors, ConnectedAt, Drawn, HasPlace, Tiled;
    TiledTile(m, l);
    assert m.At(l).(width := 1, height := height) == m.At(l).(height := height);
    ResizeSucceedsIff(m, l, width, height);
    if CanResize(m, l, width, height) {
      ResizeEffect(m, l, width, height);
      DrawnBlockIsConnectedIff(m.At(l).(width := width, height := height));
    }
  }
}
