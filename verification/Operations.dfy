// What the board's operations do to the tile map, and the events they emit.
//
// server/src/board/board.cpp

module Operations {
  import opened Wrappers
  import opened Tiles
  import opened TileMaps

  const SIZE_MAX := 1000
  const SIZE_MIN := -1000

  // ---- areas ----

  function Area(x1: int, x2: int, y1: int, y2: int): (area: set<Location>)
    ensures forall l :: l in area <==> x1 <= l.x < x2 && y1 <= l.y < y2
  {
    set x, y | x1 <= x < x2 && y1 <= y < y2 :: Location(x, y)
  }

  // The cells the loops over a tile visit: the end coordinates are sixteen bit numbers.
  function AreaOf(t: Tile): (area: set<Location>)
    ensures TileOk(t) ==> forall l :: l in area <==> Covers(t, l)
  {
    Area(t.x, Narrow(t.x + t.width), t.y, Narrow(t.y + t.height))
  }

  // The cells a column by column scan of an area has visited when it reaches (x, y).
  function Visited(x1: int, x: int, y1: int, y2: int, y: int): (area: set<Location>)
    ensures forall l :: l in area <==> (x1 <= l.x < x && y1 <= l.y < y2) || (l.x == x && y1 <= l.y < y)
  {
    Area(x1, x, y1, y2) + Area(x, x + 1, y1, y)
  }

  // The scan has gone from x1 to x, or has nothing to visit.
  predicate Scanning(x1: int, x: int, x2: int) {
    x == x1 || x1 < x <= x2
  }

  lemma VisitedStep(x1: int, x: int, y1: int, y2: int, y: int)
    requires x1 <= x && y1 <= y < y2
    ensures Visited(x1, x, y1, y2, y + 1) == Visited(x1, x, y1, y2, y) + {Location(x, y)}
  {
  }

  lemma VisitedColumn(x1: int, x: int, y1: int, y2: int, y: int)
    requires x1 <= x && Scanning(y1, y, y2) && y2 <= y
    ensures Visited(x1, x, y1, y2, y) == Visited(x1, x + 1, y1, y2, y1)
  {
  }

  lemma VisitedAll(x1: int, x: int, x2: int, y1: int, y2: int)
    requires Scanning(x1, x, x2) && x2 <= x
    ensures Visited(x1, x, y1, y2, y1) == Area(x1, x2, y1, y2)
  {
  }

  lemma VisitedNone(x1: int, y1: int, y2: int)
    ensures Visited(x1, x1, y1, y2, y1) == {}
  {
  }

  lemma EraseStep(cells: map<Location, Id>, seen: set<Location>, l: Location)
    ensures cells - seen - {l} == cells - (seen + {l})
    ensures cells - {} == cells
  {
  }

  function Filled(cells: map<Location, Id>, area: set<Location>, id: Id): map<Location, Id> {
    cells + (map l | l in area :: id)
  }

  lemma FillStep(cells: map<Location, Id>, seen: set<Location>, l: Location, id: Id)
    ensures Filled(cells, seen, id)[l := id] == Filled(cells, seen + {l}, id)
    ensures Filled(cells, {}, id) == cells
  {
  }

  // ---- events ----

  // tile: the tile object that goes along with the data of an active tile.
  datatype TileEvent = TileEvent(location: Location, data: TileData, tile: Id)

  function Removed(l: Location): TileEvent {
    TileEvent(l, NO_TILE_DATA, 0)
  }

  function Changed(id: Id, t: Tile): TileEvent
    requires 1 <= t.width && 1 <= t.height
  {
    TileEvent(t.Origin(), DataOf(t), if IsActive(t.id) then id else 0)
  }

  // touched: the operation set the board's modified flag.
  datatype Outcome = Outcome(result: TileMap, ok: bool, events: seq<TileEvent>, touched: bool)

  // ---- taking a tile off and putting one on ----

  function Lift(m: TileMap, id: Id): TileMap
    requires id in m.tiles
  {
    TileMap(m.cells - AreaOf(m.tiles[id]), m.tiles - {id})
  }

  function Place(m: TileMap, id: Id, t: Tile): TileMap {
    TileMap(Filled(m.cells, AreaOf(t), id), m.tiles[id := t])
  }

  lemma LiftTiled(m: TileMap, id: Id)
    requires Tiled(m)
    requires id in m.tiles
    ensures Tiled(Lift(m, id))
  {
  }

  ghost predicate Free(m: TileMap, t: Tile) {
    forall l :: Covers(t, l) ==> l !in m.cells
  }

  // A tile that is put on free cells keeps the board tiled exactly if it fits the grid.
  lemma PlaceTiled(m: TileMap, id: Id, t: Tile)
    requires Tiled(m)
    requires id !in m.tiles
    requires Free(m, t)
    ensures Tiled(Place(m, id, t)) <==> TileOk(t)
  {
    var m' := Place(m, id, t);
    assert m'.tiles[id] == t;
  }

  // ---- delete_tile ----

  function Delete(m: TileMap, l: Location): Outcome
    requires Tiled(m)
  {
    if l in m.cells then
      Outcome(Lift(m, m.cells[l]), true, [Removed(m.At(l).Origin())], true)
    else
      Outcome(m, true, [], false)
  }

  // ---- add_tile ----

  // What a tile on an occupied cell is merged into, if it can be.
  function Merged(present: Tile, tileClass: TileId, rotate: Rotation): Option<(TileId, Rotation)> {
    if present.id == RailStraight && tileClass == RailStraight then
      if present.rotate == Turn(rotate, DEG_90) || present.rotate == TurnBack(rotate, DEG_90) then
        Some((RailBridge90, present.rotate))
      else if present.rotate == Turn(rotate, DEG_45) || present.rotate == Turn(rotate, DEG_225) then
        Some((RailBridge45Left, present.rotate))
      else if present.rotate == TurnBack(rotate, DEG_45) || present.rotate == TurnBack(rotate, DEG_225) then
        Some((RailBridge45Right, present.rotate))
      else
        Option.None
    else if present.id == RailStraight && CanUpgradeStraightRail(tileClass)
            && (present.rotate == rotate || Turn(present.rotate, DEG_180) == rotate) then
      Some((tileClass, rotate))
    else
      Option.None
  }

  lemma BridgeAxes(present: Rotation, added: Rotation)
    ensures present == Turn(added, DEG_90) || present == TurnBack(added, DEG_90) <==>
            AxisOf(Turn(present, DEG_90)) == AxisOf(added)
    ensures present == Turn(added, DEG_45) || present == Turn(added, DEG_225) <==>
            AxisOf(TurnBack(present, DEG_45)) == AxisOf(added)
    ensures present == TurnBack(added, DEG_45) || present == TurnBack(added, DEG_225) <==>
            AxisOf(Turn(present, DEG_45)) == AxisOf(added)
    ensures AxisOf(present) != AxisOf(added) <==>
            AxisOf(Turn(present, DEG_90)) == AxisOf(added) || AxisOf(TurnBack(present, DEG_45)) == AxisOf(added) ||
            AxisOf(Turn(present, DEG_45)) == AxisOf(added)
    ensures present == added || Turn(present, DEG_180) == added <==> AxisOf(present) == AxisOf(added)
  {
    hide Turn, TurnBack, AxisOf;
    TurnCases(added, DEG_90);
    TurnCases(added, DEG_45);
    TurnCases(added, DEG_225);
    TurnCases(present, DEG_90);
    TurnCases(present, DEG_45);
    TurnCases(present, DEG_180);
    TurnCases(Turn(present, DEG_90), DEG_0);
    TurnCases(Turn(present, DEG_45), DEG_0);
    TurnCases(TurnBack(present, DEG_45), DEG_0);
  }

  // A straight can be merged with every straight that is not parallel to it, and with every
  // extra that is.
  predicate Mergeable(present: Tile, tileClass: TileId, rotate: Rotation) {
    && present.id == RailStraight
    && if tileClass == RailStraight then AxisOf(present.rotate) != AxisOf(rotate)
       else CanUpgradeStraightRail(tileClass) && AxisOf(present.rotate) == AxisOf(rotate)
  }

  // What becomes of it: two straights are a bridge that lies as the first one did, its kind
  // given by the angle from the second to the first; an extra lies as it was asked for.
  predicate Becomes(present: Tile, tileClass: TileId, rotate: Rotation, madeClass: TileId, madeRotate: Rotation) {
    if tileClass == RailStraight then
      && madeRotate == present.rotate
      && (AxisOf(TurnBack(present.rotate, rotate)) == AxisOf(DEG_90) ==> madeClass == RailBridge90)
      && (AxisOf(TurnBack(present.rotate, rotate)) == AxisOf(DEG_45) ==> madeClass == RailBridge45Left)
      && (AxisOf(TurnBack(present.rotate, rotate)) == AxisOf(DEG_135) ==> madeClass == RailBridge45Right)
    else
      madeClass == tileClass && madeRotate == rotate
  }

  lemma AngleCases(present: Rotation, added: Rotation)
    ensures AxisOf(TurnBack(present, added)) == AxisOf(DEG_90) <==>
            present == Turn(added, DEG_90) || present == TurnBack(added, DEG_90)
    ensures AxisOf(TurnBack(present, added)) == AxisOf(DEG_45) <==>
            present == Turn(added, DEG_45) || present == Turn(added, DEG_225)
    ensures AxisOf(TurnBack(present, added)) == AxisOf(DEG_135) <==>
            present == TurnBack(added, DEG_45) || present == TurnBack(added, DEG_225)
  {
    hide Turn, TurnBack, AxisOf;
    TurnCases(added, DEG_90);
    TurnCases(added, DEG_45);
    TurnCases(added, DEG_225);
    TurnCases(present, added);
    TurnCases(TurnBack(present, added), DEG_0);
    AxisConstants();
  }

  lemma AxisConstants()
    ensures AxisOf(DEG_45) == 1 && AxisOf(DEG_90) == 2 && AxisOf(DEG_135) == 3
  {
  }

  lemma MergesIff(present: Tile, tileClass: TileId, rotate: Rotation)
    ensures Merged(present, tileClass, rotate).Some? <==> Mergeable(present, tileClass, rotate)
    ensures var merged := Merged(present, tileClass, rotate);
      merged.Some? ==> Becomes(present, tileClass, rotate, merged.value.0, merged.value.1)
  {
    hide Turn, TurnBack, AxisOf;
    BridgeAxes(present.rotate, rotate);
    AngleCases(present.rotate, rotate);
    AxisConstants();
  }

  predicate InLimits(t: Tile) {
    && SIZE_MIN <= t.x && Narrow(t.x + t.width) < SIZE_MAX
    && SIZE_MIN <= t.y && Narrow(t.y + t.height) < SIZE_MAX
  }

  // Makes the tile of a class, once its cell is free.
  function Create(o: Outcome, newId: Id, l: Location, tileClass: TileId, rotate: Rotation): Outcome {
    if tileClass == TileId.None then
      o.(ok := false)
    else
      var t := NewTile(tileClass, l.x, l.y, rotate);
      if !InLimits(t) then
        o.(ok := false)
      else
        Outcome(Place(o.result, newId, t), true, o.events + [Changed(newId, t)], true)
  }

  // newId names the tile object that is made, if one is.
  function Add(m: TileMap, newId: Id, l: Location, rotate: Rotation, tileClass: TileId, replace: bool): Outcome
    requires Tiled(m)
  {
    if l !in m.cells then
      Create(Outcome(m, true, [], false), newId, l, tileClass, rotate)
    else if replace then
      Create(Delete(m, l), newId, l, tileClass, rotate)
    else
      var merged := Merged(m.At(l), tileClass, rotate);
      if merged.None? then
        Outcome(m, false, [], false)
      else
        Create(Delete(m, l), newId, l, merged.value.0, merged.value.1)
  }

  // ---- move_tile ----

  // The tile as it would be after the move, unless it cannot be turned or leaves the board.
  function MoveGoal(t: Tile, from: Location, to: Location, rotate: Rotation): Option<Tile> {
    var x := Narrow(to.x - Narrow(from.x - t.x));
    var y := Narrow(to.y - Narrow(from.y - t.y));
    var turned := t.rotate != rotate && t.width != t.height;
    if turned && IsDiagonal(rotate) then
      Option.None
    else
      var swap := turned && Diff(t.rotate, rotate) == DEG_90;
      var width := if swap then t.height else t.width;
      var height := if swap then t.width else t.height;
      var goal := t.(x := x, y := y, width := width, height := height, rotate := rotate);
      if InLimits(goal) then Some(goal) else Option.None
  }

  predicate Obstructs(m: TileMap, id: Id, l: Location) {
    l in m.cells && m.cells[l] != id
  }

  // Deletes the other tiles met from cell (x, y) on, column by column.
  function ClearFrom(m: TileMap, id: Id, x: int, x2: int, y: int, y1: int, y2: int): (r: (TileMap, seq<TileEvent>))
    requires Tiled(m)
    requires y1 <= y
    ensures Tiled(r.0)
    ensures id in m.tiles ==> id in r.0.tiles && r.0.tiles[id] == m.tiles[id]
    decreases x2 - x, y2 - y
  {
    if x >= x2 then (m, [])
    else if y >= y2 then ClearFrom(m, id, x + 1, x2, y1, y1, y2)
    else if Obstructs(m, id, Location(x, y)) then
      var d := Delete(m, Location(x, y));
      LiftTiled(m, m.cells[Location(x, y)]);
      var (m', events) := ClearFrom(d.result, id, x, x2, y + 1, y1, y2);
      (m', d.events + events)
    else ClearFrom(m, id, x, x2, y + 1, y1, y2)
  }

  function Clear(m: TileMap, id: Id, goal: Tile): (r: (TileMap, seq<TileEvent>))
    requires Tiled(m)
    ensures Tiled(r.0)
    ensures id in m.tiles ==> id in r.0.tiles && r.0.tiles[id] == m.tiles[id]
  {
    ClearFrom(m, id, goal.x, Narrow(goal.x + goal.width), goal.y, goal.y, Narrow(goal.y + goal.height))
  }

  // The tiles a moved tile would land on.
  ghost function Victims(m: TileMap, id: Id, area: set<Location>): set<Id> {
    set l | l in area && Obstructs(m, id, l) :: m.cells[l]
  }

  // The board without some of its tiles.
  ghost function Without(m: TileMap, victims: set<Id>): TileMap {
    TileMap(map l | l in m.cells && m.cells[l] !in victims :: m.cells[l], m.tiles - victims)
  }

  lemma LiftIsWithout(m: TileMap, id: Id)
    requires Tiled(m)
    requires id in m.tiles
    ensures Lift(m, id) == Without(m, {id})
  {
  }

  // The cells still to be visited from (x, y) on.
  ghost function Remaining(x: int, x2: int, y: int, y1: int, y2: int): (area: set<Location>)
    requires y1 <= y
    ensures forall l :: l in area <==> (l.x == x < x2 && y <= l.y < y2) || (x < l.x < x2 && y1 <= l.y < y2)
  {
    Area(x, if x < x2 then x + 1 else x, y, y2) + Area(x + 1, x2, y1, y2)
  }

  lemma WithoutTwice(m: TileMap, a: set<Id>, b: set<Id>)
    ensures Without(Without(m, a), b) == Without(m, a + b)
  {
  }

  lemma VictimsCons(m: TileMap, id: Id, l: Location, rest: set<Location>)
    ensures Victims(m, id, {l} + rest) ==
            (if Obstructs(m, id, l) then {m.cells[l]} else {}) + Victims(m, id, rest)
  {
  }

  lemma VictimsAfter(m: TileMap, id: Id, area: set<Location>, v: Id)
    ensures Victims(Without(m, {v}), id, area) == Victims(m, id, area) - {v}
  {
    var m' := Without(m, {v});
    forall u | u in Victims(m, id, area) - {v} ensures u in Victims(m', id, area) {
      var l :| l in area && Obstructs(m, id, l) && m.cells[l] == u;
      assert Obstructs(m', id, l);
    }
  }

  lemma WithoutNone(m: TileMap)
    ensures Without(m, {}) == m
  {
  }

  // Clearing an area deletes exactly the other tiles that meet it.
  lemma {:induction false} ClearFromEffect(m: TileMap, id: Id, x: int, x2: int, y: int, y1: int, y2: int)
    requires Tiled(m)
    requires y1 <= y
    ensures ClearFrom(m, id, x, x2, y, y1, y2).0 == Without(m, Victims(m, id, Remaining(x, x2, y, y1, y2)))
    decreases x2 - x, y2 - y
  {
    hide Without, Tiled;
    var all := Remaining(x, x2, y, y1, y2);
    if x >= x2 {
      assert all == {};
      assert Victims(m, id, {}) == {};
      WithoutNone(m);
    } else if y >= y2 {
      ClearFromEffect(m, id, x + 1, x2, y1, y1, y2);
      assert all == Remaining(x + 1, x2, y1, y1, y2);
    } else {
      var l := Location(x, y);
      var rest := Remaining(x, x2, y + 1, y1, y2);
      assert all == {l} + rest;
      VictimsCons(m, id, l, rest);
      if Obstructs(m, id, l) {
        ClearStep(m, id, x, x2, y, y1, y2);
      } else {
        ClearFromEffect(m, id, x, x2, y + 1, y1, y2);
        assert {} + Victims(m, id, rest) == Victims(m, id, rest);
      }
    }
  }

  lemma ClearStep(m: TileMap, id: Id, x: int, x2: int, y: int, y1: int, y2: int)
    requires Tiled(m)
    requires y1 <= y < y2 && x < x2
    requires Obstructs(m, id, Location(x, y))
    ensures var v := m.cells[Location(x, y)];
      ClearFrom(m, id, x, x2, y, y1, y2).0 ==
      Without(m, {v} + Victims(m, id, Remaining(x, x2, y + 1, y1, y2)))
    decreases x2 - x, y2 - y, 0
  {
    hide Without, Victims;
    var v := m.cells[Location(x, y)];
    var rest := Remaining(x, x2, y + 1, y1, y2);
    LiftTiled(m, v);
    LiftIsWithout(m, v);
    ClearFromEffect(Lift(m, v), id, x, x2, y + 1, y1, y2);
    VictimsAfter(m, id, rest, v);
    WithoutTwice(m, {v}, Victims(m, id, rest) - {v});
    assert {v} + (Victims(m, id, rest) - {v}) == {v} + Victims(m, id, rest);
  }

  lemma ClearEffect(m: TileMap, id: Id, goal: Tile)
    requires Tiled(m)
    ensures Clear(m, id, goal).0 == Without(m, Victims(m, id, AreaOf(goal)))
  {
    hide Tiled, Without, Victims;
    var x2, y2 := Narrow(goal.x + goal.width), Narrow(goal.y + goal.height);
    ClearFromEffect(m, id, goal.x, x2, goal.y, goal.y, y2);
    assert Remaining(goal.x, x2, goal.y, goal.y, y2) == AreaOf(goal);
  }

  function Move(m: TileMap, from: Location, to: Location, rotate: Rotation, replace: bool): Outcome
    requires Tiled(m)
  {
    if from !in m.cells then
      Outcome(m, false, [], false)
    else
      var id := m.cells[from];
      var goal := MoveGoal(m.tiles[id], from, to, rotate);
      if goal.None? then
        Outcome(m, false, [], false)
      else if !replace && exists l :: l in AreaOf(goal.value) && Obstructs(m, id, l) then
        Outcome(m, false, [], false)
      else
        var (cleared, events) := Clear(m, id, goal.value);
        Outcome(Place(Lift(cleared, id), id, goal.value), true,
                events + [Removed(m.tiles[id].Origin()), Changed(id, goal.value)], true)
  }

  // ---- resize_tile ----

  // The cells of the larger of the two footprints, all of which are written.
  function ResizeArea(t: Tile, width: nat, height: nat): set<Location> {
    Area(t.x, Narrow(t.x + if width < t.width then t.width else width),
         t.y, Narrow(t.y + if height < t.height then t.height else height))
  }

  predicate Inside(t: Tile, l: Location) {
    l.x < Narrow(t.x + t.width) && l.y < Narrow(t.y + t.height)
  }

  // The cells of an area after those inside the tile were written and the others erased.
  function Rewritten(cells: map<Location, Id>, area: set<Location>, resized: Tile, id: Id): map<Location, Id> {
    (cells - area) + (map c | c in area && Inside(resized, c) :: id)
  }

  lemma RewriteStep(cells: map<Location, Id>, seen: set<Location>, resized: Tile, id: Id, l: Location)
    ensures var now := Rewritten(cells, seen, resized, id);
      (if Inside(resized, l) then now[l := id] else now - {l}) == Rewritten(cells, seen + {l}, resized, id)
    ensures Rewritten(cells, {}, resized, id) == cells
  {
  }

  function ResizedCells(m: TileMap, id: Id, width: nat, height: nat): map<Location, Id>
    requires id in m.tiles
  {
    Rewritten(m.cells, ResizeArea(m.tiles[id], width, height), m.tiles[id].(width := width, height := height), id)
  }

  function Resized(m: TileMap, id: Id, width: nat, height: nat): TileMap
    requires id in m.tiles
  {
    TileMap(ResizedCells(m, id, width, height), m.tiles[id := m.tiles[id].(width := width, height := height)])
  }

  function Resize(m: TileMap, l: Location, width: nat, height: nat): Outcome
    requires Tiled(m)
  {
    if width == 0 || height == 0 || l !in m.cells || m.At(l).Origin() != l then
      Outcome(m, false, [], false)
    else
      var id, t := m.cells[l], m.At(l);
      var resized := t.(width := width, height := height);
      if (t.width < width || t.height < height) && exists c :: c in AreaOf(resized) && Obstructs(m, id, c) then
        Outcome(m, false, [], false)
      else if !(width <= t.widthMax && height <= t.heightMax) then
        Outcome(m, false, [], false)
      else
        Outcome(Resized(m, id, width, height), true, [Changed(id, resized)], true)
  }

  // ---- RailTile::setReservedState ----

  function Reserve(m: TileMap, id: Id, state: nat): Outcome
    requires Tiled(m)
    requires id in m.tiles
  {
    if m.tiles[id].reserved == state then
      Outcome(m, true, [], false)
    else
      var t := m.tiles[id].(reserved := state);
      Outcome(TileMap(m.cells, m.tiles[id := t]), true, [Changed(id, t)], false)
  }

  // ---- exact effects ----

  // The moved tile fits the sixteen bit grid.
  predicate FitsGrid(t: Tile) {
    t.x + t.width < 32768 && t.y + t.height < 32768
  }

  // The tile moved along, so that the cell it was taken by comes to the cell it is put on,
  // and turned.
  function Shifted(t: Tile, from: Location, to: Location, rotate: Rotation): Tile {
    var quarter := rotate == t.rotate + 2 || t.rotate == rotate + 2;
    Tile(t.id, Narrow(t.x + (to.x - from.x)), Narrow(t.y + (to.y - from.y)), rotate,
         if quarter then t.height else t.width, if quarter then t.width else t.height,
         t.widthMax, t.heightMax, t.reserved)
  }

  // Only a square tile can be turned to lie diagonally; and where it comes to passes for
  // being on the board.
  predicate CanStand(t: Tile, goal: Tile) {
    && (t.rotate == goal.rotate || t.width == t.height || !IsDiagonal(goal.rotate))
    && PassesLimits(goal.x, goal.width) && PassesLimits(goal.y, goal.height)
  }

  lemma ShiftBack(t: int, from: int, to: int)
    requires 0 <= from - t < SIZE_LIMIT
    ensures Narrow(to - Narrow(from - t)) == Narrow(t + (to - from))
  {
  }

  lemma LimitsPass(c: int, length: nat)
    requires -32768 <= c < 32768 && length <= SIZE_LIMIT
    ensures SIZE_MIN <= c && Narrow(c + length) < SIZE_MAX <==> PassesLimits(c, length)
  {
  }

  lemma GoalIsShifted(t: Tile, from: Location, to: Location, rotate: Rotation)
    requires TileOk(t) && Covers(t, from)
    ensures MoveGoal(t, from, to, rotate) ==
            var goal := Shifted(t, from, to, rotate);
            if CanStand(t, goal) then Some(goal) else Option.None
  {
    hide Narrow, PassesLimits;
    var goal := Shifted(t, from, to, rotate);
    ShiftBack(t.x, from.x, to.x);
    ShiftBack(t.y, from.y, to.y);
    LimitsPass(goal.x, goal.width);
    LimitsPass(goal.y, goal.height);
  }

  lemma GoalOk(t: Tile, from: Location, to: Location, rotate: Rotation)
    requires TileOk(t)
    ensures TileOk(Shifted(t, from, to, rotate)) <==> FitsGrid(Shifted(t, from, to, rotate))
  {
  }

  lemma ClearedAndLifted(m: TileMap, id: Id, goal: Tile)
    requires Tiled(m)
    requires id in m.tiles
    ensures Lift(Clear(m, id, goal).0, id) == Without(m, Victims(m, id, AreaOf(goal)) + {id})
  {
    ClearEffect(m, id, goal);
    LiftIsWithout(Clear(m, id, goal).0, id);
    WithoutTwice(m, Victims(m, id, AreaOf(goal)), {id});
  }

  // move_tile fails without any effect, or deletes exactly the other tiles that meet the
  // target and gives the tile, taken off its old cells, all cells of the target.
  lemma MoveEffect(m: TileMap, from: Location, to: Location, rotate: Rotation, replace: bool)
    requires Tiled(m)
    ensures var o := Move(m, from, to, rotate, replace);
      if o.ok then
        && from in m.cells
        && var id := m.cells[from];
           var goal := Shifted(m.tiles[id], from, to, rotate);
           var victims := Victims(m, id, AreaOf(goal));
        && (!replace ==> victims == {})
        && id !in victims
        && o.result == Place(Without(m, victims + {id}), id, goal)
      else
        o == Outcome(m, false, [], false)
  {
    var o := Move(m, from, to, rotate, replace);
    if o.ok {
      var id := m.cells[from];
      GoalIsShifted(m.tiles[id], from, to, rotate);
      ClearedAndLifted(m, id, Shifted(m.tiles[id], from, to, rotate));
    }
  }

  // After the target was cleared and the tile taken off, the target is free: the
  // program's assertion that the cells it writes are not occupied never fails.
  lemma TargetIsFree(m: TileMap, id: Id, goal: Tile)
    requires Tiled(m)
    requires id in m.tiles
    ensures var rest := Lift(Clear(m, id, goal).0, id);
      Tiled(rest) && id !in rest.tiles && forall l :: l in AreaOf(goal) ==> l !in rest.cells
  {
    LiftTiled(Clear(m, id, goal).0, id);
    ClearedAndLifted(m, id, goal);
  }

  // When move_tile succeeds: there is a tile, which can be turned and stays on the board,
  // and nothing is in its way or may be in its way.
  ghost predicate CanMove(m: TileMap, from: Location, to: Location, rotate: Rotation, replace: bool)
    requires Tiled(m)
  {
    && from in m.cells
    && var goal := Shifted(m.At(from), from, to, rotate);
    && CanStand(m.At(from), goal)
    && (replace || HasPlace(m, m.cells[from], goal))
  }

  // No other tile has a cell inside it; a size that does not fit sixteen bits is not looked at.
  ghost predicate HasPlace(m: TileMap, id: Id, goal: Tile) {
    FitsGrid(goal) ==> forall u, c :: u in m.tiles && u != id && Covers(m.tiles[u], c) ==> !Covers(goal, c)
  }

  lemma PlaceIff(m: TileMap, id: Id, goal: Tile)
    requires Tiled(m)
    requires id in m.tiles
    requires IsInt16(goal.Origin()) && 0 < goal.width <= SIZE_LIMIT && 0 < goal.height <= SIZE_LIMIT
    ensures (forall c :: c in AreaOf(goal) ==> !Obstructs(m, id, c)) <==> HasPlace(m, id, goal)
  {
    if FitsGrid(goal) {
      assert forall c :: c in AreaOf(goal) <==> Covers(goal, c);
      forall c | c in AreaOf(goal) && Obstructs(m, id, c) ensures Covers(m.tiles[m.cells[c]], c) {
      }
    } else {
      assert AreaOf(goal) == {};
    }
  }

  lemma MoveSucceedsIff(m: TileMap, from: Location, to: Location, rotate: Rotation, replace: bool)
    requires Tiled(m)
    ensures Move(m, from, to, rotate, replace).ok <==> CanMove(m, from, to, rotate, replace)
    ensures Move(m, from, to, rotate, replace).touched <==> CanMove(m, from, to, rotate, replace)
  {
    hide Tiled, Clear, MoveGoal, AreaOf, CanStand, HasPlace, Covers, TileOk, Narrow;
    if from in m.cells {
      TiledTile(m, from);
      TileOnCell(m, from, m.cells[from]);
      GoalIsShifted(m.At(from), from, to, rotate);
      ShiftedSize(m.At(from), from, to, rotate);
      PlaceIff(m, m.cells[from], Shifted(m.At(from), from, to, rotate));
    }
  }

  lemma ShiftedSize(t: Tile, from: Location, to: Location, rotate: Rotation)
    requires TileOk(t)
    ensures var goal := Shifted(t, from, to, rotate);
      IsInt16(goal.Origin()) && 0 < goal.width <= SIZE_LIMIT && 0 < goal.height <= SIZE_LIMIT
  {
  }

  // What a move is: the tile is shifted by as much as the cell it was taken by was, and has
  // the new rotation; its kind, state and maximum size stay, and so does every tile that has
  // no cell where it comes to. Only a target that does not fit sixteen bits is elsewhere.
  lemma MovedTile(m: TileMap, from: Location, to: Location, rotate: Rotation, replace: bool)
    requires Tiled(m)
    requires IsInt16(to)
    requires Move(m, from, to, rotate, replace).ok
    ensures var o := Move(m, from, to, rotate, replace);
      && from in m.cells
      && var id := m.cells[from];
      && id in o.result.tiles
      && var t, t' := m.tiles[id], o.result.tiles[id];
      && t'.id == t.id && t'.reserved == t.reserved && t'.widthMax == t.widthMax && t'.heightMax == t.heightMax
      && t'.rotate == rotate
      && (FitsGrid(t') ==> t'.x - t.x == to.x - from.x && t'.y - t.y == to.y - from.y)
      && (forall u :: u != id ==>
            (u in o.result.tiles <==>
             u in m.tiles && !(FitsGrid(t') && exists c :: Covers(m.tiles[u], c) && Covers(t', c))))
      && (forall u :: u != id && u in o.result.tiles ==> o.result.tiles[u] == m.tiles[u])
  {
    hide Tiled, Clear, Move, PassesLimits, HasPlace, Narrow, AreaOf, Victims;
    MoveSucceedsIff(m, from, to, rotate, replace);
    MoveEffect(m, from, to, rotate, replace);
    TiledTile(m, from);
    TileOnCell(m, from, m.cells[from]);
    var id, t := m.cells[from], m.At(from);
    var goal := Shifted(t, from, to, rotate);
    ShiftedSize(t, from, to, rotate);
    if FitsGrid(goal) {
      NoWrap(t.x, from.x, to.x, goal.width);
      NoWrap(t.y, from.y, to.y, goal.height);
    }
    forall u | u in m.tiles && u != id
      ensures u in Victims(m, id, AreaOf(goal)) <==> FitsGrid(goal) && exists c :: Covers(m.tiles[u], c) && Covers(goal, c)
    {
      VictimIff(m, id, goal, u);
    }
  }

  lemma NoWrap(c: int, from: int, to: int, length: nat)
    requires -32768 <= c && 0 <= from - c < SIZE_LIMIT && from < 32768 && -32768 <= to < 32768 && 0 < length <= SIZE_LIMIT
    requires PassesLimits(Narrow(c + (to - from)), length) && Narrow(c + (to - from)) + length < 32768
    ensures Narrow(c + (to - from)) == c + (to - from)
  {
  }

  lemma VictimIff(m: TileMap, id: Id, goal: Tile, u: Id)
    requires Tiled(m)
    requires u in m.tiles && u != id
    requires IsInt16(goal.Origin()) && 0 < goal.width <= SIZE_LIMIT && 0 < goal.height <= SIZE_LIMIT
    ensures u in Victims(m, id, AreaOf(goal)) <==>
            FitsGrid(goal) && exists c :: Covers(m.tiles[u], c) && Covers(goal, c)
  {
    if FitsGrid(goal) {
      assert forall c :: c in AreaOf(goal) <==> Covers(goal, c);
      if c :| Covers(m.tiles[u], c) && Covers(goal, c) {
        assert m.cells[c] == u && Obstructs(m, id, c);
      }
    } else {
      assert AreaOf(goal) == {};
    }
  }

  // delete_tile takes off exactly the tile on the cell, and tells so; without one it does
  // nothing.
  lemma DeleteEffect(m: TileMap, l: Location)
    requires Tiled(m)
    ensures var o := Delete(m, l);
      && o.ok && (o.touched <==> l in m.cells)
      && (l in m.cells ==> o.result == Without(m, {m.cells[l]}) && o.events == [Removed(m.At(l).Origin())])
      && (l !in m.cells ==> o.result == m && o.events == [])
  {
    if l in m.cells {
      LiftIsWithout(m, m.cells[l]);
    }
  }

  // The limits as they are checked: an end coordinate that does not fit sixteen bits wraps
  // around and passes.
  predicate PassesLimits(c: int, length: nat) {
    SIZE_MIN <= c && (c + length < SIZE_MAX || 32768 <= c + length)
  }

  lemma NewTileLimits(tileClass: TileId, l: Location, rotate: Rotation)
    requires IsInt16(l)
    ensures InLimits(NewTile(tileClass, l.x, l.y, rotate)) <==> PassesLimits(l.x, 1) && PassesLimits(l.y, 1)
  {
  }

  // What add_tile makes: the tile that was asked for, or what it is merged into.
  ghost function ToMake(m: TileMap, l: Location, rotate: Rotation, tileClass: TileId, replace: bool): (TileId, Rotation)
    requires l in m.cells ==> m.cells[l] in m.tiles
  {
    if l in m.cells && !replace && Merged(m.At(l), tileClass, rotate).Some? then Merged(m.At(l), tileClass, rotate).value
    else (tileClass, rotate)
  }

  predicate Holds(m: TileMap, c: Location, id: Id) {
    c in m.cells && m.cells[c] == id
  }

  // When add_tile succeeds: the class exists, the cell passes for one within the limits,
  // and a tile on it is to be replaced or can be merged.
  ghost predicate CanAdd(m: TileMap, l: Location, rotate: Rotation, tileClass: TileId, replace: bool)
    requires Tiled(m)
  {
    && tileClass != TileId.None
    && PassesLimits(l.x, 1) && PassesLimits(l.y, 1)
    && (l in m.cells && !replace ==> Mergeable(m.At(l), tileClass, rotate))
  }

  // The next cell to the right and the one below have sixteen bit coordinates, too.
  predicate OnGrid(l: Location) {
    l.x < 32767 && l.y < 32767
  }

  lemma AddSucceedsIff(m: TileMap, newId: Id, l: Location, rotate: Rotation, tileClass: TileId, replace: bool)
    requires Tiled(m)
    requires IsInt16(l)
    ensures Add(m, newId, l, rotate, tileClass, replace).ok <==> CanAdd(m, l, rotate, tileClass, replace)
  {
    hide Tiled, Delete, Place, InLimits, NewTile, Merged, Mergeable, Becomes, PassesLimits;
    TiledCells(m);
    var made := ToMake(m, l, rotate, tileClass, replace);
    NewTileLimits(made.0, l, made.1);
    if l in m.cells {
      MergesIff(m.At(l), tileClass, rotate);
      if Merged(m.At(l), tileClass, rotate).Some? {
        MergedClass(m.At(l), tileClass, rotate);
      }
    }
  }

  lemma MergedClass(t: Tile, tileClass: TileId, rotate: Rotation)
    requires Merged(t, tileClass, rotate).Some?
    ensures tileClass != TileId.None && Merged(t, tileClass, rotate).value.0 != TileId.None
  {
  }

  lemma AddIsPlace(m: TileMap, newId: Id, l: Location, rotate: Rotation, tileClass: TileId, replace: bool)
    requires Tiled(m)
    requires l in m.cells ==> m.cells[l] in m.tiles
    requires Add(m, newId, l, rotate, tileClass, replace).ok
    ensures var made, room := ToMake(m, l, rotate, tileClass, replace), Delete(m, l);
      var t := NewTile(made.0, l.x, l.y, made.1);
      && (l in m.cells && !replace ==> Merged(m.At(l), tileClass, rotate) == Some(made))
      && Add(m, newId, l, rotate, tileClass, replace) ==
         Outcome(Place(room.result, newId, t), true, room.events + [Changed(newId, t)], true)
  {
    hide Tiled, Lift, Place, InLimits, Merged;
  }

  // A tile of a class as it is put on one cell. A block lies north to south, or west to east
  // if it was turned by 90 degrees, and can grow in that direction only; a label can grow
  // in both.
  predicate IsNew(t: Tile, tileClass: TileId, l: Location, rotate: Rotation) {
    && t.id == tileClass && t.Origin() == l && t.width == 1 && t.height == 1 && t.reserved == 0
    && t.rotate == (if tileClass == RailBlock && rotate != DEG_90 then DEG_0 else rotate)
    && t.widthMax == (if tileClass == Label || (tileClass == RailBlock && t.rotate == DEG_90) then SIZE_LIMIT else 1)
    && t.heightMax == (if tileClass == Label || (tileClass == RailBlock && t.rotate == DEG_0) then SIZE_LIMIT else 1)
  }

  lemma NewTileIsNew(tileClass: TileId, l: Location, rotate: Rotation)
    ensures IsNew(NewTile(tileClass, l.x, l.y, rotate), tileClass, l, rotate)
  {
  }

  lemma OnlyNewTile(t: Tile, tileClass: TileId, l: Location, rotate: Rotation)
    requires IsNew(t, tileClass, l, rotate)
    ensures t == NewTile(tileClass, l.x, l.y, rotate)
  {
  }

  // add_tile that succeeds takes off at most the tile that was on the cell, and puts a new
  // one on it; every other tile stays as it is. In the last column or row that sixteen bits
  // can name the new tile object belongs to the board, but is on no cell.
  lemma AddEffect(m: TileMap, newId: Id, l: Location, rotate: Rotation, tileClass: TileId, replace: bool)
    requires Tiled(m)
    requires newId !in m.tiles
    requires IsInt16(l)
    requires CanAdd(m, l, rotate, tileClass, replace)
    ensures var o := Add(m, newId, l, rotate, tileClass, replace);
      && o.ok && o.touched
      && newId in o.result.tiles
      && var t := o.result.tiles[newId];
      && t.width == 1 && t.height == 1
      && (forall c :: Holds(o.result, c, newId) <==> c == l && OnGrid(l))
      && (forall c, id :: id != newId ==> (Holds(o.result, c, id) <==> Holds(m, c, id) && !Holds(m, l, id)))
      && (exists made: (TileId, Rotation) ::
            && (if l in m.cells && !replace then Becomes(m.At(l), tileClass, rotate, made.0, made.1)
                else made == (tileClass, rotate))
            && IsNew(t, made.0, l, made.1))
      && (forall id :: id != newId ==> (id in o.result.tiles <==> id in m.tiles && !Holds(m, l, id)))
      && (forall id :: id != newId && id in o.result.tiles ==> o.result.tiles[id] == m.tiles[id])
      && o.events == (if l in m.cells then [Removed(m.At(l).Origin())] else []) + [Changed(newId, t)]
  {
    hide Tiled, Merged, InLimits, Add, Delete, Without, Narrow, Area, PassesLimits, Becomes;
    TiledCells(m);
    if l in m.cells {
      MergesIff(m.At(l), tileClass, rotate);
    }
    AddSucceedsIff(m, newId, l, rotate, tileClass, replace);
    AddIsPlace(m, newId, l, rotate, tileClass, replace);
    DeleteEffect(m, l);
    var room, made := Delete(m, l), ToMake(m, l, rotate, tileClass, replace);
    var t := NewTile(made.0, l.x, l.y, made.1);
    NewTileIsNew(made.0, l, made.1);
    UnitTileArea(t);
    RoomCells(m, newId, l);
  }

  lemma RoomCells(m: TileMap, newId: Id, l: Location)
    requires Tiled(m)
    requires newId !in m.tiles
    ensures var room := Delete(m, l).result;
      && (forall c :: c in room.cells ==> room.cells[c] != newId)
      && l !in room.cells
      && (forall c, id :: Holds(room, c, id) <==> Holds(m, c, id) && !Holds(m, l, id))
      && (forall id :: id in room.tiles <==> id in m.tiles && !Holds(m, l, id))
      && (forall id :: id in room.tiles ==> room.tiles[id] == m.tiles[id])
  {
  }

  lemma UnitTileArea(t: Tile)
    requires IsInt16(t.Origin())
    requires t.width == 1 && t.height == 1
    ensures AreaOf(t) == if OnGrid(t.Origin()) then {t.Origin()} else {}
  {
  }

  // ---- which calls keep the board tiled ----

  // A tile whose end coordinate does not fit sixteen bits is put on no cell at all.
  lemma PlaceOnFreeArea(m: TileMap, id: Id, t: Tile)
    requires Tiled(m)
    requires id !in m.tiles
    requires forall l :: l in AreaOf(t) ==> l !in m.cells
    requires TileOk(t) <==> FitsGrid(t)
    ensures Tiled(Place(m, id, t)) <==> FitsGrid(t)
  {
    if FitsGrid(t) {
      PlaceTiled(m, id, t);
    } else {
      assert Place(m, id, t).tiles[id] == t;
    }
  }

  lemma MoveKeepsTiled(m: TileMap, from: Location, to: Location, rotate: Rotation, replace: bool)
    requires Tiled(m)
    ensures Tiled(Move(m, from, to, rotate, replace).result) <==>
            (CanMove(m, from, to, rotate, replace) ==> FitsGrid(Shifted(m.At(from), from, to, rotate)))
  {
    MoveSucceedsIff(m, from, to, rotate, replace);
    var o := Move(m, from, to, rotate, replace);
    if o.ok {
      var id := m.cells[from];
      var goal := Shifted(m.tiles[id], from, to, rotate);
      GoalIsShifted(m.tiles[id], from, to, rotate);
      GoalOk(m.tiles[id], from, to, rotate);
      TargetIsFree(m, id, goal);
      PlaceOnFreeArea(Lift(Clear(m, id, goal).0, id), id, goal);
    }
  }

  lemma DeleteKeepsTiled(m: TileMap, l: Location)
    requires Tiled(m)
    ensures Tiled(Delete(m, l).result)
  {
    if l in m.cells {
      LiftTiled(m, m.cells[l]);
    }
  }

  lemma NewTileArea(t: Tile)
    requires IsInt16(t.Origin())
    requires t.width == 1 && t.height == 1
    ensures forall l :: l in AreaOf(t) ==> l == t.Origin()
    ensures FitsGrid(t) <==> OnGrid(t.Origin())
  {
  }

  lemma CreateKeepsTiled(o: Outcome, newId: Id, l: Location, tileClass: TileId, rotate: Rotation)
    requires Tiled(o.result)
    requires newId !in o.result.tiles
    requires l !in o.result.cells
    requires IsInt16(l)
    ensures var o' := Create(o, newId, l, tileClass, rotate);
      Tiled(o'.result) <==> (o'.ok ==> OnGrid(l))
  {
    if Create(o, newId, l, tileClass, rotate).ok {
      var t := NewTile(tileClass, l.x, l.y, rotate);
      NewTileArea(t);
      PlaceOnFreeArea(o.result, newId, t);
    }
  }

  lemma NothingToDelete(m: TileMap, l: Location)
    requires Tiled(m)
    requires l !in m.cells
    ensures Delete(m, l) == Outcome(m, true, [], false)
  {
  }

  lemma DeleteFrees(m: TileMap, l: Location)
    requires Tiled(m)
    ensures l !in Delete(m, l).result.cells
    ensures Delete(m, l).result.tiles.Keys <= m.tiles.Keys
    ensures Delete(m, l).ok
  {
  }

  lemma AddKeepsTiled(m: TileMap, newId: Id, l: Location, rotate: Rotation, tileClass: TileId, replace: bool)
    requires Tiled(m)
    requires newId !in m.tiles
    requires IsInt16(l)
    ensures Tiled(Add(m, newId, l, rotate, tileClass, replace).result) <==>
            (CanAdd(m, l, rotate, tileClass, replace) ==> OnGrid(l))
  {
    hide Tiled, CanAdd, Create, Delete, Merged;
    TiledCells(m);
    AddSucceedsIff(m, newId, l, rotate, tileClass, replace);
    DeleteKeepsTiled(m, l);
    DeleteFrees(m, l);
    if l !in m.cells {
      CreateKeepsTiled(Outcome(m, true, [], false), newId, l, tileClass, rotate);
    } else if replace {
      CreateKeepsTiled(Delete(m, l), newId, l, tileClass, rotate);
    } else {
      var merged := Merged(m.At(l), tileClass, rotate);
      if merged.Some? {
        CreateKeepsTiled(Delete(m, l), newId, l, merged.value.0, merged.value.1);
      }
    }
  }

  // When resize_tile succeeds: the cell is a tile's origin, the size is allowed, and no
  // other tile has a cell inside it. A size that does not fit sixteen bits is not looked at.
  ghost predicate CanResize(m: TileMap, l: Location, width: nat, height: nat)
    requires Tiled(m)
  {
    && l in m.cells && m.At(l).Origin() == l
    && 0 < width <= m.At(l).widthMax && 0 < height <= m.At(l).heightMax
    && HasPlace(m, m.cells[l], m.At(l).(width := width, height := height))
  }

  lemma RoomIff(m: TileMap, id: Id, resized: Tile)
    requires Tiled(m)
    requires id in m.tiles
    requires resized == m.tiles[id].(width := resized.width, height := resized.height)
    requires 0 < resized.width <= SIZE_LIMIT && 0 < resized.height <= SIZE_LIMIT
    ensures (forall c :: c in AreaOf(resized) ==> !Obstructs(m, id, c)) <==> HasPlace(m, id, resized)
    ensures resized.width <= m.tiles[id].width && resized.height <= m.tiles[id].height ==>
            forall c :: c in AreaOf(resized) ==> !Obstructs(m, id, c)
  {
    PlaceIff(m, id, resized);
    if FitsGrid(resized) {
      assert TileOk(resized);
    } else {
      assert AreaOf(resized) == {};
    }
  }

  lemma ResizeSucceedsIff(m: TileMap, l: Location, width: nat, height: nat)
    requires Tiled(m)
    ensures Resize(m, l, width, height).ok <==> CanResize(m, l, width, height)
    ensures !CanResize(m, l, width, height) ==> Resize(m, l, width, height) == Outcome(m, false, [], false)
  {
    hide Tiled, Resized, AreaOf, Covers, FitsGrid;
    TiledCells(m);
    if l in m.cells && m.At(l).Origin() == l {
      TiledTile(m, l);
      if 0 < width <= m.At(l).widthMax && 0 < height <= m.At(l).heightMax {
        RoomIff(m, m.cells[l], m.At(l).(width := width, height := height));
      }
    }
  }

  lemma ResizeFound(m: TileMap, l: Location, width: nat, height: nat)
    requires Tiled(m)
    requires CanResize(m, l, width, height)
    ensures l in m.cells && m.cells[l] in m.tiles && m.At(l).Origin() == l
    ensures 1 <= width && 1 <= height
    ensures Resize(m, l, width, height) ==
            Outcome(Resized(m, m.cells[l], width, height), true,
                    [Changed(m.cells[l], m.At(l).(width := width, height := height))], true)
  {
    hide Resized;
    ResizeSucceedsIff(m, l, width, height);
  }

  // Cells outside both footprints of a resized tile that hold another tile: the program
  // takes them off the board without having looked at them.
  ghost predicate TornOff(m: TileMap, id: Id, width: nat, height: nat, c: Location)
    requires id in m.tiles
  {
    var t := m.tiles[id];
    && c in ResizeArea(t, width, height)
    && !Inside(t.(width := width, height := height), c)
    && Obstructs(m, id, c)
  }

  lemma ResizeAreas(t: Tile, width: nat, height: nat)
    requires TileOk(t)
    requires FitsGrid(t.(width := width, height := height))
    ensures var resized := t.(width := width, height := height);
      && (forall c :: c in AreaOf(resized) <==> Covers(resized, c))
      && (forall c :: c in AreaOf(resized) <==> c in ResizeArea(t, width, height) && Inside(resized, c))
      && AreaOf(t) <= ResizeArea(t, width, height)
  {
  }

  lemma ResizedCell(m: TileMap, id: Id, width: nat, height: nat, c: Location)
    requires Tiled(m)
    requires id in m.tiles
    requires FitsGrid(m.tiles[id].(width := width, height := height))
    requires !TornOff(m, id, width, height, c)
    ensures var cells := ResizedCells(m, id, width, height);
      var wanted := Place(Lift(m, id), id, m.tiles[id].(width := width, height := height)).cells;
      && (c in cells <==> c in wanted)
      && (c in cells ==> cells[c] == wanted[c])
  {
    ResizeAreas(m.tiles[id], width, height);
  }

  lemma SameCells(a: map<Location, Id>, b: map<Location, Id>)
    requires forall c :: c in a <==> c in b
    requires forall c :: c in a && c in b ==> a[c] == b[c]
    ensures a == b
  {
  }

  lemma ResizedMap(m: TileMap, id: Id, width: nat, height: nat)
    requires Tiled(m)
    requires id in m.tiles
    requires FitsGrid(m.tiles[id].(width := width, height := height))
    requires forall c :: !TornOff(m, id, width, height, c)
    ensures Resized(m, id, width, height) ==
            Place(Lift(m, id), id, m.tiles[id].(width := width, height := height))
  {
    hide Tiled, Rewritten, Filled;
    var resized := m.tiles[id].(width := width, height := height);
    forall c ensures var cells := ResizedCells(m, id, width, height);
                     var wanted := Place(Lift(m, id), id, resized).cells;
                     (c in cells <==> c in wanted) && (c in cells ==> cells[c] == wanted[c]) {
      ResizedCell(m, id, width, height, c);
    }
    SameCells(ResizedCells(m, id, width, height), Place(Lift(m, id), id, resized).cells);
    assert m.tiles[id := resized] == (m.tiles - {id})[id := resized];
  }

  lemma ResizeIsFree(m: TileMap, l: Location, width: nat, height: nat)
    requires Tiled(m)
    requires Resize(m, l, width, height).ok
    requires FitsGrid(m.At(l).(width := width, height := height))
    ensures TileOk(m.At(l).(width := width, height := height))
    ensures Free(Lift(m, m.cells[l]), m.At(l).(width := width, height := height))
  {
    ResizeAreas(m.At(l), width, height);
  }

  lemma TornOffBreaksTiling(m: TileMap, id: Id, width: nat, height: nat, c: Location)
    requires Tiled(m)
    requires id in m.tiles
    requires TornOff(m, id, width, height, c)
    ensures !Tiled(Resized(m, id, width, height))
  {
    var m' := Resized(m, id, width, height);
    var u := m.cells[c];
    assert u in m'.tiles && m'.tiles[u] == m.tiles[u] && Covers(m'.tiles[u], c);
    assert c !in m'.cells;
  }

  lemma NotTiled(m: TileMap, id: Id)
    requires id in m.tiles && !TileOk(m.tiles[id])
    ensures !Tiled(m)
  {
  }

  // resize_tile keeps the board tiled exactly if the new end coordinates fit sixteen bits
  // and no other tile has a cell in the corner outside both footprints.
  lemma ResizeKeepsTiled(m: TileMap, l: Location, width: nat, height: nat)
    requires Tiled(m)
    ensures Tiled(Resize(m, l, width, height).result) <==>
            (CanResize(m, l, width, height) ==>
               FitsGrid(m.At(l).(width := width, height := height)) &&
               forall c :: !TornOff(m, m.cells[l], width, height, c))
  {
    hide Tiled, CanResize, ResizedCells;
    TiledCells(m);
    ResizeSucceedsIff(m, l, width, height);
    if Resize(m, l, width, height).ok {
      var id, resized := m.cells[l], m.At(l).(width := width, height := height);
      if !FitsGrid(resized) {
        NotTiled(Resized(m, id, width, height), id);
      } else if c :| TornOff(m, id, width, height, c) {
        TornOffBreaksTiling(m, id, width, height, c);
      } else {
        ResizedMap(m, id, width, height);
        ResizeIsFree(m, l, width, height);
        LiftTiled(m, id);
        PlaceTiled(Lift(m, id), id, resized);
      }
    }
  }

  // resize_tile that succeeds changes nothing but the size of the tile. The cells inside the
  // new size become the tile's, and the others keep the tile they had unless that was the
  // tile itself or they are torn off. A size that does not fit sixteen bits changes no cell.
  lemma ResizeEffect(m: TileMap, l: Location, width: nat, height: nat)
    requires Tiled(m)
    requires CanResize(m, l, width, height)
    ensures var o, id := Resize(m, l, width, height), m.cells[l];
      var resized := m.tiles[id].(width := width, height := height);
      && o.ok && o.touched
      && o.result.tiles == m.tiles[id := resized]
      && o.events == [Changed(id, resized)]
      && (!FitsGrid(resized) ==> o.result.cells == m.cells)
      && (FitsGrid(resized) ==>
            forall c ::
              && (Holds(o.result, c, id) <==> Covers(resized, c))
              && forall u :: u != id ==>
                   (Holds(o.result, c, u) <==> Holds(m, c, u) && !TornOff(m, id, width, height, c)))
  {
    hide Tiled, AreaOf;
    TiledCells(m);
    TiledTile(m, l);
    ResizeSucceedsIff(m, l, width, height);
    var id := m.cells[l];
    var resized := m.tiles[id].(width := width, height := height);
    if FitsGrid(resized) {
      var after := Resized(m, id, width, height);
      forall c
        ensures Holds(after, c, id) <==> Covers(resized, c)
        ensures forall u :: u != id ==> (Holds(after, c, u) <==> Holds(m, c, u) && !TornOff(m, id, width, height, c))
      {
        ResizedOwner(m, id, width, height, c);
      }
    } else {
      NoResizeArea(m.tiles[id], width, height);
      assert m.cells - {} == m.cells;
    }
  }

  // Whose the cell is after the resize.
  ghost predicate ResizedAt(m: TileMap, id: Id, width: nat, height: nat, c: Location)
    requires id in m.tiles
  {
    var after := Resized(m, id, width, height);
    && (Holds(after, c, id) <==> Covers(m.tiles[id].(width := width, height := height), c))
    && forall u :: u != id ==> (Holds(after, c, u) <==> Holds(m, c, u) && !TornOff(m, id, width, height, c))
  }

  lemma ResizedOwner(m: TileMap, id: Id, width: nat, height: nat, c: Location)
    requires Tiled(m)
    requires id in m.tiles
    requires var resized := m.tiles[id].(width := width, height := height);
      FitsGrid(resized) && HasPlace(m, id, resized)
    ensures ResizedAt(m, id, width, height, c)
  {
    ResizeAreas(m.tiles[id], width, height);
    forall u | u != id && Holds(m, c, u) ensures Covers(m.tiles[u], c) {
    }
  }

  lemma NoResizeArea(t: Tile, width: nat, height: nat)
    requires TileOk(t) && width <= SIZE_LIMIT && height <= SIZE_LIMIT
    requires !FitsGrid(t.(width := width, height := height))
    ensures ResizeArea(t, width, height) == {}
  {
  }

  // A tile takes on the state it is given, and tells it if it is another one; nothing else
  // changes, and links need not be rebuilt.
  lemma ReserveEffect(m: TileMap, id: Id, state: nat)
    requires Tiled(m)
    requires id in m.tiles
    ensures var o := Reserve(m, id, state);
      && o.ok && !o.touched && o.result.cells == m.cells && o.result.tiles.Keys == m.tiles.Keys
      && var t, t' := m.tiles[id], o.result.tiles[id];
      && t'.reserved == state && t' == t.(reserved := state)
      && (forall u :: u in m.tiles && u != id ==> o.result.tiles[u] == m.tiles[u])
      && o.events == (if t.reserved == state then [] else [Changed(id, t')])
  {
    var t := m.tiles[id];
    assert t.reserved == state ==> t.(reserved := state) == t;
  }

  lemma ReserveKeepsTiled(m: TileMap, id: Id, state: nat)
    requires Tiled(m)
    requires id in m.tiles
    ensures Tiled(Reserve(m, id, state).result)
  {
    var o := Reserve(m, id, state);
    forall l ensures Covers(m.tiles[id].(reserved := state), l) <==> Covers(m.tiles[id], l) {
    }
  }
}
