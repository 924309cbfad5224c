// A client's copy of a board: the data of each tile at its origin, and the objects of the
// active tiles. The events of every operation bring it from the old board to the new one.
//
// client/src/network/board.cpp, client/src/network/board.hpp

module Replicas {
  import opened Tiles
  import opened TileMaps
  import opened Operations

  datatype Replica = Replica(data: map<Location, TileData>, objects: map<Location, Id>)

  const EMPTY_REPLICA := Replica(map[], map[])

  ghost predicate IsOrigin(m: TileMap, l: Location) {
    l in m.cells && m.cells[l] in m.tiles && m.At(l).Origin() == l
  }

  ghost predicate SizesOk(tiles: map<Id, Tile>) {
    forall id :: id in tiles ==> 1 <= tiles[id].width && 1 <= tiles[id].height
  }

  // The copy a client should have of a board.
  ghost function Project(m: TileMap): Replica
    requires SizesOk(m.tiles)
  {
    var data := map l | l in m.cells && IsOrigin(m, l) :: DataOf(m.At(l));
    var objects := map l | l in m.cells && IsOrigin(m, l) && IsActive(m.At(l).id) :: m.cells[l];
    Replica(data, objects)
  }

  // BoardTileDataChanged
  function Apply(r: Replica, e: TileEvent): Replica {
    Replica(if e.data.id == TileId.None then r.data - {e.location} else r.data[e.location := e.data],
            if IsActive(e.data.id) then r.objects[e.location := e.tile] else r.objects - {e.location})
  }

  function ApplyAll(r: Replica, events: seq<TileEvent>): Replica
    decreases |events|
  {
    if events == [] then r else ApplyAll(Apply(r, events[0]), events[1..])
  }

  lemma {:induction false} ApplyAllConcat(r: Replica, a: seq<TileEvent>, b: seq<TileEvent>)
    ensures ApplyAll(r, a + b) == ApplyAll(ApplyAll(r, a), b)
    decreases |a|
  {
    if a == [] {
      assert a + b == b;
    } else {
      assert (a + b)[0] == a[0] && (a + b)[1..] == a[1..] + b;
      ApplyAllConcat(Apply(r, a[0]), a[1..], b);
    }
  }

  lemma ApplyOne(r: Replica, e: TileEvent)
    ensures ApplyAll(r, [e]) == Apply(r, e)
  {
    assert [e][1..] == [];
  }

  // ---- single steps ----

  lemma OriginOf(m: TileMap, id: Id)
    requires Tiled(m)
    requires id in m.tiles
    ensures IsOrigin(m, m.tiles[id].Origin()) && m.cells[m.tiles[id].Origin()] == id
  {
    assert Covers(m.tiles[id], m.tiles[id].Origin());
  }

  lemma LiftOrigins(m: TileMap, id: Id, l: Location)
    requires Tiled(m)
    requires id in m.tiles
    ensures IsOrigin(Lift(m, id), l) <==> IsOrigin(m, l) && l != m.tiles[id].Origin()
    ensures IsOrigin(Lift(m, id), l) ==> Lift(m, id).cells[l] == m.cells[l] && Lift(m, id).At(l) == m.At(l)
  {
    OriginOf(m, id);
  }

  ghost predicate SameAt(a: Replica, b: Replica, l: Location) {
    && (l in a.data <==> l in b.data) && (l in a.data ==> a.data[l] == b.data[l])
    && (l in a.objects <==> l in b.objects) && (l in a.objects ==> a.objects[l] == b.objects[l])
  }

  lemma SameEverywhere(a: Replica, b: Replica)
    requires forall l :: SameAt(a, b, l)
    ensures a == b
  {
    assert forall l :: l in a.data ==> SameAt(a, b, l);
    assert forall l :: l in b.data ==> SameAt(a, b, l);
    assert forall l :: l in a.objects ==> SameAt(a, b, l);
    assert forall l :: l in b.objects ==> SameAt(a, b, l);
    assert a.data == b.data;
    assert a.objects == b.objects;
  }

  lemma LiftRefines(m: TileMap, id: Id)
    requires Tiled(m)
    requires id in m.tiles
    ensures Apply(Project(m), Removed(m.tiles[id].Origin())) == Project(Lift(m, id))
  {
    var a, b := Apply(Project(m), Removed(m.tiles[id].Origin())), Project(Lift(m, id));
    forall l ensures SameAt(a, b, l) {
      LiftOrigins(m, id, l);
    }
    SameEverywhere(a, b);
  }

  lemma PlaceOrigins(m: TileMap, id: Id, t: Tile, l: Location)
    requires Tiled(m)
    requires id !in m.tiles
    requires Free(m, t)
    requires TileOk(t)
    ensures IsOrigin(Place(m, id, t), l) <==> IsOrigin(m, l) || l == t.Origin()
    ensures l == t.Origin() ==> Place(m, id, t).cells[l] == id && Place(m, id, t).At(l) == t
    ensures IsOrigin(m, l) ==> l != t.Origin() && Place(m, id, t).cells[l] == m.cells[l] && Place(m, id, t).At(l) == m.At(l)
  {
    assert Covers(t, t.Origin());
  }

  lemma PlaceRefines(m: TileMap, id: Id, t: Tile)
    requires Tiled(m)
    requires id !in m.tiles
    requires Free(m, t)
    requires TileOk(t)
    ensures TilesOk(Place(m, id, t).tiles)
    ensures Apply(Project(m), Changed(id, t)) == Project(Place(m, id, t))
  {
    var a, b := Apply(Project(m), Changed(id, t)), Project(Place(m, id, t));
    forall l ensures SameAt(a, b, l) {
      PlaceOrigins(m, id, t, l);
    }
    SameEverywhere(a, b);
  }

  // ---- the operations ----

  // The events of an operation turn the copy of the old board into one of the new board.
  ghost predicate Refines(m: TileMap, o: Outcome)
    requires SizesOk(m.tiles) && SizesOk(o.result.tiles)
  {
    ApplyAll(Project(m), o.events) == Project(o.result)
  }

  lemma DeleteRefines(m: TileMap, l: Location)
    requires Tiled(m)
    ensures Refines(m, Delete(m, l))
  {
    if l in m.cells {
      LiftRefines(m, m.cells[l]);
      ApplyOne(Project(m), Removed(m.At(l).Origin()));
    }
  }

  lemma {:induction false} ClearFromRefines(m: TileMap, id: Id, x: int, x2: int, y: int, y1: int, y2: int)
    requires Tiled(m)
    requires y1 <= y
    ensures var (m', events) := ClearFrom(m, id, x, x2, y, y1, y2);
      ApplyAll(Project(m), events) == Project(m')
    decreases x2 - x, y2 - y
  {
    if x < x2 {
      if y >= y2 {
        ClearFromRefines(m, id, x + 1, x2, y1, y1, y2);
      } else if Obstructs(m, id, Location(x, y)) {
        var d := Delete(m, Location(x, y));
        DeleteKeepsTiled(m, Location(x, y));
        DeleteRefines(m, Location(x, y));
        ClearFromRefines(d.result, id, x, x2, y + 1, y1, y2);
        ApplyAllConcat(Project(m), d.events, ClearFrom(d.result, id, x, x2, y + 1, y1, y2).1);
      } else {
        ClearFromRefines(m, id, x, x2, y + 1, y1, y2);
      }
    }
  }

  lemma TiledSizes(m: TileMap)
    requires Tiled(m)
    ensures SizesOk(m.tiles)
  {
  }

  lemma ClearRefines(m: TileMap, id: Id, goal: Tile)
    requires Tiled(m)
    ensures ApplyAll(Project(m), Clear(m, id, goal).1) == Project(Clear(m, id, goal).0)
  {
    hide Tiled, ClearFrom;
    TiledSizes(m);
    TiledSizes(Clear(m, id, goal).0);
    ClearFromRefines(m, id, goal.x, Narrow(goal.x + goal.width), goal.y, goal.y, Narrow(goal.y + goal.height));
  }

  lemma TargetIsFreeFor(m: TileMap, id: Id, goal: Tile)
    requires Tiled(m)
    requires id in m.tiles
    requires TileOk(goal)
    ensures var rest := Lift(Clear(m, id, goal).0, id);
      Tiled(rest) && id !in rest.tiles && Free(rest, goal)
  {
    TargetIsFree(m, id, goal);
  }

  lemma ReplaceRefines(m: TileMap, id: Id, t: Tile)
    requires Tiled(m)
    requires id in m.tiles
    requires Tiled(Lift(m, id)) && Free(Lift(m, id), t) && TileOk(t)
    ensures SizesOk(Place(Lift(m, id), id, t).tiles)
    ensures Apply(Apply(Project(m), Removed(m.tiles[id].Origin())), Changed(id, t)) == Project(Place(Lift(m, id), id, t))
  {
    LiftRefines(m, id);
    PlaceRefines(Lift(m, id), id, t);
  }

  lemma ClearThenPlaceRefines(m: TileMap, id: Id, goal: Tile)
    requires Tiled(m)
    requires id in m.tiles
    requires TileOk(goal)
    ensures var (cleared, events) := Clear(m, id, goal);
      && SizesOk(Place(Lift(cleared, id), id, goal).tiles)
      && ApplyAll(Project(m), events + [Removed(m.tiles[id].Origin()), Changed(id, goal)]) ==
         Project(Place(Lift(cleared, id), id, goal))
  {
    var (cleared, events) := Clear(m, id, goal);
    ClearRefines(m, id, goal);
    MovedEvents(Project(m), events, Removed(m.tiles[id].Origin()), Changed(id, goal));
    TargetIsFreeFor(m, id, goal);
    ReplaceRefines(cleared, id, goal);
  }

  lemma MoveRefines(m: TileMap, from: Location, to: Location, rotate: Rotation, replace: bool)
    requires Tiled(m)
    requires CanMove(m, from, to, rotate, replace) ==> FitsGrid(Shifted(m.At(from), from, to, rotate))
    ensures Tiled(Move(m, from, to, rotate, replace).result)
    ensures Refines(m, Move(m, from, to, rotate, replace))
  {
    var o := Move(m, from, to, rotate, replace);
    MoveSucceedsIff(m, from, to, rotate, replace);
    MoveKeepsTiled(m, from, to, rotate, replace);
    if o.ok {
      var id := m.cells[from];
      TiledTile(m, from);
      TileOnCell(m, from, id);
      GoalIsShifted(m.tiles[id], from, to, rotate);
      GoalOk(m.tiles[id], from, to, rotate);
      ClearThenPlaceRefines(m, id, Shifted(m.tiles[id], from, to, rotate));
    }
  }

  lemma MovedEvents(r: Replica, events: seq<TileEvent>, a: TileEvent, b: TileEvent)
    ensures ApplyAll(r, events + [a, b]) == Apply(Apply(ApplyAll(r, events), a), b)
  {
    var r' := ApplyAll(r, events);
    ApplyAllConcat(r, events, [a, b]);
    assert [a, b][1..] == [b];
    assert ApplyAll(r', [a, b]) == ApplyAll(Apply(r', a), [b]);
    ApplyOne(Apply(r', a), b);
  }

  lemma PlaceAfterRefines(m: TileMap, o: Outcome, id: Id, t: Tile)
    requires Tiled(m) && Tiled(o.result)
    requires id !in o.result.tiles
    requires Free(o.result, t) && TileOk(t)
    requires Refines(m, o)
    ensures SizesOk(Place(o.result, id, t).tiles)
    ensures Refines(m, Outcome(Place(o.result, id, t), true, o.events + [Changed(id, t)], true))
  {
    PlaceRefines(o.result, id, t);
    ApplyAllConcat(Project(m), o.events, [Changed(id, t)]);
    ApplyOne(Project(o.result), Changed(id, t));
  }

  lemma NewTileOk(m: TileMap, l: Location, tileClass: TileId, rotate: Rotation)
    requires IsInt16(l) && OnGrid(l)
    requires tileClass != TileId.None
    requires l !in m.cells
    ensures TileOk(NewTile(tileClass, l.x, l.y, rotate))
    ensures Free(m, NewTile(tileClass, l.x, l.y, rotate))
  {
    var t := NewTile(tileClass, l.x, l.y, rotate);
    assert t.x == l.x && t.y == l.y && t.width == 1 && t.height == 1;
    forall c | Covers(t, c) ensures c == l {
    }
  }

  lemma CreateRefines(m: TileMap, o: Outcome, newId: Id, l: Location, tileClass: TileId, rotate: Rotation)
    requires Tiled(m) && Tiled(o.result)
    requires newId !in o.result.tiles
    requires l !in o.result.cells
    requires IsInt16(l) && OnGrid(l)
    requires Refines(m, o)
    ensures Tiled(Create(o, newId, l, tileClass, rotate).result)
    ensures Refines(m, Create(o, newId, l, tileClass, rotate))
  {
    CreateKeepsTiled(o, newId, l, tileClass, rotate);
    if tileClass != TileId.None {
      NewTileOk(o.result, l, tileClass, rotate);
      PlaceAfterRefines(m, o, newId, NewTile(tileClass, l.x, l.y, rotate));
    }
  }

  lemma NothingRefines(m: TileMap)
    requires Tiled(m)
    ensures SizesOk(m.tiles) && Refines(m, Outcome(m, true, [], false))
  {
  }

  // Whether an add that fails has already deleted the tile that was there: exactly if there
  // was one that was to be replaced, or that what was added could be merged with.
  predicate DeletesFirst(m: TileMap, l: Location, rotate: Rotation, tileClass: TileId, replace: bool)
    requires Tiled(m)
  {
    l in m.cells && (replace || Mergeable(m.At(l), tileClass, rotate))
  }

  lemma FailedAdd(m: TileMap, newId: Id, l: Location, rotate: Rotation, tileClass: TileId, replace: bool)
    requires Tiled(m)
    requires !Add(m, newId, l, rotate, tileClass, replace).ok
    ensures var deletes := DeletesFirst(m, l, rotate, tileClass, replace);
      && (deletes ==> l in m.cells)
      && Add(m, newId, l, rotate, tileClass, replace) ==
         if deletes then Delete(m, l).(ok := false) else Outcome(m, false, [], false)
  {
    hide Tiled, Delete, Place, Merged, Mergeable, Becomes, InLimits, NewTile;
    TiledCells(m);
    if l in m.cells {
      MergesIff(m.At(l), tileClass, rotate);
    }
  }

  // add_tile is not atomic: one that fails leaves the board as it is if and only if it has
  // not come to deleting the tile that was there.
  lemma FailedAddRefines(m: TileMap, newId: Id, l: Location, rotate: Rotation, tileClass: TileId, replace: bool)
    requires Tiled(m)
    requires !Add(m, newId, l, rotate, tileClass, replace).ok
    ensures var o, deletes := Add(m, newId, l, rotate, tileClass, replace), DeletesFirst(m, l, rotate, tileClass, replace);
      && o == (if deletes then Delete(m, l).(ok := false) else Outcome(m, false, [], false))
      && (o.result == m <==> !deletes)
      && Tiled(o.result)
      && Refines(m, o)
  {
    hide Tiled, Project, ApplyAll, Delete, Add, DeletesFirst;
    TiledSizes(m);
    FailedAdd(m, newId, l, rotate, tileClass, replace);
    DeleteKeepsTiled(m, l);
    DeleteRefines(m, l);
    DeleteFrees(m, l);
    NoEvents(Project(m));
  }

  lemma NoEvents(r: Replica)
    ensures ApplyAll(r, []) == r
  {
  }

  lemma AddRefines(m: TileMap, newId: Id, l: Location, rotate: Rotation, tileClass: TileId, replace: bool)
    requires Tiled(m)
    requires newId !in m.tiles
    requires IsInt16(l)
    requires CanAdd(m, l, rotate, tileClass, replace) ==> OnGrid(l)
    ensures Tiled(Add(m, newId, l, rotate, tileClass, replace).result)
    ensures Refines(m, Add(m, newId, l, rotate, tileClass, replace))
  {
    hide Tiled, CanAdd, Refines, Create, Delete, Merged;
    TiledSizes(m);
    TiledCells(m);
    AddSucceedsIff(m, newId, l, rotate, tileClass, replace);
    AddKeepsTiled(m, newId, l, rotate, tileClass, replace);
    DeleteKeepsTiled(m, l);
    DeleteRefines(m, l);
    DeleteFrees(m, l);
    NothingRefines(m);
    if !Add(m, newId, l, rotate, tileClass, replace).ok {
      FailedAddRefines(m, newId, l, rotate, tileClass, replace);
    } else if l !in m.cells {
      CreateRefines(m, Outcome(m, true, [], false), newId, l, tileClass, rotate);
    } else if replace {
      CreateRefines(m, Delete(m, l), newId, l, tileClass, rotate);
    } else {
      var merged := Merged(m.At(l), tileClass, rotate);
      if merged.Some? {
        CreateRefines(m, Delete(m, l), newId, l, merged.value.0, merged.value.1);
      }
    }
  }

  // An event overwrites whatever was known about its location.
  lemma ApplyOverwrites(r: Replica, l: Location, e: TileEvent)
    requires e.location == l
    ensures Apply(Apply(r, Removed(l)), e) == Apply(r, e)
  {
    var a, b := Apply(Apply(r, Removed(l)), e), Apply(r, e);
    assert a.data == b.data;
    assert a.objects == b.objects;
  }

  lemma ResizeRefines(m: TileMap, l: Location, width: nat, height: nat)
    requires Tiled(m)
    requires Tiled(Resize(m, l, width, height).result)
    ensures Refines(m, Resize(m, l, width, height))
  {
    hide Tiled, CanResize, TornOff, Project, ApplyAll, Resized, Free;
    TiledSizes(m);
    ResizeSucceedsIff(m, l, width, height);
    NothingRefines(m);
    if CanResize(m, l, width, height) {
      ResizeFound(m, l, width, height);
      var id, resized := m.cells[l], m.At(l).(width := width, height := height);
      ResizeKeepsTiled(m, l, width, height);
      ResizedMap(m, id, width, height);
      ResizeIsFree(m, l, width, height);
      LiftTiled(m, id);
      LiftRefines(m, id);
      PlaceRefines(Lift(m, id), id, resized);
      ApplyOverwrites(Project(m), l, Changed(id, resized));
      ApplyOne(Project(m), Changed(id, resized));
    }
  }

  lemma ReservedOrigins(m: TileMap, id: Id, state: nat, l: Location)
    requires Tiled(m)
    requires id in m.tiles
    ensures var t := m.tiles[id].(reserved := state);
      var n := TileMap(m.cells, m.tiles[id := t]);
      && Tiled(n)
      && (IsOrigin(n, l) <==> IsOrigin(m, l))
      && (IsOrigin(m, l) ==> n.At(l) == if l == t.Origin() then t else m.At(l))
      && IsOrigin(m, t.Origin()) && m.cells[t.Origin()] == id
  {
    OriginOf(m, id);
    ReserveKeepsTiled(m, id, state);
  }

  lemma ReservedSameAt(m: TileMap, id: Id, state: nat, l: Location)
    requires Tiled(m)
    requires id in m.tiles
    ensures var t := m.tiles[id].(reserved := state);
      var n := TileMap(m.cells, m.tiles[id := t]);
      SizesOk(n.tiles) && SameAt(Apply(Project(m), Changed(id, t)), Project(n), l)
  {
    ReservedOrigins(m, id, state, l);
  }

  lemma ReservedProjection(m: TileMap, id: Id, state: nat)
    requires Tiled(m)
    requires id in m.tiles
    ensures var t := m.tiles[id].(reserved := state);
      var n := TileMap(m.cells, m.tiles[id := t]);
      SizesOk(n.tiles) && Apply(Project(m), Changed(id, t)) == Project(n)
  {
    hide Tiled, DataOf, SameAt, Apply, Project;
    var t := m.tiles[id].(reserved := state);
    var n := TileMap(m.cells, m.tiles[id := t]);
    TiledSizes(m);
    forall l ensures SameAt(Apply(Project(m), Changed(id, t)), Project(n), l) {
      ReservedSameAt(m, id, state, l);
    }
    SameEverywhere(Apply(Project(m), Changed(id, t)), Project(n));
  }

  lemma ReserveRefines(m: TileMap, id: Id, state: nat)
    requires Tiled(m)
    requires id in m.tiles
    ensures Tiled(Reserve(m, id, state).result)
    ensures Refines(m, Reserve(m, id, state))
  {
    hide Tiled, Project, DataOf;
    TiledSizes(m);
    ReserveKeepsTiled(m, id, state);
    if m.tiles[id].reserved != state {
      var t := m.tiles[id].(reserved := state);
      ReservedProjection(m, id, state);
      ApplyOne(Project(m), Changed(id, t));
    }
  }
}
