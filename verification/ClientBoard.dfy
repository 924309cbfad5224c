// The client's board: how it takes in the tile data the server sends, and how it answers
// which tile covers a cell.
//
// client/src/network/board.cpp, server/src/network/session.cpp: BoardGetTileData

module ClientBoards {
  import opened Wrappers
  import opened Tiles
  import opened TileMaps
  import opened Operations
  import opened Replicas
  import opened ServerBoard

  // ---- the response to a request for all tile data ----

  // One tile of a response: what is known already is not overwritten.
  function EmplaceOne(r: Replica, e: TileEvent): Replica {
    Replica(if e.location in r.data then r.data else r.data[e.location := e.data],
            if IsActive(e.data.id) && e.location !in r.objects then r.objects[e.location := e.tile] else r.objects)
  }

  function EmplaceAll(r: Replica, entries: seq<TileEvent>): Replica
    decreases |entries|
  {
    if entries == [] then r else EmplaceAll(EmplaceOne(r, entries[0]), entries[1..])
  }

  // The entry is what a copy holds at its location.
  ghost predicate EntryOf(e: TileEvent, copy: Replica) {
    && e.location in copy.data && copy.data[e.location] == e.data
    && (IsActive(e.data.id) <==> e.location in copy.objects)
    && (e.location in copy.objects ==> copy.objects[e.location] == e.tile)
  }

  predicate Mentions(entries: seq<TileEvent>, l: Location) {
    exists i :: 0 <= i < |entries| && entries[i].location == l
  }

  // The entries are those of a copy, in any order.
  ghost predicate ListsCopy(entries: seq<TileEvent>, copy: Replica) {
    && (forall i :: 0 <= i < |entries| ==> EntryOf(entries[i], copy))
    && (forall l :: l in copy.data || l in copy.objects ==> Mentions(entries, l))
  }

  // Two copies put together; where both know something the first one wins.
  function Emplace(r: Replica, copy: Replica): Replica {
    Replica(copy.data + r.data, copy.objects + r.objects)
  }

  lemma {:induction false} EmplaceAllAt(r: Replica, entries: seq<TileEvent>, copy: Replica, l: Location)
    requires forall i :: 0 <= i < |entries| ==> EntryOf(entries[i], copy)
    ensures var all := EmplaceAll(r, entries);
      && (l in all.data <==> l in r.data || Mentions(entries, l))
      && (Mentions(entries, l) ==> l in copy.data)
      && (l in all.data ==> all.data[l] == if l in r.data then r.data[l] else copy.data[l])
      && (l in all.objects <==> l in r.objects || (Mentions(entries, l) && l in copy.objects))
      && (l in all.objects ==> all.objects[l] == if l in r.objects then r.objects[l] else copy.objects[l])
    decreases |entries|
  {
    if entries != [] {
      var e, rest := entries[0], entries[1..];
      EmplaceAllAt(EmplaceOne(r, e), rest, copy, l);
      assert Mentions(entries, l) <==> e.location == l || Mentions(rest, l) by {
        if Mentions(rest, l) {
          var i :| 0 <= i < |rest| && rest[i].location == l;
          assert entries[i + 1].location == l;
        }
      }
      assert EntryOf(e, copy);
    }
  }

  lemma EmplaceAllIsEmplace(r: Replica, entries: seq<TileEvent>, copy: Replica)
    requires ListsCopy(entries, copy)
    ensures EmplaceAll(r, entries) == Emplace(r, copy)
  {
    forall l ensures SameAt(EmplaceAll(r, entries), Emplace(r, copy), l) {
      EmplaceAllAt(r, entries, copy, l);
    }
    SameEverywhere(EmplaceAll(r, entries), Emplace(r, copy));
  }

  // What r knows about a location is what the copy knows.
  ghost predicate PartAt(r: Replica, copy: Replica, l: Location) {
    && (l in r.data ==> l in copy.data && r.data[l] == copy.data[l])
    && (l in r.objects ==> l in copy.objects && r.objects[l] == copy.objects[l])
  }

  // Because nothing is overwritten, a response makes a location right if and only if what
  // the client knew about it, if anything, was right already.
  lemma EmplaceRightIff(r: Replica, copy: Replica, l: Location)
    ensures SameAt(Emplace(r, copy), copy, l) <==> PartAt(r, copy, l)
  {
  }

  // ---- which tile covers a cell ----

  predicate DataCovers(data: map<Location, TileData>, o: Location, l: Location) {
    && o in data
    && o.x <= l.x < o.x + data[o].Width()
    && o.y <= l.y < o.y + data[o].Height()
  }

  // In the copy of a tiled board, the data that covers a cell is that of the tile on it.
  lemma CoveringData(m: TileMap, o: Location, l: Location)
    requires Tiled(m)
    ensures DataCovers(Project(m).data, o, l) <==> l in m.cells && o == m.At(l).Origin()
  {
    if o in Project(m).data {
      var t := m.At(o);
      assert Covers(t, l) <==> DataCovers(Project(m).data, o, l);
    }
    if l in m.cells {
      OriginOf(m, m.cells[l]);
    }
  }

  function Find(objects: map<Location, Id>, l: Location): Option<Id> {
    if l in objects then Some(objects[l]) else Option.None
  }

  class Board {
    var tileData: map<Location, TileData>
    var tileObjects: map<Location, Id>

    ghost function State(): Replica
      reads this
    {
      Replica(tileData, tileObjects)
    }

    constructor ()
      ensures State() == EMPTY_REPLICA
    {
      tileData, tileObjects := map[], map[];
    }

    // Every tile of the server's board, whatever the client knows already.
    method GetTileDataResponse(entries: seq<TileEvent>)
      modifies this
      ensures State() == EmplaceAll(old(State()), entries)
      ensures forall copy :: ListsCopy(entries, copy) ==> State() == Emplace(old(State()), copy)
    {
      for i := 0 to |entries|
        invariant EmplaceAll(State(), entries[i..]) == EmplaceAll(old(State()), entries)
      {
        var e := entries[i];
        assert entries[i..][0] == e && entries[i..][1..] == entries[i + 1..];
        if e.location !in tileData {
          tileData := tileData[e.location := e.data];
        }
        if IsActive(e.data.id) && e.location !in tileObjects {
          tileObjects := tileObjects[e.location := e.tile];
        }
      }
      forall copy | ListsCopy(entries, copy) ensures EmplaceAll(old(State()), entries) == Emplace(old(State()), copy) {
        EmplaceAllIsEmplace(old(State()), entries, copy);
      }
    }

    method ProcessMessage(message: TileEvent)
      modifies this
      ensures State() == Apply(old(State()), message)
    {
      var l, data := message.location, message.data;
      if data.id == TileId.None {
        if l in tileData {
          tileData := tileData - {l};
        }
      } else {
        tileData := tileData[l := data];
      }
      if !IsActive(data.id) {
        if l in tileObjects {
          tileObjects := tileObjects - {l};
        }
      } else {
        tileObjects := tileObjects[l := message.tile];
      }
    }

    // The origin of the tile that covers l, or l itself if there is none.
    method GetTileOrigin(l: Location) returns (found: bool, origin: Location)
      ensures found <==> exists o :: DataCovers(tileData, o, l)
      ensures if found then DataCovers(tileData, origin, l) else origin == l
      ensures forall m :: Tiled(m) && tileData == Project(m).data ==>
        (found <==> l in m.cells) && (found ==> origin == m.At(l).Origin())
    {
      if l in tileData {
        assert DataCovers(tileData, l, l);
        found, origin := true, l;
      } else {
        found, origin := FindCovering(l);
      }
      forall m | Tiled(m) && tileData == Project(m).data
        ensures (found <==> l in m.cells) && (found ==> origin == m.At(l).Origin())
      {
        CoveringTile(m, l, found, origin);
      }
    }

    // The scan over all tiles, in whatever order they come.
    method FindCovering(l: Location) returns (found: bool, origin: Location)
      ensures found <==> exists o :: DataCovers(tileData, o, l)
      ensures if found then DataCovers(tileData, origin, l) else origin == l
    {
      var rest := tileData.Keys;
      while rest != {}
        invariant rest <= tileData.Keys
        invariant forall o :: o in tileData && o !in rest ==> !DataCovers(tileData, o, l)
        decreases rest
      {
        var o :| o in rest;
        rest := rest - {o};
        if o.x <= l.x < o.x + tileData[o].Width() && o.y <= l.y < o.y + tileData[o].Height() {
          assert DataCovers(tileData, o, l);
          return true, o;
        }
      }
      return false, l;
    }

    method GetTileId(l: Location) returns (id: TileId)
      ensures forall m :: Tiled(m) && tileData == Project(m).data ==>
        id == if l in m.cells then m.At(l).id else TileId.None
    {
      var found, origin := true, l;
      if l !in tileData {
        found, origin := FindCovering(l);
      } else {
        assert DataCovers(tileData, l, l);
      }
      id := if found then tileData[origin].id else TileId.None;
      forall m | Tiled(m) && tileData == Project(m).data
        ensures id == if l in m.cells then m.At(l).id else TileId.None
      {
        CoveringTile(m, l, found, origin);
      }
    }

    // The scan does not stop at the first tile that covers l.
    method GetTileObject(l: Location) returns (tile: Option<Id>)
      ensures l in tileObjects ==> tile == Some(tileObjects[l])
      ensures l !in tileObjects ==>
        (tile == Option.None && forall o :: !DataCovers(tileData, o, l)) ||
        (exists o :: DataCovers(tileData, o, l) && tile == Find(tileObjects, o))
      ensures forall m :: Tiled(m) && State() == Project(m) ==>
        tile == if l in m.cells && IsActive(m.At(l).id) then Some(m.cells[l]) else Option.None
    {
      tile := Find(tileObjects, l);
      if tile.None? {
        var rest := tileData.Keys;
        while rest != {}
          invariant rest <= tileData.Keys
          invariant (tile == Option.None && forall o :: o in tileData && o !in rest ==> !DataCovers(tileData, o, l)) ||
                    (exists o :: DataCovers(tileData, o, l) && tile == Find(tileObjects, o))
          decreases rest
        {
          var o :| o in rest;
          rest := rest - {o};
          if o.x <= l.x < o.x + tileData[o].Width() && o.y <= l.y < o.y + tileData[o].Height() {
            assert DataCovers(tileData, o, l);
            tile := Find(tileObjects, o);
          }
        }
      }
      forall m | Tiled(m) && State() == Project(m)
        ensures tile == if l in m.cells && IsActive(m.At(l).id) then Some(m.cells[l]) else Option.None
      {
        CoveringObject(m, l);
      }
    }
  }

  lemma CoveringTile(m: TileMap, l: Location, found: bool, origin: Location)
    requires Tiled(m)
    requires found <==> exists o :: DataCovers(Project(m).data, o, l)
    requires found ==> DataCovers(Project(m).data, origin, l)
    ensures found <==> l in m.cells
    ensures found ==> origin == m.At(l).Origin() && origin in Project(m).data && Project(m).data[origin].id == m.At(l).id
  {
    if l in m.cells {
      CoveringData(m, m.At(l).Origin(), l);
      OriginOf(m, m.cells[l]);
    }
    if found {
      CoveringData(m, origin, l);
    }
  }

  lemma CoveringObject(m: TileMap, l: Location)
    requires Tiled(m)
    ensures forall o :: DataCovers(Project(m).data, o, l) ==>
              l in m.cells &&
              Find(Project(m).objects, o) == if IsActive(m.At(l).id) then Some(m.cells[l]) else Option.None
    ensures l in m.cells ==> exists o :: DataCovers(Project(m).data, o, l)
    ensures l in Project(m).objects ==>
              l in m.cells && IsActive(m.At(l).id) && Project(m).objects[l] == m.cells[l]
  {
    if l in m.cells {
      OriginOf(m, m.cells[l]);
      CoveringData(m, m.At(l).Origin(), l);
    }
    forall o | DataCovers(Project(m).data, o, l)
      ensures l in m.cells &&
              Find(Project(m).objects, o) == if IsActive(m.At(l).id) then Some(m.cells[l]) else Option.None
    {
      CoveringData(m, o, l);
    }
  }

  // ---- the server's side of the request ----

  // The entry for the tile whose origin is l.
  function EntryAt(m: TileMap, l: Location): TileEvent
    requires l in m.cells && m.cells[l] in m.tiles
    requires 1 <= m.At(l).width && 1 <= m.At(l).height
  {
    Changed(m.cells[l], m.At(l))
  }

  lemma EntryOfProjection(m: TileMap, l: Location)
    requires Tiled(m)
    requires IsOrigin(m, l)
    ensures EntryOf(EntryAt(m, l), Project(m)) && EntryAt(m, l).location == l
  {
  }

  // The cells in rest are still to be looked at.
  ghost predicate Listing(m: TileMap, rest: set<Location>, entries: seq<TileEvent>)
    requires Tiled(m)
  {
    && (forall i :: 0 <= i < |entries| ==> EntryOf(entries[i], Project(m)))
    && (forall l :: IsOrigin(m, l) && l !in rest ==> Mentions(entries, l))
  }

  lemma ListingStep(m: TileMap, rest: set<Location>, entries: seq<TileEvent>, l: Location)
    requires Tiled(m)
    requires Listing(m, rest, entries)
    ensures !IsOrigin(m, l) ==> Listing(m, rest - {l}, entries)
    ensures IsOrigin(m, l) ==> Listing(m, rest - {l}, entries + [EntryAt(m, l)])
  {
    hide Tiled, EntryOf, Project;
    TiledSizes(m);
    if IsOrigin(m, l) {
      EntryOfProjection(m, l);
      var more := entries + [EntryAt(m, l)];
      forall k | IsOrigin(m, k) && k !in rest - {l} ensures Mentions(more, k) {
        if k == l {
          assert more[|entries|].location == k;
        } else {
          var i :| 0 <= i < |entries| && entries[i].location == k;
          assert more[i].location == k;
        }
      }
    }
  }

  lemma ListingEnds(m: TileMap, entries: seq<TileEvent>)
    requires Tiled(m)
    requires Listing(m, {}, entries)
    ensures ListsCopy(entries, Project(m))
  {
  }

  // Only tiles at their origin are written.
  method ListTileData(board: ServerBoard.Board) returns (entries: seq<TileEvent>)
    requires Tiled(board.State().map_)
    ensures ListsCopy(entries, Project(board.State().map_))
  {
    hide Listing, Tiled, Project;
    ghost var m := board.State().map_;
    TiledCells(m);
    TiledSizes(m);
    entries := [];
    var rest := board.cells.Keys;
    ListingStarts(m);
    while rest != {}
      invariant rest <= board.cells.Keys
      invariant Listing(m, rest, entries)
      decreases rest
    {
      var l :| l in rest;
      ListingStep(m, rest, entries, l);
      rest := rest - {l};
      var id := board.cells[l];
      if l == board.tiles[id].Origin() {
        entries := entries + [Changed(id, board.tiles[id])];
      }
    }
    ListingEnds(m, entries);
  }

  lemma ListingStarts(m: TileMap)
    requires Tiled(m)
    ensures Listing(m, m.cells.Keys, [])
  {
  }
}
