// The links between node connectors, and how a rebuild brings them up to date.
//
// server/src/board/map/link.cpp, server/src/board/map/node.cpp,
// server/src/board/board.cpp: Board::modified

module Links {
  import opened RailGraph

  // A node keeps its links by connector index.
  datatype End = End(tile: TileNumber, index: nat)

  // A link object is told from another by the two ends it is connected to.
  datatype Link = Link(tiles: seq<TileNumber>, from: End, to: End)

  type LinkMap = map<End, Link>

  // A link is kept by exactly its two ends.
  ghost predicate Paired(links: LinkMap) {
    forall e :: e in links ==>
      var l := links[e];
      && l.from != l.to
      && (e == l.from || e == l.to)
      && l.from in links && links[l.from] == l
      && l.to in links && links[l.to] == l
  }

  function Other(l: Link, e: End): End {
    if l.from == e then l.to else l.from
  }

  // Node::disconnect: the link at an end leaves both its nodes.
  function Disconnect(links: LinkMap, e: End): LinkMap {
    if e in links then links - {links[e].from, links[e].to} else links
  }

  // A link between the same ends through the same tiles, listed from either end.
  predicate SameTrack(links: LinkMap, link: Link) {
    && link.from in links && link.to in links
    && links[link.from] == links[link.to]
    && (link.tiles == links[link.from].tiles || link.tiles == Reversed(links[link.from].tiles))
  }

  // Link::connect: an equal link stays; otherwise whatever is connected makes room.
  function Connect(links: LinkMap, link: Link): LinkMap {
    if SameTrack(links, link) then links
    else
      var links1 := Disconnect(links, link.from)[link.from := link];
      Disconnect(links1, link.to)[link.to := link]
  }

  // Where the rail behind a node connector leads.
  datatype Status =
    | Joined(other: End, tiles: seq<TileNumber>)   // to a connector of a node
    | Loose                                    // nowhere
    | Misfit                                   // to a node tile that has no connector there

  // Rails lead back.
  ghost predicate StatusOk(rails: map<End, Status>) {
    forall e :: e in rails && rails[e].Joined? ==>
      var f := rails[e].other;
      f in rails && f != e && rails[f] == Joined(e, Reversed(rails[e].tiles))
  }

  // The link joins e to where the rail behind it leads; its tiles are listed from either end.
  ghost predicate Describes(l: Link, e: End, status: Status) {
    && status.Joined?
    && ((l.from == e && l.to == status.other) || (l.from == status.other && l.to == e))
    && (l.tiles == status.tiles || l.tiles == Reversed(status.tiles))
  }

  function Update(links: LinkMap, e: End, status: Status): LinkMap {
    match status
    case Joined(f, tiles) => Connect(links, Link(tiles, e, f))
    case Loose => Disconnect(links, e)
    case Misfit => links  // Link::connect finds no index for the connector and returns
  }

  // ---- what holds while ends are updated one by one ----

  // A link of before the rebuild that no end can replace: the rail behind both its ends
  // now leads to tiles that do not fit.
  ghost predicate Stuck(before: LinkMap, rails: map<End, Status>, e: End) {
    && e in before
    && before[e].from in rails && rails[before[e].from] == Misfit
    && before[e].to in rails && rails[before[e].to] == Misfit
  }

  ghost predicate UpToDate(links: LinkMap, e: End, status: Status) {
    match status
    case Joined(_, _) => e in links && Describes(links[e], e, status)
    case Loose => e !in links
    case Misfit => true
  }

  ghost predicate Updating(before: LinkMap, rails: map<End, Status>, done: set<End>, links: LinkMap) {
    && Paired(links)
    && links.Keys <= rails.Keys
    && (forall e :: e in done ==> e in rails && UpToDate(links, e, rails[e]))
    && (forall e :: e in links ==> Describes(links[e], e, rails[e]) || (e in before && links[e] == before[e]))
    && (forall e :: Stuck(before, rails, e) ==> e in links && links[e] == before[e])
  }

  lemma DisconnectKeepsPaired(links: LinkMap, e: End)
    requires Paired(links)
    ensures Paired(Disconnect(links, e))
    ensures e !in Disconnect(links, e)
    ensures forall x :: x in Disconnect(links, e) ==> x in links && Disconnect(links, e)[x] == links[x]
    ensures forall x :: x in links && x !in Disconnect(links, e) ==> e in links && links[x] == links[e]
  {
  }

  // Both directions list the same tiles, and reversing twice changes nothing.
  lemma ReversedTwice<T>(s: seq<T>)
    ensures Reversed(Reversed(s)) == s
  {
  }

  lemma DescribesFromOtherEnd(rails: map<End, Status>, l: Link, e: End)
    requires StatusOk(rails)
    requires e in rails && Describes(l, e, rails[e])
    ensures rails[e].other in rails && Describes(l, rails[e].other, rails[rails[e].other])
  {
    ReversedTwice(rails[e].tiles);
  }

  // Disconnecting an end that fits takes nothing away that is stuck or already right,
  // except the link of the end it should be joined to.
  lemma DisconnectKeepsUpdating(before: LinkMap, rails: map<End, Status>, done: set<End>, links: LinkMap, e: End)
    requires StatusOk(rails)
    requires Updating(before, rails, done, links)
    requires e in rails && rails[e] != Misfit
    ensures var undone := if rails[e].Joined? then {e, rails[e].other} else {};
      Updating(before, rails, done - undone, Disconnect(links, e))
  {
    DisconnectKeepsPaired(links, e);
  }

  lemma LooseKeepsUpdating(before: LinkMap, rails: map<End, Status>, done: set<End>, links: LinkMap, e: End)
    requires StatusOk(rails)
    requires Updating(before, rails, done, links)
    requires e in rails && rails[e] == Loose
    ensures Updating(before, rails, done + {e}, Disconnect(links, e))
  {
    DisconnectKeepsUpdating(before, rails, done, links, e);
    DisconnectKeepsPaired(links, e);
  }

  // Once both ends are free, the new link is right for both of them.
  lemma JoinKeepsUpdating(before: LinkMap, rails: map<End, Status>, done: set<End>, links: LinkMap, e: End)
    requires StatusOk(rails)
    requires Updating(before, rails, done, links)
    requires e in rails && rails[e].Joined?
    requires e !in links && rails[e].other !in links
    ensures var f, l := rails[e].other, Link(rails[e].tiles, e, rails[e].other);
      Updating(before, rails, done + {e, f}, links[e := l][f := l])
  {
    var l := Link(rails[e].tiles, e, rails[e].other);
    DescribesFromOtherEnd(rails, l, e);
  }

  // Making room at one end does not depend on what was already put at the other.
  lemma ConnectMakesRoom(links: LinkMap, link: Link)
    requires Paired(links)
    requires link.from != link.to
    requires !SameTrack(links, link)
    ensures Connect(links, link) ==
            Disconnect(Disconnect(links, link.from), link.to)[link.from := link][link.to := link]
  {
    DisconnectKeepsPaired(links, link.from);
  }

  lemma SameTrackKeepsUpdating(before: LinkMap, rails: map<End, Status>, done: set<End>, links: LinkMap, e: End)
    requires StatusOk(rails)
    requires Updating(before, rails, done, links)
    requires e in rails && rails[e].Joined?
    requires SameTrack(links, Link(rails[e].tiles, e, rails[e].other))
    ensures Updating(before, rails, done + {e}, links)
  {
    ReversedTwice(links[e].tiles);
  }

  lemma RoomKeepsUpdating(before: LinkMap, rails: map<End, Status>, done: set<End>, links: LinkMap, e: End)
    requires StatusOk(rails)
    requires Updating(before, rails, done, links)
    requires e in rails && rails[e].Joined?
    ensures var f := rails[e].other;
      var room := Disconnect(Disconnect(links, e), f);
      Updating(before, rails, done - {e, f}, room) && e !in room && f !in room
  {
    var f := rails[e].other;
    var links1 := Disconnect(links, e);
    DisconnectKeepsUpdating(before, rails, done, links, e);
    DisconnectKeepsPaired(links, e);
    DisconnectKeepsUpdating(before, rails, done - {e, f}, links1, f);
    DisconnectKeepsPaired(links1, f);
    assert done - {e, f} - {f, e} == done - {e, f};
  }

  lemma ConnectKeepsUpdating(before: LinkMap, rails: map<End, Status>, done: set<End>, links: LinkMap, e: End)
    requires StatusOk(rails)
    requires Updating(before, rails, done, links)
    requires e in rails && rails[e].Joined?
    ensures Updating(before, rails, done + {e}, Update(links, e, rails[e]))
  {
    var f, l := rails[e].other, Link(rails[e].tiles, e, rails[e].other);
    if SameTrack(links, l) {
      SameTrackKeepsUpdating(before, rails, done, links, e);
    } else {
      ConnectMakesRoom(links, l);
      RoomKeepsUpdating(before, rails, done, links, e);
      JoinKeepsUpdating(before, rails, done - {e, f}, Disconnect(Disconnect(links, e), f), e);
      assert done + {e} <= (done - {e, f}) + {e, f};
    }
  }

  lemma UpdateKeepsUpdating(before: LinkMap, rails: map<End, Status>, done: set<End>, links: LinkMap, e: End)
    requires StatusOk(rails)
    requires Updating(before, rails, done, links)
    requires e in rails
    ensures Updating(before, rails, done + {e}, Update(links, e, rails[e]))
  {
    match rails[e]
    case Joined(_, _) => ConnectKeepsUpdating(before, rails, done, links, e);
    case Loose => LooseKeepsUpdating(before, rails, done, links, e);
    case Misfit =>
  }

  // ---- the whole rebuild ----

  // Every end that leads to a connector has its link, every loose end has none, and an end
  // that does not fit has one only if it is stuck with the one it had.
  ghost predicate Rebuilt(before: LinkMap, rails: map<End, Status>, links: LinkMap) {
    && Paired(links)
    && links.Keys <= rails.Keys
    && forall e :: e in rails ==>
         match rails[e]
         case Joined(_, _) => e in links && Describes(links[e], e, rails[e])
         case Loose => e !in links
         case Misfit => (e in links <==> Stuck(before, rails, e)) && (e in links ==> links[e] == before[e])
  }

  lemma UpdatedAll(before: LinkMap, rails: map<End, Status>, links: LinkMap)
    requires StatusOk(rails)
    requires Updating(before, rails, rails.Keys, links)
    ensures Rebuilt(before, rails, links)
  {
    forall e | e in rails && rails[e] == Misfit && e in links ensures Stuck(before, rails, e) {
      var l := links[e];
      var x := Other(l, e);
      assert x in links && links[x] == l;
      assert UpToDate(links, x, rails[x]);
    }
  }

  // What the links should be: each end has a link exactly if its rail leads to a connector,
  // and that link says where.
  ghost predicate Current(rails: map<End, Status>, links: LinkMap) {
    forall e :: e in rails ==>
      if rails[e].Joined? then e in links && Describes(links[e], e, rails[e]) else e !in links
  }

  // A rebuild gets every link right if and only if no old link is stuck.
  lemma CurrentIffNoneStuck(before: LinkMap, rails: map<End, Status>, links: LinkMap)
    requires Rebuilt(before, rails, links)
    requires Paired(before)
    ensures Current(rails, links) <==> !exists e :: Stuck(before, rails, e)
  {
    forall e | Stuck(before, rails, e) ensures !Current(rails, links) {
      var f := before[e].from;
      assert Stuck(before, rails, f);
    }
  }

  // Without links of before nothing can be stuck.
  lemma FirstRebuildIsCurrent(rails: map<End, Status>, links: LinkMap)
    requires Rebuilt(map[], rails, links)
    ensures Current(rails, links)
  {
    CurrentIffNoneStuck(map[], rails, links);
  }

  // What a rebuild leaves, whatever was there before: only ends that do not fit can have a
  // link that is out of date, and then the other end of that link does not fit either.
  ghost predicate Cached(rails: map<End, Status>, links: LinkMap) {
    && Paired(links)
    && links.Keys <= rails.Keys
    && forall e :: e in rails ==>
         match rails[e]
         case Joined(_, _) => e in links && Describes(links[e], e, rails[e])
         case Loose => e !in links
         case Misfit => e in links ==> rails[links[e].from] == Misfit && rails[links[e].to] == Misfit
  }

  lemma RebuiltIsCached(before: LinkMap, rails: map<End, Status>, links: LinkMap)
    requires Rebuilt(before, rails, links)
    ensures Cached(rails, links)
  {
    forall e | e in rails && rails[e] == Misfit && e in links
      ensures links[e].from in rails && rails[links[e].from] == Misfit
      ensures links[e].to in rails && rails[links[e].to] == Misfit
    {
      assert Stuck(before, rails, e) && links[e] == before[e];
    }
  }

  // ---- tiles go away ----

  // The links of a node are disconnected when its tile is destroyed.
  function KeepTiles(links: LinkMap, tiles: set<TileNumber>): LinkMap {
    map e | e in links && links[e].from.tile in tiles && links[e].to.tile in tiles :: links[e]
  }

  // The links of one node are disconnected one after the other.
  ghost predicate Disconnecting(before: LinkMap, links: LinkMap, tile: TileNumber, n: nat) {
    && Paired(links)
    && (forall e :: e in links ==> e in before && links[e] == before[e])
    && (forall e :: e in before && e !in links ==> before[e].from.tile == tile || before[e].to.tile == tile)
    && (forall i :: 0 <= i < n ==> End(tile, i) !in links)
  }

  lemma DisconnectingStarts(links: LinkMap, tile: TileNumber)
    requires Paired(links)
    ensures Disconnecting(links, links, tile, 0)
  {
  }

  lemma DisconnectingStep(before: LinkMap, links: LinkMap, tile: TileNumber, n: nat)
    requires Disconnecting(before, links, tile, n)
    ensures Disconnecting(before, Disconnect(links, End(tile, n)), tile, n + 1)
  {
    DisconnectKeepsPaired(links, End(tile, n));
  }

  lemma DisconnectingEnds(before: LinkMap, links: LinkMap, tiles: set<TileNumber>, tile: TileNumber, n: nat)
    requires Paired(before)
    requires forall e :: e in before ==> e.tile in tiles && (e.tile == tile ==> e.index < n)
    requires Disconnecting(before, links, tile, n)
    ensures links == KeepTiles(before, tiles - {tile})
  {
    forall e | e in links ensures links[e].from.tile != tile && links[e].to.tile != tile {
      assert links[e].from == End(links[e].from.tile, links[e].from.index);
      assert links[e].to == End(links[e].to.tile, links[e].to.index);
    }
  }

  lemma KeepTilesPaired(links: LinkMap, tiles: set<TileNumber>)
    requires Paired(links)
    ensures Paired(KeepTiles(links, tiles))
    ensures forall e :: e in KeepTiles(links, tiles) ==> e in links && e.tile in tiles
  {
  }

  lemma KeepAllTiles(links: LinkMap, tiles: set<TileNumber>)
    requires Paired(links)
    requires forall e :: e in links ==> e.tile in tiles
    ensures KeepTiles(links, tiles) == links
  {
  }

  // A new tile has no links.
  lemma KeepNewTile(links: LinkMap, tiles: set<TileNumber>, newTile: TileNumber)
    requires Paired(links)
    requires forall e :: e in links ==> e.tile != newTile
    ensures KeepTiles(links, tiles + {newTile}) == KeepTiles(links, tiles)
  {
  }

  lemma KeepTilesTwice(links: LinkMap, tiles: set<TileNumber>, fewer: set<TileNumber>)
    requires fewer <= tiles
    ensures KeepTiles(KeepTiles(links, tiles), fewer) == KeepTiles(links, fewer)
  {
  }
}
