// The rails of a board: which connectors pass rail on, which belong to nodes, and where
// the rail behind a node connector leads.
//
// server/src/board/board.cpp: the updateLink trace in Board::modified

module Track {
  import opened Tiles
  import opened TileMaps
  import opened RailGraph
  import opened Links

  // ---- one step of the trace ----

  // Entering at c, the rail passes through a tile with two connectors.
  predicate Passes(m: TileMap, c: Connector) {
    && c.location in m.cells && m.cells[c.location] in m.tiles
    && var t := m.At(c.location);
       !IsNode(t.id) && |Connectors(t)| == 2 && c in Connectors(t)
  }

  // The connector at the other end of that tile.
  function Exit(m: TileMap, c: Connector): Connector
    requires Passes(m, c)
  {
    var cs := Connectors(m.At(c.location));
    cs[if cs[0] == c then 1 else 0]
  }

  datatype RailEnd =
    | Arrives(at: Connector)   // at a node tile, entering through this connector
    | DeadEnd                  // no tile, or a tile that ends the rail
    | AssertFails              // the tile has no rail here, which the program asserts cannot be

  // What ends the trace at a connector the rail does not pass through.
  function Stop(m: TileMap, c: Connector): RailEnd
    requires c.location in m.cells ==> m.cells[c.location] in m.tiles
  {
    if c.location !in m.cells then DeadEnd
    else
      var t := m.At(c.location);
      if IsNode(t.id) then Arrives(c)
      else if Connectors(t) == [c] then DeadEnd
      else AssertFails
  }

  // ---- the board as a rail graph ----

  ghost predicate OnNode(m: TileMap, c: Connector) {
    && c.location in m.cells && m.cells[c.location] in m.tiles
    && IsNode(m.At(c.location).id) && c in Connectors(m.At(c.location))
  }

  ghost function AllConnectors(m: TileMap): set<Connector> {
    set id, c | id in m.tiles && c in Connectors(m.tiles[id]) :: c
  }

  ghost function GraphOf(m: TileMap): (g: Graph<Connector>)
    requires Tiled(m)
    ensures forall c :: c in g.partner <==> Passes(m, c)
    ensures g.tile.Keys == g.partner.Keys
    ensures forall c :: c in g.partner ==> g.partner[c] == Exit(m, c) && g.tile[c] == m.cells[c.location]
    ensures forall c :: c in g.nodes <==> OnNode(m, c)
    ensures g.opposite == Opposite
  {
    forall c | Passes(m, c) || OnNode(m, c) ensures c in AllConnectors(m) {
      assert c in Connectors(m.tiles[m.cells[c.location]]);
    }
    var partner := map c | c in AllConnectors(m) && Passes(m, c) :: Exit(m, c);
    var tile := map c | c in AllConnectors(m) && Passes(m, c) :: m.cells[c.location];
    var nodes := set c | c in AllConnectors(m) && OnNode(m, c);
    Graph(partner, tile, nodes, Opposite)
  }

  // A connector leads back to the tile it belongs to.
  lemma ConnectorCell(m: TileMap, id: Id, c: Connector)
    requires Tiled(m)
    requires id in m.tiles && c in Connectors(m.tiles[id])
    ensures c.location in m.cells && m.cells[c.location] == id
    ensures Opposite(Opposite(c)) == c && Opposite(c) != c
  {
    ConnectorsOnTile(m.tiles[id]);
    OppositeIsInvolution(c);
  }

  lemma ExitReturns(m: TileMap, c: Connector)
    requires Tiled(m)
    requires Passes(m, c)
    ensures var e := Exit(m, c);
      e != c && Passes(m, e) && m.cells[e.location] == m.cells[c.location] && Exit(m, e) == c
  {
    var t := m.At(c.location);
    ConnectorsOnTile(t);
    ConnectorCell(m, m.cells[c.location], Exit(m, c));
  }

  lemma SameTile(m: TileMap, c: Connector, d: Connector)
    requires Passes(m, c) && Passes(m, d)
    requires m.cells[c.location] == m.cells[d.location]
    ensures d == c || d == Exit(m, c)
  {
  }

  lemma PartnersOk(m: TileMap)
    requires Tiled(m)
    ensures var g := GraphOf(m);
      forall c :: c in g.partner ==>
        && g.partner[c] in g.partner && g.partner[g.partner[c]] == c && g.partner[c] != c
        && g.tile[g.partner[c]] == g.tile[c]
  {
    var g := GraphOf(m);
    forall c | c in g.partner
      ensures && g.partner[c] in g.partner && g.partner[g.partner[c]] == c && g.partner[c] != c
              && g.tile[g.partner[c]] == g.tile[c]
    {
      ExitReturns(m, c);
    }
  }

  lemma OppositesOk(m: TileMap)
    requires Tiled(m)
    ensures var g := GraphOf(m);
      forall c :: c in g.partner.Keys + g.nodes ==> Opposite(Opposite(c)) == c && Opposite(c) != c
  {
    var g := GraphOf(m);
    forall c | c in g.partner.Keys + g.nodes ensures Opposite(Opposite(c)) == c && Opposite(c) != c {
      ConnectorCell(m, m.cells[c.location], c);
    }
  }

  lemma GraphOfOk(m: TileMap)
    requires Tiled(m)
    ensures GraphOk(GraphOf(m))
  {
    var g := GraphOf(m);
    PartnersOk(m);
    OppositesOk(m);
    forall c, d | c in g.partner && d in g.partner && g.tile[c] == g.tile[d]
      ensures d == c || d == g.partner[c]
    {
      SameTile(m, c, d);
    }
  }

  // ---- where the rail behind a node connector leads ----

  ghost function Route(m: TileMap, a: Connector): seq<Connector>
    requires Tiled(m)
    requires OnNode(m, a)
  {
    GraphOfOk(m);
    Trace(GraphOf(m), a)
  }

  ghost function RouteEnd(m: TileMap, a: Connector): RailEnd
    requires Tiled(m)
    requires OnNode(m, a)
  {
    GraphOfOk(m);
    Stop(m, Last(Route(m, a)))
  }

  ghost function RouteTiles(m: TileMap, a: Connector): seq<Id>
    requires Tiled(m)
    requires OnNode(m, a)
  {
    GraphOfOk(m);
    Passed(GraphOf(m), Route(m, a))
  }

  // ---- ends ----

  ghost predicate IsEnd(m: TileMap, e: End) {
    e.tile in m.tiles && IsNode(m.tiles[e.tile].id) && e.index < |Connectors(m.tiles[e.tile])|
  }

  ghost function AllEnds(m: TileMap): (ends: set<End>)
    ensures forall e :: e in ends <==> IsEnd(m, e)
  {
    set id, i | id in m.tiles && IsNode(m.tiles[id].id) && 0 <= i < |Connectors(m.tiles[id])| :: End(id, i)
  }

  function ConnectorOf(m: TileMap, e: End): Connector
    requires e.tile in m.tiles && e.index < |Connectors(m.tiles[e.tile])|
  {
    Connectors(m.tiles[e.tile])[e.index]
  }

  // Node::getIndex
  function IndexOf(cs: seq<Connector>, c: Connector): (i: nat)
    requires c in cs
    ensures i < |cs| && cs[i] == c
  {
    if cs[0] == c then 0 else 1 + IndexOf(cs[1..], c)
  }

  function EndOf(m: TileMap, c: Connector): End
    requires c.location in m.cells && m.cells[c.location] in m.tiles && c in Connectors(m.At(c.location))
  {
    End(m.cells[c.location], IndexOf(Connectors(m.At(c.location)), c))
  }

  lemma EndOfConnector(m: TileMap, e: End)
    requires Tiled(m)
    requires IsEnd(m, e)
    ensures OnNode(m, ConnectorOf(m, e))
    ensures EndOf(m, ConnectorOf(m, e)) == e
  {
    var c := ConnectorOf(m, e);
    ConnectorCell(m, e.tile, c);
    ConnectorsOnTile(m.tiles[e.tile]);
  }

  lemma ConnectorOfEnd(m: TileMap, c: Connector)
    requires OnNode(m, c)
    ensures IsEnd(m, EndOf(m, c)) && ConnectorOf(m, EndOf(m, c)) == c
  {
  }

  // How the rail behind an end is to be linked, if the trace meets no failing assertion.
  ghost function StatusOf(m: TileMap, e: End): Status
    requires Tiled(m)
    requires IsEnd(m, e)
  {
    EndOfConnector(m, e);
    var a := ConnectorOf(m, e);
    match RouteEnd(m, a)
    case Arrives(c) => if OnNode(m, c) then Joined(EndOf(m, c), RouteTiles(m, a)) else Misfit
    case DeadEnd => Loose
    case AssertFails => Loose
  }

  ghost function Rails(m: TileMap): (rails: map<End, Status>)
    requires Tiled(m)
    ensures forall e :: e in rails <==> IsEnd(m, e)
    ensures forall e :: e in rails ==> rails[e] == StatusOf(m, e)
  {
    map e | e in AllEnds(m) :: StatusOf(m, e)
  }

  // The assertions of a rebuild: every node has a connector per link, and every trace
  // enters the tiles on its way through their connectors.
  ghost predicate AssertionsHold(m: TileMap)
    requires Tiled(m)
  {
    && (forall id :: id in m.tiles && IsNode(m.tiles[id].id) ==> |Connectors(m.tiles[id])| == NodeSize(m.tiles[id].id))
    && (forall a :: OnNode(m, a) ==> RouteEnd(m, a) != AssertFails)
  }

  // The part of the assertions that is about how many connectors nodes have.
  ghost predicate CountsOk(m: TileMap) {
    forall id :: id in m.tiles && IsNode(m.tiles[id].id) ==> |Connectors(m.tiles[id])| == NodeSize(m.tiles[id].id)
  }

  // The assertions met while the links of one node are rebuilt.
  ghost predicate NodeChecked(m: TileMap, id: Id)
    requires Tiled(m)
    requires id in m.tiles
  {
    && |Connectors(m.tiles[id])| == NodeSize(m.tiles[id].id)
    && EndsChecked(m, id, |Connectors(m.tiles[id])|)
  }

  ghost predicate EndsChecked(m: TileMap, id: Id, n: nat)
    requires Tiled(m)
    requires id in m.tiles && n <= |Connectors(m.tiles[id])|
  {
    forall i :: 0 <= i < n ==>
      var c := Connectors(m.tiles[id])[i];
      OnNode(m, c) && RouteEnd(m, c) != AssertFails
  }

  lemma CheckedAll(m: TileMap)
    requires Tiled(m)
    requires forall id :: id in m.tiles && IsNode(m.tiles[id].id) ==> NodeChecked(m, id)
    ensures AssertionsHold(m)
  {
    hide RouteEnd;
    forall a | OnNode(m, a) ensures RouteEnd(m, a) != AssertFails {
      var id := m.cells[a.location];
      assert NodeChecked(m, id);
      var i := IndexOf(Connectors(m.tiles[id]), a);
      assert Connectors(m.tiles[id])[i] == a;
    }
  }

  // A sound tile that is a node has the connectors it should have, or none.
  lemma SomeConnectors(t: Tile)
    requires TileOk(t)
    requires IsNode(t.id)
    ensures |Connectors(t)| == NodeSize(t.id) <==> Connectors(t) != []
  {
    ConnectorsOnTile(t);
  }

  ghost function EndsOf(m: TileMap, id: Id, n: nat): (ends: set<End>)
    ensures forall e :: e in ends <==> e.tile == id && e.index < n
  {
    set i | 0 <= i < n :: End(id, i)
  }

  lemma EndsOfStep(m: TileMap, id: Id, n: nat, done: set<End>)
    ensures done + EndsOf(m, id, n) + {End(id, n)} == done + EndsOf(m, id, n + 1)
    ensures done + EndsOf(m, id, 0) == done
  {
  }

  // ---- what the graph says about the board ----

  // The tiles that are not nodes.
  ghost function PassedTiles(m: TileMap): set<Id> {
    set id | id in m.tiles && !IsNode(m.tiles[id].id)
  }

  lemma PassedTile(m: TileMap, id: Id)
    requires Tiled(m)
    requires id in GraphOf(m).tile.Values
    ensures id in PassedTiles(m)
  {
    var c :| c in GraphOf(m).tile && GraphOf(m).tile[c] == id;
    assert Passes(m, c);
  }

  // The trace ends on every tiled board: it visits a tile at most once, and only tiles
  // that are not nodes.
  lemma RouteVisitsOnce(m: TileMap, a: Connector)
    requires Tiled(m)
    requires OnNode(m, a)
    ensures var ids := RouteTiles(m, a);
      && (forall i, j :: 0 <= i < j < |ids| ==> ids[i] != ids[j])
      && (forall id :: id in ids ==> id in m.tiles && !IsNode(m.tiles[id].id))
      && |ids| <= |PassedTiles(m)|
  {
    hide GraphOk, GraphOf, IsNode;
    GraphOfOk(m);
    PassedOnce(GraphOf(m), a, Route(m, a));
    forall id | id in RouteTiles(m, a) ensures id in PassedTiles(m) {
      PassedTile(m, id);
    }
    DistinctCount(RouteTiles(m, a), PassedTiles(m));
  }

  // If the rail behind a leads to the node connector b through the tiles T, the rail
  // behind b leads to a through T in reverse.
  lemma RouteIsSymmetric(m: TileMap, a: Connector, b: Connector)
    requires Tiled(m)
    requires OnNode(m, a) && OnNode(m, b)
    requires RouteEnd(m, a) == Arrives(b)
    ensures RouteEnd(m, b) == Arrives(a)
    ensures RouteTiles(m, b) == Reversed(RouteTiles(m, a))
    ensures a != b
  {
    hide GraphOf;
    GraphOfOk(m);
    TraceIsSymmetric(GraphOf(m), a);
  }

  // Links with different end pairs share no tile.
  lemma RoutesShareNoTile(m: TileMap, a: Connector, b: Connector, id: Id)
    requires Tiled(m)
    requires OnNode(m, a) && OnNode(m, b)
    requires id in RouteTiles(m, a) && id in RouteTiles(m, b)
    ensures a == b || (RouteEnd(m, a) == Arrives(b) && RouteEnd(m, b) == Arrives(a))
  {
    GraphOfOk(m);
    TracesShareNoTile(GraphOf(m), a, b, id);
    if a != b {
      RouteIsSymmetric(m, a, b);
    }
  }

  lemma RailsLeadBack(m: TileMap)
    requires Tiled(m)
    ensures StatusOk(Rails(m))
  {
    var rails := Rails(m);
    forall e | e in rails && rails[e].Joined?
      ensures var f := rails[e].other; f in rails && f != e && rails[f] == Joined(e, Reversed(rails[e].tiles))
    {
      EndOfConnector(m, e);
      var a := ConnectorOf(m, e);
      var b := RouteEnd(m, a).at;
      ConnectorOfEnd(m, b);
      RouteIsSymmetric(m, a, b);
    }
  }

  // ---- following the rail ----

  // A walk from a that has reached c, and the tiles it has passed.
  ghost predicate Following(m: TileMap, a: Connector, s: seq<Connector>, c: Connector, tiles: seq<Id>)
    requires Tiled(m)
  {
    && OnNode(m, a)
    && WalkFrom(GraphOf(m), a, s)
    && Last(s) == c
    && tiles == Passed(GraphOf(m), s)
  }

  lemma FollowingStarts(m: TileMap, a: Connector)
    requires Tiled(m)
    requires OnNode(m, a)
    ensures Following(m, a, [Opposite(a)], Opposite(a), [])
  {
  }

  // A walk cannot pass more tiles than there are.
  lemma FollowingBound(m: TileMap, a: Connector, s: seq<Connector>)
    requires Tiled(m)
    requires WalkFrom(GraphOf(m), a, s)
    ensures |s| - 1 <= |m.tiles|
  {
    hide GraphOk, Tiled, Passes, IsNode;
    var g := GraphOf(m);
    GraphOfOk(m);
    PassedOnce(g, a, s);
    forall id | id in Passed(g, s) ensures id in m.tiles {
      PassedTile(m, id);
    }
    DistinctCount(Passed(g, s), m.tiles.Keys);
  }

  lemma FollowingOn(m: TileMap, a: Connector, s: seq<Connector>, c: Connector, tiles: seq<Id>)
    requires Tiled(m)
    requires Following(m, a, s, c, tiles)
    requires Passes(m, c)
    ensures var d := Opposite(Exit(m, c));
      Following(m, a, s + [d], d, tiles + [m.cells[c.location]])
    ensures |s| <= |m.tiles|
  {
    hide Tiled, GraphOk, Passes, Exit, Opposite, OnNode;
    var g := GraphOf(m);
    WalkExtends(g, a, s);
    FollowingBound(m, a, s + [Onward(g, c)]);
  }

  lemma FollowingEnds(m: TileMap, a: Connector, s: seq<Connector>, c: Connector, tiles: seq<Id>)
    requires Tiled(m)
    requires Following(m, a, s, c, tiles)
    requires !Passes(m, c)
    ensures RouteEnd(m, a) == Stop(m, c)
    ensures RouteTiles(m, a) == tiles
  {
    GraphOfOk(m);
    TraceIsUnique(GraphOf(m), a, s);
  }

  // The link a rebuild makes for an end whose rail arrives at a node.
  lemma ArrivedStatus(m: TileMap, e: End, at: Connector)
    requires Tiled(m)
    requires IsEnd(m, e)
    requires OnNode(m, ConnectorOf(m, e)) && RouteEnd(m, ConnectorOf(m, e)) == Arrives(at)
    requires at.location in m.cells && m.cells[at.location] in m.tiles && IsNode(m.At(at.location).id)
    ensures StatusOf(m, e) ==
            if at in Connectors(m.At(at.location)) then Joined(EndOf(m, at), RouteTiles(m, ConnectorOf(m, e)))
            else Misfit
  {
    hide Tiled, RouteEnd, RouteTiles, Connectors, IsNode;
  }

  lemma DeadEndStatus(m: TileMap, e: End)
    requires Tiled(m)
    requires IsEnd(m, e)
    requires OnNode(m, ConnectorOf(m, e)) && RouteEnd(m, ConnectorOf(m, e)) == DeadEnd
    ensures StatusOf(m, e) == Loose
  {
    hide Tiled, RouteEnd, RouteTiles, Connectors, IsNode;
  }

  // An end that faces a node tile has no tile on its way.
  lemma FacingStatus(m: TileMap, e: End)
    requires Tiled(m)
    requires IsEnd(m, e)
    requires var c := Opposite(ConnectorOf(m, e));
      c.location in m.cells && m.cells[c.location] in m.tiles && IsNode(m.At(c.location).id)
    ensures var c := Opposite(ConnectorOf(m, e));
      StatusOf(m, e) == if c in Connectors(m.At(c.location)) then Joined(EndOf(m, c), []) else Misfit
  {
    hide Tiled, RouteEnd, RouteTiles, Connectors, IsNode, GraphOf, StatusOf, Following;
    var a := ConnectorOf(m, e);
    EndOfConnector(m, e);
    FollowingStarts(m, a);
    FollowingEnds(m, a, [Opposite(a)], Opposite(a), []);
    ArrivedStatus(m, e, Opposite(a));
  }

  // ---- what rails do not depend on ----

  // Two boards whose tiles have the same kinds and connectors on the same cells.
  ghost predicate SameRails(m: TileMap, n: TileMap) {
    && m.cells == n.cells
    && m.tiles.Keys == n.tiles.Keys
    && forall id :: id in m.tiles ==>
         m.tiles[id].id == n.tiles[id].id && Connectors(m.tiles[id]) == Connectors(n.tiles[id])
  }

  lemma SameStep(m: TileMap, n: TileMap, c: Connector)
    requires SameRails(m, n)
    ensures Passes(m, c) <==> Passes(n, c)
    ensures Passes(m, c) ==> Exit(m, c) == Exit(n, c)
    ensures OnNode(m, c) <==> OnNode(n, c)
    ensures c.location in m.cells && m.cells[c.location] in m.tiles ==> Stop(m, c) == Stop(n, c)
  {
    if c.location in m.cells && m.cells[c.location] in m.tiles {
      var id := m.cells[c.location];
      assert Connectors(m.tiles[id]) == Connectors(n.tiles[id]);
    }
  }

  lemma SameGraphs(g: Graph<Connector>, h: Graph<Connector>)
    requires g.opposite == h.opposite
    requires g.tile.Keys == g.partner.Keys && h.tile.Keys == h.partner.Keys
    requires forall c :: c in g.partner <==> c in h.partner
    requires forall c :: c in g.partner && c in h.partner ==> g.partner[c] == h.partner[c]
    requires forall c :: c in g.tile && c in h.tile ==> g.tile[c] == h.tile[c]
    requires forall c :: c in g.nodes <==> c in h.nodes
    ensures g == h
  {
    assert g.partner == h.partner;
    assert g.tile == h.tile;
    assert g.nodes == h.nodes;
  }

  lemma SameGraph(m: TileMap, n: TileMap)
    requires Tiled(m) && Tiled(n)
    requires SameRails(m, n)
    ensures GraphOf(m) == GraphOf(n)
  {
    forall c ensures Passes(m, c) <==> Passes(n, c)
             ensures Passes(m, c) ==> Exit(m, c) == Exit(n, c)
             ensures OnNode(m, c) <==> OnNode(n, c)
    {
      SameStep(m, n, c);
    }
    SameGraphs(GraphOf(m), GraphOf(n));
  }

  lemma SameRoute(m: TileMap, n: TileMap, a: Connector)
    requires Tiled(m) && Tiled(n)
    requires SameRails(m, n)
    requires OnNode(m, a)
    ensures OnNode(n, a)
    ensures RouteEnd(m, a) == RouteEnd(n, a) && RouteTiles(m, a) == RouteTiles(n, a)
  {
    SameGraph(m, n);
    SameStep(m, n, a);
    SameStep(m, n, Last(Route(m, a)));
  }

  lemma SameEnd(m: TileMap, n: TileMap, e: End)
    requires SameRails(m, n)
    ensures IsEnd(m, e) <==> IsEnd(n, e)
    ensures IsEnd(m, e) ==> ConnectorOf(m, e) == ConnectorOf(n, e)
  {
    if e.tile in m.tiles {
      assert Connectors(m.tiles[e.tile]) == Connectors(n.tiles[e.tile]);
    }
  }

  lemma SameEndOf(m: TileMap, n: TileMap, c: Connector)
    requires SameRails(m, n)
    requires OnNode(m, c)
    ensures OnNode(n, c) && EndOf(m, c) == EndOf(n, c)
  {
    var id := m.cells[c.location];
    assert Connectors(m.tiles[id]) == Connectors(n.tiles[id]);
  }

  lemma SameStatus(m: TileMap, n: TileMap, e: End)
    requires Tiled(m) && Tiled(n)
    requires SameRails(m, n)
    requires IsEnd(m, e)
    ensures IsEnd(n, e) && StatusOf(m, e) == StatusOf(n, e)
  {
    SameEnd(m, n, e);
    EndOfConnector(m, e);
    var a := ConnectorOf(m, e);
    SameRoute(m, n, a);
    if RouteEnd(m, a).Arrives? {
      var c := RouteEnd(m, a).at;
      SameStep(m, n, c);
      if OnNode(m, c) {
        SameEndOf(m, n, c);
      }
    }
  }

  lemma SameStatuses(a: map<End, Status>, b: map<End, Status>)
    requires forall e :: e in a <==> e in b
    requires forall e :: e in a && e in b ==> a[e] == b[e]
    ensures a == b
  {
  }

  lemma SameRailsSameStatus(m: TileMap, n: TileMap)
    requires Tiled(m) && Tiled(n)
    requires SameRails(m, n)
    ensures Rails(m) == Rails(n)
  {
    forall e ensures IsEnd(m, e) <==> IsEnd(n, e)
             ensures IsEnd(m, e) ==> StatusOf(m, e) == StatusOf(n, e) {
      SameEnd(m, n, e);
      if IsEnd(m, e) {
        SameStatus(m, n, e);
      }
    }
    SameStatuses(Rails(m), Rails(n));
  }

  lemma SameRailsSameAssertions(m: TileMap, n: TileMap)
    requires Tiled(m) && Tiled(n)
    requires SameRails(m, n)
    requires AssertionsHold(m)
    ensures AssertionsHold(n)
  {
    forall a | OnNode(n, a) ensures RouteEnd(n, a) != AssertFails {
      SameStep(m, n, a);
      SameRoute(m, n, a);
    }
    forall id | id in n.tiles && IsNode(n.tiles[id].id)
      ensures |Connectors(n.tiles[id])| == NodeSize(n.tiles[id].id)
    {
      assert Connectors(m.tiles[id]) == Connectors(n.tiles[id]);
    }
  }
}
