// A server board, a client's copy of it, and the messages between them: when the copy
// converges to the board.
//
// server/src/network/session.cpp: boardTileDataChanged, BoardGetTileData
// client/src/network/board.cpp: getTileDataResponse, processMessage
// client/src/network/connection.cpp: the events of an object that is not live

module Convergence {
  import opened Tiles
  import opened TileMaps
  import opened Operations
  import opened Replicas
  import opened BoardRuns
  import opened ClientBoards

  datatype Packet =
    | TileChanged(event: TileEvent)
    | TileDataResponse(entries: seq<TileEvent>)

  // start: the copy of the board when the session subscribed to its events.
  // delivered: the events that have reached the client, also those it dropped.
  // lost: the locations whose latest event was dropped, unless the client knows nothing
  // about them.
  datatype System = System(
    start: Replica,
    board: BoardState,
    channel: seq<Packet>,
    delivered: seq<TileEvent>,
    client: Replica,
    live: bool,         // the client's board object is referenced, not pending release
    asked: nat,         // requests for all tile data on their way to the server
    answered: bool,
    lost: set<Location>)

  function View(s: System): Replica {
    ApplyAll(s.start, s.delivered)
  }

  datatype Action =
    | BoardStep(step: Step)
    | Ask
    | Answer(entries: seq<TileEvent>)
    | Deliver
    | DropBoard
    | ResurrectBoard

  function Packets(events: seq<TileEvent>): (packets: seq<Packet>)
    ensures |packets| == |events|
    ensures forall i :: 0 <= i < |events| ==> packets[i] == TileChanged(events[i])
  {
    seq(|events|, i requires 0 <= i < |events| => TileChanged(events[i]))
  }

  ghost predicate CanAct(s: System, a: Action) {
    match a
    case BoardStep(step) => Enabled(s.board, step)
    case Ask => s.live
    case Answer(entries) => s.asked > 0 && Tiled(s.board.map_) && ListsCopy(entries, Project(s.board.map_))
    case Deliver => s.channel != []
    case DropBoard => s.live
    case ResurrectBoard => !s.live
  }

  // An event for an object that is not live is dropped.
  ghost function Delivered(s: System): System
    requires s.channel != []
  {
    var s1 := s.(channel := s.channel[1..]);
    match s.channel[0]
    case TileChanged(e) =>
      if s.live then
        s1.(delivered := s.delivered + [e], client := Apply(s.client, e), lost := s.lost - {e.location})
      else
        s1.(delivered := s.delivered + [e], lost := s.lost + {e.location})
    case TileDataResponse(entries) =>
      s1.(client := EmplaceAll(s.client, entries), answered := true,
          lost := set l | l in s.lost && (l in s.client.data || l in s.client.objects))
  }

  ghost function Emitted(b: BoardState, step: Step): (events: seq<TileEvent>)
    requires Enabled(b, step)
    ensures Next(b, step).sent == b.sent + events
  {
    match step
    case Operate(op) => Perform(b.map_, op).events
    case Rebuild(_) => []
    case ForcedRebuild(_) => []
  }

  ghost function Act(s: System, a: Action): System
    requires CanAct(s, a)
  {
    match a
    case BoardStep(step) => s.(board := Next(s.board, step), channel := s.channel + Packets(Emitted(s.board, step)))
    case Ask => s.(asked := s.asked + 1)
    case Answer(entries) => s.(asked := s.asked - 1, channel := s.channel + [TileDataResponse(entries)])
    case Deliver => Delivered(s)
    case DropBoard => s.(live := false)
    case ResurrectBoard => s.(live := true)
  }

  // A client that has just received the board object, and knows none of its tiles.
  ghost predicate Start(s: System) {
    && BoardInv(s.board)
    && s == System(Project(s.board.map_), s.board, [], [], EMPTY_REPLICA, true, 0, false, {})
  }

  // ---- the channel ----

  // Taking in the packets one by one leads from one copy to the other, and each response
  // lists the copy as it is when the response comes.
  ghost predicate Carries(v: Replica, channel: seq<Packet>, now: Replica)
    decreases |channel|
  {
    if channel == [] then v == now
    else
      match channel[0]
      case TileChanged(e) => Carries(Apply(v, e), channel[1..], now)
      case TileDataResponse(entries) => ListsCopy(entries, v) && Carries(v, channel[1..], now)
  }

  lemma {:induction false} CarriesMore(v: Replica, channel: seq<Packet>, mid: Replica, more: seq<Packet>, now: Replica)
    requires Carries(v, channel, mid)
    requires Carries(mid, more, now)
    ensures Carries(v, channel + more, now)
    decreases |channel|
  {
    if channel == [] {
      assert channel + more == more;
    } else {
      assert (channel + more)[0] == channel[0] && (channel + more)[1..] == channel[1..] + more;
      match channel[0]
      case TileChanged(e) => CarriesMore(Apply(v, e), channel[1..], mid, more, now);
      case TileDataResponse(_) => CarriesMore(v, channel[1..], mid, more, now);
    }
  }

  lemma {:induction false} CarriesEvents(v: Replica, events: seq<TileEvent>)
    ensures Carries(v, Packets(events), ApplyAll(v, events))
    decreases |events|
  {
    if events != [] {
      assert Packets(events)[1..] == Packets(events[1..]);
      CarriesEvents(Apply(v, events[0]), events[1..]);
    }
  }

  // ---- the invariant ----

  // What the client knows about a location its latest event has not been lost for: after a
  // response all there is to know, before it nothing that is wrong.
  ghost predicate KnowsAt(s: System, l: Location) {
    l in s.lost || if s.answered then SameAt(s.client, View(s), l) else PartAt(s.client, View(s), l)
  }

  ghost predicate Converging(s: System) {
    && BoardInv(s.board)
    && Carries(View(s), s.channel, Project(s.board.map_))
    && (forall l :: KnowsAt(s, l))
  }

  lemma StartConverges(s: System)
    requires Start(s)
    ensures Converging(s)
  {
  }

  lemma BoardStepConverges(s: System, step: Step)
    requires Converging(s)
    requires CanAct(s, BoardStep(step))
    ensures Converging(Act(s, BoardStep(step)))
  {
    hide BoardInv, Enabled, Next, Project, Carries, KnowsAt;
    var next := Next(s.board, step);
    var events := Emitted(s.board, step);
    StepKeepsBoard(s.board, step);
    assert next.sent[|s.board.sent|..] == events;
    BoardSizes(s.board);
    BoardSizes(next);
    CarriesEvents(Project(s.board.map_), events);
    CarriesMore(View(s), s.channel, Project(s.board.map_), Packets(events), Project(next.map_));
    SameKnowledge(s, Act(s, BoardStep(step)));
  }

  lemma BoardSizes(b: BoardState)
    requires BoardInv(b)
    ensures Tiled(b.map_) && SizesOk(b.map_.tiles)
  {
  }

  lemma SameKnowledge(s: System, t: System)
    requires forall l :: KnowsAt(s, l)
    requires t.start == s.start && t.delivered == s.delivered && t.client == s.client
    requires t.answered == s.answered && t.lost == s.lost
    ensures forall l :: KnowsAt(t, l)
  {
    forall l ensures KnowsAt(t, l) {
      assert KnowsAt(s, l);
    }
  }

  lemma AnswerConverges(s: System, entries: seq<TileEvent>)
    requires Converging(s)
    requires CanAct(s, Answer(entries))
    ensures Converging(Act(s, Answer(entries)))
  {
    hide BoardInv, Project, KnowsAt, ListsCopy;
    BoardSizes(s.board);
    var now := Project(s.board.map_);
    var more := [TileDataResponse(entries)];
    assert more[1..] == [];
    assert Carries(now, more, now);
    CarriesMore(View(s), s.channel, now, more, now);
    SameKnowledge(s, Act(s, Answer(entries)));
  }

  lemma ViewDelivered(s: System, e: TileEvent)
    ensures ApplyAll(s.start, s.delivered + [e]) == Apply(View(s), e)
  {
    ApplyAllConcat(s.start, s.delivered, [e]);
    ApplyOne(View(s), e);
  }

  lemma EventKnowledge(s: System, l: Location)
    requires KnowsAt(s, l)
    requires s.channel != [] && s.channel[0].TileChanged?
    ensures KnowsAt(Delivered(s), l)
  {
    hide ApplyAll;
    ViewDelivered(s, s.channel[0].event);
  }

  lemma ResponseKnowledge(s: System, l: Location)
    requires KnowsAt(s, l)
    requires s.channel != [] && s.channel[0].TileDataResponse?
    requires ListsCopy(s.channel[0].entries, View(s))
    ensures KnowsAt(Delivered(s), l)
  {
    hide ApplyAll, EmplaceAll, ListsCopy;
    EmplaceAllIsEmplace(s.client, s.channel[0].entries, View(s));
    EmplaceRightIff(s.client, View(s), l);
  }

  lemma DeliverConverges(s: System)
    requires Converging(s)
    requires CanAct(s, Deliver)
    ensures Converging(Act(s, Deliver))
  {
    hide BoardInv, Project, KnowsAt, ListsCopy, ApplyAll, EmplaceAll;
    BoardSizes(s.board);
    var p := s.channel[0];
    if p.TileChanged? {
      ViewDelivered(s, p.event);
    }
    forall l ensures KnowsAt(Delivered(s), l) {
      if p.TileChanged? {
        EventKnowledge(s, l);
      } else {
        ResponseKnowledge(s, l);
      }
    }
  }

  lemma ActConverges(s: System, a: Action)
    requires Converging(s)
    requires CanAct(s, a)
    ensures Converging(Act(s, a))
  {
    hide BoardInv, Project, KnowsAt, Carries;
    match a
    case BoardStep(step) => BoardStepConverges(s, step);
    case Ask => SameKnowledge(s, Act(s, a));
    case Answer(entries) => AnswerConverges(s, entries);
    case Deliver => DeliverConverges(s);
    case DropBoard => SameKnowledge(s, Act(s, a));
    case ResurrectBoard => SameKnowledge(s, Act(s, a));
  }

  // ---- runs ----

  ghost predicate Reaches(s: System, actions: seq<Action>, t: System)
    decreases |actions|
  {
    if actions == [] then s == t
    else CanAct(s, actions[0]) && Reaches(Act(s, actions[0]), actions[1..], t)
  }

  lemma {:induction false} RunConverges(s: System, actions: seq<Action>, t: System)
    requires Converging(s)
    requires Reaches(s, actions, t)
    ensures Converging(t)
    decreases |actions|
  {
    hide Converging;
    if actions != [] {
      ActConverges(s, actions[0]);
      RunConverges(Act(s, actions[0]), actions[1..], t);
    }
  }

  // In every run, once a response has come, the client is right about every location
  // whose latest event it has not dropped; and with an empty channel, right means as the
  // board is now.
  lemma ClientIsRight(s: System, actions: seq<Action>, t: System, l: Location)
    requires Start(s)
    requires Reaches(s, actions, t)
    requires t.answered && l !in t.lost
    ensures SameAt(t.client, View(t), l)
    ensures t.channel == [] ==> SizesOk(t.board.map_.tiles) && View(t) == Project(t.board.map_)
  {
    hide Start, Reaches, View, BoardInv, Project, SameAt;
    StartConverges(s);
    RunConverges(s, actions, t);
    assert KnowsAt(t, l);
    BoardSizes(t.board);
  }

  lemma {:induction false} NothingLost(s: System, actions: seq<Action>, t: System)
    requires s.live && s.lost == {}
    requires Reaches(s, actions, t)
    requires forall a :: a in actions ==> a != DropBoard
    ensures t.live && t.lost == {}
    decreases |actions|
  {
    hide EmplaceAll, Apply, Enabled, Next, Project, ListsCopy;
    if actions != [] {
      assert actions[0] in actions && forall a :: a in actions[1..] ==> a in actions;
      NothingLost(Act(s, actions[0]), actions[1..], t);
    }
  }

  // While the client keeps its board object, the response makes its copy equal to the
  // board as it was when the last message that was delivered was sent, although the
  // response does not overwrite what the client knew from events that came before it. When
  // all messages are delivered that is the board as it is.
  lemma CopyConverges(s: System, actions: seq<Action>, t: System)
    requires Start(s)
    requires Reaches(s, actions, t)
    requires forall a :: a in actions ==> a != DropBoard
    requires t.answered
    ensures t.client == View(t)
    ensures t.channel == [] ==> SizesOk(t.board.map_.tiles) && t.client == Project(t.board.map_)
  {
    hide Reaches, View, BoardInv, Project, SameAt;
    NothingLost(s, actions, t);
    ClientIsRight(s, actions, t, Location(0, 0));
    forall l ensures SameAt(t.client, View(t), l) {
      ClientIsRight(s, actions, t, l);
    }
    SameEverywhere(t.client, View(t));
  }

  // ---- what the user sees ----

  // The data shows the tile as it is.
  predicate Shows(d: TileData, t: Tile) {
    && d.id == t.id && d.rotate == t.rotate && d.state == t.reserved
    && d.Width() == t.width && d.Height() == t.height
  }

  // The copy has the data of each tile at its origin and nothing else, and the objects of
  // the active tiles.
  ghost predicate ShowsBoard(r: Replica, m: TileMap) {
    && (forall id :: id in m.tiles ==> var l := m.tiles[id].Origin(); l in r.data && Shows(r.data[l], m.tiles[id]))
    && (forall l :: l in r.data ==> l in m.cells && m.cells[l] in m.tiles && m.At(l).Origin() == l)
    && (forall l :: l in r.objects <==> l in r.data && IsActive(r.data[l].id))
    && (forall l :: l in r.objects ==> l in m.cells && r.objects[l] == m.cells[l])
  }

  lemma ProjectionShowsTile(m: TileMap, id: Id)
    requires Tiled(m)
    requires id in m.tiles
    ensures var l := m.tiles[id].Origin();
      l in Project(m).data && Shows(Project(m).data[l], m.tiles[id])
  {
    hide DataOf;
    OriginOf(m, id);
  }

  lemma ProjectionShowsBoard(m: TileMap)
    requires Tiled(m)
    ensures ShowsBoard(Project(m), m)
  {
    hide Tiled, DataOf, Shows;
    TiledSizes(m);
    forall id | id in m.tiles
      ensures var l := m.tiles[id].Origin(); l in Project(m).data && Shows(Project(m).data[l], m.tiles[id])
    {
      ProjectionShowsTile(m, id);
    }
  }

  // In every run that keeps the board object, once a response has come and all messages are
  // delivered, the client shows every tile of the board with its kind, rotation, size and
  // reserved state, and nothing else.
  lemma ClientShowsBoard(s: System, actions: seq<Action>, t: System)
    requires Start(s)
    requires Reaches(s, actions, t)
    requires forall a :: a in actions ==> a != DropBoard
    requires t.answered && t.channel == []
    ensures ShowsBoard(t.client, t.board.map_)
  {
    hide Start, Reaches, Project, ShowsBoard, KnowsAt, BoardInv, View;
    CopyConverges(s, actions, t);
    StartConverges(s);
    RunConverges(s, actions, t);
    BoardSizes(t.board);
    ProjectionShowsBoard(t.board.map_);
  }
}
