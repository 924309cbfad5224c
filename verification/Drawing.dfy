// The track as the client draws it, and the rails as the server connects them.
//
// client/src/board/tilepainter.cpp, client/src/utils/rectf.hpp
// server/src/board/tile/rail: getConnectors

module Drawing {
  import opened Tiles
  import opened TileMaps
  import opened RailGraph
  import opened Links
  import opened Track

  // ---- where things are drawn ----

  // Coordinates are in half cells, so that the middles of cells and of their sides and the
  // corners are points. y grows downwards.
  datatype Point = Point(x: int, y: int)

  datatype Rect = Rect(left: int, top: int, right: int, bottom: int)

  function RectOf(t: Tile): Rect {
    Rect(2 * t.x - 1, 2 * t.y - 1, 2 * (t.x + t.width) - 1, 2 * (t.y + t.height) - 1)
  }

  function Center(r: Rect): Point {
    Point((r.left + r.right) / 2, (r.top + r.bottom) / 2)
  }

  function TopCenter(r: Rect): Point {
    Point(Center(r).x, r.top)
  }

  function BottomCenter(r: Rect): Point {
    Point(Center(r).x, r.bottom)
  }

  function CenterLeft(r: Rect): Point {
    Point(r.left, Center(r).y)
  }

  function CenterRight(r: Rect): Point {
    Point(r.right, Center(r).y)
  }

  // ---- the pieces of track, by the points where they end ----

  function DrawnStraight(r: Rect, rotate: Rotation): set<Point> {
    if rotate == DEG_0 || rotate == DEG_180 then {BottomCenter(r), TopCenter(r)}
    else if rotate == DEG_45 || rotate == DEG_225 then {Point(r.left, r.bottom), Point(r.right, r.top)}
    else if rotate == DEG_90 || rotate == DEG_270 then {CenterLeft(r), CenterRight(r)}
    else {Point(r.right, r.bottom), Point(r.left, r.top)}
  }

  function DrawnCurve45(r: Rect, rotate: Rotation): set<Point> {
    if rotate == DEG_0 then {BottomCenter(r), Point(r.left, r.top)}
    else if rotate == DEG_45 then {Point(r.left, r.bottom), TopCenter(r)}
    else if rotate == DEG_90 then {CenterLeft(r), Point(r.right, r.top)}
    else if rotate == DEG_135 then {Point(r.left, r.top), CenterRight(r)}
    else if rotate == DEG_180 then {TopCenter(r), Point(r.right, r.bottom)}
    else if rotate == DEG_225 then {Point(r.right, r.top), BottomCenter(r)}
    else if rotate == DEG_270 then {CenterRight(r), Point(r.left, r.bottom)}
    else {Point(r.right, r.bottom), CenterLeft(r)}
  }

  // From the middle of a circle to a point on it, in steps of 45 degrees counterclockwise
  // from three o'clock: circles that are met sideways have a radius of half a cell, those
  // that are met in a corner one of half a diagonal.
  function Ray(step: nat): Point {
    var s := step % 8;
    if s == 0 then Point(1, 0)
    else if s == 1 then Point(1, -1)
    else if s == 2 then Point(0, -1)
    else if s == 3 then Point(-1, -1)
    else if s == 4 then Point(-1, 0)
    else if s == 5 then Point(-1, 1)
    else if s == 6 then Point(0, 1)
    else Point(1, 1)
  }

  function At(center: Point, dx: int, dy: int, step: nat): Point {
    Point(center.x + dx + Ray(step).x, center.y + dy + Ray(step).y)
  }

  // A quarter of a circle whose middle is (dx, dy) off the middle of the tile.
  function DrawnArc(r: Rect, dx: int, dy: int, start: nat): set<Point> {
    {At(Center(r), dx, dy, start), At(Center(r), dx, dy, start + 2)}
  }

  function DrawnCurve90(r: Rect, rotate: Rotation): set<Point> {
    if rotate == DEG_0 then DrawnArc(r, -1, 1, 0)
    else if rotate == DEG_45 then DrawnArc(r, -2, 0, 7)
    else if rotate == DEG_90 then DrawnArc(r, -1, -1, 6)
    else if rotate == DEG_135 then DrawnArc(r, 0, -2, 5)
    else if rotate == DEG_180 then DrawnArc(r, 1, -1, 4)
    else if rotate == DEG_225 then DrawnArc(r, 2, 0, 3)
    else if rotate == DEG_270 then DrawnArc(r, 1, 1, 2)
    else DrawnArc(r, 0, 2, 1)
  }

  // A buffer stop or a link: from here to the middle of the tile.
  function DrawnHalf(r: Rect, rotate: Rotation): set<Point> {
    if rotate == DEG_0 then {BottomCenter(r)}
    else if rotate == DEG_45 then {Point(r.left, r.bottom)}
    else if rotate == DEG_90 then {CenterLeft(r)}
    else if rotate == DEG_135 then {Point(r.left, r.top)}
    else if rotate == DEG_180 then {TopCenter(r)}
    else if rotate == DEG_225 then {Point(r.right, r.top)}
    else if rotate == DEG_270 then {CenterRight(r)}
    else {Point(r.right, r.bottom)}
  }

  function DrawnBlock(r: Rect, rotate: Rotation): set<Point> {
    if rotate == DEG_0 then {TopCenter(r), BottomCenter(r)}
    else if rotate == DEG_90 then {CenterLeft(r), CenterRight(r)}
    else {}
  }

  // The points where the track of a tile ends, as it is drawn.
  function Drawn(t: Tile): set<Point> {
    var r, a := RectOf(t), t.rotate;
    match t.id
    case RailStraight | RailTunnel | RailOneWay | RailDirectionControl | RailDecoupler
       | RailNXButton | RailSensor | RailSignal2Aspect | RailSignal3Aspect => DrawnStraight(r, a)
    case RailCurve45 => DrawnCurve45(r, a)
    case RailCurve90 => DrawnCurve90(r, a)
    case RailCross45 => DrawnStraight(r, a) + DrawnStraight(r, TurnBack(a, DEG_45))
    case RailCross90 => DrawnStraight(r, a) + DrawnStraight(r, TurnBack(a, DEG_90))
    case RailBridge45Left => DrawnStraight(r, a) + DrawnStraight(r, TurnBack(a, DEG_45))
    case RailBridge45Right => DrawnStraight(r, a) + DrawnStraight(r, Turn(a, DEG_45))
    case RailBridge90 => DrawnStraight(r, a) + DrawnStraight(r, Turn(a, DEG_90))
    case RailTurnoutLeft45 => DrawnCurve45(r, a) + DrawnStraight(r, a)
    case RailTurnoutLeft90 => DrawnCurve90(r, a) + DrawnStraight(r, a)
    case RailTurnoutLeftCurved => DrawnCurve90(r, a) + DrawnCurve45(r, a)
    case RailTurnoutRight45 => DrawnStraight(r, a) + DrawnCurve45(r, Turn(a, DEG_225))
    case RailTurnoutRight90 => DrawnStraight(r, a) + DrawnCurve90(r, Turn(a, DEG_270))
    case RailTurnoutRightCurved => DrawnCurve45(r, Turn(a, DEG_225)) + DrawnCurve90(r, Turn(a, DEG_270))
    case RailTurnoutWye => DrawnCurve45(r, a) + DrawnCurve45(r, Turn(a, DEG_225))
    case RailTurnout3Way => DrawnCurve45(r, a) + DrawnStraight(r, a) + DrawnCurve45(r, Turn(a, DEG_225))
    case RailTurnoutSingleSlip => DrawnCurve45(r, a) + DrawnStraight(r, a) + DrawnStraight(r, TurnBack(a, DEG_45))
    case RailTurnoutDoubleSlip =>
      DrawnCurve45(r, a) + DrawnStraight(r, a) + DrawnStraight(r, TurnBack(a, DEG_45)) +
      DrawnCurve45(r, Turn(a, DEG_180))
    case RailBufferStop | RailLink => DrawnHalf(r, a)
    case RailBlock => DrawnBlock(r, a)
    case None | PushButton | Label | Switch => {}
  }

  // ---- where rails are connected ----

  // The point of a cell's edge in a direction.
  function Edge(d: Direction): Point {
    match d
    case North => Point(0, -1)
    case NorthEast => Point(1, -1)
    case East => Point(1, 0)
    case SouthEast => Point(1, 1)
    case South => Point(0, 1)
    case SouthWest => Point(-1, 1)
    case West => Point(-1, 0)
    case NorthWest => Point(-1, -1)
  }

  function PointOf(c: Connector): Point {
    Point(2 * c.location.x + Edge(c.direction).x, 2 * c.location.y + Edge(c.direction).y)
  }

  function ConnectedAt(cs: seq<Connector>): set<Point> {
    set i | 0 <= i < |cs| :: PointOf(cs[i])
  }

  // A connector and its opposite are the same point, unless that is on the edge of the
  // sixteen bit grid.
  lemma OppositeIsSamePoint(c: Connector)
    requires -32768 < c.location.x < 32767 && -32768 < c.location.y < 32767
    ensures PointOf(Opposite(c)) == PointOf(c)
  {
    hide Narrow;
  }

  // A cell has one connector for each point on its edge.
  lemma SamePointSameConnector(c: Connector, d: Connector)
    requires c.location == d.location
    requires PointOf(c) == PointOf(d)
    ensures c == d
  {
  }

  // ---- what is drawn is what is connected ----

  function EndPoint(t: Tile, r: Rotation): Point {
    PointOf(Connector(t.Origin(), DirectionOf(r)))
  }

  predicate IsUnit(t: Tile) {
    t.width == 1 && t.height == 1
  }

  lemma StraightEnds(t: Tile, a: Rotation)
    requires IsUnit(t)
    ensures DrawnStraight(RectOf(t), a) == {EndPoint(t, a), EndPoint(t, Turn(a, DEG_180))}
  {
  }

  lemma Curve45Ends(t: Tile, a: Rotation)
    requires IsUnit(t)
    ensures DrawnCurve45(RectOf(t), a) == {EndPoint(t, a), EndPoint(t, Turn(a, DEG_135))}
  {
  }

  lemma Curve90Ends(t: Tile, a: Rotation)
    requires IsUnit(t)
    ensures DrawnCurve90(RectOf(t), a) == {EndPoint(t, a), EndPoint(t, Turn(a, DEG_90))}
  {
  }

  lemma HalfEnd(t: Tile)
    requires IsUnit(t)
    ensures DrawnHalf(RectOf(t), t.rotate) == {EndPoint(t, t.rotate)}
  {
  }

  lemma TurnTwice(r: Rotation, a: Rotation, b: Rotation)
    ensures Turn(Turn(r, a), b) == Turn(r, Turn(a, b))
    ensures a != 0 ==> TurnBack(r, a) == Turn(r, 8 - a)
    ensures Turn(r, DEG_0) == r
  {
    hide Turn, TurnBack, AxisOf;
    TurnCases(r, a);
    TurnCases(r, b);
    TurnCases(a, b);
    TurnCases(r, DEG_0);
    TurnCases(Turn(r, a), b);
    TurnCases(r, Turn(a, b));
    if a != 0 {
      TurnCases(r, 8 - a);
    }
  }

  // Where a connector of a tile with this turn is.
  function TurnedEnd(t: Tile, a: Rotation): Point {
    EndPoint(t, Turn(t.rotate, a))
  }

  lemma StraightAt(t: Tile, a: Rotation)
    requires IsUnit(t)
    ensures DrawnStraight(RectOf(t), Turn(t.rotate, a)) == {TurnedEnd(t, a), TurnedEnd(t, Turn(a, DEG_180))}
  {
    hide DrawnStraight, EndPoint, Turn;
    StraightEnds(t, Turn(t.rotate, a));
    TurnTwice(t.rotate, a, DEG_180);
  }

  lemma Curve45At(t: Tile, a: Rotation)
    requires IsUnit(t)
    ensures DrawnCurve45(RectOf(t), Turn(t.rotate, a)) == {TurnedEnd(t, a), TurnedEnd(t, Turn(a, DEG_135))}
  {
    hide DrawnCurve45, EndPoint, Turn;
    Curve45Ends(t, Turn(t.rotate, a));
    TurnTwice(t.rotate, a, DEG_135);
  }

  lemma Curve90At(t: Tile, a: Rotation)
    requires IsUnit(t)
    ensures DrawnCurve90(RectOf(t), Turn(t.rotate, a)) == {TurnedEnd(t, a), TurnedEnd(t, Turn(a, DEG_90))}
  {
    hide DrawnCurve90, EndPoint, Turn;
    Curve90Ends(t, Turn(t.rotate, a));
    TurnTwice(t.rotate, a, DEG_90);
  }

  lemma HalfAt(t: Tile)
    requires IsUnit(t)
    ensures DrawnHalf(RectOf(t), t.rotate) == {TurnedEnd(t, DEG_0)}
  {
    hide DrawnHalf, EndPoint;
    HalfEnd(t);
  }

  // The points of a list of turns.
  function PointsAt(t: Tile, turns: seq<Rotation>): set<Point> {
    set i | 0 <= i < |turns| :: TurnedEnd(t, turns[i])
  }

  lemma ConnectedAtTurns(t: Tile)
    requires t.id != RailBlock
    ensures ConnectedAt(Connectors(t)) == PointsAt(t, Turns(t.id))
  {
    var cs, turns := Connectors(t), Turns(t.id);
    assert |cs| == |turns|;
    forall i | 0 <= i < |turns| ensures PointOf(cs[i]) == TurnedEnd(t, turns[i]) {
    }
  }

  // What four turns add up to; fewer turns are given more than once.
  lemma PointsAtFour(t: Tile, turns: seq<Rotation>, a: Rotation, b: Rotation, c: Rotation, d: Rotation)
    requires turns == [a] || turns == [a, b] || turns == [a, b, c] || turns == [a, b, c, d]
    requires (|turns| <= 1 ==> b == a) && (|turns| <= 2 ==> c == a) && (|turns| <= 3 ==> d == a)
    ensures PointsAt(t, turns) == {TurnedEnd(t, a), TurnedEnd(t, b), TurnedEnd(t, c), TurnedEnd(t, d)}
  {
    hide TurnedEnd;
    assert turns[0] == a && a in turns && b in turns && c in turns && d in turns;
    forall x | x in turns ensures TurnedEnd(t, x) in PointsAt(t, turns) {
      var i :| 0 <= i < |turns| && turns[i] == x;
    }
  }

  lemma DrawnPlain(t: Tile)
    requires IsUnit(t)
    requires Turns(t.id) == [DEG_0, DEG_180] || t.id == RailCurve45 || t.id == RailCurve90 || Turns(t.id) == [DEG_0]
    ensures PointsAt(t, Turns(t.id)) == Drawn(t)
  {
    hide DrawnStraight, DrawnCurve45, DrawnCurve90, DrawnHalf, EndPoint, TurnedEnd, TurnBack, PointsAt;
    var turns := Turns(t.id);
    StraightAt(t, DEG_0);
    Curve45At(t, DEG_0);
    Curve90At(t, DEG_0);
    HalfAt(t);
    TurnTwice(t.rotate, DEG_0, DEG_0);
    var last := if |turns| == 1 then DEG_0 else turns[1];
    PointsAtFour(t, turns, DEG_0, last, DEG_0, DEG_0);
  }

  lemma DrawnCrossing(t: Tile)
    requires IsUnit(t)
    requires t.id == RailCross45 || t.id == RailBridge45Left || t.id == RailBridge45Right
    ensures PointsAt(t, Turns(t.id)) == Drawn(t)
  {
    hide DrawnStraight, DrawnCurve45, DrawnCurve90, DrawnHalf, EndPoint, TurnedEnd, Turn, TurnBack, PointsAt;
    var turns, r := Turns(t.id), t.rotate;
    var a := if t.id == RailBridge45Right then DEG_45 else DEG_315;
    TurnTwice(r, DEG_45, DEG_0);
    StraightAt(t, DEG_0);
    StraightAt(t, a);
    TurnCases(DEG_0, DEG_180);
    TurnCases(a, DEG_180);
    PointsAtFour(t, turns, turns[0], turns[1], turns[2], turns[3]);
  }

  lemma DrawnSquareCrossing(t: Tile)
    requires IsUnit(t)
    requires t.id == RailCross90 || t.id == RailBridge90
    ensures PointsAt(t, Turns(t.id)) == Drawn(t)
  {
    hide DrawnStraight, DrawnCurve45, DrawnCurve90, DrawnHalf, EndPoint, TurnedEnd, Turn, TurnBack, PointsAt;
    var turns, r := Turns(t.id), t.rotate;
    var a := if t.id == RailCross90 then DEG_270 else DEG_90;
    TurnTwice(r, DEG_90, DEG_0);
    StraightAt(t, DEG_0);
    StraightAt(t, a);
    TurnCases(DEG_0, DEG_180);
    TurnCases(a, DEG_180);
    PointsAtFour(t, turns, turns[0], turns[1], turns[2], turns[3]);
  }

  lemma DrawnTurnout(t: Tile)
    requires IsUnit(t)
    requires NodeSize(t.id) == 3
    ensures PointsAt(t, Turns(t.id)) == Drawn(t)
  {
    hide DrawnStraight, DrawnCurve45, DrawnCurve90, DrawnHalf, EndPoint, TurnedEnd, TurnBack, PointsAt;
    var turns := Turns(t.id);
    TurnTwice(t.rotate, DEG_0, DEG_0);
    StraightAt(t, DEG_0);
    Curve45At(t, DEG_0);
    Curve45At(t, DEG_225);
    Curve90At(t, DEG_0);
    Curve90At(t, DEG_270);
    PointsAtFour(t, turns, turns[0], turns[1], turns[2], turns[0]);
  }

  lemma DrawnThreeWay(t: Tile)
    requires IsUnit(t)
    requires t.id == RailTurnout3Way || t.id == RailTurnoutSingleSlip || t.id == RailTurnoutDoubleSlip
    ensures PointsAt(t, Turns(t.id)) == Drawn(t)
  {
    hide DrawnStraight, DrawnCurve45, DrawnCurve90, DrawnHalf, EndPoint, TurnedEnd, TurnBack, PointsAt;
    var turns := Turns(t.id);
    TurnTwice(t.rotate, DEG_45, DEG_0);
    StraightAt(t, DEG_0);
    StraightAt(t, DEG_315);
    Curve45At(t, DEG_0);
    Curve45At(t, DEG_180);
    Curve45At(t, DEG_225);
    PointsAtFour(t, turns, turns[0], turns[1], turns[2], turns[3]);
  }

  // A block lies along its rail, one cell wide and of any length.
  predicate IsBlockShape(t: Tile) {
    && (t.rotate == DEG_0 ==> t.width == 1)
    && (t.rotate == DEG_90 ==> t.height == 1)
  }

  lemma ConnectedAtTwo(cs: seq<Connector>)
    requires |cs| == 2
    ensures ConnectedAt(cs) == {PointOf(cs[0]), PointOf(cs[1])}
  {
    assert PointOf(cs[0]) in ConnectedAt(cs) && PointOf(cs[1]) in ConnectedAt(cs);
  }

  // A block's connectors are where its track ends exactly if it lies along its rail.
  lemma DrawnBlockIsConnectedIff(t: Tile)
    requires TileOk(t)
    requires t.id == RailBlock
    ensures ConnectedAt(Connectors(t)) == Drawn(t) <==> IsBlockShape(t)
    ensures t.rotate == DEG_0 || t.rotate == DEG_90 ==> |Connectors(t)| == NodeSize(t.id)
  {
    if |Connectors(t)| == 2 {
      ConnectedAtTwo(Connectors(t));
      assert PointOf(Connectors(t)[0]) in ConnectedAt(Connectors(t));
    }
  }

  // A block lies along its rail, a label may be of any size, and every other tile has one
  // cell.
  predicate IsShaped(t: Tile) {
    if t.id == RailBlock then IsBlockShape(t) else t.id == Label || IsUnit(t)
  }

  // A tile has its connectors where its track ends as it is drawn, for every kind, every
  // rotation and every size it may have.
  lemma DrawnIsConnected(t: Tile)
    requires TileOk(t)
    requires IsShaped(t)
    ensures ConnectedAt(Connectors(t)) == Drawn(t)
    ensures IsNode(t.id) && t.id != RailBlock ==> |Connectors(t)| == NodeSize(t.id)
  {
    hide Connectors, ConnectedAt, PointsAt, Drawn, TileOk, DrawnBlock;
    if t.id == RailBlock {
      DrawnBlockIsConnectedIff(t);
    } else {
      ConnectorsOnTile(t);
      ConnectedAtTurns(t);
      if Turns(t.id) == [] {
        DrawnNothing(t);
      } else if t.id == RailCross45 || t.id == RailBridge45Left || t.id == RailBridge45Right {
        DrawnCrossing(t);
      } else if t.id == RailCross90 || t.id == RailBridge90 {
        DrawnSquareCrossing(t);
      } else if NodeSize(t.id) == 3 {
        DrawnTurnout(t);
      } else if NodeSize(t.id) == 4 {
        DrawnThreeWay(t);
      } else {
        DrawnPlain(t);
      }
    }
  }

  lemma DrawnNothing(t: Tile)
    requires t.id != RailBlock && Turns(t.id) == []
    ensures PointsAt(t, Turns(t.id)) == Drawn(t)
  {
  }

  // The direction a connector leaves in, as a rotation.
  function AngleOf(d: Direction): Rotation {
    match d
    case South => DEG_0
    case SouthWest => DEG_45
    case West => DEG_90
    case NorthWest => DEG_135
    case North => DEG_180
    case NorthEast => DEG_225
    case East => DEG_270
    case SouthEast => DEG_315
  }

  // How far a connector is turned from the tile's own direction.
  function TurnOf(t: Tile, c: Connector): Rotation {
    TurnBack(AngleOf(c.direction), t.rotate)
  }

  lemma TurnOfEnd(t: Tile, a: Rotation)
    ensures TurnOf(t, Connector(t.Origin(), DirectionOf(Turn(t.rotate, a)))) == a
  {
    hide Turn, TurnBack;
    AngleOfDirection(Turn(t.rotate, a));
    TurnCases(t.rotate, a);
    TurnCases(Turn(t.rotate, a), t.rotate);
  }

  lemma AngleOfDirection(r: Rotation)
    ensures AngleOf(DirectionOf(r)) == r
  {
  }

  // The connectors of a tile are listed clockwise, from the one in its own direction on;
  // those of a block, from its origin on. With the points where they are that leaves nothing
  // open, and gives the links of a node their indices.
  lemma ConnectorsInOrder(t: Tile)
    requires TileOk(t)
    ensures var cs := Connectors(t);
      if t.id == RailBlock then
        |cs| == 2 ==> cs[0].location == t.Origin() && (cs[0].direction == North || cs[0].direction == West)
      else
        && (cs != [] ==> TurnOf(t, cs[0]) == DEG_0)
        && forall i, j :: 0 <= i < j < |cs| ==> TurnOf(t, cs[i]) < TurnOf(t, cs[j])
  {
    if t.id != RailBlock {
      hide DirectionOf, TurnOf, Turn;
      var cs, turns := Connectors(t), Turns(t.id);
      assert |cs| == |turns|;
      forall i | 0 <= i < |cs| ensures TurnOf(t, cs[i]) == turns[i] {
        TurnOfEnd(t, turns[i]);
      }
      TurnsIncrease(t.id);
    }
  }

  lemma TurnsIncrease(id: TileId)
    ensures var turns := Turns(id);
      && (turns != [] ==> turns[0] == DEG_0)
      && forall i, j :: 0 <= i < j < |turns| ==> turns[i] < turns[j]
  {
  }

  // What a straight can be upgraded to are the other kinds drawn like it, and blocks.
  lemma UpgradesAreDrawnAlike(t: Tile)
    requires IsUnit(t)
    requires t.rotate == DEG_0
    ensures CanUpgradeStraightRail(t.id) <==>
            t.id != RailStraight && Drawn(t) == DrawnStraight(RectOf(t), DEG_0)
  {
  }

  // ---- what is drawn is what is followed ----

  // A cell's connector belongs to its tile exactly if it is at a drawn end of the track.
  lemma DrawnEnd(t: Tile, c: Connector)
    requires TileOk(t) && IsShaped(t)
    requires Covers(t, c.location)
    ensures c in Connectors(t) <==> PointOf(c) in Drawn(t)
  {
    hide Drawn, Turns, TileOk, Narrow;
    DrawnIsConnected(t);
    if c in Connectors(t) {
      var i :| 0 <= i < |Connectors(t)| && Connectors(t)[i] == c;
      assert PointOf(Connectors(t)[i]) in ConnectedAt(Connectors(t));
    }
    if PointOf(c) in ConnectedAt(Connectors(t)) {
      var i :| 0 <= i < |Connectors(t)| && PointOf(Connectors(t)[i]) == PointOf(c);
      OnlyOneCell(t, c, Connectors(t)[i]);
    }
  }

  // A point where track ends is on the edge of one cell of the tile.
  lemma OnlyOneCell(t: Tile, c: Connector, d: Connector)
    requires TileOk(t) && IsShaped(t)
    requires Covers(t, c.location)
    requires d in Connectors(t) && PointOf(d) == PointOf(c)
    ensures c == d
  {
  }

  // All tiles of a board have the shape of their kind.
  ghost predicate Shaped(m: TileMap) {
    forall id :: id in m.tiles ==> IsShaped(m.tiles[id])
  }

  lemma DrawnEndOnBoard(m: TileMap, c: Connector)
    requires Tiled(m) && Shaped(m)
    requires c.location in m.cells
    ensures m.cells[c.location] in m.tiles
    ensures c in Connectors(m.At(c.location)) <==> PointOf(c) in Drawn(m.At(c.location))
  {
    hide Connectors, Drawn, IsShaped;
    var id := m.cells[c.location];
    assert Covers(m.tiles[id], c.location);
    DrawnEnd(m.tiles[id], c);
  }

  lemma OneOfTwo(cs: seq<Connector>, c: Connector, d: Connector)
    requires |cs| == 2 && cs[0] != cs[1]
    requires c in cs && d == cs[if cs[0] == c then 1 else 0]
    ensures ConnectedAt(cs) == {PointOf(c), PointOf(d)}
    ensures c != d && d in cs
  {
    ConnectedAtTwo(cs);
  }

  lemma PlainConnectors(t: Tile, c: Connector)
    requires !IsNode(t.id)
    requires c in Connectors(t)
    ensures c.location == t.Origin()
  {
  }

  lemma FirstOfOne(cs: seq<Connector>, c: Connector)
    requires |cs| <= 1 && c in cs
    ensures ConnectedAt(cs) == {PointOf(c)}
  {
  }

  // The rail passes through a tile that is not a node exactly if its track is drawn from
  // there to another point.
  lemma PassesIffDrawn(m: TileMap, c: Connector)
    requires Tiled(m) && Shaped(m)
    requires c.location in m.cells
    ensures m.cells[c.location] in m.tiles
    ensures var t := m.At(c.location);
      Passes(m, c) <==> !IsNode(t.id) && PointOf(c) in Drawn(t) && Drawn(t) != {PointOf(c)}
  {
    hide Connectors, Drawn, IsNode, ConnectedAt, PointOf;
    DrawnEndOnBoard(m, c);
    var t := m.At(c.location);
    TiledTile(m, c.location);
    ConnectorsOnTile(t);
    DrawnIsConnected(t);
    if !IsNode(t.id) && c in Connectors(t) {
      if |Connectors(t)| == 2 {
        PassesAlongTrack(m, c);
      } else {
        FirstOfOne(Connectors(t), c);
      }
    }
  }

  // It goes from one drawn end of the track to the other.
  lemma PassesAlongTrack(m: TileMap, c: Connector)
    requires Tiled(m) && Shaped(m)
    requires Passes(m, c)
    ensures var d := Exit(m, c);
      && Drawn(m.At(c.location)) == {PointOf(c), PointOf(d)}
      && d.location == c.location && PointOf(d) != PointOf(c)
  {
    hide Connectors, Drawn, ConnectedAt, PointOf;
    var id := m.cells[c.location];
    var t := m.tiles[id];
    var d := Exit(m, c);
    ConnectorsOnTile(t);
    DrawnIsConnected(t);
    OneOfTwo(Connectors(t), c, d);
    PlainConnectors(t, c);
    PlainConnectors(t, d);
    if PointOf(d) == PointOf(c) {
      SamePointSameConnector(c, d);
    }
  }

  // A node has an end exactly where its track is drawn to.
  lemma NodeEndIffDrawn(m: TileMap, c: Connector)
    requires Tiled(m) && Shaped(m)
    ensures OnNode(m, c) <==>
            && c.location in m.cells && m.cells[c.location] in m.tiles
            && IsNode(m.At(c.location).id) && PointOf(c) in Drawn(m.At(c.location))
  {
    hide Connectors, Drawn, IsNode, Tiled, Shaped;
    if c.location in m.cells {
      DrawnEndOnBoard(m, c);
    }
  }

  predicate OffEdge(l: Location) {
    -32768 < l.x < 32767 && -32768 < l.y < 32767
  }

  // If a tile's track is drawn from the end of one node to the end of another, a rebuild
  // links these ends with that tile between them, whichever end it starts from.
  lemma LinkedAsDrawn(m: TileMap, a: Connector, b: Connector)
    requires Tiled(m) && Shaped(m)
    requires OnNode(m, a) && OnNode(m, b)
    requires OffEdge(a.location) && OffEdge(b.location)
    requires var l := Opposite(a).location;
      && l in m.cells && !IsNode(m.At(l).id) && Opposite(b).location == l
      && Drawn(m.At(l)) == {PointOf(a), PointOf(b)} && PointOf(a) != PointOf(b)
    ensures var id := m.cells[Opposite(a).location];
      && StatusOf(m, EndOf(m, a)) == Joined(EndOf(m, b), [id])
      && StatusOf(m, EndOf(m, b)) == Joined(EndOf(m, a), [id])
  {
    hide Connectors, Drawn, IsNode, Tiled, Shaped, Passes, RouteEnd, RouteTiles, StatusOf, Following, Opposite, PointOf;
    RouteAsDrawn(m, a, b);
    RouteAsDrawn(m, b, a);
    ConnectorOfEnd(m, a);
    ConnectorOfEnd(m, b);
    ArrivedStatus(m, EndOf(m, a), b);
    ArrivedStatus(m, EndOf(m, b), a);
  }

  lemma RouteAsDrawn(m: TileMap, a: Connector, b: Connector)
    requires Tiled(m) && Shaped(m)
    requires OnNode(m, a) && OnNode(m, b)
    requires OffEdge(a.location) && OffEdge(b.location)
    requires var l := Opposite(a).location;
      && l in m.cells && !IsNode(m.At(l).id) && Opposite(b).location == l
      && Drawn(m.At(l)) == {PointOf(a), PointOf(b)} && PointOf(a) != PointOf(b)
    ensures RouteEnd(m, a) == Arrives(b)
    ensures RouteTiles(m, a) == [m.cells[Opposite(a).location]]
  {
    hide Connectors, Drawn, IsNode, Tiled, Shaped, RouteEnd, RouteTiles, Following, Opposite, PointOf, Exit;
    var c, d := Opposite(a), Opposite(b);
    OppositeIsSamePoint(a);
    OppositeIsSamePoint(b);
    PassesIffDrawn(m, c);
    PassesAlongTrack(m, c);
    SamePointSameConnector(Exit(m, c), d);
    OppositeIsInvolution(b);
    FollowingStarts(m, a);
    FollowingOn(m, a, [c], c, []);
    FollowingEnds(m, a, [c] + [b], b, [] + [m.cells[c.location]]);
  }

  // A rail that does not pass through a tile ends there if the tile's track is drawn from
  // there and to nowhere else, and fails the program's assertion if it is not drawn to there.
  lemma StopsAsDrawn(m: TileMap, c: Connector)
    requires Tiled(m) && Shaped(m)
    requires c.location in m.cells && m.cells[c.location] in m.tiles && !IsNode(m.At(c.location).id)
    requires !Passes(m, c)
    ensures Stop(m, c) == DeadEnd <==> Drawn(m.At(c.location)) == {PointOf(c)}
    ensures Stop(m, c) == AssertFails <==> PointOf(c) !in Drawn(m.At(c.location))
  {
    hide Connectors, Drawn, IsNode, ConnectedAt, PointOf;
    var t := m.At(c.location);
    PassesIffDrawn(m, c);
    DrawnEndOnBoard(m, c);
    TiledTile(m, c.location);
    ConnectorsOnTile(t);
    if c in Connectors(t) {
      OnlyConnector(Connectors(t), c);
    }
  }

  lemma OnlyConnector(cs: seq<Connector>, c: Connector)
    requires |cs| <= 2 && c in cs
    ensures cs == [c] <==> |cs| != 2
  {
  }

  // The trace behind a node's connector fails its assertion exactly if it runs against a
  // tile whose track is not drawn to where it comes from.
  lemma RouteFailsIffNotDrawn(m: TileMap, a: Connector)
    requires Tiled(m) && Shaped(m)
    requires OnNode(m, a)
    ensures var c := Last(Route(m, a));
      RouteEnd(m, a) == AssertFails <==>
        && c.location in m.cells && m.cells[c.location] in m.tiles
        && !IsNode(m.At(c.location).id) && PointOf(c) !in Drawn(m.At(c.location))
  {
    hide Connectors, Drawn, IsNode, PointOf, Passes, GraphOk;
    GraphOfOk(m);
    var c := Last(Route(m, a));
    TiledCells(m);
    if c.location in m.cells && !IsNode(m.At(c.location).id) {
      StopsAsDrawn(m, c);
    }
  }
}
