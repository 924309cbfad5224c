// Cells, rotations, tiles and their rail connectors.
//
// shared/src/traintastic/board/tilelocation.hpp, tileid.hpp, tiledata.hpp,
// shared/src/traintastic/enum/tilerotate.hpp, server/src/board/tile,
// server/src/board/map/connector.hpp

module Tiles {

  // ---- sixteen bit coordinates ----

  type Int16 = x: int | -32768 <= x < 32768

  // What is left of a value that is stored in an int16_t.
  function Narrow(x: int): (r: Int16)
    ensures -32768 <= x < 32768 ==> r == x
    ensures 32768 <= x < 98304 ==> r == x - 65536
    ensures -98304 <= x < -32768 ==> r == x + 65536
  {
    if -32768 <= x < 32768 then x else (x + 32768) % 65536 - 32768
  }

  datatype Location = Location(x: int, y: int)

  // ---- rotations, in steps of 45 degrees ----

  type Rotation = r: int | 0 <= r < 8

  const DEG_0: Rotation := 0
  const DEG_45: Rotation := 1
  const DEG_90: Rotation := 2
  const DEG_135: Rotation := 3
  const DEG_180: Rotation := 4
  const DEG_225: Rotation := 5
  const DEG_270: Rotation := 6
  const DEG_315: Rotation := 7

  function Turn(a: Rotation, b: Rotation): Rotation {
    (a + b) % 8
  }

  function TurnBack(a: Rotation, b: Rotation): Rotation {
    (a + 8 - b % 8) % 8
  }

  // A straight piece of track looks the same when it is turned half around.
  type Axis = a: int | 0 <= a < 4

  function AxisOf(r: Rotation): Axis {
    r % 4
  }

  lemma TurnCases(a: Rotation, b: Rotation)
    ensures Turn(a, b) == if a + b < 8 then a + b else a + b - 8
    ensures TurnBack(a, b) == if b <= a then a - b else a - b + 8
    ensures AxisOf(a) == if a < 4 then a else a - 4
  {
    assert b % 8 == b;
  }

  predicate IsDiagonal(r: Rotation) {
    r % 2 == 1
  }

  // The plain distance of the two values: 270 and 0 degrees differ by 270, not by 90.
  function Diff(a: Rotation, b: Rotation): Rotation {
    if a < b then b - a else a - b
  }

  // ---- tile kinds ----

  // None stands for no tile and, as a class id, for one that names no tile class.
  datatype TileId =
    | None
    | RailStraight | RailCurve45 | RailCurve90 | RailCross45 | RailCross90
    | RailTurnoutLeft45 | RailTurnoutRight45 | RailTurnoutWye | RailTurnout3Way
    | RailTurnoutSingleSlip | RailTurnoutDoubleSlip
    | RailSignal2Aspect | RailSignal3Aspect | RailBufferStop | RailSensor | RailBlock
    | RailTurnoutLeft90 | RailTurnoutRight90 | RailTurnoutLeftCurved | RailTurnoutRightCurved
    | RailBridge45Left | RailBridge45Right | RailBridge90
    | RailTunnel | RailOneWay | RailDirectionControl
    | PushButton | RailLink | RailDecoupler | RailNXButton | Label | Switch

  // The client keeps an object for an active tile.
  predicate IsActive(id: TileId) {
    match id
    case RailTurnoutLeft45 | RailTurnoutLeft90 | RailTurnoutLeftCurved
       | RailTurnoutRight45 | RailTurnoutRight90 | RailTurnoutRightCurved
       | RailTurnoutWye | RailTurnout3Way | RailTurnoutSingleSlip | RailTurnoutDoubleSlip
       | RailSignal2Aspect | RailSignal3Aspect | RailSensor | RailBlock
       | RailDirectionControl | PushButton | RailLink | RailDecoupler | RailNXButton
       | Label | Switch => true
    case _ => false
  }

  predicate CanUpgradeStraightRail(id: TileId) {
    match id
    case RailOneWay | RailDirectionControl | RailTunnel | RailBlock | RailSensor
       | RailSignal2Aspect | RailSignal3Aspect | RailDecoupler | RailNXButton => true
    case _ => false
  }

  // Kinds whose tile is a node of the track graph; the other rail tiles only pass rail on.
  predicate IsNode(id: TileId) {
    match id
    case RailCross45 | RailCross90 | RailBridge45Left | RailBridge45Right | RailBridge90
       | RailTurnoutLeft45 | RailTurnoutLeft90 | RailTurnoutLeftCurved
       | RailTurnoutRight45 | RailTurnoutRight90 | RailTurnoutRightCurved
       | RailTurnoutWye | RailTurnout3Way | RailTurnoutSingleSlip | RailTurnoutDoubleSlip
       | RailSignal2Aspect | RailSignal3Aspect | RailBlock | RailOneWay
       | RailDirectionControl | RailLink | RailDecoupler | RailNXButton => true
    case _ => false
  }

  // ---- tiles ----

  datatype Tile = Tile(
    id: TileId, x: int, y: int, rotate: Rotation,
    width: nat, height: nat, widthMax: nat, heightMax: nat,
    reserved: nat)
  {
    function Origin(): Location {
      Location(x, y)
    }
  }

  predicate Covers(t: Tile, l: Location) {
    t.x <= l.x < t.x + t.width && t.y <= l.y < t.y + t.height
  }

  // What the server tells its clients about a tile. Width and height are kept as four
  // bit numbers, one less than their value.
  datatype TileData = TileData(id: TileId, rotate: Rotation, size: nat, state: nat) {
    function Width(): nat {
      1 + size % 16
    }

    function Height(): nat {
      1 + size / 16
    }
  }

  const SIZE_LIMIT := 16

  function DataOf(t: Tile): (d: TileData)
    requires 1 <= t.width && 1 <= t.height
    ensures d.id == t.id && d.rotate == t.rotate && d.state == t.reserved
    ensures t.width <= SIZE_LIMIT && t.height <= SIZE_LIMIT ==> d.Width() == t.width && d.Height() == t.height
  {
    TileData(t.id, t.rotate, ((t.height - 1) * 16 + (t.width - 1) % 16) % 256, t.reserved)
  }

  const NO_TILE_DATA := TileData(None, DEG_0, 0, 0)

  // A tile as its class makes it, placed and turned. A block turns only to 0 or 90 degrees.
  function NewTile(id: TileId, x: int, y: int, rotate: Rotation): (t: Tile)
    ensures t.id == id && t.x == x && t.y == y && t.width == 1 && t.height == 1
    ensures id != RailBlock ==> t.rotate == rotate
  {
    if id == Label then
      Tile(id, x, y, rotate, 1, 1, 16, 16, 0)
    else if id == RailBlock then
      if rotate == DEG_90 then Tile(id, x, y, DEG_90, 1, 1, 16, 1, 0)
      else Tile(id, x, y, DEG_0, 1, 1, 1, 16, 0)
    else
      Tile(id, x, y, rotate, 1, 1, 1, 1, 0)
  }

  // ---- connectors ----

  // Compass directions, clockwise from north.
  datatype Direction = North | NorthEast | East | SouthEast | South | SouthWest | West | NorthWest

  datatype Connector = Connector(location: Location, direction: Direction)

  function Reverse(d: Direction): Direction {
    match d
    case North => South
    case NorthEast => SouthWest
    case East => West
    case SouthEast => NorthWest
    case South => North
    case SouthWest => NorthEast
    case West => East
    case NorthWest => SouthEast
  }

  function StepX(d: Direction): int {
    match d
    case NorthEast | East | SouthEast => 1
    case SouthWest | West | NorthWest => -1
    case North | South => 0
  }

  function StepY(d: Direction): int {
    match d
    case SouthEast | South | SouthWest => 1
    case NorthWest | North | NorthEast => -1
    case East | West => 0
  }

  function Neighbour(l: Location, d: Direction): Location {
    Location(Narrow(l.x + StepX(d)), Narrow(l.y + StepY(d)))
  }

  // The same point of the track, seen from the other side.
  function Opposite(c: Connector): Connector {
    Connector(Neighbour(c.location, c.direction), Reverse(c.direction))
  }

  // A track end that points up in an unrotated tile leaves at the bottom.
  function DirectionOf(r: Rotation): Direction {
    if r == DEG_0 then South
    else if r == DEG_45 then SouthWest
    else if r == DEG_90 then West
    else if r == DEG_135 then NorthWest
    else if r == DEG_180 then North
    else if r == DEG_225 then NorthEast
    else if r == DEG_270 then East
    else SouthEast
  }

  function Ends(t: Tile, turns: seq<Rotation>): seq<Connector> {
    seq(|turns|, i requires 0 <= i < |turns| => Connector(t.Origin(), DirectionOf(Turn(t.rotate, turns[i]))))
  }

  // The number of links a node keeps; none for a tile that is not a node.
  function NodeSize(id: TileId): nat {
    match id
    case RailLink => 1
    case RailSignal2Aspect | RailSignal3Aspect | RailBlock | RailOneWay
       | RailDirectionControl | RailDecoupler | RailNXButton => 2
    case RailTurnoutLeft45 | RailTurnoutLeft90 | RailTurnoutLeftCurved
       | RailTurnoutRight45 | RailTurnoutRight90 | RailTurnoutRightCurved
       | RailTurnoutWye => 3
    case RailCross45 | RailCross90 | RailBridge45Left | RailBridge45Right | RailBridge90
       | RailTurnout3Way | RailTurnoutSingleSlip | RailTurnoutDoubleSlip => 4
    case _ => 0
  }

  predicate IsInt16(l: Location) {
    -32768 <= l.x < 32768 && -32768 <= l.y < 32768
  }

  lemma OppositeIsInvolution(c: Connector)
    requires IsInt16(c.location)
    ensures Opposite(Opposite(c)) == c
    ensures Opposite(c) != c
    ensures IsInt16(Opposite(c).location)
  {
    hide Narrow;
    var d := c.direction;
    assert StepX(Reverse(d)) == -StepX(d) && StepY(Reverse(d)) == -StepY(d) && Reverse(Reverse(d)) == d;
    assert Reverse(d) != d;
    StepBack(c.location.x, StepX(d));
    StepBack(c.location.y, StepY(d));
  }

  lemma StepBack(x: int, k: int)
    requires -32768 <= x < 32768 && -1 <= k <= 1
    ensures Narrow(Narrow(x + k) - k) == x
  {
  }

  // A sound tile lies on the sixteen bit grid with all its cells.
  predicate TileOk(t: Tile) {
    && t.id != None
    && 1 <= t.width <= SIZE_LIMIT && 1 <= t.height <= SIZE_LIMIT
    && 1 <= t.widthMax <= SIZE_LIMIT && 1 <= t.heightMax <= SIZE_LIMIT
    && -32768 <= t.x && t.x + t.width < 32768
    && -32768 <= t.y && t.y + t.height < 32768
  }

  predicate DistinctTurns(turns: seq<Rotation>) {
    forall i, j :: 0 <= i < j < |turns| ==> turns[i] != turns[j]
  }

  lemma TurnedDirections(r: Rotation, a: Rotation, b: Rotation)
    requires a != b
    ensures DirectionOf(Turn(r, a)) != DirectionOf(Turn(r, b))
  {
  }

  lemma EndsOnTile(t: Tile, turns: seq<Rotation>)
    requires TileOk(t)
    requires DistinctTurns(turns)
    ensures forall i :: 0 <= i < |turns| ==> Covers(t, Ends(t, turns)[i].location) && IsInt16(Ends(t, turns)[i].location)
    ensures forall i, j :: 0 <= i < j < |turns| ==> Ends(t, turns)[i] != Ends(t, turns)[j]
  {
    forall i, j | 0 <= i < j < |turns| ensures Ends(t, turns)[i] != Ends(t, turns)[j] {
      TurnedDirections(t.rotate, turns[i], turns[j]);
    }
  }

  // The turns of a kind's connectors; a block's connectors are placed differently.
  function Turns(id: TileId): seq<Rotation> {
    match id
    case RailStraight | RailTunnel | RailOneWay | RailDirectionControl | RailDecoupler
       | RailNXButton | RailSensor | RailSignal2Aspect | RailSignal3Aspect => [DEG_0, DEG_180]
    case RailCurve45 => [DEG_0, DEG_135]
    case RailCurve90 => [DEG_0, DEG_90]
    case RailBufferStop | RailLink => [DEG_0]
    case RailBridge45Left | RailCross45 | RailTurnoutSingleSlip | RailTurnoutDoubleSlip =>
      [DEG_0, DEG_135, DEG_180, DEG_315]
    case RailBridge45Right => [DEG_0, DEG_45, DEG_180, DEG_225]
    case RailBridge90 | RailCross90 => [DEG_0, DEG_90, DEG_180, DEG_270]
    case RailTurnoutWye => [DEG_0, DEG_135, DEG_225]
    case RailTurnout3Way => [DEG_0, DEG_135, DEG_180, DEG_225]
    case RailTurnoutLeft45 => [DEG_0, DEG_135, DEG_180]
    case RailTurnoutLeft90 => [DEG_0, DEG_90, DEG_180]
    case RailTurnoutLeftCurved => [DEG_0, DEG_90, DEG_135]
    case RailTurnoutRight45 => [DEG_0, DEG_180, DEG_225]
    case RailTurnoutRight90 => [DEG_0, DEG_180, DEG_270]
    case RailTurnoutRightCurved => [DEG_0, DEG_225, DEG_270]
    case RailBlock | None | PushButton | Label | Switch => []
  }

  function Connectors(t: Tile): seq<Connector> {
    if t.id != RailBlock then
      Ends(t, Turns(t.id))
    else if t.rotate == DEG_0 then
      [Connector(t.Origin(), North), Connector(Location(t.x, Narrow(t.y + t.height - 1)), South)]
    else if t.rotate == DEG_90 then
      [Connector(t.Origin(), West), Connector(Location(Narrow(t.x + t.width - 1), t.y), East)]
    else
      []  // the program asserts that a block has no other rotation
  }

  // Connectors lie on their own tile and are distinct; a tile that is not a node has at
  // most two of them.
  lemma ConnectorsOnTile(t: Tile)
    requires TileOk(t)
    ensures forall i :: 0 <= i < |Connectors(t)| ==>
              Covers(t, Connectors(t)[i].location) && IsInt16(Connectors(t)[i].location)
    ensures forall i, j :: 0 <= i < j < |Connectors(t)| ==> Connectors(t)[i] != Connectors(t)[j]
    ensures !IsNode(t.id) ==> |Connectors(t)| <= 2
    ensures IsNode(t.id) && t.id != RailBlock ==> |Connectors(t)| == NodeSize(t.id)
  {
    assert DistinctTurns(Turns(t.id));
    EndsOnTile(t, Turns(t.id));
  }

  // The tiles of a board that only pass rail on, or have none.
  lemma PassiveKinds(id: TileId)
    ensures !IsNode(id) <==> NodeSize(id) == 0
    ensures !IsNode(id) <==>
            id in {None, RailStraight, RailCurve45, RailCurve90, RailTunnel, RailSensor, RailBufferStop,
                   PushButton, Label, Switch}
    ensures !IsActive(id) <==>
            id in {None, RailStraight, RailCurve45, RailCurve90, RailTunnel, RailBufferStop, RailOneWay,
                   RailCross45, RailCross90, RailBridge45Left, RailBridge45Right, RailBridge90}
  {
  }
}
