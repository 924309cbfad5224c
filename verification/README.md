# Traintastic: boards, their copies and their objects

Traintastic's server keeps boards of tiles, each tile covering a rectangle of cells. From the
rail tiles it computes links between the nodes of the track. Clients keep a copy of a board that
follows it by events, and hold the server's objects by counted handles. This project models these
parts and proves what they keep.

- **The board** (`Tiles`, `TileMap`, `Operations`, `BoardRuns`, `Bounds`, `SaveLoad`,
  `ServerBoard`). The class `Board` has the program's fields and loops. Every method is proved to
  compute a function of the old state, and the lemmas about that function say what it means: the
  cells are a disjoint union of the tiles' rectangles, a move is exact, saving and loading are
  inverse.
- **Links** (`RailGraph`, `Track`, `Links`, `BoardList`). The trace from connector to connector is
  a walk in a graph of reversible steps; it ends, visits no tile twice, and is the same from both
  ends. The links are a cache of the rails, over whole runs and whatever the iteration order.
- **The copy** (`Replica`, `ClientBoard`, `Convergence`). Events refine operations, queries on the
  copy refine those on the board, and in every run with messages in flight the copy converges.
- **Handles** (`Protocol`, `ReleaseProtocol`, `HandleNames`, `Connection`). Both sides and both channels are one
  state machine; releases are safe in every reachable state, and complete exactly when nothing
  was lost. `HandleNames` adds what the counts do not say: a handle names the object that was meant.
- **The track as it is drawn** (`Drawing`, `Shapes`, `TrackMerge`). For every kind, rotation and
  length the connectors are the ends of the track the client draws, so the trace follows what is
  seen; merging tiles keeps the track.
- **The byte stream** (`Framing`).

## Where the code does not do what it promises

`Findings`, `ReleaseProtocol`, `Shapes` and `TrackMerge` have a lemma for each of these; the one in
parentheses says exactly when the promise is kept.

- End coordinates are narrowed to sixteen bits before the limits are checked
  (`BoardRuns.PerformKeepsTiled`).
- A resize that grows in one direction and shrinks in the other erases cells it never looked at
  (`Operations.ResizeKeepsTiled`).
- A resize neither widens the stored bounding box (`Bounds.ResizeKeepsBoxIff`) nor looks at the
  board's limits (`Bounds.ResizeKeepsLimitsIff`).
- An add that fails can already have deleted the tile on the cell (`Replicas.FailedAddRefines`).
- `Link::connect` returns without disconnecting when the connector does not fit, so a link of which
  both ends stopped fitting stays (`Links.CurrentIffNoneStuck`).
- A response to a request for all tile data does not overwrite (`ClientBoards.EmplaceRightIff`).
- The comment in `connection.cpp` says that unequal counters mean a handle on the wire. Property and
  attribute changes are counted by the server only, and dropped messages by nobody
  (`ReleaseProtocol.WaitingIffLostOrDestroyed`, `ReleaseProtocol.MisreadIffDefinitionLost`).
- A move that turns a tile between 0 and 270 degrees does not swap its width and height, because
  the plain difference of the rotations is taken (`Findings.QuarterTurnSwapsIff`).
- A move turns a block without changing in which direction it may grow, so it can be made to grow
  across its rail (`Shapes.PerformKeepsFitIff`).
- A block can only be put down unturned or turned by 90 degrees, so adding one to a straight can
  change the track (`TrackMerge.AddConservesTrack`).

## Conventions

- Tile objects are records named by a number; the cell map and the board hold numbers, so several
  cells share one tile as they do in the program. A new object gets a number that is not in use.
- Assertions of the program are failures: a method that meets one returns false, and nothing is
  said about the state it stops in.
- Loops over hash maps take their elements in any order.
- The socket may give any positive number of the bytes that were asked for.

## Model

| member | source | states |
|---|---|---|
| Tiles.Narrow | server/src/board/board.cpp:98-99 | what is left of an end coordinate that is stored in sixteen bits, for every value a sum of two can have |
| Tiles.DataOf | shared/src/traintastic/board/tiledata.hpp:72-85 | the data have the tile's kind, rotation and reserved state, and the packed size gives back width and height for every tile of at most 16 by 16 cells |
| Tiles.OppositeIsInvolution | server/src/board/map/connector.cpp:39-42 | the opposite of an opposite is the connector itself, no connector is its own opposite, and no coordinate leaves the sixteen bit grid |
| Tiles.ConnectorsOnTile | server/src/board/tile/rail/blockrailtile.cpp:546-560 | for every kind of tile: connectors lie on the tile and are distinct, a tile that is not a node has at most two, a node that is not a block has one per link |
| Tiles.PassiveKinds | shared/src/traintastic/board/tileid.hpp:173-204 | which kinds are no nodes, which are exactly those without links, and of which the client keeps no object |
| TileMaps.TileOnCell | server/src/board/board.hpp:89-103 | on a tiled board the lookup on a cell finds a tile if and only if that tile covers the cell |
| Operations.LiftTiled | server/src/board/board.cpp:442-454 | taking a tile off keeps the board tiled |
| Operations.PlaceTiled | server/src/board/board.cpp:106-108 | a tile put on free cells keeps the board tiled if and only if it fits the grid |
| Operations.ClearFromEffect | server/src/board/board.cpp:151-160 | the scan over the target of a move, which deletes while it scans, leaves the board without exactly the other tiles that meet the cells it visits |
| Operations.ClearEffect | server/src/board/board.cpp:151-160 | the whole scan deletes exactly the tiles other than the moved one that meet the target rectangle |
| Operations.MoveEffect | server/src/board/board.cpp:115-186 | move_tile either fails and changes nothing, or deletes exactly the other tiles meeting the target (none without replace) and gives the moved tile, shifted by the difference of the two cells and taken off its old ones, exactly the target's cells |
| Operations.GoalIsShifted | server/src/board/board.cpp:122-149 | the corrected coordinates are the tile's own plus the difference of the two cells in sixteen bits, and there is a goal if and only if the tile may be turned like that and passes the limits |
| Operations.MovedTile | server/src/board/board.cpp:115-186 | after a successful move the tile's origin differs from the old one by as much as the two cells differ, if its end coordinates fit sixteen bits; it has the requested rotation, and its kind, state and maximum sizes stay; the other tiles that stay are exactly those without a cell in the target, and they are unchanged |
| Operations.TargetIsFree | server/src/board/board.cpp:173-180 | after clearing and lifting, every target cell is free: the assertion in the placing loop never fails, also when the target overlaps the source |
| Operations.MoveSucceedsIff | server/src/board/board.cpp:115-160 | move_tile succeeds, and marks the board modified, if and only if there is a tile, it is square or not turned to lie diagonally, the shifted coordinates pass the limits, and no other tile covers a cell of the target or replace is set |
| Operations.DeleteEffect | server/src/board/board.cpp:236-248 | delete_tile takes off exactly the tile on the cell and reports it, or does nothing |
| Operations.AddSucceedsIff | server/src/board/board.cpp:45-105 | for every cell with sixteen bit coordinates: add_tile succeeds if and only if the class exists, each coordinate is within the limits or is 32767, and a tile on the cell is to be replaced or can be merged |
| Operations.MergesIff | server/src/board/board.cpp:56-85 | a straight merges with exactly the straights that are not parallel, into the bridge named by the angle between them with the old rotation, and with exactly the extras that are parallel, into the extra with the requested rotation |
| Operations.NewTileIsNew | server/src/board/tile/rail/blockrailtile.cpp:562-579 | a tile as it is made: one cell, the requested rotation except for a block, which turns to 90 degrees only; a block can grow along its rail, a label both ways, nothing else |
| Operations.AddEffect | server/src/board/board.cpp:45-114 | a successful add takes off at most the tile that was on the cell and leaves all others and their cells as they are; the new tile has kind and rotation as requested, or as merging says in terms of the angle, and exactly that one cell, or none at all in the last row or column that sixteen bits can name; the events and their order |
| Operations.ResizeSucceedsIff | server/src/board/board.cpp:187-215 | resize_tile succeeds if and only if the cell is a tile's origin, the size is allowed, and no other tile covers a cell of the new rectangle, whether it grows or not (a rectangle that does not fit sixteen bits is not looked at); otherwise nothing changes |
| Operations.ResizeEffect | server/src/board/board.cpp:187-235 | a successful resize changes only that tile's size; its cells are then exactly those of the new rectangle, and every other cell keeps its tile unless it is torn off; a size that does not fit sixteen bits changes no cell |
| Operations.MoveKeepsTiled | server/src/board/board.cpp:115-186 | move_tile keeps the board tiled if and only if it cannot succeed on these arguments, or the moved tile's end coordinates fit sixteen bits |
| Operations.AddKeepsTiled | server/src/board/board.cpp:45-114 | add_tile keeps the board tiled if and only if it cannot succeed on these arguments, or the cell is not in the last row or column that sixteen bits can name |
| Operations.DeleteKeepsTiled | server/src/board/board.cpp:236-248 | delete_tile keeps the board tiled |
| Operations.DeleteFrees | server/src/board/board.cpp:236-248 | after delete_tile the cell is free, no tile is new, and the call reports success |
| Operations.ResizeKeepsTiled | server/src/board/board.cpp:187-235 | resize_tile keeps the board tiled if and only if it cannot succeed on these arguments, or the new end coordinates fit and no other tile has a cell in the corner outside both footprints |
| Operations.ResizedMap | server/src/board/board.cpp:217-230 | without a tile in that corner, the rewriting loop equals taking the tile off and putting it back with its new size |
| Operations.TornOffBreaksTiling | server/src/board/board.cpp:224-229 | a tile in that corner stays an object of the board but loses cells |
| Operations.ReserveKeepsTiled | server/src/board/tile/rail/railtile.cpp:31-39 | a change of a tile's reserved state keeps the board tiled |
| Operations.ReserveEffect | server/src/board/tile/rail/railtile.cpp:31-39 | the tile has the given state and nothing else of the board changes; an event is sent if and only if it had another one; links need not be rebuilt |
| BoardRuns.PerformKeepsTiled | server/src/board/board.cpp:45-248 | over all operations: the cells stay a disjoint union of the tiles' rectangles if and only if the call is sound |
| BoardRuns.PerformRefines | server/src/board/board.cpp:45-248 | the emitted (origin, data) events of any sound operation, folded over the copy of the old board, give the copy of the new one |
| BoardRuns.SoundKeepsValid | server/src/board/board.cpp:45-248 | every sound operation keeps the board tiled and every link held by exactly the two nodes it joins, at indices they have |
| BoardRuns.OperateKeepsBoardInv | server/src/board/board.cpp:45-248 | no operation leaves the modified flag off while the links differ from the rails |
| BoardRuns.RebuildKeepsBoardInv | server/src/board/board.cpp:371-440 | a rebuild, also a forced one of an unmodified board, establishes that the links are a cache of the rails |
| BoardRuns.LoadedBoardInv | server/src/board/board.cpp:303-330 | a board that was loaded from tiles that do not overlap satisfies what every run starts from |
| BoardRuns.StepKeepsBoard | server/src/board/board.cpp:45-248 | one operation or rebuild keeps tiling and cache, only adds to the signals sent, and what it adds turns a copy of the board before into one of the board after |
| BoardRuns.RunKeepsBoard | server/src/board/board.cpp:45-440 | for every run of operations, rebuilds and forced rebuilds: the board stays tiled, links are a cache whenever the flag is off, and the signals sent during the run turn a copy of the first board into one of the last |
| Bounds.ResizeKeepsBoxIff | server/src/board/board.cpp:187-235 | for every tiled board and every box around its cells: after a successful resize the box is still around them if and only if the new rectangle's last column and row are in it, or its end coordinates do not fit sixteen bits |
| Bounds.BoxEncloses | server/src/board/board.cpp:484-490 | a box that follows the cells of a board with a tile left contains the old box |
| Bounds.BoxFollowsTwice | server/src/board/board.cpp:484-490 | following the cells and then more cells is following all of them: the box is the least one around the old box and the cells |
| Bounds.BoxStays | server/src/board/board.cpp:484-490 | a box that contains every cell stays exactly as it is |
| Bounds.ResizeKeepsLimitsIff | server/src/board/board.cpp:187-235 | a resize keeps all tiles within the board's limits if and only if it cannot succeed, or the new end coordinates are below them |
| Bounds.PerformKeepsLimitsIff | server/src/board/board.cpp:45-248 | every sound operation keeps all tiles within the limits, except exactly a resize that lets a tile grow out of them |
| Replicas.LiftRefines | server/src/board/board.cpp:453 | the event of removeTile turns the copy of the board with the tile into that of the board without it |
| Replicas.PlaceRefines | server/src/board/board.cpp:110 | the event of a tile put on free cells does the same in the other direction |
| Replicas.FailedAddRefines | server/src/board/board.cpp:86-105 | a failing add leaves the board as it is if and only if the cell is free, or the tile on it is neither to be replaced nor can be merged; otherwise it is that tile's deletion, with its event |
| Replicas.MoveRefines | server/src/board/board.cpp:115-186 | the events of a move, with any number of deleted tiles and with a target overlapping the source, bring the copy from the old to the new board |
| Replicas.AddRefines | server/src/board/board.cpp:45-114 | the events of every add that keeps the board tiled, failing or not, with or without a replaced or merged tile, bring the copy from the old to the new board |
| Replicas.ResizeRefines | server/src/board/board.cpp:187-235 | one event is enough for a resize that keeps the board tiled |
| Replicas.ReserveRefines | server/src/board/tile/rail/railtile.cpp:31-39 | the event of a reserved state brings the copy up to date |
| SaveLoad.LoadedCell | server/src/board/board.cpp:303-330 | a cell is occupied after loading exactly if it was before or a listed tile claims it, and by the tile it had or one that claims it |
| SaveLoad.LoadedIsTiled | server/src/board/board.cpp:303-330 | loading sound tiles in any order gives a tiled board if and only if no two of them overlap |
| SaveLoad.CellsAreUnique | server/src/board/board.hpp:89-103 | the tiles determine the cell map of a tiled board |
| SaveLoad.LoadUndoesSave | server/src/board/board.cpp:303-346 | loading what was saved rebuilds the identical cell map, whatever the order of the list |
| RailGraph.NoRepeat | server/src/board/board.cpp:385-408 | a trace never enters the same connector twice |
| RailGraph.NoReturn | server/src/board/board.cpp:385-408 | a trace never enters a tile through the connector it left it by |
| RailGraph.TilesOnce | server/src/board/board.cpp:385-408 | a trace passes each tile at most once |
| RailGraph.TraceTerminates | server/src/board/board.cpp:385-408 | behind every node connector the trace stops after at most as many steps as there are tiles it can pass |
| RailGraph.TraceIsUnique | server/src/board/board.cpp:385-408 | any finished walk is the trace |
| RailGraph.TraceIsSymmetric | server/src/board/board.cpp:376-411 | if the trace from a ends at node connector b through T, the trace from b ends at a through T reversed, and b is not a |
| RailGraph.TracesShareNoTile | server/src/board/board.cpp:376-411 | two traces that share a tile are the same one, in the same or the opposite direction |
| Track.GraphOfOk | server/src/board/board.cpp:393-407 | every tiled board meets the assumptions of the graph argument: passing through a tile can be undone, and connectors of nodes are apart from those of other tiles |
| Track.RouteVisitsOnce | server/src/board/board.cpp:385-408 | on every tiled board a link's tiles are distinct, none is a node, and there are at most as many as tiles that are not nodes |
| Track.RouteIsSymmetric | server/src/board/board.cpp:376-411 | the rail from b back to a passes the same tiles in reverse |
| Track.RoutesShareNoTile | server/src/board/board.cpp:376-411 | links with different ends share no tile |
| Track.RailsLeadBack | server/src/board/board.cpp:376-432 | where the rail of each node connector leads, leads back to it through the reversed tiles |
| Track.FollowingOn | server/src/board/board.cpp:393-407 | one turn of the loop that grows the tiles vector keeps it the tiles passed by a walk, and there can be no more turns than tiles |
| Track.FollowingEnds | server/src/board/board.cpp:385-411 | where the loop stops is where the rail leads, and the vector holds the tiles of the route |
| Track.FacingStatus | server/src/board/board.cpp:387-392 | a connector that faces a node tile is joined to it through no tiles, or does not fit it |
| Track.CheckedAll | server/src/board/board.cpp:419-431 | if no assertion failed for any node, none can fail on this board |
| Track.SameRailsSameStatus | server/src/board/board.cpp:376-411 | where rails lead depends on nothing but the tiles' kinds and connectors |
| Links.DisconnectKeepsPaired | server/src/board/map/node.cpp:99-103 | disconnecting one end takes the link off both its nodes and touches no other link |
| Links.DisconnectingEnds | server/src/board/map/node.cpp:33-38 | once all links of a node are disconnected, what is left are exactly the links between other tiles |
| Links.UpdateKeepsUpdating | server/src/board/map/link.cpp:43-75 | updating the link of one connector, in any order, spoils no link that is right already except those of the ends it joins |
| Links.UpdatedAll | server/src/board/board.cpp:413-432 | when all connectors were updated, every link is that of its rail, except links whose two ends both do not fit |
| Links.CurrentIffNoneStuck | server/src/board/map/link.cpp:52-53 | a rebuild gets every link right if and only if there was no link before of which both ends now lead to node tiles without a fitting connector |
| Links.FirstRebuildIsCurrent | server/src/board/board.cpp:363-369 | the first rebuild of a board gets every link right |
| Links.RebuiltIsCached | server/src/board/board.cpp:371-440 | whatever links there were, only links of which neither end fits can be out of date |
| ServerBoard.Board.constructor | server/src/board/board.hpp:60-78 | a new board is empty, unmodified, and has an empty box |
| ServerBoard.Board.EraseArea | server/src/board/board.cpp:450-452 | the nested loop erases exactly the cells of its rectangle |
| ServerBoard.Board.FillArea | server/src/board/board.cpp:173-180 | the nested loop writes exactly the cells of its rectangle, and its assertion holds where it is made |
| ServerBoard.Board.RemoveTile | server/src/board/board.cpp:442-454 | from any cell of a tile, all its cells are erased and its origin is reported |
| ServerBoard.Board.DestroyTile | server/src/board/map/node.cpp:33-38 | the loop of the node's destructor, link by link, takes exactly the links that the tile holds off both their nodes |
| ServerBoard.Board.DeleteTile | server/src/board/board.cpp:236-248 | the new state is that of the deletion; the box does not shrink while a tile is left, and contains every cell |
| ServerBoard.Board.MakeRoom | server/src/board/board.cpp:49-88 | what is on the board, and what is still to be made, after the first half of add_tile; without success nothing changed |
| ServerBoard.Board.CreateTile | server/src/board/board.cpp:90-113 | succeeds exactly for a known class within the limits; states the whole new board and that the box grows just to contain its cells |
| ServerBoard.Board.MergeTile | server/src/board/board.cpp:56-85 | computes what the present tile and the added one are merged into, or that they are not |
| ServerBoard.Board.AddTile | server/src/board/board.cpp:45-114 | result and the whole new state, links and signals included, of every add, also of one that fails after deleting; the box is the least one around the old box and the cells, and starts anew only if the last tile was taken off first |
| ServerBoard.Board.FindGoal | server/src/board/board.cpp:122-149 | the tile as it is to be after a move, or why there can be none |
| ServerBoard.Board.ClearTarget | server/src/board/board.cpp:151-160 | deletes what is in the way or, without replace, changes nothing and finds out if something is |
| ServerBoard.Board.Relocate | server/src/board/board.cpp:162-184 | moves the tile to free cells; the old cells and the event order are exact |
| ServerBoard.Board.MoveTile | server/src/board/board.cpp:115-186 | result and the whole new state of every move; after a successful one the box contains the old box and, if that contained the cells, is the least one around it and the cells; otherwise it stays |
| ServerBoard.Board.HasRoom | server/src/board/board.cpp:203-211 | the scan finds room exactly if no other tile has a cell in the area |
| ServerBoard.Board.RewriteArea | server/src/board/board.cpp:217-230 | the loop writes exactly the cells inside the new size and erases the others of the larger rectangle |
| ServerBoard.Board.ResizeTile | server/src/board/board.cpp:187-235 | result and the whole new state of every resize; the stored box, which is not changed, contains every cell afterwards if and only if the tile has not grown out of it |
| ServerBoard.Board.SetReservedState | server/src/board/tile/rail/railtile.cpp:31-39 | a changed state is reported, an unchanged one is not |
| ServerBoard.Board.FollowRail | server/src/board/board.cpp:376-408 | the loop ends on every tiled board; it arrives exactly where the rail leads, with the tiles on the way, or meets a failing assertion exactly when the rail does |
| ServerBoard.Board.UpdateLink | server/src/board/board.cpp:376-411 | the links afterwards are those of one update with where the rail leads |
| ServerBoard.Board.UpdateNode | server/src/board/board.cpp:417-431 | all connectors of one node are brought up to date |
| ServerBoard.Board.Modified | server/src/board/board.cpp:371-440 | does nothing if unmodified; otherwise, for every iteration order, it completes if and only if the board meets the assertions, and then every link is rebuilt and the flag is off; it is a step of a run |
| ServerBoard.Board.Loaded | server/src/board/board.cpp:363-369 | rebuilds whatever the flag was; from no links it leaves every link right |
| ServerBoard.Board.Load | server/src/board/board.cpp:303-330 | the nested loops with emplace compute the loaded cell map |
| ServerBoard.Board.Save | server/src/board/board.cpp:332-346 | the list names every tile exactly once |
| ServerBoard.Board.UpdateSize | server/src/board/board.cpp:456-504 | without shrinking, the box is the least one that contains the old box and the cells' extent within the limits; with shrinking it is that extent; an empty board has an empty box |
| ServerBoard.Board.ResizeToContents | server/src/board/board.cpp:249-253 | the box becomes the clamped extent of the cells, which on a non-empty board within the limits is the exact extent |
| ServerBoard.FindExtent | server/src/board/board.cpp:460-479 | the scan finds the exact minima and maxima in whatever order the cells come, although it tests maxima only when a minimum did not change |
| Extent.ExtentIsUnique | server/src/board/board.cpp:456-504 | a set of cells has only one extent |
| Extent.ExtentExists | server/src/board/board.cpp:456-504 | every non-empty set of cells has an extent |
| BoardList.BoardList.AnyModified | server/src/board/boardlist.cpp:78-86 | finds out if any board is modified |
| BoardList.BoardList.RebuildAll | server/src/board/boardlist.cpp:87-94 | completes if and only if every board meets the assertions, and then every board is unchanged but for rebuilt links |
| BoardList.BoardList.HandleWorldEvent | server/src/board/boardlist.cpp:60-103 | after Run or EditDisabled no board is modified and every board's links are a cache; if any board was modified this completes if and only if every board meets the assertions, and each board has made a forced rebuild; otherwise, and on other events, no board changes |
| BoardList.Renew | server/src/board/boardlist.cpp:91-92 | a forced rebuild of one board |
| ClientBoards.EmplaceAllIsEmplace | client/src/network/board.cpp:114-128 | a response in any order adds exactly what the client does not know yet |
| ClientBoards.EmplaceRightIff | client/src/network/board.cpp:122-125 | a response makes a location right if and only if what the client knew about it was right already |
| ClientBoards.CoveringData | client/src/network/board.cpp:52-58 | in the copy of a tiled board, an origin's data covers a cell exactly if the tile on that cell has this origin |
| ClientBoards.Board.GetTileDataResponse | client/src/network/board.cpp:114-128 | the copy afterwards, for any list of tiles |
| ClientBoards.Board.ProcessMessage | client/src/network/board.cpp:130-165 | one event applied to data and objects |
| ClientBoards.Board.GetTileOrigin | client/src/network/board.cpp:47-61 | for every iteration order: finds a covering tile exactly if there is one, and on the copy of a tiled board exactly the origin of the server's tile |
| ClientBoards.Board.GetTileId | client/src/network/board.cpp:63-77 | on the copy of a tiled board, the id of the server's tile or none, for every location and order |
| ClientBoards.Board.GetTileObject | client/src/network/board.cpp:79-92 | although the scan does not stop: on the copy of a tiled board, the object of the server's tile if that is active, and none otherwise |
| ClientBoards.ListTileData | server/src/network/session.cpp:603-623 | the server's answer lists exactly the copy of its board, each tile at its origin |
| Convergence.ActConverges | server/src/network/session.cpp:1135-1149 | every step of server, client and channel keeps: the channel leads from the client's view to the board, and the client is right about all locations it lost nothing of |
| Convergence.ClientIsRight | client/src/network/board.cpp:114-161 | in every run, also with the object dropped and used again, once a response has come the client is right about every location whose latest event it did not drop |
| Convergence.CopyConverges | client/src/network/board.cpp:114-161 | in every run that keeps the board object, after a response the copy equals the fold of all events delivered, and the board itself when all messages are; not overwriting is harmless |
| Convergence.ClientShowsBoard | client/src/network/board.cpp:114-161 | then the client has data exactly at the origins of the board's tiles, and they show the kind, rotation, width, height and reserved state of the tile |
| ReleaseProtocol.WriteObjectsEffect | server/src/network/session.cpp:704-712 | each object written is counted once, and defined exactly when it is new to the session |
| ReleaseProtocol.ReadObjectsEffect | client/src/network/connection.cpp:457-499 | reading announced objects counts each once; it fails exactly on a bare reference to an object whose definition was skipped |
| ReleaseProtocol.StepKeepsInv | server/src/network/session.cpp:117-141 | every step of either side keeps the accounts: server counter = client counter + uses in flight + uses lost, with definitions first, and confirmations only for pending handles |
| ReleaseProtocol.RunKeepsInv | server/src/network/session.cpp:117-141 | so does every run |
| ReleaseProtocol.AcceptedReleaseIsSafe | server/src/network/session.cpp:117-141 | in every reachable state: when the server accepts a release, no message in flight carries the handle, none was lost, and the client holds the object only as pending |
| ReleaseProtocol.ConfirmationFreesOnlyPending | client/src/network/connection.cpp:740-746 | in every reachable state: a confirmation in flight is the only one, its handle is pending and not live, and no message carries it |
| ReleaseProtocol.ClientBookkeeping | client/src/network/connection.cpp:463-499 | in every reachable state live and pending are disjoint and are the counted handles, counters are positive, and a counter above one after the non-live branch means the object was reused |
| ReleaseProtocol.MisreadIffDefinitionLost | client/src/network/connection.cpp:463-480 | the client misreads the next message if and only if it reads a bare reference to an object whose definition it skipped |
| ReleaseProtocol.WaitingIffLostOrDestroyed | client/src/network/connection.cpp:660-661 | at rest, a handle that is not live is still waiting for its release if and only if a use of it was lost or the server destroyed the object first |
| ReleaseProtocol.CountersDifferByLost | server/src/network/session.cpp:124 | with nothing on its way to the client the server's counter is ahead by exactly the lost uses |
| ReleaseProtocol.LosslessRunsSettle | client/src/network/connection.cpp:463-495 | a run that loses nothing never misreads and, at rest, both sides agree on every counter and nothing is waiting, however often objects were dropped and used again |
| ReleaseProtocol.LostIsNeverFreed | client/src/network/connection.cpp:975-977 | once a counted use was dropped, the object is never freed in any continuation |
| ReleaseProtocol.PropertyChangeLeaks | server/src/network/session.cpp:884-890 | a reachable run: one property change, which the server counts and the client does not, leaves the object pending for good |
| ReleaseProtocol.CancelledRequestMisread | client/src/network/connection.cpp:183-190 | a reachable run: after a cancelled request the client misreads the next response about the same object |
| HandleNames.WrittenHandlesName | server/src/network/session.cpp:700-722 | each object is written under the handle that the table then has for it, in order, and no earlier handle changes its object or is given out again |
| HandleNames.OwnHandle | server/src/network/handlelist.hpp:86-98 | looking a handle up gives the object's own and changes no table but its counter |
| HandleNames.EventNamesSource | server/src/network/session.cpp:1135-1149 | an event carries the handle of its own source, and the objects in it theirs |
| HandleNames.ChangeNamesSource | server/src/network/session.cpp:881-890 | a property change carries the handle of its own object |
| HandleNames.DestroyForgetsExactly | server/src/network/session.cpp:870-879 | the destruction of an object carries its handle and removes exactly this object from the tables |
| HandleNames.RecordKeepsNamed | server/src/network/session.cpp:700-722 | every step of both sides keeps each message on its way naming what the server meant by it, and each handle of the client standing for the object the server gave it out for |
| HandleNames.ClientTakesWhatWasMeant | client/src/network/connection.cpp:457-499 | in every run, the objects the client holds for the handles of a message it reads, and for the source of an event, are those the server wrote, however long ago they were defined |
| ClientConnection.Connection.constructor | client/src/network/connection.hpp:93-95 | a new connection has empty tables |
| ClientConnection.Connection.CancelRequest | client/src/network/connection.cpp:183-190 | forgets the request if it is registered |
| ClientConnection.Connection.CountHandle | client/src/network/connection.cpp:660-661 | increments the counter; a missing one counts as zero |
| ClientConnection.Connection.ReadObject | client/src/network/connection.cpp:457-499 | the new tables for a live, pending or new handle, when the read fails, and that items are read exactly for a handle that had no counter |
| ClientConnection.Connection.ReadObjects | client/src/network/connection.cpp:457-499 | several objects of one message |
| ClientConnection.Connection.ProcessMessage | client/src/network/connection.cpp:720-746 | responses, counted and uncounted events and confirmations; what is dropped changes nothing but the request |
| ClientConnection.Connection.ObjectDeleter | client/src/network/connection.cpp:482-494 | live becomes pending, the release carries the counter, and the emplace into the pending table never collides |
| Framing.ParseIsExact | client/src/network/connection.cpp:1075-1102 | messages and rest together are the stream, every message is whole, and the rest is not |
| Framing.ParseUndoesConcat | client/src/network/connection.cpp:1075-1102 | the stream of any messages, followed by anything, is cut into these messages; also messages without data |
| Framing.ParseInTwo | client/src/network/connection.cpp:1075-1102 | a stream may be cut anywhere |
| Framing.ChunksDoNotMatter | client/src/network/connection.cpp:1075-1102 | for every split into chunks the messages handed on and the bytes kept are those of the whole stream |
| Framing.MessagesArrive | client/src/network/connection.cpp:1075-1102 | messages sent come out as they went in, however the stream is split |
| Framing.SerializeIsMessage | shared/src/traintastic/network/message.hpp:130-133 | a written header names the size of its data, for every size below 2^32 |
| Framing.LowestFirst | shared/src/traintastic/network/message.hpp:98-113 | the size field is the four bytes before the data, lowest first |
| Framing.ReadBuffer.Read | client/src/network/connection.cpp:1081-1093 | what one read of the socket may do to its target, and to nothing else |
| Framing.ReadBuffer.ReadHeader | client/src/network/connection.cpp:1079-1090 | one turn of the loop that reads into the header |
| Framing.ReadBuffer.ReadData | client/src/network/connection.cpp:1091-1100 | one turn of the loop that reads into a message |
| Framing.ReadBuffer.SocketReadyRead | client/src/network/connection.cpp:1075-1102 | whatever the socket gives at a time: the messages handed on and the bytes buffered are the parse of the old buffer and what arrived |
| TrackMerge.DrawnTrackIsConnected | client/src/board/tilepainter.cpp:185-219 | a straight is drawn along an axis exactly if the server's tile has connectors at both ends of it |
| TrackMerge.MergedTrack | server/src/board/board.cpp:58-79 | the merged tile has the old and the added axis, unless it is a block that cannot be turned that way |
| TrackMerge.AddConservesTrack | server/src/board/board.cpp:54-82 | on a board whose straights are one cell large, a successful add without replace keeps the old (cell, axis) pairs and adds the new one, if and only if it does not put a block where a block cannot be turned |
| TrackMerge.PerformKeepsUnitStraights | server/src/board/board.cpp:45-248 | no operation makes a straight larger than one cell |
| TrackMerge.RunsConserveTrack | server/src/board/board.cpp:54-82 | on every board that a run from a new board leads to, an add without replace conserves track as above, with nothing assumed of its straights |
| Drawing.DrawnIsConnected | client/src/board/tilepainter.cpp:185-1087 | for every kind, every rotation and every size along its rail: the points of a tile's connectors are exactly the points where the client draws its track to |
| Drawing.DrawnBlockIsConnectedIff | client/src/board/tilepainter.cpp:1165-1264 | a block of any length has its connectors where its rail is drawn to if and only if it is one cell wide across its rail |
| Drawing.ConnectorsInOrder | server/src/board/tile/rail/curve90railtile.cpp:30-34 | connectors are listed clockwise from the tile's own direction, those of a block from its origin; with their points that fixes them and the indices of links |
| Drawing.OppositeIsSamePoint | server/src/board/map/connector.cpp:39-42 | a connector and its opposite are the same point of the plane, off the edge of the sixteen bit grid |
| Drawing.DrawnEnd | client/src/board/tilepainter.cpp:185-1087 | a connector on a cell of a tile belongs to the tile if and only if its track is drawn to that point |
| Drawing.PassesIffDrawn | server/src/board/board.cpp:393-407 | the trace passes through a tile if and only if it is not a node and its track is drawn from there to another point |
| Drawing.PassesAlongTrack | server/src/board/board.cpp:393-407 | the trace goes from one drawn end of a tile's track to the other |
| Drawing.NodeEndIffDrawn | server/src/board/board.cpp:376-392 | a node can be linked exactly where its track is drawn to |
| Drawing.LinkedAsDrawn | server/src/board/board.cpp:376-411 | if a tile's track, straight or curved, is drawn from the end of one node to the end of another, a rebuild links these two ends with that tile between them, from whichever end it starts |
| Drawing.StopsAsDrawn | server/src/board/board.cpp:393-407 | a trace that does not pass a tile ends there if the track is drawn from there to nowhere, as at a buffer stop, and fails the assertion if and only if no track is drawn to there |
| Drawing.RouteFailsIffNotDrawn | server/src/board/board.cpp:385-408 | a whole trace fails its assertion if and only if it runs against a tile whose track is not drawn to where it comes from |
| Drawing.UpgradesAreDrawnAlike | server/src/board/board.cpp:76-82 | what a straight can be upgraded to are the other kinds of one cell drawn like it, and blocks |
| Shapes.PerformKeepsFitIff | server/src/board/board.cpp:45-248 | each tile keeps a size and maximum sizes that fit its kind and rotation if and only if the operation does not turn a block |
| Shapes.RunsAreDrawnAsConnected | server/src/board/board.cpp:45-440 | in every run from a new board that turns no block, all tiles are connected where they are drawn, and every node has as many connectors as links, which a rebuild asserts |
| Shapes.BlockIsTurned | server/src/board/board.cpp:162-171 | moving a north to south block with a turn of 90 degrees succeeds and keeps how it may grow |
| Shapes.TurnedBlockGrowsAcross | server/src/board/board.cpp:187-235 | such a block can be resized to the south only, exactly where there is room; then it is drawn and connected at different points |
| Findings.LastColumnIsLost | server/src/board/board.cpp:98-108 | a tile added at x = 32767 is reported as added but is on no cell |
| Findings.UnknownClassDeletes | server/src/board/board.cpp:86-92 | replacing any tile by one of an unknown class reports failure and has deleted the tile |
| Findings.LabelGrowsOutOfBox | server/src/board/board.cpp:187-235 | on every board, a one cell label on the right edge of the exact box leaves the box when it is made two cells wide, and the limits of the board if it is in the last column within them |
| Findings.GrowLabel | server/src/board/board.cpp:187-253 | the program's own methods run from a new board to one whose box misses a cell |
| Findings.ResizeTearsOffNeighbour | server/src/board/board.cpp:217-230 | a resize that grows one way and shrinks the other takes a neighbour off the board, on every board with such a neighbour |
| Findings.QuarterTurnSwapsIff | server/src/board/board.cpp:133-143 | a move that turns a tile by a quarter swaps width and height, and only such a move, except between 0 and 270 degrees |
| Findings.TurnedSignalKeepsLink | server/src/board/map/link.cpp:52-53 | on every board with such signals, turning one leaves a link that every following rebuild keeps, although neither end fits any more |
| Findings.TurnSignal | server/src/board/board.cpp:45-440 | the program's own methods run from a new board to one whose rebuilt links are not those of its rails |
| Findings.StaleAfterResurrection | client/src/network/board.cpp:114-125 | from every settled state, a tile deleted while the client's board object is pending stays in the copy, although the object asked for all tile data again |

## Left out

- The user interface, painting (but for the points where track ends), settings and table models.
- Login, error responses and the bytes inside a message: messages are values, and framing knows of the header only its size field.
- Signals, attributes, JSON and shared pointers: signals are a list of events, object lifetimes are explicit steps.
- Links to other boards: a link tile is a node whose rail ends on this board.
- Reservation of paths through blocks, turnouts and crossings; a tile's reserved state is one number that changes at any time.
- What the trace does in a build without assertions, where it need not end.
- The wrap-around of handles, of their counters and of request ids at 2^32 and 2^16.
- The order of ids in a saved board: saving lists each tile once in some order, loading does not depend on it.
- The reading block of an object, which stays open when the object is reused.
- A client object that is freed and read anew starts a new run of `Convergence`.
- Handle 0, with which the server reports events of objects whose handle is gone.
- The session's and the handle list's tables are values in `Protocol`, not objects updated in place; their order of updates within one call is not modelled.
- Link objects are values told apart by their ends: that two equal links are one object is not modelled.
