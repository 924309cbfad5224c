// The list of boards, and when their links are rebuilt (server/src/board/boardlist.cpp).

module BoardList {
  import opened TileMaps
  import opened Links
  import opened Track
  import opened BoardRuns
  import opened ServerBoard

  datatype WorldEvent = EditEnabled | EditDisabled | Run | Stop | OtherEvent

  class BoardList {
    var items: seq<Board>

    ghost predicate Valid()
      reads this, items
    {
      && (forall i, j :: 0 <= i < j < |items| ==> items[i] != items[j])
      && (forall i :: 0 <= i < |items| ==> BoardInv(items[i].State()))
    }

    constructor ()
      ensures Valid() && items == []
    {
      items := [];
    }

    method AddObject(board: Board)
      requires Valid()
      requires board !in items && BoardInv(board.State())
      modifies this
      ensures Valid()
      ensures items == old(items) + [board]
    {
      items := items + [board];
    }

    method AnyModified() returns (any: bool)
      ensures any <==> exists i :: 0 <= i < |items| && items[i].modified
    {
      for i := 0 to |items|
        invariant forall j :: 0 <= j < i ==> !items[j].modified
      {
        if items[i].modified {
          return true;
        }
      }
      return false;
    }

    // A link tile joins boards, so one changed board makes all boards rebuild their links.
    // ok is false if an assertion of the program fails; then the program has stopped.
    method HandleWorldEvent(event: WorldEvent) returns (ok: bool)
      requires Valid()
      modifies items
      ensures items == old(items)
      ensures ok ==> Valid()
      ensures event != EditDisabled && event != Run ==>
        ok && forall i :: 0 <= i < |items| ==> items[i].State() == old(items[i].State())
      ensures ok && (event == EditDisabled || event == Run) ==>
        forall i :: 0 <= i < |items| ==> !items[i].modified
      ensures ok && (exists i :: 0 <= i < |items| && old(items[i].modified)) && (event == EditDisabled || event == Run) ==>
        forall i :: 0 <= i < |items| ==> Renewed(old(States())[i], items[i].State())
      ensures (exists i :: 0 <= i < |items| && old(items[i].modified)) && (event == EditDisabled || event == Run) ==>
        (ok <==> forall i :: 0 <= i < |items| ==> AssertionsHold(old(States())[i].map_))
      ensures (forall i :: 0 <= i < |items| ==> !old(items[i].modified)) ==>
        ok && forall i :: 0 <= i < |items| ==> items[i].State() == old(items[i].State())
    {
      ok := true;
      if event == EditDisabled || event == Run {
        var boardModified := AnyModified();
        if boardModified {
          ok := RebuildAll();
        }
      }
    }

    ghost function States(): (states: seq<BoardState>)
      reads this, items
      ensures |states| == |items|
      ensures forall i :: 0 <= i < |items| ==> states[i] == items[i].State()
    {
      seq(|items|, i requires 0 <= i < |items| reads this, items => items[i].State())
    }

    method RebuildAll() returns (ok: bool)
      requires Valid()
      modifies items
      ensures items == old(items)
      ensures ok ==> Valid()
      ensures ok ==> forall i :: 0 <= i < |items| ==> Renewed(old(States())[i], items[i].State())
      ensures ok <==> forall i :: 0 <= i < |items| ==> AssertionsHold(old(States())[i].map_)
    {
      hide Tiled, BoardInv, Renewed, AssertionsHold;
      ghost var states := States();
      TiledStates(states);
      for i := 0 to |items|
        invariant items == old(items)
        invariant forall j :: 0 <= j < i ==> Renewed(states[j], items[j].State())
        invariant forall j :: i <= j < |items| ==> items[j].State() == states[j]
        invariant forall j :: 0 <= j < i ==> AssertionsHold(states[j].map_)
      {
        ok := Renew(items[i]);
        if !ok {
          return;
        }
      }
      RenewedInv(states, States());
      ok := true;
    }
  }

  lemma TiledStates(states: seq<BoardState>)
    requires forall i :: 0 <= i < |states| ==> BoardInv(states[i])
    ensures forall i :: 0 <= i < |states| ==> Tiled(states[i].map_)
  {
    hide Tiled, Paired, NodeEnds, Cached, AssertionsHold;
  }

  lemma RenewedInv(states: seq<BoardState>, now: seq<BoardState>)
    requires |now| == |states|
    requires forall i :: 0 <= i < |states| ==> Renewed(states[i], now[i])
    ensures forall i :: 0 <= i < |now| ==> BoardInv(now[i])
  {
    hide Tiled, BoardInv, Rebuilt;
  }

  // The board has made the step of a forced rebuild.
  ghost predicate Renewed(s: BoardState, t: BoardState) {
    && BoardInv(t)
    && Enabled(s, ForcedRebuild(t.links))
    && t == Next(s, ForcedRebuild(t.links))
  }

  method Renew(board: Board) returns (ok: bool)
    requires BoardInv(board.State())
    modifies board
    ensures ok <==> AssertionsHold(old(board.State()).map_)
    ensures ok ==> Renewed(old(board.State()), board.State())
  {
    hide Tiled, AssertionsHold, Rebuilt, Cached;
    board.modified := true;
    ghost var s := board.State();
    ok := board.Modified();
    if ok {
      RebuildKeepsBoardInv(s, board.links);
    }
  }
}
