// Rails as a graph: connectors are the ends of track pieces, a tile the rail passes
// through pairs its two connectors, and the opposite of a connector is the same point
// seen from the neighbouring tile.
//
// The trace in Board::modified (server/src/board/board.cpp) enters a connector, leaves
// through its partner and enters the partner's opposite.

module RailGraph {
  import opened Wrappers

  type TileNumber = nat

  datatype Graph<!C> = Graph(
    partner: map<C, C>,     // the other connector of a tile the rail passes through
    tile: map<C, TileNumber>,   // that tile
    nodes: set<C>,          // the connectors of nodes
    opposite: C -> C)

  ghost predicate GraphOk<C>(g: Graph<C>) {
    && g.tile.Keys == g.partner.Keys
    && (forall c :: c in g.partner ==>
          && g.partner[c] in g.partner && g.partner[g.partner[c]] == c && g.partner[c] != c
          && g.tile[g.partner[c]] == g.tile[c])
    && (forall c, d :: c in g.partner && d in g.partner && g.tile[c] == g.tile[d] ==> d == c || d == g.partner[c])
    && g.partner.Keys !! g.nodes
    && (forall c :: c in g.partner.Keys + g.nodes ==> g.opposite(g.opposite(c)) == c && g.opposite(c) != c)
  }

  function Onward<C>(g: Graph<C>, c: C): C
    requires c in g.partner
  {
    g.opposite(g.partner[c])
  }

  // ---- walks ----

  // The connectors entered one after the other.
  ghost predicate Walk<C>(g: Graph<C>, s: seq<C>) {
    && s != []
    && forall i {:trigger s[i]} :: 0 <= i < |s| - 1 ==> s[i] in g.partner && s[i + 1] == Onward(g, s[i])
  }

  // A walk that starts behind the connector a of a node.
  ghost predicate WalkFrom<C>(g: Graph<C>, a: C, s: seq<C>) {
    a in g.nodes && Walk(g, s) && s[0] == g.opposite(a)
  }

  ghost predicate Ended<C>(g: Graph<C>, s: seq<C>) {
    s != [] && s[|s| - 1] !in g.partner
  }

  lemma WalkStep<C>(g: Graph<C>, s: seq<C>, i: nat)
    requires Walk(g, s)
    requires i < |s|
    ensures 0 < i ==> s[i - 1] in g.partner && s[i] == Onward(g, s[i - 1])
    ensures i < |s| - 1 ==> s[i] in g.partner && s[i + 1] == Onward(g, s[i])
    ensures Ended(g, s) ==> (i == |s| - 1 <==> s[i] !in g.partner)
  {
    if 0 < i {
      assert s[i - 1 + 1] == Onward(g, s[i - 1]);
    }
  }

  // A step can be undone, and no step leads to where a trace starts.
  lemma StepBack<C>(g: Graph<C>, c: C)
    requires GraphOk(g)
    requires c in g.partner
    ensures g.partner[c] in g.partner && g.partner[c] !in g.nodes
    ensures g.partner[g.opposite(Onward(g, c))] == c
  {
  }

  lemma OnwardInjective<C>(g: Graph<C>, c: C, d: C)
    requires GraphOk(g)
    requires c in g.partner && d in g.partner
    requires Onward(g, c) == Onward(g, d)
    ensures c == d
  {
    StepBack(g, c);
    StepBack(g, d);
  }

  lemma SameOpposite<C>(g: Graph<C>, a: C, b: C)
    requires GraphOk(g)
    requires a in g.nodes && b in g.nodes
    requires g.opposite(a) == g.opposite(b)
    ensures a == b
  {
    assert g.opposite(g.opposite(a)) == a && g.opposite(g.opposite(b)) == b;
  }

  // Whose opposite is the node connector a is the opposite of a.
  lemma OppositeBack<C>(g: Graph<C>, a: C, c: C)
    requires GraphOk(g)
    requires a in g.nodes && c in g.partner
    requires g.opposite(c) == a
    ensures c == g.opposite(a)
  {
  }

  lemma NotToStart<C>(g: Graph<C>, a: C, c: C)
    requires GraphOk(g)
    requires a in g.nodes && c in g.partner
    ensures Onward(g, c) != g.opposite(a) && a !in g.partner
    ensures g.partner[c] == g.opposite(a) ==> Onward(g, c) == a
  {
    StepBack(g, c);
  }

  // No connector is entered twice.
  lemma {:induction false} NoRepeat<C>(g: Graph<C>, a: C, s: seq<C>, i: nat, j: nat)
    requires GraphOk(g)
    requires WalkFrom(g, a, s)
    requires i < j < |s|
    ensures s[i] != s[j]
    decreases i
  {
    hide GraphOk, Walk;
    WalkStep(g, s, i);
    WalkStep(g, s, j);
    if i == 0 {
      NotToStart(g, a, s[j - 1]);
    } else if s[i] == s[j] {
      OnwardInjective(g, s[i - 1], s[j - 1]);
      NoRepeat(g, a, s, i - 1, j - 1);
    }
  }

  // No tile is left through a connector and later entered through it: closing in from
  // both sides, the walk would have to turn on the spot.
  lemma {:induction false} NoReturn<C>(g: Graph<C>, s: seq<C>, i: nat, j: nat)
    requires GraphOk(g)
    requires Walk(g, s)
    requires i <= j < |s|
    requires s[i] in g.partner
    ensures g.partner[s[i]] != s[j]
    decreases j - i
  {
    if i < j && g.partner[s[i]] == s[j] {
      assert s[j] == Onward(g, s[j - 1]);
      assert s[i + 1] == Onward(g, s[i]) == g.partner[s[j - 1]];
      if i + 1 < j {
        NoReturn(g, s, i + 1, j - 1);
      }
    }
  }

  // Each tile is passed at most once.
  lemma TilesOnce<C>(g: Graph<C>, a: C, s: seq<C>, i: nat, j: nat)
    requires GraphOk(g)
    requires WalkFrom(g, a, s)
    requires i < j < |s|
    requires s[i] in g.partner && s[j] in g.partner
    ensures g.tile[s[i]] != g.tile[s[j]]
  {
    NoRepeat(g, a, s, i, j);
    NoReturn(g, s, i, j);
  }

  // ---- termination ----

  // The tiles a walk passes: all but the place it has reached.
  function Passed<C>(g: Graph<C>, s: seq<C>): (ids: seq<TileNumber>)
    requires forall i :: 0 <= i < |s| - 1 ==> s[i] in g.tile
    ensures |ids| == if s == [] then 0 else |s| - 1
    ensures forall i :: 0 <= i < |ids| ==> ids[i] == g.tile[s[i]]
  {
    if s == [] then [] else seq(|s| - 1, i requires 0 <= i < |s| - 1 => g.tile[s[i]])
  }

  lemma {:induction false} DistinctCount(ids: seq<TileNumber>, bound: set<TileNumber>)
    requires forall i :: 0 <= i < |ids| ==> ids[i] in bound
    requires forall i, j :: 0 <= i < j < |ids| ==> ids[i] != ids[j]
    ensures |ids| <= |bound|
  {
    if ids != [] {
      var last := |ids| - 1;
      DistinctCount(ids[..last], bound - {ids[last]});
    }
  }

  // A walk passes each tile at most once, so no more than there are.
  lemma PassedOnce<C>(g: Graph<C>, a: C, s: seq<C>)
    requires GraphOk(g)
    requires WalkFrom(g, a, s)
    ensures forall i, j :: 0 <= i < j < |Passed(g, s)| ==> Passed(g, s)[i] != Passed(g, s)[j]
    ensures forall id :: id in Passed(g, s) ==> id in g.tile.Values
    ensures |s| - 1 <= |g.tile.Values|
  {
    var ids := Passed(g, s);
    forall i, j | 0 <= i < j < |ids| ensures ids[i] != ids[j] {
      TilesOnce(g, a, s, i, j);
    }
    DistinctCount(ids, g.tile.Values);
  }

  // The walk from c to where the rail stops, if that takes at most the given steps.
  function Follow<C>(g: Graph<C>, c: C, steps: nat): Option<seq<C>>
    decreases steps
  {
    if c !in g.partner then Some([c])
    else if steps == 0 then None
    else
      var rest := Follow(g, Onward(g, c), steps - 1);
      if rest.None? then None else Some([c] + rest.value)
  }

  lemma {:induction false} FollowIsWalk<C>(g: Graph<C>, c: C, steps: nat)
    ensures Follow(g, c, steps).Some? ==>
      var s := Follow(g, c, steps).value;
      Walk(g, s) && s[0] == c && Ended(g, s)
    decreases steps
  {
    if c in g.partner && steps > 0 {
      FollowIsWalk(g, Onward(g, c), steps - 1);
    }
  }

  lemma {:induction false} UnfinishedWalk<C>(g: Graph<C>, c: C, steps: nat) returns (s: seq<C>)
    requires GraphOk(g)
    requires Follow(g, c, steps).None?
    ensures Walk(g, s) && |s| == steps + 2 && s[0] == c
    decreases steps
  {
    if steps == 0 {
      s := [c, Onward(g, c)];
    } else {
      var rest := UnfinishedWalk(g, Onward(g, c), steps - 1);
      s := [c] + rest;
    }
  }

  // Behind every node connector the rail stops, after at most as many steps as there are
  // tiles it passes through.
  lemma TraceTerminates<C>(g: Graph<C>, a: C)
    requires GraphOk(g)
    requires a in g.nodes
    ensures Follow(g, g.opposite(a), |g.tile.Values|).Some?
  {
    var bound := |g.tile.Values|;
    if Follow(g, g.opposite(a), bound).None? {
      var s := UnfinishedWalk(g, g.opposite(a), bound);
      PassedOnce(g, a, s);
    }
  }

  // ---- the trace ----

  ghost function Trace<C>(g: Graph<C>, a: C): (s: seq<C>)
    requires GraphOk(g)
    requires a in g.nodes
    ensures WalkFrom(g, a, s) && Ended(g, s)
  {
    TraceTerminates(g, a);
    FollowIsWalk(g, g.opposite(a), |g.tile.Values|);
    Follow(g, g.opposite(a), |g.tile.Values|).value
  }

  ghost function Last<C>(s: seq<C>): C
    requires s != []
  {
    s[|s| - 1]
  }

  // Two walks from the same connector agree as far as they go.
  lemma {:induction false} WalksAgree<C>(g: Graph<C>, s: seq<C>, r: seq<C>, i: nat)
    requires Walk(g, s) && Walk(g, r)
    requires s[0] == r[0]
    requires i < |s| && i < |r|
    ensures s[i] == r[i]
  {
    if i > 0 {
      WalksAgree(g, s, r, i - 1);
      assert s[i] == Onward(g, s[i - 1]) && r[i] == Onward(g, r[i - 1]);
    }
  }

  lemma EndedWalksEqual<C>(g: Graph<C>, s: seq<C>, r: seq<C>)
    requires Walk(g, s) && Walk(g, r)
    requires Ended(g, s) && Ended(g, r)
    requires s[0] == r[0]
    ensures s == r
  {
    var n := if |s| < |r| then |s| else |r|;
    WalksAgree(g, s, r, n - 1);
    forall i | 0 <= i < n ensures s[i] == r[i] {
      WalksAgree(g, s, r, i);
    }
  }

  // Any walk from a that ended is the trace.
  lemma TraceIsUnique<C>(g: Graph<C>, a: C, s: seq<C>)
    requires GraphOk(g)
    requires WalkFrom(g, a, s) && Ended(g, s)
    ensures s == Trace(g, a)
  {
    EndedWalksEqual(g, s, Trace(g, a));
  }

  lemma WalkExtends<C>(g: Graph<C>, a: C, s: seq<C>)
    requires g.tile.Keys == g.partner.Keys
    requires WalkFrom(g, a, s)
    requires Last(s) in g.partner
    ensures var next := s + [Onward(g, Last(s))];
      && WalkFrom(g, a, next)
      && Passed(g, next) == Passed(g, s) + [g.tile[Last(s)]]
  {
    var next := s + [Onward(g, Last(s))];
    forall i | 0 <= i < |next| - 1 ensures next[i] in g.partner && next[i + 1] == Onward(g, next[i]) {
      if i < |s| - 1 {
        assert next[i] == s[i] && next[i + 1] == s[i + 1];
      }
    }
  }

  // ---- symmetry ----

  function Reversed<T>(s: seq<T>): (r: seq<T>)
    ensures |r| == |s|
    ensures forall i :: 0 <= i < |s| ==> r[i] == s[|s| - 1 - i]
  {
    seq(|s|, i requires 0 <= i < |s| => s[|s| - 1 - i])
  }

  // The walk back from where s ended to the connector a it started from.
  ghost function WayBack<C>(g: Graph<C>, a: C, s: seq<C>): (r: seq<C>)
    requires Walk(g, s)
    ensures |r| == |s|
    ensures forall k :: 0 <= k < |s| - 1 ==> r[k] == g.partner[s[|s| - 2 - k]]
    ensures r[|s| - 1] == a
  {
    seq(|s|, k requires 0 <= k < |s| => if k == |s| - 1 then a else g.partner[s[|s| - 2 - k]])
  }

  lemma WayBackStep<C>(g: Graph<C>, a: C, s: seq<C>, k: nat)
    requires GraphOk(g)
    requires WalkFrom(g, a, s)
    requires k < |s| - 1
    ensures var r := WayBack(g, a, s);
      r[k] in g.partner && r[k + 1] == Onward(g, r[k])
  {
    var i := |s| - 2 - k;
    assert s[i] in g.partner;
    if i > 0 {
      assert s[i] == Onward(g, s[i - 1]);
    }
  }

  lemma WayBackIsWalk<C>(g: Graph<C>, a: C, s: seq<C>)
    requires GraphOk(g)
    requires WalkFrom(g, a, s)
    requires Last(s) in g.nodes
    ensures WalkFrom(g, Last(s), WayBack(g, a, s))
    ensures Ended(g, WayBack(g, a, s))
  {
    var r, n := WayBack(g, a, s), |s| - 1;
    forall k | 0 <= k < n ensures r[k] in g.partner && r[k + 1] == Onward(g, r[k]) {
      WayBackStep(g, a, s, k);
    }
    if n > 0 {
      assert s[n] == Onward(g, s[n - 1]);
    }
  }

  lemma SamePassed<C>(g: Graph<C>, s: seq<C>, r: seq<C>)
    requires |s| == |r| && s != []
    requires forall i :: 0 <= i < |s| - 1 ==> s[i] in g.tile && r[i] in g.tile
    requires forall k :: 0 <= k < |s| - 1 ==> g.tile[r[k]] == g.tile[s[|s| - 2 - k]]
    ensures Passed(g, r) == Reversed(Passed(g, s))
  {
  }

  lemma BackTile<C>(g: Graph<C>, a: C, s: seq<C>, k: nat)
    requires GraphOk(g)
    requires Walk(g, s)
    requires k < |s| - 1
    ensures s[k] in g.tile && WayBack(g, a, s)[k] in g.tile
    ensures s[|s| - 2 - k] in g.tile && g.tile[WayBack(g, a, s)[k]] == g.tile[s[|s| - 2 - k]]
  {
    WalkStep(g, s, k);
    WalkStep(g, s, |s| - 2 - k);
  }

  lemma PassedBack<C>(g: Graph<C>, a: C, s: seq<C>)
    requires GraphOk(g)
    requires Walk(g, s)
    ensures forall i :: 0 <= i < |s| - 1 ==> s[i] in g.tile && WayBack(g, a, s)[i] in g.tile
    ensures Passed(g, WayBack(g, a, s)) == Reversed(Passed(g, s))
  {
    hide GraphOk, Walk, WayBack, Passed, Reversed;
    var r := WayBack(g, a, s);
    WalkNotEmpty(g, s);
    forall k | 0 <= k < |s| - 1 ensures s[k] in g.tile && r[k] in g.tile {
      BackTile(g, a, s, k);
    }
    forall k | 0 <= k < |s| - 1 ensures g.tile[r[k]] == g.tile[s[|s| - 2 - k]] {
      BackTile(g, a, s, k);
    }
    SamePassed(g, s, r);
  }

  lemma WalkNotEmpty<C>(g: Graph<C>, s: seq<C>)
    requires Walk(g, s)
    ensures s != []
  {
  }

  lemma NotToSelf<C>(g: Graph<C>, a: C, s: seq<C>)
    requires GraphOk(g)
    requires WalkFrom(g, a, s)
    ensures Last(s) != a
  {
    var n := |s| - 1;
    WalkStep(g, s, n);
    WalkStep(g, s, 0);
    if Last(s) == a && n > 0 {
      OppositeBack(g, a, g.partner[s[n - 1]]);
      NoReturn(g, s, 0, n - 1);
    }
  }

  // If the trace from a ends at the node connector b through the tiles T, the trace from b
  // ends at a through T in reverse; and it never ends where it began.
  lemma TraceIsSymmetric<C>(g: Graph<C>, a: C)
    requires GraphOk(g)
    requires a in g.nodes && Last(Trace(g, a)) in g.nodes
    ensures var b := Last(Trace(g, a));
      && Last(Trace(g, b)) == a
      && Passed(g, Trace(g, b)) == Reversed(Passed(g, Trace(g, a)))
      && b != a
  {
    hide GraphOk;
    var s := Trace(g, a);
    var b, r := Last(s), WayBack(g, a, s);
    WayBackIsWalk(g, a, s);
    TraceIsUnique(g, b, r);
    PassedBack(g, a, s);
    NotToSelf(g, a, s);
  }

  // ---- disjointness ----

  // If the rail leaves c's tile where it enters from d's tile, the two steps face each other.
  lemma FacingSteps<C>(g: Graph<C>, c: C, d: C)
    requires GraphOk(g)
    requires c in g.partner && d in g.partner
    requires g.partner[c] == Onward(g, d)
    ensures Onward(g, c) in g.partner && g.partner[Onward(g, c)] == d
  {
    StepBack(g, d);
  }

  // Two walks that enter a tile through the same connector started at the same place.
  lemma {:induction false} SameWay<C>(g: Graph<C>, a: C, s: seq<C>, b: C, r: seq<C>, i: nat, j: nat)
    requires GraphOk(g)
    requires WalkFrom(g, a, s) && WalkFrom(g, b, r)
    requires i < |s| && j < |r|
    requires s[i] == r[j]
    ensures a == b
    decreases i
  {
    hide GraphOk, Walk;
    WalkStep(g, s, i);
    WalkStep(g, r, j);
    if i == 0 && j == 0 {
      SameOpposite(g, a, b);
    } else if i == 0 {
      NotToStart(g, a, r[j - 1]);
    } else if j == 0 {
      NotToStart(g, b, s[i - 1]);
    } else {
      OnwardInjective(g, s[i - 1], r[j - 1]);
      SameWay(g, a, s, b, r, i - 1, j - 1);
    }
  }

  // If one walk leaves a tile where another enters it, the first runs into the other's start.
  lemma {:induction false} OtherWay<C>(g: Graph<C>, a: C, s: seq<C>, b: C, r: seq<C>, i: nat, j: nat)
    requires GraphOk(g)
    requires WalkFrom(g, a, s) && WalkFrom(g, b, r)
    requires Ended(g, s)
    requires i < |s| && j < |r|
    requires s[i] in g.partner && g.partner[s[i]] == r[j]
    ensures Last(s) == b
    decreases j
  {
    hide GraphOk, Walk, Ended;
    WalkStep(g, s, i);
    if j == 0 {
      NotToStart(g, b, s[i]);
      WalkStep(g, s, i + 1);
    } else {
      WalkStep(g, r, j);
      FacingSteps(g, s[i], r[j - 1]);
      OtherWay(g, a, s, b, r, i + 1, j - 1);
    }
  }

  // Two traces share a tile only if they are the same, in the same or opposite direction.
  lemma TracesShareNoTile<C>(g: Graph<C>, a: C, b: C, id: TileNumber)
    requires GraphOk(g)
    requires a in g.nodes && b in g.nodes
    requires id in Passed(g, Trace(g, a)) && id in Passed(g, Trace(g, b))
    ensures a == b || Last(Trace(g, a)) == b
  {
    var s, r := Trace(g, a), Trace(g, b);
    var i :| 0 <= i < |s| - 1 && g.tile[s[i]] == id;
    var j :| 0 <= j < |r| - 1 && g.tile[r[j]] == id;
    if s[i] == r[j] {
      SameWay(g, a, s, b, r, i, j);
    } else {
      OtherWay(g, a, s, b, r, i, j);
    }
  }
}
