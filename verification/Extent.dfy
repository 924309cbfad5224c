// The extent of a set of cells.

module Extent {
  import opened Tiles

  function Min(a: int, b: int): int {
    if a < b then a else b
  }

  function Max(a: int, b: int): int {
    if a < b then b else a
  }

  datatype Box = Box(left: int, right: int, top: int, bottom: int)

  ghost predicate Contains(b: Box, cells: set<Location>) {
    forall l :: l in cells ==> b.left <= l.x <= b.right && b.top <= l.y <= b.bottom
  }

  // Each side of the box has a cell.
  ghost predicate Touches(b: Box, cells: set<Location>) {
    && (exists l :: l in cells && l.x == b.left)
    && (exists l :: l in cells && l.x == b.right)
    && (exists l :: l in cells && l.y == b.top)
    && (exists l :: l in cells && l.y == b.bottom)
  }

  // The exact minima and maxima of the cells' coordinates.
  ghost predicate IsExtent(b: Box, cells: set<Location>) {
    Contains(b, cells) && Touches(b, cells)
  }

  lemma ExtentIsUnique(a: Box, b: Box, cells: set<Location>)
    requires IsExtent(a, cells) && IsExtent(b, cells)
    ensures a == b
  {
  }

  predicate Encloses(a: Box, b: Box) {
    a.left <= b.left && b.right <= a.right && a.top <= b.top && b.bottom <= a.bottom
  }

  // The least box around two: none of its sides is further out than both of theirs.
  predicate IsHull(hull: Box, a: Box, b: Box) {
    && Encloses(hull, a) && Encloses(hull, b)
    && (hull.left == a.left || hull.left == b.left) && (hull.right == a.right || hull.right == b.right)
    && (hull.top == a.top || hull.top == b.top) && (hull.bottom == a.bottom || hull.bottom == b.bottom)
  }

  // More cells have a larger extent.
  lemma ExtentGrows(a: Box, cells: set<Location>, b: Box, more: set<Location>)
    requires IsExtent(a, cells) && IsExtent(b, more)
    requires cells <= more
    ensures Encloses(b, a)
  {
  }

  function Widened(b: Box, l: Location): Box {
    Box(Min(b.left, l.x), Max(b.right, l.x), Min(b.top, l.y), Max(b.bottom, l.y))
  }

  lemma WidenedExtent(b: Box, cells: set<Location>, l: Location)
    requires IsExtent(b, cells)
    ensures IsExtent(Widened(b, l), cells + {l})
  {
    var w, all := Widened(b, l), cells + {l};
    assert l in all;
    var x0 :| x0 in cells && x0.x == b.left;
    var x1 :| x1 in cells && x1.x == b.right;
    var y0 :| y0 in cells && y0.y == b.top;
    var y1 :| y1 in cells && y1.y == b.bottom;
    assert x0 in all && x1 in all && y0 in all && y1 in all;
  }

  lemma {:induction false} ExtentExists(cells: set<Location>)
    requires cells != {}
    ensures exists b :: IsExtent(b, cells)
    decreases |cells|
  {
    var l :| l in cells;
    var rest := cells - {l};
    assert cells == rest + {l};
    if rest == {} {
      assert IsExtent(Box(l.x, l.x, l.y, l.y), cells);
    } else {
      ExtentExists(rest);
      var b :| IsExtent(b, rest);
      WidenedExtent(b, rest, l);
    }
  }
}
