/**
 Axis-aligned boxes (libGDX `Rectangle`) and the first-hit scan the collision
 passes run over a list of candidate tiles.
 */
module Geometry {

  /** A 2-D vector (libGDX `Vector2`). */
  datatype Vec = Vec(x: real, y: real)

  /** An axis-aligned box: lower-left corner plus size. */
  datatype Rect = Rect(x: real, y: real, width: real, height: real)

  /** A grid cell of the tile layer, as (column, row). */
  type Cell = (int, int)

  /** The unit box a tile query hands out for a solid cell: `rect.set(x, y, 1, 1)`. */
  function Box(c: Cell): (r: Rect)
    ensures r.width == 1.0 && r.height == 1.0
    ensures r.x == c.0 as real && r.y == c.1 as real
  {
    Rect(c.0 as real, c.1 as real, 1.0, 1.0)
  }

  /**
   `Rectangle.overlaps`: strict overlap of the open extents on both axes. It is
   symmetric, and boxes that merely share an edge do not overlap: a box resting
   flush on or beside a tile, with zero displacement toward it, does not count
   as hitting it.
   */
  predicate Overlaps(a: Rect, b: Rect): (o: bool)
    ensures o == (b.x < a.x + a.width && b.x + b.width > a.x && b.y < a.y + a.height && b.y + b.height > a.y)
    ensures a.y == b.y + b.height || b.y == a.y + a.height || a.x == b.x + b.width || b.x == a.x + a.width ==> !o
  {
    && a.x < b.x + b.width
    && a.x + a.width > b.x
    && a.y < b.y + b.height
    && a.y + a.height > b.y
  }

  /**
   Index of the first candidate whose box overlaps `r`, or `|cells|` when none does:
   the `for ... if (overlaps) { ...; break; }` scan of both collision passes.
   */
  function FirstHit(r: Rect, cells: seq<Cell>): (k: nat)
    ensures k <= |cells|
    ensures k < |cells| ==> Overlaps(r, Box(cells[k]))
    ensures forall j :: 0 <= j < k ==> !Overlaps(r, Box(cells[j]))
  {
    if |cells| == 0 then 0
    else if Overlaps(r, Box(cells[0])) then 0
    else 1 + FirstHit(r, cells[1..])
  }

  /** The scan misses exactly when no candidate overlaps. */
  lemma FirstHitMissesIffNoOverlap(r: Rect, cells: seq<Cell>)
    ensures FirstHit(r, cells) == |cells| <==> forall c :: c in cells ==> !Overlaps(r, Box(c))
  {
    var k := FirstHit(r, cells);
    if k < |cells| {
      assert cells[k] in cells;
    }
  }
}
