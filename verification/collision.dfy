/**
 Axis-separated collision of the actor's box against the tile layer. Both
 passes work on this frame's displacement and on the position from before it.
 The horizontal pass can only cancel the move; the vertical pass snaps onto
 or under the first tile hit and, when moving up, breaks that tile.
 */
module Collision {
  import opened Numeric
  import opened Geometry
  import opened Tiles
  import opened Actor

  /**
   Broad phase of the horizontal pass: the one column the `(int)` cast gives
   for the leading edge after the move (the column holding it when the edge
   is non-negative), over the rows the cast gives for the actor's current
   bottom and top.
   */
  function HorizontalRange(pos: Vec, dx: real): (rg: Range)
    ensures rg.startX == rg.endX && rg.startY <= rg.endY
    ensures TruncatesTo(if dx > 0.0 then pos.x + Width + dx else pos.x + dx, rg.startX)
    ensures TruncatesTo(pos.y, rg.startY) && TruncatesTo(pos.y + Height, rg.endY)
  {
    TruncMonotone(pos.y, pos.y + Height);
    var column := if dx > 0.0 then Trunc(pos.x + Width + dx) else Trunc(pos.x + dx);
    Range(column, Trunc(pos.y), column, Trunc(pos.y + Height))
  }

  /**
   Broad phase of the vertical pass: the one row the `(int)` cast gives for
   the leading edge after the move (the row holding it when the edge is
   non-negative), over the columns the cast gives for the actor's current
   left and right edges.
   */
  function VerticalRange(pos: Vec, dy: real): (rg: Range)
    ensures rg.startY == rg.endY && rg.startX <= rg.endX
    ensures TruncatesTo(if dy > 0.0 then pos.y + Height + dy else pos.y + dy, rg.startY)
    ensures TruncatesTo(pos.x, rg.startX) && TruncatesTo(pos.x + Width, rg.endX)
  {
    TruncMonotone(pos.x, pos.x + Width);
    var row := if dy > 0.0 then Trunc(pos.y + Height + dy) else Trunc(pos.y + dy);
    Range(Trunc(pos.x), row, Trunc(pos.x + Width), row)
  }

  /** The actor's box at `pos` shifted by (`dx`, `dy`). */
  function ActorBox(pos: Vec, dx: real, dy: real): (r: Rect)
    ensures r.width == Width && r.height == Height
    ensures r.x - pos.x == dx && r.y - pos.y == dy
  {
    Rect(pos.x + dx, pos.y + dy, Width, Height)
  }

  /**
   Horizontal pass: re-query the candidates, then cancel the whole horizontal
   displacement when any candidate overlaps the moved box. No snap happens.
   */
  function HorizontalPass(w: World, pos: Vec, dx: real): (r: (World, real))
    requires Holds(w)
    ensures r.0 == GetTiles(w, HorizontalRange(pos, dx))
    ensures r.1 == (if exists c :: c in r.0.tiles && Overlaps(ActorBox(pos, dx, 0.0), Box(c)) then 0.0 else dx)
  {
    var w' := GetTiles(w, HorizontalRange(pos, dx));
    var moved := ActorBox(pos, dx, 0.0);
    FirstHitMissesIffNoOverlap(moved, w'.tiles);
    (w', if FirstHit(moved, w'.tiles) < |w'.tiles| then 0.0 else dx)
  }

  /** What the vertical pass ran into. */
  datatype Contact = Clear | Bumped(cell: Cell) | Landed(cell: Cell)

  /** The vertical pass's outcome: world, contact, snapped y and the vertical displacement still to apply. */
  datatype Resolved = Resolved(world: World, contact: Contact, y: real, dy: real)

  /** `c` is the row-major-first candidate of `cells` that overlaps `r`. */
  predicate FirstOverlapping(r: Rect, cells: seq<Cell>, c: Cell)
  {
    && c in cells
    && Overlaps(r, Box(c))
    && forall d :: d in cells && Before(d, c) ==> !Overlaps(r, Box(d))
  }

  /** At most one candidate is the first overlapping one. */
  lemma FirstOverlappingUnique(r: Rect, cells: seq<Cell>, a: Cell, b: Cell)
    requires FirstOverlapping(r, cells, a) && FirstOverlapping(r, cells, b)
    ensures a == b
  {
  }

  /** In a row-major ordered list, the first hit by index is the first hit in row-major order. */
  lemma FirstHitIsRowMajorFirst(r: Rect, cells: seq<Cell>)
    requires forall j, k :: 0 <= j < k < |cells| ==> Before(cells[j], cells[k])
    requires FirstHit(r, cells) < |cells|
    ensures FirstOverlapping(r, cells, cells[FirstHit(r, cells)])
  {
    var k := FirstHit(r, cells);
    forall d | d in cells && Before(d, cells[k])
      ensures !Overlaps(r, Box(d))
    {
      var j :| 0 <= j < |cells| && cells[j] == d;
      if k < j {
        assert false;
      }
    }
  }

  /**
   What a vertical pass from `pos` with displacement `dy` against layer `grid`
   decides: the candidates are the solid cells of the broad-phase row; with no
   overlap the actor moves freely; otherwise the row-major-first overlapping
   cell is broken from below when moving up, or landed on otherwise, and the
   vertical displacement is cancelled in favour of a snap.
   */
  predicate Resolves(r: Resolved, grid: Grid, pos: Vec, dy: real)
  {
    var moved := ActorBox(pos, 0.0, dy);
    && r.world.tiles == Query(grid, VerticalRange(pos, dy))
    && match r.contact
       case Clear =>
         && (forall c :: c in r.world.tiles ==> !Overlaps(moved, Box(c)))
         && r.world.grid == grid && r.y == pos.y && r.dy == dy
       case Bumped(c) =>
         && 0.0 < dy && FirstOverlapping(moved, r.world.tiles, c)
         && c in grid && r.world.grid == grid - {c}
         && r.y == c.1 as real - Height && r.dy == 0.0
       case Landed(c) =>
         && dy <= 0.0 && FirstOverlapping(moved, r.world.tiles, c)
         && r.world.grid == grid
         && r.y == c.1 as real + 1.0 && r.dy == 0.0
  }

  /** The outcome of a vertical pass is determined by the layer, the position and the displacement alone. */
  lemma ResolvesUniquely(r: Resolved, r': Resolved, grid: Grid, pos: Vec, dy: real)
    requires Resolves(r, grid, pos, dy) && Resolves(r', grid, pos, dy)
    ensures r'.contact == r.contact && r'.y == r.y && r'.dy == r.dy && r'.world.grid == r.world.grid
  {
    var moved := ActorBox(pos, 0.0, dy);
    if !r.contact.Clear? && !r'.contact.Clear? {
      FirstOverlappingUnique(moved, r.world.tiles, r.contact.cell, r'.contact.cell);
    }
  }

  /**
   Vertical pass: re-query the candidates; on the first overlap, moving up
   snaps the actor just under the tile and removes that tile's cell from the
   layer, otherwise it snaps the actor onto the tile's top. Either way the
   vertical displacement is cancelled.
   */
  function VerticalPass(w: World, pos: Vec, dy: real): (r: Resolved)
    requires Holds(w)
    ensures Holds(r.world) && r.world.pool == GetTiles(w, VerticalRange(pos, dy)).pool
    ensures Resolves(r, w.grid, pos, dy)
  {
    var w' := GetTiles(w, VerticalRange(pos, dy));
    var moved := ActorBox(pos, 0.0, dy);
    var k := FirstHit(moved, w'.tiles);
    FirstHitMissesIffNoOverlap(moved, w'.tiles);
    if k == |w'.tiles| then
      Resolved(w', Clear, pos.y, dy)
    else
      var tile := Box(w'.tiles[k]);
      FirstHitIsRowMajorFirst(moved, w'.tiles);
      if dy > 0.0 then
        var cell := (Trunc(tile.x), Trunc(tile.y));
        TruncOfInt(w'.tiles[k].0);
        TruncOfInt(w'.tiles[k].1);
        Resolved(w'.(grid := w'.grid - {cell}), Bumped(w'.tiles[k]), tile.y - Height, 0.0)
      else
        Resolved(w', Landed(w'.tiles[k]), tile.y + tile.height, 0.0)
  }
}
