/**
 The "walls" tile layer, the rectangle pool and the tile query `getTiles`:
 the solid cells of an inclusive column/row range, listed row by row
 (ascending y, then ascending x), each handed out as a pooled unit box.
 */
module Tiles {
  import opened Geometry

  /** The solid cells of the "walls" layer; a cell not in the set is empty. */
  type Grid = set<Cell>

  /** An inclusive query range `[startX..endX] x [startY..endY]`. */
  datatype Range = Range(startX: int, startY: int, endX: int, endY: int)

  predicate InRange(c: Cell, rg: Range)
  {
    rg.startX <= c.0 <= rg.endX && rg.startY <= c.1 <= rg.endY
  }

  /** Row-major order of the query: by row first, then by column. */
  predicate Before(a: Cell, b: Cell)
  {
    a.1 < b.1 || (a.1 == b.1 && a.0 < b.0)
  }

  /** A listing strictly in row-major order, hence without repeats. */
  predicate RowMajor(s: seq<Cell>)
  {
    forall j, k :: 0 <= j < k < |s| ==> Before(s[j], s[k])
  }

  /** Two row-major listings of the same cells are the same listing. */
  lemma {:induction false} RowMajorUnique(a: seq<Cell>, b: seq<Cell>)
    requires RowMajor(a) && RowMajor(b)
    requires forall c :: c in a <==> c in b
    ensures a == b
    decreases |a|
  {
    if 0 < |a| {
      assert a[0] in a;
    }
    if 0 < |b| {
      assert b[0] in b;
    }
    if 0 < |a| && 0 < |b| {
      var j :| 0 <= j < |b| && b[j] == a[0];
      var k :| 0 <= k < |a| && a[k] == b[0];
      assert a[0] == b[0];
      forall c
        ensures c in a[1..] <==> c in b[1..]
      {
        if c in a[1..] {
          var m :| 1 <= m < |a| && a[m] == c;
          assert Before(a[0], c);
          assert c in b;
          var n :| 0 <= n < |b| && b[n] == c;
          assert b[1..][n - 1] == c;
        }
        if c in b[1..] {
          var m :| 1 <= m < |b| && b[m] == c;
          assert Before(b[0], c);
          assert c in a;
          var n :| 0 <= n < |a| && a[n] == c;
          assert a[1..][n - 1] == c;
        }
      }
      RowMajorUnique(a[1..], b[1..]);
    }
  }

  /** The rectangle pool, reduced to the number of rectangles currently obtained and not freed. */
  datatype Pool = Pool(inUse: nat)

  /** `pool.obtain()`: never fails, the pool grows when empty. */
  function Obtain(p: Pool): (r: Pool)
    ensures r.inUse == p.inUse + 1
  {
    Pool(p.inUse + 1)
  }

  /** `pool.free(rect)` for one rectangle obtained earlier. */
  function Free(p: Pool): (r: Pool)
    requires 1 <= p.inUse
    ensures r.inUse + 1 == p.inUse
  {
    Pool(p.inUse - 1)
  }

  /** `pool.freeAll(list)` for `n` rectangles obtained earlier. */
  function FreeAll(p: Pool, n: nat): (r: Pool)
    requires n <= p.inUse
    ensures r.inUse + n == p.inUse
  {
    Pool(p.inUse - n)
  }

  /**
   The world state the actor collides with: the tile layer, the shared
   candidate-tile list (it outlives a frame) and the pool its boxes come from.
   */
  datatype World = World(grid: Grid, tiles: seq<Cell>, pool: Pool)

  /** Every candidate tile held in the list was obtained from the pool. */
  predicate Holds(w: World)
  {
    |w.tiles| <= w.pool.inUse
  }

  /** Between frames nothing but the candidate list holds pooled rectangles. */
  predicate Balanced(w: World)
  {
    w.pool.inUse == |w.tiles|
  }

  /** The solid cells of row `y` from column `startX` up to `endX`, ascending. */
  function RowCells(grid: Grid, y: int, startX: int, endX: int): (r: seq<Cell>)
    decreases endX - startX
    ensures forall k :: 0 <= k < |r| ==> r[k] in grid && r[k].1 == y && startX <= r[k].0 <= endX
    ensures forall x :: startX <= x <= endX && (x, y) in grid ==> (x, y) in r
    ensures forall j, k :: 0 <= j < k < |r| ==> r[j].0 < r[k].0
  {
    if endX < startX then []
    else RowCells(grid, y, startX, endX - 1) + (if (endX, y) in grid then [(endX, y)] else [])
  }

  /** The solid cells of rows `startY` up to `endY`, each row from `startX` to `endX`. */
  function RowsCells(grid: Grid, startX: int, endX: int, startY: int, endY: int): (r: seq<Cell>)
    decreases endY - startY
    ensures forall k :: 0 <= k < |r| ==> r[k] in grid && InRange(r[k], Range(startX, startY, endX, endY))
    ensures forall c :: c in grid && InRange(c, Range(startX, startY, endX, endY)) ==> c in r
    ensures forall j, k :: 0 <= j < k < |r| ==> Before(r[j], r[k])
  {
    if endY < startY then []
    else
      var prefix := RowsCells(grid, startX, endX, startY, endY - 1);
      var row := RowCells(grid, endY, startX, endX);
      assert forall c :: c in grid && InRange(c, Range(startX, startY, endX, endY)) && c.1 == endY ==> c in row by {
        forall c | c in grid && InRange(c, Range(startX, startY, endX, endY)) && c.1 == endY
          ensures c in row
        {
          assert (c.0, endY) == c;
        }
      }
      prefix + row
  }

  /**
   The tile query: exactly the solid cells of the inclusive range, each once,
   in row-major order; nothing when either range is empty.
   */
  function Query(grid: Grid, rg: Range): (r: seq<Cell>)
    ensures forall k :: 0 <= k < |r| ==> r[k] in grid && InRange(r[k], rg)
    ensures forall c :: c in grid && InRange(c, rg) ==> c in r
    ensures RowMajor(r)
    ensures rg.endX < rg.startX || rg.endY < rg.startY ==> r == []
  {
    var r := RowsCells(grid, rg.startX, rg.endX, rg.startY, rg.endY);
    assert |r| > 0 ==> InRange(r[0], rg);
    r
  }

  /** The query result is the one row-major listing of the solid cells in the range. */
  lemma QueryIsRowMajorListing(grid: Grid, rg: Range, s: seq<Cell>)
    requires RowMajor(s)
    requires forall c :: c in s <==> c in grid && InRange(c, rg)
    ensures s == Query(grid, rg)
  {
    var r := Query(grid, rg);
    forall c
      ensures c in s <==> c in r
    {
      if c in r {
        var k :| 0 <= k < |r| && r[k] == c;
      }
    }
    RowMajorUnique(s, r);
  }

  /**
   `getTiles` as a world transformer: the previously held candidates go back
   to the pool, the candidate list becomes the query result and one rectangle
   is obtained per listed tile. The grid is only read.
   */
  function GetTiles(w: World, rg: Range): (r: World)
    requires Holds(w)
    ensures r.grid == w.grid && r.tiles == Query(w.grid, rg)
    ensures Holds(r) && r.pool.inUse - |r.tiles| == w.pool.inUse - |w.tiles|
  {
    var tiles := Query(w.grid, rg);
    World(w.grid, tiles, Pool(FreeAll(w.pool, |w.tiles|).inUse + |tiles|))
  }

  /**
   `getTiles` as the source runs it: free all held candidates, then walk the
   rows upwards and each row rightwards, obtaining one rectangle per solid cell.
   */
  method CollectTiles(grid: Grid, rg: Range, pool: Pool, held: seq<Cell>) returns (tiles: seq<Cell>, pool': Pool)
    requires |held| <= pool.inUse
    ensures tiles == Query(grid, rg)
    ensures pool'.inUse + |held| == pool.inUse + |tiles|
  {
    pool' := FreeAll(pool, |held|);
    tiles := [];
    var y := rg.startY;
    while y <= rg.endY
      invariant rg.startY <= y && (y <= rg.endY + 1 || y == rg.startY)
      invariant tiles == RowsCells(grid, rg.startX, rg.endX, rg.startY, y - 1)
      invariant pool'.inUse + |held| == pool.inUse + |tiles|
      decreases rg.endY - y
    {
      var x := rg.startX;
      var row := [];
      while x <= rg.endX
        invariant rg.startX <= x && (x <= rg.endX + 1 || x == rg.startX)
        invariant row == RowCells(grid, y, rg.startX, x - 1)
        invariant pool'.inUse + |held| == pool.inUse + |tiles| + |row|
        decreases rg.endX - x
      {
        if (x, y) in grid {
          pool' := Obtain(pool');
          row := row + [(x, y)];
        }
        x := x + 1;
      }
      tiles := tiles + row;
      y := y + 1;
    }
  }
}
