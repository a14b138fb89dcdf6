# Platformer actor physics, modelled in Dafny

This project models the per-frame update of the platform-demo player actor
(`Player.update`) and its tile query (`Player.getTiles`). The update reads the
input intents and the elapsed time `dt`. It then does the following in order:

- It applies jump, left and right in that fixed order.
- It adds gravity, clamps the horizontal speed to ±`MAX_VELOCITY` and snaps
  horizontal speeds below 1 to zero.
- It scales the speeds by `dt` into a displacement.
- It resolves collisions against the "walls" tile layer, one axis at a time.
  The horizontal pass can only cancel the move. The vertical pass snaps the
  actor onto the first tile hit, or, when moving up, just under it, and
  breaks that tile.
- It commits the position, unscales the speeds and damps the horizontal speed.

The whole update is one pure function,
`Movement.Step(player, world, intents, dt) -> Frame(player', world')`. The
world holds three things:

- the tile layer, as the set of solid cells;
- the shared candidate-tile list, as a sequence of cells;
- the rectangle pool, as the number of rectangles obtained and not yet freed.

Modules, in dependency order:

- `Numeric`: Java's truncating `(int)` cast, `Math.abs` and `MathUtils.clamp`.
- `Geometry`: vectors, boxes, `Rectangle.overlaps` and the first-hit scan.
- `Tiles`: the layer, the pool, and the tile query as a function (`Query`,
  `GetTiles`) and as the source's nested loop (`CollectTiles`).
- `Actor`: the constants, the actor, the intents, and the speed logic before
  collision.
- `Collision`: the broad-phase ranges and the two collision passes.
- `Movement`: one frame and runs of frames.
- `MovementProperties`: lemmas relating a whole frame to its parts.
- `Scenarios`: concrete frames worked through those lemmas.

Floats are exact `real`s throughout. Tuning constants are the source's:

| constant | value |
|---|---|
| `MAX_VELOCITY` | 10 |
| `JUMP_VELOCITY` | 40 |
| `DAMPING` | 0.87 |
| gravity | −2.5 per frame |
| width | 18/16, from the 18 × 26 sprite frame at 16 pixels per unit |
| height | 26/16 |

Behaviour of the code as written that is worth knowing:

- **Tunnelling.** Each broad phase checks only the one column or row the
  `(int)` cast gives for the moved leading edge (the one holding it when the
  edge is non-negative). Take an actor at (5, 5) over a single solid
  cell (5, 4), falling for `dt` = 1. Its moved lower edge is at 2.5, so only
  row 2 is queried. The actor passes through the floor and ends airborne at
  2.5, not grounded at 5 (`Scenarios.FastFallTunnels`). With `dt` = 0.2 it
  lands at 5 (`Scenarios.FallLands`).
- **Query order.** Candidates are listed row by row (outer loop over y),
  and within a row by ascending x. The order is by y first, not by x first.
- **Pool balance.** After a frame the candidate list still holds the
  vertical query's rectangles, so between frames the pool's in-use count
  equals the list length (`Balanced`). It is not zero.
- **Grounded flag.** Grounded does not imply standing on a tile. Only a
  jump clears it, so an actor that walks off a ledge stays grounded in
  mid-air (`Scenarios.GroundedInMidair`).

## Model

| member | source | states |
|---|---|---|
| Numeric.Trunc | core/src/com/coredumpproject/pdemo/Player.java:104-111 | the `(int)` cast used for every query bound truncates toward zero: for a non-negative float it is the floor, for a negative one the ceiling (`TruncatesTo`) |
| Numeric.TruncatesToUnique | core/src/com/coredumpproject/pdemo/Player.java:104-111 | at most one integer truncates a given real, so `TruncatesTo` determines the cast exactly |
| Numeric.TruncIsNotFloor | core/src/com/coredumpproject/pdemo/Player.java:106-108 | on every negative non-integer the cast is one above the floor, so a negative non-integer leading edge is looked up one column (or row) above the one holding it; an edge in (-1, 0) is looked up in column 0 |
| Numeric.Clamp | core/src/com/coredumpproject/pdemo/Player.java:85-87 | the clamp lies within [min, max], is the value itself inside the interval, min below it and max above it |
| Numeric.Abs | core/src/com/coredumpproject/pdemo/Player.java:90 | `Math.abs` is non-negative and is the value or its negation |
| Geometry.Box | core/src/com/coredumpproject/pdemo/Player.java:185-186 | a queried solid cell becomes the unit rectangle whose lower-left corner is exactly the cell's integer point |
| Geometry.Overlaps | core/src/com/coredumpproject/pdemo/Player.java:113-115 | `Rectangle.overlaps` is symmetric, and boxes that only share an edge do not overlap |
| Geometry.FirstHit | core/src/com/coredumpproject/pdemo/Player.java:114-119 | the collision loop stops at the first overlapping candidate: every earlier one misses, and the stop index is the list length when nothing overlaps |
| Geometry.FirstHitMissesIffNoOverlap | core/src/com/coredumpproject/pdemo/Player.java:114-119 | the scan runs to the end exactly when no candidate overlaps the moved box |
| Tiles.Query | core/src/com/coredumpproject/pdemo/Player.java:181-190 | the tile query lists every solid cell of the inclusive range and nothing else, in strict row-major order with no repeats, and lists nothing when either bound pair is inverted |
| Tiles.RowMajorUnique | core/src/com/coredumpproject/pdemo/Player.java:181-182 | two row-major listings of the same cells are equal, so the nested y-then-x loop fixes the candidate order |
| Tiles.QueryIsRowMajorListing | core/src/com/coredumpproject/pdemo/Player.java:181-190 | any row-major listing of exactly the solid cells in range is the query result, an independent characterisation of the query |
| Tiles.GetTiles | core/src/com/coredumpproject/pdemo/Player.java:177-191 | the query frees the previously held candidates, replaces the list with the query result, obtains one rectangle per listed cell, leaves the layer alone, and keeps pooled-minus-held constant |
| Tiles.CollectTiles | core/src/com/coredumpproject/pdemo/Player.java:177-191 | the source's nested loops, run cell by cell, produce exactly the query result and obtain exactly one rectangle per tile found |
| Tiles.Obtain | core/src/com/coredumpproject/pdemo/PlatformDemoGame.java:25-30 | obtaining from the pool never fails and puts one more rectangle in use |
| Tiles.Free | core/src/com/coredumpproject/pdemo/Player.java:152 | freeing the actor's own rectangle returns exactly one to the pool |
| Tiles.RowCells | core/src/com/coredumpproject/pdemo/Player.java:182-189 | the inner loop over one row finds exactly the solid cells of that row between the column bounds, in ascending column order |
| Tiles.RowsCells | core/src/com/coredumpproject/pdemo/Player.java:181-190 | the outer loop over the rows finds exactly the solid cells of the inclusive range, in row-major order |
| Tiles.FreeAll | core/src/com/coredumpproject/pdemo/Player.java:179 | freeing the held list returns exactly that many rectangles |
| Actor.Jump | core/src/com/coredumpproject/pdemo/Player.java:64-68 | a jump fires only when grounded: it adds the jump speed, enters Jumping and clears grounded; otherwise nothing changes |
| Actor.Left | core/src/com/coredumpproject/pdemo/Player.java:70-74 | left sets full leftward speed and faces left, and walks only when grounded |
| Actor.Right | core/src/com/coredumpproject/pdemo/Player.java:76-80 | right sets full rightward speed and faces right, and walks only when grounded |
| Actor.Steer | core/src/com/coredumpproject/pdemo/Player.java:63-80 | the net effect of the three intents: a jump happens iff jump is held while grounded, and a jump frame never becomes Walking; with both directions held right wins for speed and facing |
| Actor.Govern | core/src/com/coredumpproject/pdemo/Player.java:82-93 | gravity is added to the vertical speed; the horizontal speed ends within ±MAX_VELOCITY, keeps its sign, is kept when already in [1, MAX_VELOCITY] in magnitude, becomes exactly ±MAX_VELOCITY when faster, and is zero when below 1; a snapped grounded actor stands |
| Collision.HorizontalRange | core/src/com/coredumpproject/pdemo/Player.java:104-111 | the horizontal broad phase is the single column the cast gives for the moved leading edge (right edge when moving right, left edge otherwise), over the rows from the cast of the current bottom to the cast of the current top; for non-negative coordinates these are the column holding the edge and the rows the box spans |
| Collision.VerticalRange | core/src/com/coredumpproject/pdemo/Player.java:124-130 | the vertical broad phase is the single row the cast gives for the moved leading edge (top when moving up, bottom otherwise), over the columns from the cast of the current left edge to the cast of the current right edge; for non-negative coordinates these are the row holding the edge and the columns the box spans |
| Collision.ActorBox | core/src/com/coredumpproject/pdemo/Player.java:102-113 | the actor's box has the actor's size at every offset and is moved by exactly the offset given |
| Collision.HorizontalPass | core/src/com/coredumpproject/pdemo/Player.java:112-120 | the horizontal move is cancelled entirely iff some queried candidate overlaps the horizontally moved box; no snap |
| Collision.FirstOverlappingUnique | core/src/com/coredumpproject/pdemo/Player.java:133-150 | at most one candidate is the row-major-first overlapping one |
| Collision.FirstHitIsRowMajorFirst | core/src/com/coredumpproject/pdemo/Player.java:133-150 | over the row-major candidate list, the candidate the loop breaks on is the row-major-first overlapping cell |
| Collision.ResolvesUniquely | core/src/com/coredumpproject/pdemo/Player.java:122-151 | the vertical outcome (contact, snapped height, remaining displacement, layer) is determined by the layer, the position and the displacement alone |
| Collision.VerticalPass | core/src/com/coredumpproject/pdemo/Player.java:122-151 | with no overlap the actor moves freely; on the first overlap moving up it snaps under the tile and that cell, which was solid, is removed from the layer; otherwise it snaps onto the tile's top with the layer unchanged; either way the vertical displacement is cancelled |
| Movement.Scale | core/src/com/coredumpproject/pdemo/Player.java:97 | scaling a speed by a non-zero `dt` can be undone by scaling by `1 / dt`, and for positive `dt` keeps the sign that decides the moving-right and moving-up branches |
| Movement.Displacement | core/src/com/coredumpproject/pdemo/Player.java:97 | the frame's displacement unscales to the governed speeds and, for positive `dt`, points the same way |
| Movement.Unscale | core/src/com/coredumpproject/pdemo/Player.java:157 | `scl(deltaTime)` followed by `scl(1 / deltaTime)` gives back the speed |
| Movement.Collide | core/src/com/coredumpproject/pdemo/Player.java:99-152 | the collision half of a frame returns its own rectangle to the pool, keeps pooled-minus-held constant, removes at most one cell and adds none, and leaves the horizontal displacement whole or zero |
| Movement.Commit | core/src/com/coredumpproject/pdemo/Player.java:154-161 | unscaling returns the speed on an axis that was not stopped and zero on one that was; the horizontal speed is damped; the position moves by what collision left; grounded is set by a landing |
| Movement.Damped | core/src/com/coredumpproject/pdemo/Player.java:159-161 | after damping the horizontal speed is within ±MAX_VELOCITY·DAMPING and is either zero or at least DAMPING in magnitude |
| Movement.Advance | core/src/com/coredumpproject/pdemo/Player.java:61-161 | a frame with non-zero `dt` keeps pool balance, removes at most one cell and adds none, keeps the damped speed bounds, and faces the last direction held |
| Movement.Step | core/src/com/coredumpproject/pdemo/Player.java:59-163 | `dt` = 0 leaves actor, layer, candidate list and pool untouched; otherwise pool balance is kept, at most one cell disappears and none appears, the damped speed bounds hold, and facing follows the last direction held |
| Movement.Run | core/src/com/coredumpproject/pdemo/PlatformDemoGame.java:77-87 | over any sequence of frames, pool balance is kept and the layer only loses cells, at most one per frame |
| MovementProperties.StepFollowsTransitionTable | core/src/com/coredumpproject/pdemo/Player.java:63-93 | the state after a frame is the explicit table: Jumping on a grounded jump, unchanged while airborne, Walking on a grounded direction, Standing when grounded and slower than 1, else unchanged |
| MovementProperties.JumpFrameEndsJumping | core/src/com/coredumpproject/pdemo/Player.java:64-80 | a jump from the ground leaves the frame in Jumping even if a direction is held or the frame lands |
| MovementProperties.AirborneKeepsState | core/src/com/coredumpproject/pdemo/Player.java:72-92 | a frame that starts airborne keeps its state, so landing does not leave Jumping in its own frame |
| MovementProperties.RightWins | core/src/com/coredumpproject/pdemo/Player.java:70-80 | with both directions held the actor faces right and its damped speed is the full rightward speed or zero |
| MovementProperties.HorizontalMove | core/src/com/coredumpproject/pdemo/Player.java:104-120 | seen from the whole frame: blocked iff a candidate of the column overlaps, and then x is unchanged and the speed zero; otherwise x moves by the full displacement and the speed is damped |
| MovementProperties.VerticalOfStep | core/src/com/coredumpproject/pdemo/Player.java:122-157 | the frame's height, vertical speed, grounded flag, layer and the candidate list it leaves behind (the vertical query of the pre-frame layer) are what the vertical pass decides from the pre-frame position and layer |
| MovementProperties.BlockBreak | core/src/com/coredumpproject/pdemo/Player.java:138-142 | a cell leaves the layer iff it is the first candidate the rising box overlaps; then it is the only change to the layer, the actor sits just under it and stops rising |
| MovementProperties.Landing | core/src/com/coredumpproject/pdemo/Player.java:143-148 | when the falling box first overlaps a candidate, the actor ends on top of it, grounded, at vertical rest, with the layer unchanged |
| MovementProperties.FreeFlight | core/src/com/coredumpproject/pdemo/Player.java:122-157 | when no candidate of the row overlaps, the actor moves by the whole vertical displacement, keeps its vertical speed and grounded flag, and the layer is unchanged |
| MovementProperties.GroundedChanges | core/src/com/coredumpproject/pdemo/Player.java:64-147 | only a jump clears grounded, and it becomes set only by a downward first overlap |
| MovementProperties.VerticalIgnoresHorizontal | core/src/com/coredumpproject/pdemo/Player.java:122-157 | frames differing only in horizontal speed, facing and direction intents end with the same height, vertical speed, grounded flag and layer |
| MovementProperties.IdleRun | core/src/com/coredumpproject/pdemo/Player.java:59-60 | any number of frames with `dt` = 0 change nothing at all |
| Scenarios.LeftOfOriginQueriesColumnZero | core/src/com/coredumpproject/pdemo/Player.java:107-111 | an actor at (0.2, 5) moving left by 0.5 has its leading edge at -0.3 in column -1, yet the broad phase queries column 0, rows 5 to 6 |
| Scenarios.FastFallTunnels | core/src/com/coredumpproject/pdemo/Player.java:124-131 | from (5, 5) over the floor cell (5, 4) with `dt` = 1 the actor tunnels to height 2.5, airborne, with the layer intact |
| Scenarios.FallLands | core/src/com/coredumpproject/pdemo/Player.java:143-148 | the same fall with `dt` = 0.2 ends at height 5, grounded and at vertical rest |
| Scenarios.WalkLeftMoves | core/src/com/coredumpproject/pdemo/Player.java:70-120 | walking left with `dt` = 0.1 moves one unit left at speed −10·0.87 |
| Scenarios.WalkLeftStaysOnFloor | core/src/com/coredumpproject/pdemo/Player.java:143-148 | while walking left on the floor, gravity's quarter-unit sink is snapped back to height 5, grounded |
| Scenarios.WalkLeft | core/src/com/coredumpproject/pdemo/Player.java:59-163 | a grounded actor walking left ends at (4, 5) with speed −10·0.87, Walking, facing left, grounded |
| Scenarios.BreakBlockAbove | core/src/com/coredumpproject/pdemo/Player.java:138-142 | jumping under the block (5, 7) breaks exactly that block, snaps the actor under it at vertical rest, Jumping and airborne |
| Scenarios.GroundedInMidair | core/src/com/coredumpproject/pdemo/Player.java:143-147 | a grounded actor over empty cells drops a quarter unit and is still grounded |

## Left out

- Rendering, textures, animations, the camera and `stateTime`: they do not feed back into the physics.
- Input polling (`isKeyPressed`, `isTouched` screen zones): the intents are a parameter of the step.
- The source of `dt` (`Graphics.getDeltaTime`): `dt` is a parameter.
- Float rounding: floats are exact reals. `0.87f` and the scale-and-unscale by `dt` are exact here and not in 32-bit floats. The sprite sizes 18/16 and 26/16 are exact in both.
- Numeric.Trunc: does not model the saturation of Java's float-to-int cast at ±2^31, because positions stay small on a tile map. The query loop counter's overflow at `Integer.MAX_VALUE` is not modelled for the same reason.
- The tile layer's extent: `getCell` returns null outside the layer, and here those cells are simply absent from the solid set. Layer bounds are not modelled separately.
- A missing "walls" layer, which is a null dereference in the source: the model assumes the layer exists.
- Tile identity: a solid cell is modelled as present or absent. The tile graphic a cell holds is not modelled.
- The pool's free list and rectangle reuse: only the count in use is modelled, which is what balance is about.
- Getters for the animations and the texture: presentation only.
