/**
 Concrete frames of the update, worked through the general lemmas: falling
 onto the floor, walking left, breaking a block from below, walking off a
 ledge, and a fall too fast for the one-row broad phase.
 */
module Scenarios {
  import opened Geometry
  import opened Tiles
  import opened Actor
  import opened Collision
  import opened Movement
  import opened MovementProperties

  /** An actor at rest at (5, 5), facing right, in the given grounded state. */
  predicate AtRest(p: Player, grounded: bool)
  {
    p.position == Vec(5.0, 5.0) && p.velocity == Vec(0.0, 0.0) && p.facesRight && p.grounded == grounded
  }

  /** A freshly loaded world: the given layer, no candidates held, nothing obtained from the pool. */
  predicate Fresh(w: World, grid: Grid)
  {
    w == World(grid, [], Pool(0))
  }

  /** A range holding no solid cell queries to nothing. */
  lemma QueryNothing(grid: Grid, rg: Range)
    requires forall c :: c in grid ==> !InRange(c, rg)
    ensures Query(grid, rg) == []
  {
    QueryIsRowMajorListing(grid, rg, []);
  }

  /** A range holding exactly one solid cell queries to that cell alone. */
  lemma QueryOne(grid: Grid, rg: Range, c: Cell)
    requires c in grid && InRange(c, rg)
    requires forall d :: d in grid && d != c ==> !InRange(d, rg)
    ensures Query(grid, rg) == [c]
  {
    QueryIsRowMajorListing(grid, rg, [c]);
  }

  /**
   The cast truncates toward zero: a leading edge at -0.3, which lies in
   column -1, makes the horizontal broad phase query column 0.
   */
  lemma LeftOfOriginQueriesColumnZero()
    ensures HorizontalRange(Vec(0.2, 5.0), -0.5) == Range(0, 5, 0, 6)
  {
  }

  /** Falling for a whole time unit, the box never meets a solid cell of the one row checked. */
  lemma FastFallMissesFloor(p: Player, w: World, i: Intents)
    requires AtRest(p, false) && Fresh(w, {(5, 4)}) && i == Intents(false, false, false)
    ensures var q := Govern(Steer(p, i));
      var dy := Displacement(q, 1.0).y;
      && dy == -2.5 && !q.grounded && q.velocity.y == Gravity
      && forall c :: c in Query(w.grid, VerticalRange(p.position, dy)) ==> !Overlaps(ActorBox(p.position, 0.0, dy), Box(c))
  {
    var q := Govern(Steer(p, i));
    var dy := Displacement(q, 1.0).y;
    assert dy == -2.5;
    assert VerticalRange(p.position, dy) == Range(5, 2, 6, 2);
    QueryNothing(w.grid, Range(5, 2, 6, 2));
  }

  /**
   A fall that covers more than a tile in one frame tunnels: from (5, 5) with
   the only solid cell at (5, 4) and `dt` = 1, the vertical broad phase checks
   row 2 alone, so the actor passes the floor and ends at height 2.5, airborne.
   */
  lemma FastFallTunnels(p: Player, w: World, i: Intents)
    requires AtRest(p, false) && Fresh(w, {(5, 4)}) && i == Intents(false, false, false)
    ensures var f := Step(p, w, i, 1.0);
      && f.player.position.y == 2.5 && !f.player.grounded && f.player.velocity.y == Gravity
      && f.world.grid == {(5, 4)}
  {
    FastFallMissesFloor(p, w, i);
    FreeFlight(p, w, i, 1.0);
  }

  /** With `dt` = 0.2 the falling box first overlaps the floor cell (5, 4). */
  lemma SlowFallMeetsFloor(p: Player, w: World, i: Intents)
    requires AtRest(p, false) && Fresh(w, {(5, 4)}) && i == Intents(false, false, false)
    ensures var dy := Displacement(Govern(Steer(p, i)), 0.2).y;
      dy <= 0.0 && FirstOverlapping(ActorBox(p.position, 0.0, dy), Query(w.grid, VerticalRange(p.position, dy)), (5, 4))
  {
    var q := Govern(Steer(p, i));
    var dy := Displacement(q, 0.2).y;
    assert dy == -0.5;
    assert VerticalRange(p.position, dy) == Range(5, 4, 6, 4);
    QueryOne(w.grid, Range(5, 4, 6, 4), (5, 4));
  }

  /** The same fall with `dt` = 0.2 lands: the actor ends on top of (5, 4), grounded and at rest vertically. */
  lemma FallLands(p: Player, w: World, i: Intents)
    requires AtRest(p, false) && Fresh(w, {(5, 4)}) && i == Intents(false, false, false)
    ensures var f := Step(p, w, i, 0.2);
      && f.player.position.y == 5.0 && f.player.grounded && f.player.velocity.y == 0.0
      && f.world.grid == {(5, 4)}
  {
    SlowFallMeetsFloor(p, w, i);
    Landing(p, w, i, 0.2, (5, 4));
  }

  /** Walking left on the floor, horizontally: nothing in column 4, so one unit left at the damped full speed. */
  lemma WalkLeftMoves(p: Player, w: World, i: Intents)
    requires AtRest(p, true) && Fresh(w, {(5, 4)}) && i == Intents(false, true, false)
    ensures var f := Step(p, w, i, 0.1);
      f.player.position.x == 4.0 && f.player.velocity.x == -MaxVelocity * Damping
  {
    var q := Govern(Steer(p, i));
    assert q.velocity.x == -MaxVelocity;
    var dx := Displacement(q, 0.1).x;
    assert dx == -1.0;
    assert HorizontalRange(p.position, dx) == Range(4, 5, 4, 6);
    QueryNothing(w.grid, Range(4, 5, 4, 6));
    HorizontalMove(p, w, i, 0.1);
  }

  /** Walking left, gravity pulls the box a quarter unit into the floor cell (5, 4). */
  lemma WalkLeftMeetsFloor(p: Player, w: World, i: Intents)
    requires AtRest(p, true) && Fresh(w, {(5, 4)}) && i == Intents(false, true, false)
    ensures var dy := Displacement(Govern(Steer(p, i)), 0.1).y;
      dy <= 0.0 && FirstOverlapping(ActorBox(p.position, 0.0, dy), Query(w.grid, VerticalRange(p.position, dy)), (5, 4))
  {
    var q := Govern(Steer(p, i));
    var dy := Displacement(q, 0.1).y;
    assert dy == -0.25;
    assert VerticalRange(p.position, dy) == Range(5, 4, 6, 4);
    QueryOne(w.grid, Range(5, 4, 6, 4), (5, 4));
  }

  /** Walking left on the floor, vertically: gravity pulls a quarter unit into the floor tile, which snaps the actor back on top. */
  lemma WalkLeftStaysOnFloor(p: Player, w: World, i: Intents)
    requires AtRest(p, true) && Fresh(w, {(5, 4)}) && i == Intents(false, true, false)
    ensures var f := Step(p, w, i, 0.1);
      f.player.position.y == 5.0 && f.player.grounded
  {
    WalkLeftMeetsFloor(p, w, i);
    Landing(p, w, i, 0.1, (5, 4));
  }

  /**
   Walking left on the floor: full leftward speed, damped once, facing left,
   Walking, one unit further left, still on the floor.
   */
  lemma WalkLeft(p: Player, w: World, i: Intents)
    requires AtRest(p, true) && Fresh(w, {(5, 4)}) && i == Intents(false, true, false)
    ensures var f := Step(p, w, i, 0.1);
      && f.player.velocity.x == -MaxVelocity * Damping && f.player.state == Walking && !f.player.facesRight
      && f.player.position == Vec(4.0, 5.0) && f.player.grounded
  {
    WalkLeftMoves(p, w, i);
    WalkLeftStaysOnFloor(p, w, i);
    StepFollowsTransitionTable(p, w, i, 0.1);
  }

  /** Jumping, the rising box first overlaps the block (5, 7). */
  lemma JumpMeetsBlock(p: Player, w: World, i: Intents)
    requires AtRest(p, true) && Fresh(w, {(5, 4), (5, 7)}) && i == Intents(true, false, false)
    ensures var dy := Displacement(Govern(Steer(p, i)), 1.0 / 60.0).y;
      0.0 < dy && FirstOverlapping(ActorBox(p.position, 0.0, dy), Query(w.grid, VerticalRange(p.position, dy)), (5, 7))
  {
    var dt := 1.0 / 60.0;
    var q := Govern(Steer(p, i));
    var dy := Displacement(q, dt).y;
    assert dy == 0.625;
    assert VerticalRange(p.position, dy) == Range(5, 7, 6, 7);
    QueryOne(w.grid, Range(5, 7, 6, 7), (5, 7));
  }

  /**
   Jumping into the block above: the block at (5, 7) is broken, the actor is
   snapped just under where it was and stops rising, and the frame ends Jumping.
   */
  lemma BreakBlockAbove(p: Player, w: World, i: Intents)
    requires AtRest(p, true) && Fresh(w, {(5, 4), (5, 7)}) && i == Intents(true, false, false)
    ensures var f := Step(p, w, i, 1.0 / 60.0);
      && f.world.grid == {(5, 4)}
      && f.player.position.y == 7.0 - Height && f.player.velocity.y == 0.0
      && f.player.state == Jumping && !f.player.grounded
  {
    var dt := 1.0 / 60.0;
    JumpMeetsBlock(p, w, i);
    BlockBreak(p, w, i, dt, (5, 7));
    assert w.grid - {(5, 7)} == {(5, 4)};
    JumpFrameEndsJumping(p, w, i, dt);
    GroundedChanges(p, w, i, dt);
  }

  /** Over empty cells the vertical pass of a resting actor finds nothing to hit. */
  lemma MidairClear(p: Player, w: World, i: Intents)
    requires AtRest(p, true) && Fresh(w, {}) && i == Intents(false, false, false)
    ensures var q := Govern(Steer(p, i));
      var dy := Displacement(q, 0.1).y;
      && dy == -0.25 && q.grounded
      && forall c :: c in Query(w.grid, VerticalRange(p.position, dy)) ==> !Overlaps(ActorBox(p.position, 0.0, dy), Box(c))
  {
  }

  /** Standing over empty cells keeps the grounded flag while the actor drops: nothing clears it but a jump. */
  lemma GroundedInMidair(p: Player, w: World, i: Intents)
    requires AtRest(p, true) && Fresh(w, {}) && i == Intents(false, false, false)
    ensures var f := Step(p, w, i, 0.1);
      f.player.grounded && f.player.position.y == 4.75
  {
    MidairClear(p, w, i);
    FreeFlight(p, w, i, 0.1);
  }
}
