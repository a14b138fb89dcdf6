/**
 Properties of the frame update relating the whole step to its parts: the
 locomotion transition table, the two collision passes, the grounded flag
 and idle frames.
 */
module MovementProperties {
  import opened Numeric
  import opened Geometry
  import opened Tiles
  import opened Actor
  import opened Collision
  import opened Movement

  /**
   The locomotion state machine as one explicit table over the state, the
   grounded flag and the horizontal speed at the start of the frame.
   */
  function NextState(s: State, grounded: bool, vx: real, i: Intents): State
  {
    if i.jump && grounded then Jumping
    else if !grounded then s
    else if i.left || i.right then Walking
    else if Abs(vx) < 1.0 then Standing
    else s
  }

  /** The frame update moves through the locomotion states exactly as the table says; landing changes nothing. */
  lemma StepFollowsTransitionTable(p: Player, w: World, i: Intents, dt: real)
    requires Holds(w) && dt != 0.0
    ensures Step(p, w, i, dt).player.state == NextState(p.state, p.grounded, p.velocity.x, i)
  {
    var s := Steer(p, i);
    var q := Govern(s);
    if !(i.jump && p.grounded) && p.grounded && !i.left && !i.right {
      assert s.velocity.x == p.velocity.x;
      assert Abs(p.velocity.x) < 1.0 <==> q.velocity.x == 0.0;
    }
  }

  /** A jump from the ground always leaves the frame in the Jumping state, even if the frame also lands. */
  lemma JumpFrameEndsJumping(p: Player, w: World, i: Intents, dt: real)
    requires Holds(w) && dt != 0.0
    requires i.jump && p.grounded
    ensures Step(p, w, i, dt).player.state == Jumping
  {
    StepFollowsTransitionTable(p, w, i, dt);
  }

  /**
   A frame that starts airborne never changes the locomotion state; in
   particular landing does not end Jumping in its own frame, only a later
   grounded frame's intents or stillness snap do.
   */
  lemma AirborneKeepsState(p: Player, w: World, i: Intents, dt: real)
    requires Holds(w) && dt != 0.0
    requires !p.grounded
    ensures Step(p, w, i, dt).player.state == p.state
  {
    StepFollowsTransitionTable(p, w, i, dt);
  }

  /** With both directions held, right wins: facing right and, unless blocked, the full rightward speed damped. */
  lemma RightWins(p: Player, w: World, i: Intents, dt: real)
    requires Holds(w) && dt != 0.0
    requires i.left && i.right
    ensures var r := Step(p, w, i, dt).player;
      r.facesRight && (r.velocity.x == 0.0 || r.velocity.x == MaxVelocity * Damping)
  {
  }

  /**
   Horizontal pass: the move is cancelled exactly when some solid cell of the
   broad-phase column overlaps the moved box; there is no positional snap.
   */
  lemma HorizontalMove(p: Player, w: World, i: Intents, dt: real)
    requires Holds(w) && dt != 0.0
    ensures var q := Govern(Steer(p, i));
      var dx := Displacement(q, dt).x;
      var r := Step(p, w, i, dt).player;
      var blocked := exists c :: c in Query(w.grid, HorizontalRange(p.position, dx)) && Overlaps(ActorBox(p.position, dx, 0.0), Box(c));
      if blocked then r.position.x == p.position.x && r.velocity.x == 0.0
      else r.position.x == p.position.x + dx && r.velocity.x == q.velocity.x * Damping
  {
    var q := Govern(Steer(p, i));
    var d := Displacement(q, dt);
    var h := HorizontalPass(w.(pool := Obtain(w.pool)), q.position, d.x);
    var c := Collide(q, w, d);
    assert c.0 == h.1;
    assert Step(p, w, i, dt).player == Commit(q, dt, c.0, c.1);
  }

  /**
   The vertical pass of a frame, seen from the whole step: it scans the solid
   cells of the broad-phase row of the layer as it was before the frame, from
   the position before the frame, and the step commits what it decides.
   */
  lemma VerticalOfStep(p: Player, w: World, i: Intents, dt: real) returns (v: Resolved)
    requires Holds(w) && dt != 0.0
    ensures var q := Govern(Steer(p, i));
      var dy := Displacement(q, dt).y;
      var f := Step(p, w, i, dt);
      && f.world.grid == v.world.grid && f.world.tiles == v.world.tiles
      && f.player.position.y == v.y + v.dy
      && f.player.grounded == (q.grounded || v.contact.Landed?)
      && (v.dy == dy ==> f.player.velocity.y == q.velocity.y)
      && (v.dy == 0.0 ==> f.player.velocity.y == 0.0)
      && Resolves(v, w.grid, p.position, dy)
  {
    var q := Govern(Steer(p, i));
    var d := Displacement(q, dt);
    var h := HorizontalPass(w.(pool := Obtain(w.pool)), q.position, d.x);
    v := VerticalPass(h.0, q.position, d.y);
    var c := Collide(q, w, d);
    assert c.1 == v.(world := v.world.(pool := Free(v.world.pool)));
    assert Step(p, w, i, dt) == Frame(Commit(q, dt, c.0, c.1), c.1.world);
  }

  /**
   Block breaking: a cell leaves the layer exactly when it is the first
   candidate the upward-moving box overlaps; the actor then sits just under
   it and stops rising, and no other cell changes.
   */
  lemma BlockBreak(p: Player, w: World, i: Intents, dt: real, c: Cell)
    requires Holds(w) && dt != 0.0
    ensures var q := Govern(Steer(p, i));
      var dy := Displacement(q, dt).y;
      var f := Step(p, w, i, dt);
      var bumped := 0.0 < dy && FirstOverlapping(ActorBox(p.position, 0.0, dy), Query(w.grid, VerticalRange(p.position, dy)), c);
      && ((c in w.grid && c !in f.world.grid) <==> bumped)
      && (bumped ==> f.world.grid == w.grid - {c} && f.player.position.y == c.1 as real - Height && f.player.velocity.y == 0.0)
  {
    var v := VerticalOfStep(p, w, i, dt);
    var q := Govern(Steer(p, i));
    var dy := Displacement(q, dt).y;
    var moved := ActorBox(p.position, 0.0, dy);
    if 0.0 < dy && FirstOverlapping(moved, v.world.tiles, c) && v.contact.Bumped? {
      FirstOverlappingUnique(moved, v.world.tiles, v.contact.cell, c);
    }
  }

  /**
   Landing: when the box moving down (or not at all) first overlaps candidate
   `c`, the actor ends on top of that unit tile, grounded and at rest
   vertically, and the layer is unchanged.
   */
  lemma Landing(p: Player, w: World, i: Intents, dt: real, c: Cell)
    requires Holds(w) && dt != 0.0
    requires var dy := Displacement(Govern(Steer(p, i)), dt).y;
      dy <= 0.0 && FirstOverlapping(ActorBox(p.position, 0.0, dy), Query(w.grid, VerticalRange(p.position, dy)), c)
    ensures var f := Step(p, w, i, dt);
      && f.player.position.y == c.1 as real + 1.0 && f.player.grounded && f.player.velocity.y == 0.0
      && f.world.grid == w.grid
  {
    var v := VerticalOfStep(p, w, i, dt);
    var dy := Displacement(Govern(Steer(p, i)), dt).y;
    var moved := ActorBox(p.position, 0.0, dy);
    if v.contact.Landed? {
      FirstOverlappingUnique(moved, v.world.tiles, v.contact.cell, c);
    }
  }

  /**
   Free flight: when no candidate of the broad-phase row overlaps the moved
   box, the actor moves by the full vertical displacement, keeps its vertical
   speed and its grounded flag from the intents, and the layer is unchanged.
   */
  lemma FreeFlight(p: Player, w: World, i: Intents, dt: real)
    requires Holds(w) && dt != 0.0
    requires var dy := Displacement(Govern(Steer(p, i)), dt).y;
      forall c :: c in Query(w.grid, VerticalRange(p.position, dy)) ==> !Overlaps(ActorBox(p.position, 0.0, dy), Box(c))
    ensures var q := Govern(Steer(p, i));
      var f := Step(p, w, i, dt);
      && f.player.position.y == p.position.y + Displacement(q, dt).y && f.player.velocity.y == q.velocity.y
      && f.player.grounded == q.grounded && f.world.grid == w.grid
  {
    var v := VerticalOfStep(p, w, i, dt);
  }

  /**
   The grounded flag is cleared only by a jump and set only by a landing:
   walking off a ledge keeps it.
   */
  lemma GroundedChanges(p: Player, w: World, i: Intents, dt: real)
    requires Holds(w) && dt != 0.0
    ensures var f := Step(p, w, i, dt);
      var dy := Displacement(Govern(Steer(p, i)), dt).y;
      && (p.grounded && !f.player.grounded ==> i.jump)
      && (!p.grounded && f.player.grounded ==>
            dy <= 0.0 && exists c :: FirstOverlapping(ActorBox(p.position, 0.0, dy), Query(w.grid, VerticalRange(p.position, dy)), c))
  {
    var v := VerticalOfStep(p, w, i, dt);
  }

  /**
   The vertical outcome does not depend on anything horizontal: two frames
   that differ only in horizontal speed, facing and direction intents end with
   the same height, vertical speed, grounded flag and layer.
   */
  lemma VerticalIgnoresHorizontal(p: Player, p': Player, w: World, i: Intents, i': Intents, dt: real)
    requires Holds(w) && dt != 0.0
    requires p'.position == p.position && p'.velocity.y == p.velocity.y && p'.grounded == p.grounded
    requires i'.jump == i.jump
    ensures var f := Step(p, w, i, dt);
      var f' := Step(p', w, i', dt);
      && f'.player.position.y == f.player.position.y && f'.player.velocity.y == f.player.velocity.y
      && f'.player.grounded == f.player.grounded && f'.world.grid == f.world.grid
  {
    var v := VerticalOfStep(p, w, i, dt);
    var v' := VerticalOfStep(p', w, i', dt);
    var q := Govern(Steer(p, i));
    var q' := Govern(Steer(p', i'));
    assert q'.velocity.y == q.velocity.y && q'.grounded == q.grounded;
    var dy := Displacement(q, dt).y;
    assert Displacement(q', dt).y == dy;
    ResolvesUniquely(v, v', w.grid, p.position, dy);
    assert v'.dy == v.dy && v'.y == v.y && v'.contact == v.contact;
  }

  /** Frames with zero elapsed time, however many, never change actor, layer, candidate list or pool. */
  lemma {:induction false} IdleRun(p: Player, w: World, inputs: seq<Input>)
    requires Holds(w)
    requires forall k :: 0 <= k < |inputs| ==> inputs[k].dt == 0.0
    ensures Run(p, w, inputs) == Frame(p, w)
  {
    if |inputs| > 0 {
      IdleRun(p, w, inputs[1..]);
    }
  }
}
