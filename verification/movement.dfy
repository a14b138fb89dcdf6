/**
 The per-frame update of the actor (`Player.update`) as a pure step over the
 actor and the world, and a run of several frames.
 */
module Movement {
  import opened Numeric
  import opened Geometry
  import opened Tiles
  import opened Actor
  import opened Collision

  datatype Frame = Frame(player: Player, world: World)

  /** Scaling a speed by `dt` and back by `1 / dt` gives the speed back. */
  lemma Unscale(v: real, dt: real)
    requires dt != 0.0
    ensures (v * dt) * (1.0 / dt) == v
  {
  }

  /** A speed scaled by the elapsed time: `velocity.scl(deltaTime)` on one axis. */
  function Scale(speed: real, dt: real): (r: real)
    ensures dt != 0.0 ==> r * (1.0 / dt) == speed
    ensures 0.0 < dt ==> (0.0 < r <==> 0.0 < speed)
  {
    if dt == 0.0 then speed * dt
    else
      Unscale(speed, dt);
      speed * dt
  }

  /** The displacement of a frame: the speeds after intents, gravity, clamp and snap, scaled by `dt`. */
  function Displacement(q: Player, dt: real): (d: Vec)
    ensures dt != 0.0 ==> d.x * (1.0 / dt) == q.velocity.x && d.y * (1.0 / dt) == q.velocity.y
    ensures 0.0 < dt ==> (0.0 < d.x <==> 0.0 < q.velocity.x) && (0.0 < d.y <==> 0.0 < q.velocity.y)
  {
    Vec(Scale(q.velocity.x, dt), Scale(q.velocity.y, dt))
  }

  /**
   The collision half of a frame: obtain the actor's box, run the horizontal
   and then the vertical pass from the old position, free the actor's box.
   */
  function Collide(q: Player, w: World, d: Vec): (r: (real, Resolved))
    requires Holds(w)
    ensures Holds(r.1.world) && r.1.world.pool.inUse - |r.1.world.tiles| == w.pool.inUse - |w.tiles|
    ensures r.1.world.grid <= w.grid && |w.grid - r.1.world.grid| <= 1
    ensures r.0 == 0.0 || r.0 == d.x
  {
    var held := w.(pool := Obtain(w.pool));
    var h := HorizontalPass(held, q.position, d.x);
    var v := VerticalPass(h.0, q.position, d.y);
    assert v.contact.Bumped? ==> w.grid - v.world.grid == {v.contact.cell};
    (h.1, v.(world := v.world.(pool := Free(v.world.pool))))
  }

  /** Commit the displacement left after collision, unscale it back to speeds and damp the horizontal one. */
  function Commit(q: Player, dt: real, dx: real, v: Resolved): (r: Player)
    requires dt != 0.0
    requires dx == 0.0 || dx == Displacement(q, dt).x
    ensures dx == Displacement(q, dt).x ==> r.velocity.x == q.velocity.x * Damping
    ensures dx == 0.0 ==> r.velocity.x == 0.0
    ensures v.dy == Displacement(q, dt).y ==> r.velocity.y == q.velocity.y
    ensures v.dy == 0.0 ==> r.velocity.y == 0.0
    ensures r.position == Vec(q.position.x + dx, v.y + v.dy)
    ensures r.facesRight == q.facesRight && r.state == q.state
    ensures r.grounded == (q.grounded || v.contact.Landed?)
  {
    Unscale(q.velocity.x, dt);
    Unscale(q.velocity.y, dt);
    var velocity := Vec(dx * (1.0 / dt) * Damping, v.dy * (1.0 / dt));
    Player(Vec(q.position.x + dx, v.y + v.dy), velocity, q.facesRight, q.grounded || v.contact.Landed?, q.state)
  }

  /** Damping keeps a governed horizontal speed within +-MaxVelocity * Damping and off the band (0, Damping). */
  lemma Damped(vx: real, damped: real)
    requires Abs(vx) <= MaxVelocity && (vx == 0.0 || 1.0 <= Abs(vx))
    requires damped == 0.0 || damped == vx * Damping
    ensures Abs(damped) <= MaxVelocity * Damping <= MaxVelocity
    ensures damped == 0.0 || Damping <= Abs(damped)
  {
  }

  /**
   A frame with non-zero `dt`: intents, gravity, clamp and snap; scale to a
   displacement; collide; commit the displacement, unscale and damp the
   horizontal speed.
   */
  function Advance(p: Player, w: World, i: Intents, dt: real): (r: Frame)
    requires Holds(w) && dt != 0.0
    ensures Holds(r.world) && r.world.pool.inUse - |r.world.tiles| == w.pool.inUse - |w.tiles|
    ensures r.world.grid <= w.grid && |w.grid - r.world.grid| <= 1
    ensures Abs(r.player.velocity.x) <= MaxVelocity * Damping <= MaxVelocity
    ensures r.player.velocity.x == 0.0 || Damping <= Abs(r.player.velocity.x)
    ensures r.player.facesRight == (if i.right then true else if i.left then false else p.facesRight)
  {
    var q := Govern(Steer(p, i));
    var d := Displacement(q, dt);
    var c := Collide(q, w, d);
    var r := Commit(q, dt, c.0, c.1);
    Damped(q.velocity.x, r.velocity.x);
    Frame(r, c.1.world)
  }

  /** One frame (`Player.update`): a zero `dt` leaves actor, layer, candidate list and pool untouched. */
  function Step(p: Player, w: World, i: Intents, dt: real): (r: Frame)
    requires Holds(w)
    ensures dt == 0.0 ==> r == Frame(p, w)
    ensures Holds(r.world) && r.world.pool.inUse - |r.world.tiles| == w.pool.inUse - |w.tiles|
    ensures Balanced(w) ==> Balanced(r.world)
    ensures r.world.grid <= w.grid && |w.grid - r.world.grid| <= 1
    ensures dt != 0.0 ==> Abs(r.player.velocity.x) <= MaxVelocity * Damping <= MaxVelocity
    ensures dt != 0.0 ==> r.player.velocity.x == 0.0 || Damping <= Abs(r.player.velocity.x)
    ensures dt != 0.0 ==> r.player.facesRight == (if i.right then true else if i.left then false else p.facesRight)
  {
    if dt == 0.0 then
      assert w.grid - w.grid == {};
      Frame(p, w)
    else Advance(p, w, i, dt)
  }

  /** One frame's input: the intents and the elapsed time. */
  datatype Input = Input(intents: Intents, dt: real)

  /** Cells removed in two stages add up. */
  lemma RemovedInStages(a: set<Cell>, b: set<Cell>, c: set<Cell>)
    requires c <= b <= a
    ensures |a - c| == |a - b| + |b - c|
  {
    assert a - c == (a - b) + (b - c);
    assert (a - b) * (b - c) == {};
  }

  /**
   A run of frames: every frame keeps the pool balanced against the candidate
   list, and each frame breaks at most one block, so the layer never gains a
   cell and loses at most one per frame.
   */
  function Run(p: Player, w: World, inputs: seq<Input>): (r: Frame)
    requires Holds(w)
    ensures Holds(r.world) && r.world.pool.inUse - |r.world.tiles| == w.pool.inUse - |w.tiles|
    ensures Balanced(w) ==> Balanced(r.world)
    ensures r.world.grid <= w.grid && |w.grid - r.world.grid| <= |inputs|
    decreases |inputs|
  {
    if |inputs| == 0 then Frame(p, w)
    else
      var f := Step(p, w, inputs[0].intents, inputs[0].dt);
      var r := Run(f.player, f.world, inputs[1..]);
      RemovedInStages(w.grid, f.world.grid, r.world.grid);
      r
  }
}
