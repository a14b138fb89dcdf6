/**
 The player actor, its tuning constants and the input half of the frame
 update: the three intents, gravity, the speed clamp and the stillness snap,
 which together form the locomotion state machine.
 */
module Actor {
  import opened Numeric
  import opened Geometry

  const MaxVelocity: real := 10.0
  const JumpVelocity: real := 40.0
  const Damping: real := 0.87
  /** Sprite frames are 18 x 26 pixels at 16 pixels per world unit. */
  const Width: real := 18.0 / 16.0
  const Height: real := 26.0 / 16.0
  /** The world's per-frame gravity. */
  const Gravity: real := -2.5

  datatype State = Standing | Walking | Jumping

  datatype Player = Player(position: Vec, velocity: Vec, facesRight: bool, grounded: bool, state: State)

  /** The debounced intents the input collaborator reports for a frame. */
  datatype Intents = Intents(jump: bool, left: bool, right: bool)

  /** Jump intent: only while grounded; launches and leaves the ground. */
  function Jump(p: Player, i: Intents): (r: Player)
    ensures r.position == p.position && r.velocity.x == p.velocity.x && r.facesRight == p.facesRight
    ensures i.jump && p.grounded ==> r.velocity.y == p.velocity.y + JumpVelocity && r.state == Jumping && !r.grounded
    ensures !(i.jump && p.grounded) ==> r == p
  {
    if i.jump && p.grounded then
      p.(velocity := Vec(p.velocity.x, p.velocity.y + JumpVelocity), state := Jumping, grounded := false)
    else p
  }

  /** Left intent: full speed leftwards, face left, walk when grounded. */
  function Left(p: Player, i: Intents): (r: Player)
    ensures r.position == p.position && r.velocity.y == p.velocity.y && r.grounded == p.grounded
    ensures i.left ==> r.velocity.x == -MaxVelocity && !r.facesRight && r.state == (if p.grounded then Walking else p.state)
    ensures !i.left ==> r == p
  {
    if i.left then
      p.(velocity := Vec(-MaxVelocity, p.velocity.y), state := if p.grounded then Walking else p.state, facesRight := false)
    else p
  }

  /** Right intent: full speed rightwards, face right, walk when grounded. */
  function Right(p: Player, i: Intents): (r: Player)
    ensures r.position == p.position && r.velocity.y == p.velocity.y && r.grounded == p.grounded
    ensures i.right ==> r.velocity.x == MaxVelocity && r.facesRight && r.state == (if p.grounded then Walking else p.state)
    ensures !i.right ==> r == p
  {
    if i.right then
      p.(velocity := Vec(MaxVelocity, p.velocity.y), state := if p.grounded then Walking else p.state, facesRight := true)
    else p
  }

  /**
   The three intents in the source's fixed order. Net effect: a jump fires only
   from the ground and its frame cannot turn into Walking; when both directions
   are held, right wins for speed and facing.
   */
  function Steer(p: Player, i: Intents): (r: Player)
    ensures r.position == p.position
    ensures var jumped := i.jump && p.grounded;
      && r.grounded == (p.grounded && !jumped)
      && r.velocity.y == p.velocity.y + (if jumped then JumpVelocity else 0.0)
      && r.state == (if jumped then Jumping else if (i.left || i.right) && p.grounded then Walking else p.state)
    ensures r.velocity.x == (if i.right then MaxVelocity else if i.left then -MaxVelocity else p.velocity.x)
    ensures r.facesRight == (if i.right then true else if i.left then false else p.facesRight)
  {
    Right(Left(Jump(p, i), i), i)
  }

  /**
   Gravity, the horizontal clamp to +-MaxVelocity and the stillness snap:
   below one unit per second horizontal speed becomes exactly zero, and a
   grounded actor then stands.
   */
  function Govern(p: Player): (r: Player)
    ensures r.position == p.position && r.grounded == p.grounded && r.facesRight == p.facesRight
    ensures r.velocity.y == p.velocity.y + Gravity
    ensures Abs(r.velocity.x) <= MaxVelocity
    ensures r.velocity.x == 0.0 || 1.0 <= Abs(r.velocity.x)
    ensures 1.0 <= Abs(p.velocity.x) <= MaxVelocity ==> r.velocity.x == p.velocity.x
    ensures Abs(p.velocity.x) < 1.0 ==> r.velocity.x == 0.0
    ensures MaxVelocity < Abs(p.velocity.x) ==> r.velocity.x == (if 0.0 < p.velocity.x then MaxVelocity else -MaxVelocity)
    ensures (0.0 <= p.velocity.x ==> 0.0 <= r.velocity.x) && (p.velocity.x <= 0.0 ==> r.velocity.x <= 0.0)
    ensures r.state == (if r.velocity.x == 0.0 && p.grounded then Standing else p.state)
  {
    var vx := Clamp(p.velocity.x, -MaxVelocity, MaxVelocity);
    var v := Vec(vx, p.velocity.y + Gravity);
    if Abs(vx) < 1.0 then
      p.(velocity := v.(x := 0.0), state := if p.grounded then Standing else p.state)
    else
      p.(velocity := v)
  }
}
