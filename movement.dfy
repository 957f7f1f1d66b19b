/** The local player's per-frame movement (`handlePlayerMovement`): steer
    toward a minimap target or follow the keys and joystick, cap the velocity,
    move, apply friction, stop when nearly still, and keep inside the world,
    stopping dead along an axis that hits a wall. */
module Movement {
  import opened Js
  import opened Mirror
  import Voice

  const PlayerRadius: real := 30.0
  const MovementSpeed: real := 5.0
  const Acceleration: real := 0.5
  const Friction: real := 0.9
  const MaxVelocity: real := 8.0
  /** Velocity components smaller than this in magnitude snap to 0. */
  const StopBelow: real := 0.01
  /** Joystick deflections at or below this count as no input. */
  const JoystickDeadZone: real := 0.1

  /** The frame's input: `up` is `keys['w'] || keys['arrowup']`, and so on;
      the joystick's deflection is in `joyX`, `joyY`. */
  datatype Input = Input(up: bool, down: bool, left: bool, right: bool,
                         joystickActive: bool, joyX: real, joyY: real)

  predicate JoystickInput(i: Input)
  {
    i.joystickActive && (Abs(i.joyX) > JoystickDeadZone || Abs(i.joyY) > JoystickDeadZone)
  }

  predicate ManualInput(i: Input)
  {
    i.up || i.down || i.left || i.right || JoystickInput(i)
  }

  /** Squared distance from the player to its target. */
  function TargetSqDist(p: Entity): real
    requires p.target.Some?
  {
    Voice.SqDist(p.target.value.x, p.target.value.y, p.x, p.y)
  }

  lemma SqrtCompare(dist: real, sq: real, bound: real)
    requires dist >= 0.0 && bound >= 0.0 && dist * dist == sq
    ensures dist < bound <==> sq < bound * bound
  {
    var a, b, c := dist * dist, dist * bound, bound * bound;
    if dist < bound {
      assert a <= b;
      assert b < c;
    } else {
      assert c <= b;
      assert b <= a;
    }
  }

  /** -1, 0 or 1 along an axis, from the key for the negative direction and
      the key for the positive one. */
  function KeyDir(neg: bool, pos: bool): real
  {
    (if pos then 1.0 else 0.0) - (if neg then 1.0 else 0.0)
  }

  /** The joystick's contribution to one velocity component. */
  function JoyShare(i: Input, c: real): real
  {
    if JoystickInput(i) then c * Acceleration * 2.0 else 0.0
  }

  /** The steering half of a frame: the new velocity before the cap, the
      target that remains, and whether the player is moving on purpose. */
  datatype Steering = Steering(vx: real, vy: real, target: Option<Point>, moved: bool)

  function Steer(p: Entity, input: Input, dist: real): (s: Steering)
    requires p.target.Some? ==> dist >= 0.0 && dist * dist == TargetSqDist(p)
    // a target is dropped once within MovementSpeed
    ensures p.target.Some? && TargetSqDist(p) < MovementSpeed * MovementSpeed ==>
      s.target.None? && !s.moved && s.vx == p.vx && s.vy == p.vy
    // otherwise the velocity gains Acceleration along the unit vector to it;
    // the keys and joystick are not read while a target is set
    ensures p.target.Some? && TargetSqDist(p) >= MovementSpeed * MovementSpeed ==>
      && s.target == p.target && s.moved && dist >= MovementSpeed
      && (s.vx - p.vx) * dist == Acceleration * (p.target.value.x - p.x)
      && (s.vy - p.vy) * dist == Acceleration * (p.target.value.y - p.y)
    // without a target each pressed key adds Acceleration its way, and the
    // joystick twice Acceleration times its deflection
    ensures p.target.None? ==>
      && s.target.None? && (s.moved <==> ManualInput(input))
      && s.vx == p.vx + Acceleration * KeyDir(input.left, input.right) + JoyShare(input, input.joyX)
      && s.vy == p.vy + Acceleration * KeyDir(input.up, input.down) + JoyShare(input, input.joyY)
  {
    if p.target.Some? then
      var dirX := p.target.value.x - p.x;
      var dirY := p.target.value.y - p.y;
      SqrtCompare(dist, TargetSqDist(p), MovementSpeed);
      if dist < MovementSpeed then
        Steering(p.vx, p.vy, None, false)
      else
        Steering(p.vx + dirX / dist * Acceleration, p.vy + dirY / dist * Acceleration, p.target, true)
    else
      var vy := p.vy - (if input.up then Acceleration else 0.0);
      var vy := vy + (if input.down then Acceleration else 0.0);
      var vx := p.vx - (if input.left then Acceleration else 0.0);
      var vx := vx + (if input.right then Acceleration else 0.0);
      var vx := vx + JoyShare(input, input.joyX);
      var vy := vy + JoyShare(input, input.joyY);
      Steering(vx, vy, None, ManualInput(input))
  }

  /** Pursuing a target never accelerates away from it: the change of
      velocity points toward the target. */
  lemma {:induction false} SteerTowardTarget(p: Entity, input: Input, dist: real)
    requires p.target.Some? && dist >= 0.0 && dist * dist == TargetSqDist(p)
    requires TargetSqDist(p) >= MovementSpeed * MovementSpeed
    ensures var s := Steer(p, input, dist);
      (s.vx - p.vx) * (p.target.value.x - p.x) + (s.vy - p.vy) * (p.target.value.y - p.y) > 0.0
  {
    var s := Steer(p, input, dist);
    var dx, dy := p.target.value.x - p.x, p.target.value.y - p.y;
    var ax, ay := s.vx - p.vx, s.vy - p.vy;
    assert ax * dist == Acceleration * dx && ay * dist == Acceleration * dy;
    var dot := ax * dx + ay * dy;
    assert dot * dist == Acceleration * (dx * dx + dy * dy) by {
      assert dot * dist == (ax * dist) * dx + (ay * dist) * dy;
    }
    assert dx * dx + dy * dy == TargetSqDist(p);
    assert dist > 0.0;
  }

  /** One axis after the integrating half of a frame. */
  datatype Axis = Axis(pos: real, v: real)

  /** Whether a move by `c` from `pos` stays in [PlayerRadius, size - PlayerRadius]. */
  predicate InBounds(pos: real, c: real, size: real)
  {
    PlayerRadius <= pos + c <= size - PlayerRadius
  }

  /** The integrating half of a frame along one axis of length `size`: cap
      the velocity, move, apply friction, snap a tiny velocity to 0, clamp to
      [PlayerRadius, size - PlayerRadius] and stop dead if clamped. */
  function Settle(pos: real, v: real, size: real): (r: Axis)
    ensures size >= 2.0 * PlayerRadius ==> PlayerRadius <= r.pos <= size - PlayerRadius
    ensures PlayerRadius <= pos <= size - PlayerRadius ==> Abs(r.pos - pos) <= MaxVelocity
    ensures -Friction * MaxVelocity <= r.v <= Friction * MaxVelocity
    ensures r.v != 0.0 ==> Abs(r.v) >= StopBelow && r.pos == pos + r.v / Friction
    ensures r.v == 0.0 ==>
      Abs(Friction * (r.pos - pos)) < StopBelow || r.pos == PlayerRadius || r.pos == size - PlayerRadius
    // a move that stays inside goes by the capped velocity, and keeps 0.9 of
    // it unless that is below StopBelow
    ensures var c := Clamp(-MaxVelocity, MaxVelocity, v);
      InBounds(pos, c, size) ==>
        r.pos == pos + c && r.v == (if Abs(Friction * c) < StopBelow then 0.0 else Friction * c)
    // a move that would leave the world stops at the wall it crosses
    ensures var c := Clamp(-MaxVelocity, MaxVelocity, v);
      size >= 2.0 * PlayerRadius && !InBounds(pos, c, size) ==>
        r.v == 0.0 && r.pos == (if pos + c < PlayerRadius then PlayerRadius else size - PlayerRadius)
  {
    var c := Clamp(-MaxVelocity, MaxVelocity, v);
    var moved := pos + c;
    var v1 := c * Friction;
    var v2 := if Abs(v1) < StopBelow then 0.0 else v1;
    var clamped := Clamp(PlayerRadius, size - PlayerRadius, moved);
    Axis(clamped, if clamped != moved then 0.0 else v2)
  }

  /** One frame: the local player's new record and whether it moved on purpose. */
  datatype Frame = Frame(player: Entity, moved: bool)

  /** One frame for the local player `p` in a world of `width` x `height`.
      `dist` is `Math.sqrt` of the squared distance to the target, which the
      caller supplies because Dafny's reals have no square root. */
  function Step(p: Entity, input: Input, width: real, height: real, dist: real): (f: Frame)
    requires p.target.Some? ==> dist >= 0.0 && dist * dist == TargetSqDist(p)
    ensures var q := f.player;
      q == p.(x := q.x, y := q.y, vx := q.vx, vy := q.vy, target := q.target)
    // steering decides the target and whether the player moved on purpose,
    // and each axis then settles the steered velocity
    ensures var s := Steer(p, input, dist);
      && f.moved == s.moved && f.player.target == s.target
      && Axis(f.player.x, f.player.vx) == Settle(p.x, s.vx, width)
      && Axis(f.player.y, f.player.vy) == Settle(p.y, s.vy, height)
    // position stays inside the world
    ensures width >= 2.0 * PlayerRadius ==> PlayerRadius <= f.player.x <= width - PlayerRadius
    ensures height >= 2.0 * PlayerRadius ==> PlayerRadius <= f.player.y <= height - PlayerRadius
    // the position moves by at most the velocity cap when it started inside
    ensures PlayerRadius <= p.x <= width - PlayerRadius ==> Abs(f.player.x - p.x) <= MaxVelocity
    ensures PlayerRadius <= p.y <= height - PlayerRadius ==> Abs(f.player.y - p.y) <= MaxVelocity
    // the velocity is capped, then reduced by friction
    ensures -Friction * MaxVelocity <= f.player.vx <= Friction * MaxVelocity
    ensures -Friction * MaxVelocity <= f.player.vy <= Friction * MaxVelocity
    // target handling, as in Steer
    ensures p.target.Some? && TargetSqDist(p) < MovementSpeed * MovementSpeed ==>
      f.player.target.None? && !f.moved
    ensures p.target.Some? && TargetSqDist(p) >= MovementSpeed * MovementSpeed ==>
      f.player.target == p.target && f.moved
    ensures p.target.None? ==> f.player.target.None? && (f.moved <==> ManualInput(input))
  {
    var s := Steer(p, input, dist);
    var ax := Settle(p.x, s.vx, width);
    var ay := Settle(p.y, s.vy, height);
    Frame(p.(x := ax.pos, y := ay.pos, vx := ax.v, vy := ay.v, target := s.target), s.moved)
  }

  /** Without a target or input, a player inside the world and away from the
      walls keeps drifting: it moves by its velocity, and keeps 0.9 of it. */
  lemma Drift(p: Entity, width: real, height: real)
    requires p.target.None?
    requires -MaxVelocity <= p.vx <= MaxVelocity && -MaxVelocity <= p.vy <= MaxVelocity
    requires InBounds(p.x, p.vx, width) && InBounds(p.y, p.vy, height)
    requires Abs(Friction * p.vx) >= StopBelow && Abs(Friction * p.vy) >= StopBelow
    ensures var f := Step(p, Input(false, false, false, false, false, 0.0, 0.0), width, height, 0.0);
      && !f.moved
      && f.player == p.(x := p.x + p.vx, y := p.y + p.vy, vx := Friction * p.vx, vy := Friction * p.vy)
  {
  }
}
