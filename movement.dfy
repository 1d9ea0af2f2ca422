/** One call of `updateMovement(delta)`: the vertical half (ground check,
    landing or gravity, then integrating the height) followed by the
    horizontal half (net key input, a step of SPEED * delta turned to the
    camera's heading, taken only when `checkCollision` lets it through). */
module Movement {
  import opened Wrappers
  import opened Vectors
  import opened Config
  import opened Raycast
  import opened Contact
  import opened Input

  /** What a tick reads and writes: `moveState` and `camera.position`. */
  datatype Player = Player(moves: MoveState, position: Vec3)

  /** The vertical half of the tick. The ground check may snap the eye to the
      support's height; on the ground the jump is re-enabled and a downward
      velocity is cancelled, in the air gravity acts; then the height moves by
      the (new) vertical velocity. */
  function Vertical(p: Player, delta: real, scene: Scene): (q: Player)
    ensures q.position.x == p.position.x && q.position.z == p.position.z
    ensures forall f :: Pressed(q.moves, f) == Pressed(p.moves, f)
  {
    var support := GroundSupport(scene(DownRay(p.position)));
    var m := p.moves;
    var moves :=
      if support.Some? then
        m.(canJump := true, yVelocity := if m.yVelocity < 0.0 then 0.0 else m.yVelocity)
      else
        m.(yVelocity := m.yVelocity - GRAVITY * delta);
    var y := if support.Some? then support.value else p.position.y;
    Player(moves, p.position.(y := y + moves.yVelocity * delta))
  }

  /** The `velocity` vector built from the held keys: forward is -z, right
      is +x, each contributing SPEED. */
  function NetInput(m: MoveState): (v: Vec3)
    ensures v.y == 0.0
  {
    Vec3((if m.left then -SPEED else 0.0) + (if m.right then SPEED else 0.0),
         0.0,
         (if m.forward then -SPEED else 0.0) + (if m.backward then SPEED else 0.0))
  }

  /** Opposite keys cancel. */
  predicate Cancelled(m: MoveState) {
    m.forward == m.backward && m.left == m.right
  }

  /** The net input vanishes exactly when opposite keys cancel, and otherwise
      its squared length is SPEED^2 (one axis) or 2 * SPEED^2 (a diagonal). */
  lemma NetInputSize(m: MoveState)
    ensures Cancelled(m) <==> NetInput(m) == ZERO
    ensures Cancelled(m) ==> SqLen(NetInput(m)) == 0.0
    ensures !Cancelled(m) ==> SqLen(NetInput(m)) == 625.0 || SqLen(NetInput(m)) == 1250.0
  {
    var v := NetInput(m);
    assert v.x == 0.0 || v.x == 25.0 || v.x == -25.0;
    assert v.z == 0.0 || v.z == 25.0 || v.z == -25.0;
    assert v.x * v.x == (if v.x == 0.0 then 0.0 else 625.0);
    assert v.z * v.z == (if v.z == 0.0 then 0.0 else 625.0);
  }

  /** The displacement the tick attempts: the net input flattened, made a
      unit vector, scaled to SPEED * delta and turned to the camera's yaw. */
  function MoveVector(m: MoveState, delta: real, yaw: Rotation, sqrt: real -> real): (move: Vec3)
    ensures move.y == 0.0
  {
    var v := NetInput(m);
    Rotate(yaw, Scale(Normalize(sqrt, Vec3(v.x, 0.0, v.z)), SPEED * delta))
  }

  /** The horizontal half of the tick: nothing happens when the net input has
      length 0; otherwise the move is taken unless `checkCollision` from the
      eye along the move reports a block. */
  function Horizontal(p: Player, delta: real, scene: Scene, yaw: Rotation, sqrt: real -> real): (q: Player)
    ensures q.moves == p.moves
    ensures q.position == p.position || q.position == Add(p.position, MoveVector(p.moves, delta, yaw, sqrt))
  {
    if Length(sqrt, NetInput(p.moves)) != 0.0 then
      var move := MoveVector(p.moves, delta, yaw, sqrt);
      if CheckCollision(scene(Ray(p.position, move))) then p
      else p.(position := Add(p.position, move))
    else
      p
  }

  /** `updateMovement(delta)`: the held keys are never changed by a tick,
      and the jump is available afterwards exactly when it was before or the
      ground check found a support. */
  function Tick(p: Player, delta: real, scene: Scene, yaw: Rotation, sqrt: real -> real): (q: Player)
    ensures q.moves.forward == p.moves.forward && q.moves.backward == p.moves.backward
    ensures q.moves.left == p.moves.left && q.moves.right == p.moves.right
    ensures q.moves.canJump <==> p.moves.canJump || GroundSupport(scene(DownRay(p.position))).Some?
  {
    Horizontal(Vertical(p, delta, scene), delta, scene, yaw, sqrt)
  }

  /** On the ground: the eye is snapped to the support's height, the jump is
      available again, the vertical velocity is never negative (an upward one,
      from a jump, is kept) and the height then moves by it. */
  lemma GroundedRule(p: Player, delta: real, scene: Scene, eye: real)
    requires GroundSupport(scene(DownRay(p.position))) == Some(eye)
    ensures Vertical(p, delta, scene).moves.canJump
    ensures Vertical(p, delta, scene).moves.yVelocity ==
      if p.moves.yVelocity < 0.0 then 0.0 else p.moves.yVelocity
    ensures Vertical(p, delta, scene).position.y ==
      eye + Vertical(p, delta, scene).moves.yVelocity * delta
  {
  }

  /** In the air: gravity lowers the vertical velocity by exactly
      GRAVITY * delta, the jump state is untouched, and the height moves by
      the new velocity. */
  lemma AirborneRule(p: Player, delta: real, scene: Scene)
    requires GroundSupport(scene(DownRay(p.position))).None?
    ensures Vertical(p, delta, scene).moves.yVelocity == p.moves.yVelocity - GRAVITY * delta
    ensures Vertical(p, delta, scene).moves.canJump == p.moves.canJump
    ensures Vertical(p, delta, scene).position.y ==
      p.position.y + Vertical(p, delta, scene).moves.yVelocity * delta
  {
  }

  /** A player standing on a support (not rising) stays exactly there:
      zero vertical velocity, jump available, height unchanged. */
  lemma RestingIsStable(p: Player, delta: real, scene: Scene)
    requires GroundSupport(scene(DownRay(p.position))) == Some(p.position.y)
    requires p.moves.yVelocity <= 0.0
    ensures Vertical(p, delta, scene) == Player(p.moves.(canJump := true, yVelocity := 0.0), p.position)
  {
  }

  /** A whole tick gives the jump back only by landing: a player without a
      jump has one after the tick exactly when the ground check found a
      support. */
  lemma JumpRestoredOnlyByLanding(p: Player, delta: real, scene: Scene, yaw: Rotation, sqrt: real -> real)
    requires !p.moves.canJump
    ensures Tick(p, delta, scene, yaw, sqrt).moves.canJump <==>
      GroundSupport(scene(DownRay(p.position))).Some?
  {
  }

  /** The zero vector has length 0 under any square root. */
  lemma LengthOfZero(sqrt: real -> real, v: Vec3)
    requires IsSqrt(sqrt) && v == ZERO
    ensures Length(sqrt, v) == 0.0
  {
    LengthOfSquare(sqrt, v, 0.0);
  }

  /** With opposite keys cancelling the horizontal half does nothing. */
  lemma CancelledInputStaysPut(p: Player, delta: real, scene: Scene, yaw: Rotation, sqrt: real -> real)
    requires IsSqrt(sqrt) && Cancelled(p.moves)
    ensures Horizontal(p, delta, scene, yaw, sqrt) == p
  {
    NetInputSize(p.moves);
    LengthOfZero(sqrt, NetInput(p.moves));
  }

  /** A move that `checkCollision` blocks is not taken. */
  lemma BlockedStaysPut(p: Player, delta: real, scene: Scene, yaw: Rotation, sqrt: real -> real)
    requires CheckCollision(scene(Ray(p.position, MoveVector(p.moves, delta, yaw, sqrt))))
    ensures Horizontal(p, delta, scene, yaw, sqrt) == p
  {
  }

  /** A move that happens keeps the height and has length SPEED * delta,
      whatever keys are held and whichever way the camera faces. */
  lemma StepLength(p: Player, delta: real, scene: Scene, yaw: Rotation, sqrt: real -> real)
    requires IsSqrt(sqrt) && !Cancelled(p.moves)
    requires !CheckCollision(scene(Ray(p.position, MoveVector(p.moves, delta, yaw, sqrt))))
    ensures Horizontal(p, delta, scene, yaw, sqrt).position.y == p.position.y
    ensures SqLen(Sub(Horizontal(p, delta, scene, yaw, sqrt).position, p.position)) ==
      (SPEED * delta) * (SPEED * delta)
    ensures 0.0 <= delta ==>
      Length(sqrt, Sub(Horizontal(p, delta, scene, yaw, sqrt).position, p.position)) == SPEED * delta
  {
    var v := NetInput(p.moves);
    NetInputSize(p.moves);
    var flat := Vec3(v.x, 0.0, v.z);
    assert flat == v;
    LengthPositive(sqrt, v);
    NormalizeIsUnit(sqrt, flat);
    var unit := Normalize(sqrt, flat);
    var k := SPEED * delta;
    ScaleSqLen(unit, k);
    var move := Rotate(yaw, Scale(unit, k));
    RotatePreservesLength(yaw, Scale(unit, k));
    assert SqLen(move) == k * k;
    var q := Horizontal(p, delta, scene, yaw, sqrt);
    assert q.position == Add(p.position, move);
    assert Sub(q.position, p.position) == move;
    if 0.0 <= delta {
      LengthOfSquare(sqrt, move, k);
    }
  }

  /** Holding only the forward key walks SPEED * delta along the camera's
      horizontal heading, which for the yaw (c, s) is (-s, 0, -c). */
  lemma ForwardFollowsHeading(p: Player, delta: real, scene: Scene, yaw: Rotation, sqrt: real -> real)
    requires IsSqrt(sqrt)
    requires p.moves.forward && !p.moves.backward && !p.moves.left && !p.moves.right
    requires !CheckCollision(scene(Ray(p.position, MoveVector(p.moves, delta, yaw, sqrt))))
    ensures Horizontal(p, delta, scene, yaw, sqrt).position ==
      Add(p.position, Scale(Vec3(-yaw.s, 0.0, -yaw.c), SPEED * delta))
  {
    var v := NetInput(p.moves);
    assert v == Vec3(0.0, 0.0, -25.0);
    LengthOfSquare(sqrt, v, 25.0);
    assert Normalize(sqrt, v) == Vec3(0.0, 0.0, -1.0);
    LengthPositive(sqrt, v);
  }
}
