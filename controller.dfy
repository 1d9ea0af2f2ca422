/** `GameController`: the state the controller keeps between frames and the
    methods the browser calls on it. The renderer, the scene graph and the
    DOM are not modelled; the ray caster, the camera's yaw, the look
    direction, `Math.sqrt` and the pointer-lock state come in as parameters. */
module Controller {
  import opened Vectors
  import opened Config
  import opened Raycast
  import opened Contact
  import opened Input
  import opened Movement
  import opened Projectiles

  class GameController {
    /** The held-key flags, the jump state and the vertical velocity of
        `moveState`. */
    var forward: bool
    var backward: bool
    var left: bool
    var right: bool
    var canJump: bool
    var yVelocity: real
    /** `camera.position`. */
    var position: Vec3
    /** `ballProjectiles`, oldest first. */
    var projectiles: seq<Projectile>

    function Moves(): MoveState
      reads this
    {
      MoveState(forward, backward, left, right, canJump, yVelocity)
    }

    function State(): Player
      reads this
    {
      Player(Moves(), position)
    }

    /** The constructor together with `setupControls`, which lifts the camera
        to eye height: nothing held, a jump available, at rest, no balls. */
    constructor()
      ensures Moves() == MoveState(false, false, false, false, true, 0.0)
      ensures position == Vec3(0.0, HEIGHT, 0.0)
      ensures projectiles == []
    {
      forward, backward, left, right := false, false, false, false;
      canJump := true;
      yVelocity := 0.0;
      position := Vec3(0.0, HEIGHT, 0.0);
      projectiles := [];
    }

    method OnKeyDown(code: string)
      modifies this
      ensures Moves() == KeyDown(old(Moves()), code)
      ensures position == old(position) && projectiles == old(projectiles)
    {
      match code {
        case "ArrowUp" | "KeyW" => forward := true;
        case "ArrowDown" | "KeyS" => backward := true;
        case "ArrowLeft" | "KeyA" => left := true;
        case "ArrowRight" | "KeyD" => right := true;
        case "Space" =>
          if canJump {
            yVelocity := JUMP_FORCE;
            canJump := false;
          }
        case _ =>
      }
    }

    method OnKeyUp(code: string)
      modifies this
      ensures Moves() == KeyUp(old(Moves()), code)
      ensures position == old(position) && projectiles == old(projectiles)
    {
      match code {
        case "ArrowUp" | "KeyW" => forward := false;
        case "ArrowDown" | "KeyS" => backward := false;
        case "ArrowLeft" | "KeyA" => left := false;
        case "ArrowRight" | "KeyD" => right := false;
        case _ =>
      }
    }

    /** Only the primary button (0) fires. `look` is the camera's world
        direction at the moment of the click. */
    method OnMouseDown(button: int, look: Vec3)
      modifies this
      ensures button == 0 ==> projectiles == old(projectiles) + [Launch(old(position), look)]
      ensures button != 0 ==> projectiles == old(projectiles)
      ensures State() == old(State())
    {
      if button == 0 {
        LaunchProjectile(look);
      }
    }

    /** Appends one fresh ball and changes nothing else. */
    method LaunchProjectile(look: Vec3)
      modifies this
      ensures projectiles == old(projectiles) + [Launch(old(position), look)]
      ensures State() == old(State())
    {
      var start := Add(position, Scale(look, RADIUS + PROJECTILE_RADIUS));
      var ball := Projectile(start, Scale(look, PROJECTILE_SPEED), 0.0);
      projectiles := projectiles + [ball];
    }

    /** `checkGround(camera.position)`: reports whether the player stands on
        a walkable support and, if so, snaps the eye to its height. */
    method CheckGround(scene: Scene) returns (onGround: bool)
      modifies this
      ensures onGround == GroundSupport(scene(DownRay(old(position)))).Some?
      ensures onGround ==> position == old(position).(y := GroundSupport(scene(DownRay(old(position)))).value)
      ensures !onGround ==> position == old(position)
      ensures Moves() == old(Moves()) && projectiles == old(projectiles)
    {
      var hits := scene(DownRay(position));
      var groundCheckDistance := HEIGHT + 0.1;
      onGround := false;
      if |hits| > 0 && hits[0].distance < groundCheckDistance {
        if Walkable(hits[0].normal) {
          position := position.(y := hits[0].point.y + HEIGHT);
          onGround := true;
        }
      }
    }

    /** `updateMovement(delta)`, with the camera's current yaw. */
    method UpdateMovement(delta: real, scene: Scene, yaw: Rotation, sqrt: real -> real)
      modifies this
      ensures State() == Tick(old(State()), delta, scene, yaw, sqrt)
      ensures projectiles == old(projectiles)
    {
      ghost var before := State();
      ghost var support := GroundSupport(scene(DownRay(before.position)));
      var onGround := CheckGround(scene);
      if onGround {
        canJump := true;
        if yVelocity < 0.0 {
          yVelocity := 0.0;
        }
      } else {
        yVelocity := yVelocity - GRAVITY * delta;
      }
      position := position.(y := position.y + yVelocity * delta);
      assert onGround ==> position.y == support.value + yVelocity * delta;
      assert State() == Vertical(before, delta, scene);

      var velocity := ZERO;
      if forward { velocity := velocity.(z := velocity.z - SPEED); }
      if backward { velocity := velocity.(z := velocity.z + SPEED); }
      if left { velocity := velocity.(x := velocity.x - SPEED); }
      if right { velocity := velocity.(x := velocity.x + SPEED); }
      assert velocity == NetInput(Moves());

      if Length(sqrt, velocity) != 0.0 {
        var moveVector := Vec3(velocity.x, 0.0, velocity.z);
        moveVector := Normalize(sqrt, moveVector);
        moveVector := Scale(moveVector, SPEED * delta);
        moveVector := Rotate(yaw, moveVector);
        if !CheckCollision(scene(Ray(position, moveVector))) {
          position := Add(position, moveVector);
        }
      }
    }

    /** `handleProjectiles(delta)`: walks the list from the back, advancing
        each ball and splicing out the retired ones. */
    method HandleProjectiles(delta: real, scene: Scene, sqrt: real -> real)
      modifies this
      ensures projectiles == Survivors(old(projectiles), delta, scene, sqrt)
      ensures State() == old(State())
    {
      var i := |projectiles| - 1;
      while i >= 0
        invariant -1 <= i < |old(projectiles)|
        invariant projectiles == old(projectiles)[..i + 1] + Survivors(old(projectiles)[i + 1..], delta, scene, sqrt)
        invariant State() == old(State())
        decreases i
      {
        ghost var rest := old(projectiles)[i + 1..];
        assert old(projectiles)[i..][1..] == rest;
        assert projectiles[i] == old(projectiles)[i];
        var ball := projectiles[i];
        var travelStep := Scale(ball.velocity, delta);
        ball := ball.(position := Add(ball.position, travelStep),
                      travelDistance := ball.travelDistance + Length(sqrt, travelStep));
        assert ball == Advance(old(projectiles)[i], delta, sqrt);
        if ball.travelDistance > DISTANCE_LIMIT || CheckCollision(scene(Ray(ball.position, ball.velocity))) {
          projectiles := projectiles[..i] + projectiles[i + 1..];
          assert projectiles == old(projectiles)[..i] + Survivors(old(projectiles)[i..], delta, scene, sqrt);
        } else {
          projectiles := projectiles[i := ball];
          assert projectiles == old(projectiles)[..i] + ([ball] + Survivors(rest, delta, scene, sqrt));
        }
        i := i - 1;
      }
    }

    /** One frame of `animate`: while the pointer is locked, a tick of
        movement and then of the projectiles, both with the fixed step 0.016;
        otherwise nothing changes. */
    method Animate(isLocked: bool, scene: Scene, yaw: Rotation, sqrt: real -> real)
      modifies this
      ensures isLocked ==> State() == Tick(old(State()), TICK_DELTA, scene, yaw, sqrt)
      ensures isLocked ==> projectiles == Survivors(old(projectiles), TICK_DELTA, scene, sqrt)
      ensures !isLocked ==> State() == old(State()) && projectiles == old(projectiles)
    {
      if isLocked {
        var delta := 0.016;
        UpdateMovement(delta, scene, yaw, sqrt);
        HandleProjectiles(delta, scene, sqrt);
      }
    }
  }
}
