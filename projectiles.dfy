/** The projectiles: what `launchProjectile` creates and what one call of
    `handleProjectiles(delta)` does to the whole list. */
module Projectiles {
  import opened Vectors
  import opened Config
  import opened Raycast
  import opened Contact

  /** A ball in flight: its mesh position, the velocity stored on it and the
      distance it has covered so far. */
  datatype Projectile = Projectile(position: Vec3, velocity: Vec3, travelDistance: real)

  /** The ball `launchProjectile` creates for a camera at `camera` looking
      along `look`: it starts RADIUS + PROJECTILE_RADIUS ahead of the eye,
      moves along the look direction at PROJECTILE_SPEED and has covered
      nothing yet. */
  function Launch(camera: Vec3, look: Vec3): (b: Projectile)
    ensures b.travelDistance == 0.0
    ensures Sub(b.position, camera) == Scale(b.velocity, (RADIUS + PROJECTILE_RADIUS) / PROJECTILE_SPEED)
  {
    Projectile(Add(camera, Scale(look, RADIUS + PROJECTILE_RADIUS)), Scale(look, PROJECTILE_SPEED), 0.0)
  }

  /** For a unit look direction, the new ball sits just clear of the
      player (its centre 0.6 from the eye, so its surface touches the
      player's radius), flies at speed 50 and has covered nothing. */
  lemma LaunchGeometry(camera: Vec3, look: Vec3, sqrt: real -> real)
    requires IsSqrt(sqrt) && SqLen(look) == 1.0
    ensures Length(sqrt, Sub(Launch(camera, look).position, camera)) == RADIUS + PROJECTILE_RADIUS
    ensures Length(sqrt, Launch(camera, look).velocity) == PROJECTILE_SPEED
    ensures SqLen(Launch(camera, look).velocity) == 2500.0
    ensures Launch(camera, look).travelDistance == 0.0
  {
    var offset := Scale(look, RADIUS + PROJECTILE_RADIUS);
    assert Sub(Launch(camera, look).position, camera) == offset;
    ScaleSqLen(look, RADIUS + PROJECTILE_RADIUS);
    LengthOfSquare(sqrt, offset, RADIUS + PROJECTILE_RADIUS);
    ScaleSqLen(look, PROJECTILE_SPEED);
    LengthOfSquare(sqrt, Scale(look, PROJECTILE_SPEED), PROJECTILE_SPEED);
  }

  /** The first half of a ball's step: move by `velocity * delta` and add
      that step's length to the distance covered. */
  function Advance(b: Projectile, delta: real, sqrt: real -> real): (a: Projectile)
    ensures a.velocity == b.velocity
  {
    var step := Scale(b.velocity, delta);
    Projectile(Add(b.position, step), b.velocity, b.travelDistance + Length(sqrt, step))
  }

  /** The removal test, on the already advanced ball: it has flown further
      than DISTANCE_LIMIT, or `checkCollision` from its new position along its
      velocity reports a block. */
  predicate Retired(b: Projectile, scene: Scene) {
    b.travelDistance > DISTANCE_LIMIT || CheckCollision(scene(Ray(b.position, b.velocity)))
  }

  /** The list after one `handleProjectiles(delta)`: every ball advanced, the
      retired ones dropped, the rest in their old order. The loop runs from
      the back so that a splice never moves a ball it has yet to visit; the
      result is the same as this front-to-back filter. */
  function Survivors(balls: seq<Projectile>, delta: real, scene: Scene, sqrt: real -> real): (r: seq<Projectile>)
    ensures |r| <= |balls|
    decreases |balls|
  {
    if balls == [] then []
    else
      var b := Advance(balls[0], delta, sqrt);
      (if Retired(b, scene) then [] else [b]) + Survivors(balls[1..], delta, scene, sqrt)
  }

  function Shift(s: seq<nat>): (r: seq<nat>)
    ensures |r| == |s| && forall k :: 0 <= k < |s| ==> r[k] == s[k] + 1
  {
    seq(|s|, k requires 0 <= k < |s| => s[k] + 1)
  }

  /** The positions, in the old list, of the balls that stay: one per
      survivor, each a valid position, in increasing order. */
  function Kept(balls: seq<Projectile>, delta: real, scene: Scene, sqrt: real -> real): (idx: seq<nat>)
    ensures |idx| == |Survivors(balls, delta, scene, sqrt)|
    ensures forall k :: 0 <= k < |idx| ==> idx[k] < |balls|
    ensures forall k, l :: 0 <= k < l < |idx| ==> idx[k] < idx[l]
    decreases |balls|
  {
    if balls == [] then []
    else
      (if Retired(Advance(balls[0], delta, sqrt), scene) then [] else [0]) +
      Shift(Kept(balls[1..], delta, scene, sqrt))
  }

  /** The k-th survivor is the advanced ball from old position Kept[k]. */
  lemma {:induction false} SurvivorsAreKept(balls: seq<Projectile>, delta: real, scene: Scene, sqrt: real -> real)
    ensures forall k :: 0 <= k < |Kept(balls, delta, scene, sqrt)| ==>
      Survivors(balls, delta, scene, sqrt)[k] == Advance(balls[Kept(balls, delta, scene, sqrt)[k]], delta, sqrt)
    decreases |balls|
  {
    if balls != [] {
      var tail := balls[1..];
      SurvivorsAreKept(tail, delta, scene, sqrt);
      var kt := Kept(tail, delta, scene, sqrt);
      var b := Advance(balls[0], delta, sqrt);
      var h := if Retired(b, scene) then 0 else 1;
      var kept := Kept(balls, delta, scene, sqrt);
      var surv := Survivors(balls, delta, scene, sqrt);
      forall k | 0 <= k < |kept|
        ensures surv[k] == Advance(balls[kept[k]], delta, sqrt)
      {
        if k >= h {
          assert kept[k] == kt[k - h] + 1;
          assert surv[k] == Survivors(tail, delta, scene, sqrt)[k - h];
          assert balls[kept[k]] == tail[kt[k - h]];
        }
      }
    }
  }

  lemma ShiftMembers(s: seq<nat>, j: nat)
    ensures 0 !in Shift(s)
    ensures j + 1 in Shift(s) <==> j in s
  {
    if j in s {
      var k :| 0 <= k < |s| && s[k] == j;
      assert Shift(s)[k] == j + 1;
    }
  }

  /** A ball stays exactly when its advanced self is not retired. */
  lemma {:induction false} KeptIffNotRetired(balls: seq<Projectile>, delta: real, scene: Scene, sqrt: real -> real)
    ensures forall j :: 0 <= j < |balls| ==>
      (j in Kept(balls, delta, scene, sqrt) <==> !Retired(Advance(balls[j], delta, sqrt), scene))
    decreases |balls|
  {
    if balls != [] {
      var tail := balls[1..];
      KeptIffNotRetired(tail, delta, scene, sqrt);
      var kt := Kept(tail, delta, scene, sqrt);
      var head: seq<nat> := if Retired(Advance(balls[0], delta, sqrt), scene) then [] else [0];
      assert Kept(balls, delta, scene, sqrt) == head + Shift(kt);
      forall j | 0 <= j < |balls|
        ensures j in head + Shift(kt) <==> !Retired(Advance(balls[j], delta, sqrt), scene)
      {
        if j == 0 {
          ShiftMembers(kt, 0);
        } else {
          ShiftMembers(kt, j - 1);
          assert balls[j] == tail[j - 1];
        }
      }
    }
  }

  /** One step adds to the distance covered exactly the length of the
      displacement it makes, so it never shortens it. */
  lemma AdvanceTravels(b: Projectile, delta: real, sqrt: real -> real)
    requires IsSqrt(sqrt)
    ensures Advance(b, delta, sqrt).travelDistance ==
      b.travelDistance + Length(sqrt, Sub(Advance(b, delta, sqrt).position, b.position))
    ensures Advance(b, delta, sqrt).travelDistance >= b.travelDistance
  {
    assert Sub(Advance(b, delta, sqrt).position, b.position) == Scale(b.velocity, delta);
    var step := Scale(b.velocity, delta);
    ScaleSqLen(b.velocity, delta);
    assert 0.0 <= SqLen(step);
  }

  /** Every survivor has covered at least as much as the ball it came from. */
  lemma SurvivorsTravelFurther(balls: seq<Projectile>, delta: real, scene: Scene, sqrt: real -> real, k: nat)
    requires IsSqrt(sqrt) && k < |Survivors(balls, delta, scene, sqrt)|
    ensures Kept(balls, delta, scene, sqrt)[k] < |balls|
    ensures Survivors(balls, delta, scene, sqrt)[k].travelDistance >=
      balls[Kept(balls, delta, scene, sqrt)[k]].travelDistance
  {
    SurvivorsAreKept(balls, delta, scene, sqrt);
    AdvanceTravels(balls[Kept(balls, delta, scene, sqrt)[k]], delta, sqrt);
  }

  /** Balls do not interact: the fate of a list is the fate of its parts, so
      a newly launched ball leaves the others' updates unchanged. */
  lemma {:induction false} SurvivorsAppend(xs: seq<Projectile>, ys: seq<Projectile>, delta: real, scene: Scene, sqrt: real -> real)
    ensures Survivors(xs + ys, delta, scene, sqrt) ==
      Survivors(xs, delta, scene, sqrt) + Survivors(ys, delta, scene, sqrt)
    decreases |xs|
  {
    if xs == [] {
      assert xs + ys == ys;
    } else {
      assert (xs + ys)[0] == xs[0];
      assert (xs + ys)[1..] == xs[1..] + ys;
      SurvivorsAppend(xs[1..], ys, delta, scene, sqrt);
    }
  }

  /** A ball after `n` steps, ignoring removal. */
  function Flight(b: Projectile, n: nat, delta: real, sqrt: real -> real): Projectile
    decreases n
  {
    if n == 0 then b else Advance(Flight(b, n - 1, delta, sqrt), delta, sqrt)
  }

  /** At launch speed and the fixed tick, every step covers exactly 0.8. */
  lemma StepAtLaunchSpeed(b: Projectile, sqrt: real -> real)
    requires IsSqrt(sqrt) && SqLen(b.velocity) == 2500.0
    ensures Advance(b, TICK_DELTA, sqrt).travelDistance == b.travelDistance + 0.8
    ensures Advance(b, TICK_DELTA, sqrt).velocity == b.velocity
  {
    var step := Scale(b.velocity, TICK_DELTA);
    ScaleSqLen(b.velocity, TICK_DELTA);
    assert SqLen(step) == 0.8 * 0.8;
    LengthOfSquare(sqrt, step, 0.8);
  }

  /** So after `n` ticks a launch-speed ball has covered 0.8 * n more. */
  lemma {:induction false} FlightAtLaunchSpeed(b: Projectile, n: nat, sqrt: real -> real)
    requires IsSqrt(sqrt) && SqLen(b.velocity) == 2500.0
    ensures Flight(b, n, TICK_DELTA, sqrt).velocity == b.velocity
    ensures Flight(b, n, TICK_DELTA, sqrt).travelDistance == b.travelDistance + 0.8 * n as real
    decreases n
  {
    if n > 0 {
      FlightAtLaunchSpeed(b, n - 1, sqrt);
      StepAtLaunchSpeed(Flight(b, n - 1, TICK_DELTA, sqrt), sqrt);
    }
  }

  /** The list after `n` calls of `handleProjectiles(delta)`. */
  function Ticks(balls: seq<Projectile>, n: nat, delta: real, scene: Scene, sqrt: real -> real): seq<Projectile>
    decreases n
  {
    if n == 0 then balls else Survivors(Ticks(balls, n - 1, delta, scene, sqrt), delta, scene, sqrt)
  }

  /** A scene in which nothing is ever hit closely enough to block. */
  ghost predicate OpenSky(scene: Scene) {
    forall r :: !CheckCollision(scene(r))
  }

  /** A fresh launch-speed ball that never hits anything survives its first
      143 ticks and is removed on the 144th (0.8 * 143 = 114.4 is within
      DISTANCE_LIMIT, 0.8 * 144 = 115.2 is not). */
  lemma {:induction false} LoneBallLifetime(b: Projectile, n: nat, scene: Scene, sqrt: real -> real)
    requires IsSqrt(sqrt) && OpenSky(scene)
    requires SqLen(b.velocity) == 2500.0 && b.travelDistance == 0.0
    ensures n <= 143 ==> Ticks([b], n, TICK_DELTA, scene, sqrt) == [Flight(b, n, TICK_DELTA, sqrt)]
    ensures n >= 144 ==> Ticks([b], n, TICK_DELTA, scene, sqrt) == []
    decreases n
  {
    if n > 0 {
      LoneBallLifetime(b, n - 1, scene, sqrt);
      if n <= 144 {
        var before := Flight(b, n - 1, TICK_DELTA, sqrt);
        var after := Flight(b, n, TICK_DELTA, sqrt);
        FlightAtLaunchSpeed(b, n, sqrt);
        assert !CheckCollision(scene(Ray(after.position, after.velocity)));
        assert [before][1..] == [];
        assert Ticks([b], n, TICK_DELTA, scene, sqrt) == Survivors([before], TICK_DELTA, scene, sqrt);
      }
    }
  }

  /** A ball launched along a unit direction into open sky is removed on
      exactly the 144th tick after launch. */
  lemma LaunchedBallLifetime(camera: Vec3, look: Vec3, scene: Scene, sqrt: real -> real)
    requires IsSqrt(sqrt) && OpenSky(scene) && SqLen(look) == 1.0
    ensures |Ticks([Launch(camera, look)], 143, TICK_DELTA, scene, sqrt)| == 1
    ensures Ticks([Launch(camera, look)], 144, TICK_DELTA, scene, sqrt) == []
  {
    LaunchGeometry(camera, look, sqrt);
    LoneBallLifetime(Launch(camera, look), 143, scene, sqrt);
    LoneBallLifetime(Launch(camera, look), 144, scene, sqrt);
  }
}
