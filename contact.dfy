/** The two contact classifiers: `checkCollision` (is a move or a projectile
    blocked?) and the decision half of `checkGround` (is the player standing
    on something, and at what eye height?). Both look at the nearest hit only. */
module Contact {
  import opened Wrappers
  import opened Vectors
  import opened Config
  import opened Raycast

  /** `checkCollision` on the hits of its ray. A walkable nearest hit closer
      than 1.5 * RADIUS blocks; otherwise the nearest hit blocks when it is
      closer than RADIUS, whatever its slope. */
  function CheckCollision(hits: Hits): (blocked: bool)
    ensures blocked <==>
      hits != [] &&
      (hits[0].distance < RADIUS ||
       (Walkable(hits[0].normal) && hits[0].distance < SLOPE_BLOCK_DISTANCE))
  {
    if |hits| > 0 then
      var nearest := hits[0];
      if Walkable(nearest.normal) && nearest.distance < SLOPE_BLOCK_DISTANCE then
        true
      else
        nearest.distance < RADIUS
    else
      false
  }

  /** The decision of `checkGround` on the hits of the downward ray: the eye
      height the camera snaps to when it is grounded, or None. */
  function GroundSupport(hits: Hits): (support: Option<real>)
    ensures support.Some? <==>
      hits != [] && hits[0].distance < GROUND_CHECK_DISTANCE && Walkable(hits[0].normal)
    ensures support.Some? ==> support.value == hits[0].point.y + HEIGHT
  {
    if |hits| > 0 && hits[0].distance < GROUND_CHECK_DISTANCE then
      if Walkable(hits[0].normal) then
        Some(hits[0].point.y + HEIGHT)
      else
        None
    else
      None
  }

  /** Any hit on the ray closer than RADIUS blocks, wherever it is in the
      list and whatever its slope, because the nearest hit is at most as far. */
  lemma CloseHitBlocks(hits: Hits, i: nat)
    requires i < |hits| && hits[i].distance < RADIUS
    ensures CheckCollision(hits)
  {
    if i > 0 {
      assert hits[0].distance <= hits[i].distance;
    }
  }

  /** Nothing at or beyond 1.5 * RADIUS ever blocks. */
  lemma FarHitsNeverBlock(hits: Hits)
    requires forall i :: 0 <= i < |hits| ==> SLOPE_BLOCK_DISTANCE <= hits[i].distance
    ensures !CheckCollision(hits)
  {
  }

  /** Only the nearest hit is consulted: two hit lists that agree on it block
      alike, and ground alike. */
  lemma OnlyNearestHitCounts(hits: Hits, others: Hits)
    requires hits != [] && others != [] && hits[0] == others[0]
    ensures CheckCollision(hits) == CheckCollision(others)
    ensures GroundSupport(hits) == GroundSupport(others)
  {
  }

  /** At the same distance, a walkable surface blocks whenever a steep one
      does, and between RADIUS and 1.5 * RADIUS only the walkable one blocks. */
  lemma WalkableBlocksSooner(d: real, p: Vec3, steep: Vec3, flat: Vec3)
    requires !Walkable(steep) && Walkable(flat)
    ensures CheckCollision([Hit(d, p, steep)]) ==> CheckCollision([Hit(d, p, flat)])
    ensures RADIUS <= d < SLOPE_BLOCK_DISTANCE ==>
      !CheckCollision([Hit(d, p, steep)]) && CheckCollision([Hit(d, p, flat)])
  {
  }
}
