/** The ray caster the controller consults. `Raycaster.intersectObjects` is
    library code; the model knows it only as a `Scene`: for every ray, the
    list of hits against the level's collidable objects, nearest first. */
module Raycast {
  import opened Vectors
  import opened Config

  /** A ray from `origin` along `direction`, exactly as the caller copies
      them into the ray caster. */
  datatype Ray = Ray(origin: Vec3, direction: Vec3)

  /** One intersection: its distance along the ray, the point hit and the
      face normal as the library reports it (the normal of the face in the
      struck object's own frame, not necessarily a world-space normal). */
  datatype Hit = Hit(distance: real, point: Vec3, normal: Vec3)

  predicate NearestFirst(hits: seq<Hit>) {
    forall i, j :: 0 <= i < j < |hits| ==> hits[i].distance <= hits[j].distance
  }

  type Hits = hits: seq<Hit> | NearestFirst(hits)

  /** The ray caster against the static level; it is the same for every ray
      cast during one tick. */
  type Scene = Ray -> Hits

  /** `radToDeg(acos(normal . up)) <= SLOPE_THRESHOLD`. The dot product with
      up is `normal.y`; on [-1, 1] the angle is at most 60 degrees exactly when
      `normal.y >= cos 60 = 1/2`, and outside [-1, 1] `acos` yields NaN, which
      compares false. Over doubles the boundary differs: `radToDeg(acos(0.5))`
      rounds to 60.00000000000001, so a normal with y exactly 1/2 is walkable
      here but not in the program. */
  predicate Walkable(normal: Vec3) {
    WALKABLE_MIN_NORMAL_Y <= normal.y <= 1.0
  }

  /** The ray `checkGround` casts: straight down from the eye. */
  function DownRay(position: Vec3): Ray {
    Ray(position, Vec3(0.0, -1.0, 0.0))
  }
}
