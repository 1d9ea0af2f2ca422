/** The three.js vector arithmetic the controller relies on, over exact reals.
    `Math.sqrt` is not computable on reals, so every operation that needs a
    length takes the square root as a parameter; `IsSqrt` says what any
    correct square root must satisfy. */
module Vectors {

  datatype Vec3 = Vec3(x: real, y: real, z: real)

  const ZERO := Vec3(0.0, 0.0, 0.0)

  function Add(a: Vec3, b: Vec3): Vec3 {
    Vec3(a.x + b.x, a.y + b.y, a.z + b.z)
  }

  function Sub(a: Vec3, b: Vec3): Vec3 {
    Vec3(a.x - b.x, a.y - b.y, a.z - b.z)
  }

  /** Vector3.multiplyScalar */
  function Scale(v: Vec3, k: real): Vec3 {
    Vec3(v.x * k, v.y * k, v.z * k)
  }

  /** Vector3.lengthSq */
  function SqLen(v: Vec3): real {
    v.x * v.x + v.y * v.y + v.z * v.z
  }

  /** The defining property of the non-negative square root. */
  ghost predicate IsSqrt(sqrt: real -> real) {
    forall x :: 0.0 <= x ==> 0.0 <= sqrt(x) && sqrt(x) * sqrt(x) == x
  }

  /** Vector3.length: the square root of the squared length. */
  function Length(sqrt: real -> real, v: Vec3): real {
    sqrt(SqLen(v))
  }

  /** Vector3.normalize: divide by the length, or by 1 when the length is 0.
      A vector of length 0 is left as it is; any other is recovered by
      scaling the result back by the length. */
  function Normalize(sqrt: real -> real, v: Vec3): (u: Vec3)
    ensures Length(sqrt, v) == 0.0 ==> u == v
  {
    var len := Length(sqrt, v);
    Scale(v, 1.0 / (if len == 0.0 then 1.0 else len))
  }

  lemma MulPositive(a: real, b: real)
    requires 0.0 < a && 0.0 < b
    ensures 0.0 < a * b
  {
  }

  /** The non-negative root of a positive number is positive. */
  lemma RootOfPositive(s: real, l: real)
    requires 0.0 < s && 0.0 <= l && l * l == s
    ensures 0.0 < l
  {
    if l == 0.0 {
      assert false;
    }
  }

  /** Two non-negative numbers with equal squares are equal. */
  lemma RootUnique(l: real, k: real)
    requires 0.0 <= l && 0.0 <= k && l * l == k * k
    ensures l == k
  {
    if l < k {
      MulPositive(k - l, k + l);
      assert false;
    } else if k < l {
      MulPositive(l - k, k + l);
      assert false;
    }
  }

  lemma InverseSquare(l: real, s: real)
    requires 0.0 < l && l * l == s
    ensures (1.0 / l) * (1.0 / l) * s == 1.0
  {
  }

  lemma ScaleSqLen(v: Vec3, k: real)
    ensures SqLen(Scale(v, k)) == k * k * SqLen(v)
  {
    assert (v.x * k) * (v.x * k) == k * k * (v.x * v.x);
    assert (v.y * k) * (v.y * k) == k * k * (v.y * v.y);
    assert (v.z * k) * (v.z * k) == k * k * (v.z * v.z);
  }

  /** The length of a vector whose squared length is `k * k`, for `k >= 0`, is `k`. */
  lemma LengthOfSquare(sqrt: real -> real, v: Vec3, k: real)
    requires IsSqrt(sqrt)
    requires 0.0 <= k && SqLen(v) == k * k
    ensures Length(sqrt, v) == k
  {
    var s := SqLen(v);
    assert 0.0 <= s;
    assert 0.0 <= sqrt(s) && sqrt(s) * sqrt(s) == s;
    RootUnique(sqrt(s), k);
  }

  /** A vector of positive squared length has a positive length. */
  lemma LengthPositive(sqrt: real -> real, v: Vec3)
    requires IsSqrt(sqrt)
    requires 0.0 < SqLen(v)
    ensures 0.0 < Length(sqrt, v)
  {
    var s := SqLen(v);
    assert 0.0 <= sqrt(s) && sqrt(s) * sqrt(s) == s;
    RootOfPositive(s, sqrt(s));
  }

  /** Normalising a vector of positive length yields a unit vector pointing
      the same way. */
  lemma NormalizeIsUnit(sqrt: real -> real, v: Vec3)
    requires IsSqrt(sqrt)
    requires 0.0 < SqLen(v)
    ensures SqLen(Normalize(sqrt, v)) == 1.0
    ensures Normalize(sqrt, v) == Scale(v, 1.0 / Length(sqrt, v))
    ensures 0.0 < 1.0 / Length(sqrt, v)
  {
    var s := SqLen(v);
    var l := sqrt(s);
    assert 0.0 <= l && l * l == s;
    LengthPositive(sqrt, v);
    ScaleSqLen(v, 1.0 / l);
    InverseSquare(l, s);
  }

  /** A rotation about the vertical axis by the angle whose cosine is `c` and
      sine is `s`. `Matrix4.lookAt(origin, heading, up)` builds exactly such a
      rotation for a horizontal unit heading, with `c = -heading.z` and
      `s = -heading.x`. */
  datatype Yaw = Yaw(c: real, s: real)

  type Rotation = r: Yaw | r.c * r.c + r.s * r.s == 1.0 witness Yaw(1.0, 0.0)

  /** Vector3.applyQuaternion for the quaternion of a yaw rotation. */
  function Rotate(r: Yaw, v: Vec3): (w: Vec3)
    ensures w.y == v.y
    ensures r == Yaw(1.0, 0.0) ==> w == v
  {
    Vec3(r.c * v.x + r.s * v.z, v.y, r.c * v.z - r.s * v.x)
  }

  /** A yaw rotation keeps the height and the length of a vector. */
  lemma RotatePreservesLength(r: Rotation, v: Vec3)
    ensures Rotate(r, v).y == v.y
    ensures SqLen(Rotate(r, v)) == SqLen(v)
  {
    var w := Rotate(r, v);
    calc {
      w.x * w.x + w.z * w.z;
      (r.c * v.x + r.s * v.z) * (r.c * v.x + r.s * v.z) + (r.c * v.z - r.s * v.x) * (r.c * v.z - r.s * v.x);
      (r.c * r.c + r.s * r.s) * (v.x * v.x) + (r.c * r.c + r.s * r.s) * (v.z * v.z);
      v.x * v.x + v.z * v.z;
    }
  }
}
