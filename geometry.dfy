/**
 * Points and distances on the ground plane of the scene. JavaScript doubles
 * are abstracted as reals; square roots are never computed: a length is
 * supplied by the caller together with the fact that it is the length.
 */
module Geometry {

  /** A position in world space; `y` is the height above the ground plane. */
  datatype Vec3 = Vec3(x: real, y: real, z: real)

  /** A horizontal direction (the `y` component is always 0 in the scene). */
  datatype Dir = Dir(dx: real, dz: real)

  /** Square of Vector3.distanceTo, which measures in all three axes. */
  function Dist2(a: Vec3, b: Vec3): real {
    (a.x - b.x) * (a.x - b.x) + (a.y - b.y) * (a.y - b.y) + (a.z - b.z) * (a.z - b.z)
  }

  /**
   * `a.distanceTo(b) < radius`, stated without the square root. The test is
   * symmetric, and points within it are also within it on the ground plane.
   */
  predicate Within(a: Vec3, b: Vec3, radius: real)
    ensures Within(a, b, radius) <==> Dist2(b, a) < radius * radius
    ensures Within(a, b, radius) ==> GroundDist2(a, b) < radius * radius
  {
    assert (a.y - b.y) * (a.y - b.y) >= 0.0;
    Dist2(a, b) < radius * radius
  }

  /** `len` is the Euclidean length of the horizontal vector (dx, dz). */
  predicate IsLength(len: real, dx: real, dz: real) {
    len >= 0.0 && len * len == dx * dx + dz * dz
  }

  /**
   * Vector3.normalize applied to (dx, 0, dz): divides by the length, and
   * leaves the zero vector as it is (three.js divides by `length || 1`).
   */
  function Normalize(dx: real, dz: real, len: real): (u: Dir)
    requires IsLength(len, dx, dz)
    ensures len == 0.0 ==> u == Dir(0.0, 0.0)
    ensures len > 0.0 ==> u.dx * len == dx && u.dz * len == dz
    ensures len > 0.0 ==> u.dx * u.dx + u.dz * u.dz == 1.0
  {
    if len == 0.0 then Dir(0.0, 0.0)
    else
      var u := Dir(dx / len, dz / len);
      UnitLength(dx, dz, len);
      u
  }

  /** Dividing a non-zero horizontal vector by its length gives a unit vector. */
  lemma UnitLength(dx: real, dz: real, len: real)
    requires IsLength(len, dx, dz) && len > 0.0
    ensures (dx / len) * (dx / len) + (dz / len) * (dz / len) == 1.0
  {
    var a, b := dx / len, dz / len;
    assert a * len == dx && b * len == dz;
    calc {
      (a * a + b * b) * (len * len);
      a * a * (len * len) + b * b * (len * len);
      (a * len) * (a * len) + (b * len) * (b * len);
      dx * dx + dz * dz;
      len * len;
    }
    CancelSquare(a * a + b * b, len);
  }

  /** A factor that leaves a positive square unchanged is 1. */
  lemma CancelSquare(s: real, r: real)
    requires r > 0.0 && s * (r * r) == r * r
    ensures s == 1.0
  {
    assert r * r > 0.0;
  }

  /**
   * The position reached by moving `speed` along the normalised horizontal
   * direction from `p` to `t`; the height is kept.
   */
  function StepToward(p: Vec3, t: Vec3, len: real, speed: real): (q: Vec3)
    requires IsLength(len, t.x - p.x, t.z - p.z)
    ensures q.y == p.y
    ensures len == 0.0 ==> q == p
  {
    var u := Normalize(t.x - p.x, t.z - p.z, len);
    Vec3(p.x + u.dx * speed, p.y, p.z + u.dz * speed)
  }

  /** Square of the horizontal distance (the `y` axis ignored). */
  function GroundDist2(a: Vec3, b: Vec3): real {
    (a.x - b.x) * (a.x - b.x) + (a.z - b.z) * (a.z - b.z)
  }

  /**
   * A step of `speed <= len` along the normalised direction lands on the
   * segment toward the target: the remaining horizontal distance is exactly
   * `len - speed`.
   */
  lemma StepTowardCloses(p: Vec3, t: Vec3, len: real, speed: real)
    requires IsLength(len, t.x - p.x, t.z - p.z)
    requires 0.0 <= speed <= len && len > 0.0
    ensures GroundDist2(StepToward(p, t, len, speed), t) == (len - speed) * (len - speed)
  {
    var u := Normalize(t.x - p.x, t.z - p.z, len);
    var q := StepToward(p, t, len, speed);
    var k := len - speed;
    assert t.x - q.x == u.dx * k;
    assert t.z - q.z == u.dz * k;
    calc {
      GroundDist2(q, t);
      (u.dx * k) * (u.dx * k) + (u.dz * k) * (u.dz * k);
      (u.dx * u.dx + u.dz * u.dz) * (k * k);
      k * k;
    }
  }

  /** Integer part of `r`, rounded toward zero. */
  function Trunc(r: real): int {
    if r >= 0.0 then r.Floor else -((-r).Floor)
  }

  /**
   * JavaScript's `x % 4`, the remainder of a truncating division: it has the
   * sign of `x`, unlike the floor-based tile index computed beside it.
   */
  function RemPlotSize(x: real): (r: real)
    ensures -4.0 < r < 4.0
    ensures x >= 0.0 ==> 0.0 <= r && r == x - 4.0 * (x / 4.0).Floor as real
    ensures x < 0.0 ==> r <= 0.0
  {
    x - 4.0 * Trunc(x / 4.0) as real
  }
}
