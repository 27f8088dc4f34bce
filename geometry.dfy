/**
 * Points of the simulation world and the distance tests the agents make.
 *
 * Dafny has no square root on `real`, so a distance never appears on its own:
 * every test "distance <= r" is made on the squared distance (`WithinDist`),
 * and `WithinDistMeans` shows that this is exactly the test on the distance.
 */
module Geometry {

  /** A world position (Unity's Vector3), with y the vertical axis. */
  datatype Vec3 = Vec3(x: real, y: real, z: real)

  const Origin := Vec3(0.0, 0.0, 0.0)

  /** Squared Euclidean distance, as `Vector3.Distance(a, b)` squared. */
  function DistSq(a: Vec3, b: Vec3): (d: real)
    ensures d >= 0.0
  {
    var dx, dy, dz := a.x - b.x, a.y - b.y, a.z - b.z;
    dx * dx + dy * dy + dz * dz
  }

  /** The point dropped onto the ground plane (`a.y = 0f`). */
  function Flatten(a: Vec3): Vec3 {
    a.(y := 0.0)
  }

  /**
   * Squared planar distance: `EnemyAI.PlanarDistance` squared, the distance
   * once both points have their height set to zero.
   */
  function PlanarDistSq(a: Vec3, b: Vec3): (d: real)
    ensures d >= 0.0
    ensures d == DistSq(Flatten(a), Flatten(b))
    ensures d <= DistSq(a, b)
    ensures forall h: real :: d == DistSq(Flatten(a.(y := h)), Flatten(b))
  {
    var dx, dz := a.x - b.x, a.z - b.z;
    dx * dx + dz * dz
  }

  /** "The point whose squared distance is `sq` lies within distance `r`." */
  predicate WithinDist(sq: real, r: real) {
    0.0 <= r && sq <= r * r
  }

  /** For the true (non-negative) distance `d`, `WithinDist` is the test `d <= r`. */
  lemma WithinDistMeans(sq: real, r: real, d: real)
    requires 0.0 <= d && d * d == sq
    ensures WithinDist(sq, r) <==> d <= r
  {
    if d <= r {
      assert d * d <= r * d <= r * r;
    } else if 0.0 <= r {
      assert r * r <= r * d < d * d;
    }
  }

  /** Widening the radius keeps every point that was within it. */
  lemma WithinDistWider(sq: real, r1: real, r2: real)
    requires r1 <= r2 && WithinDist(sq, r1)
    ensures WithinDist(sq, r2)
  {
    MulMonotone(r1, r2, r1);
    MulMonotone(r1, r2, r2);
  }

  /** Comparing squared distances orders the distances themselves. */
  lemma CloserMeans(d1: real, d2: real)
    requires 0.0 <= d1 && 0.0 <= d2
    ensures d1 * d1 < d2 * d2 <==> d1 < d2
  {
    if d1 < d2 {
      calc {
        d1 * d1;
      <= { MulMonotone(d1, d2, d1); }
        d2 * d1;
      == d1 * d2;
      <  { MulStrict(d1, d2, d2); }
        d2 * d2;
      }
    } else {
      MulMonotone(d2, d1, d2);
      MulMonotone(d2, d1, d1);
    }
  }

  lemma MulMonotone(a: real, b: real, c: real)
    requires a <= b && 0.0 <= c
    ensures a * c <= b * c
  {
  }

  lemma MulStrict(a: real, b: real, c: real)
    requires a < b && 0.0 < c
    ensures a * c < b * c
  {
  }

  /** `Mathf.Max` on two reals. */
  function Max(a: real, b: real): (m: real)
    ensures m >= a && m >= b
    ensures m == a || m == b
  {
    if a >= b then a else b
  }

  /** `Mathf.Lerp`: from `a` towards `b` by the fraction `t`, clamped to [0, 1]. */
  function Lerp(a: real, b: real, t: real): real {
    a + (b - a) * Clamp01(t)
  }

  /** `Mathf.Clamp01`. */
  function Clamp01(t: real): (c: real)
    ensures 0.0 <= c <= 1.0
    ensures 0.0 <= t <= 1.0 ==> c == t
    ensures t < 0.0 ==> c == 0.0
    ensures t > 1.0 ==> c == 1.0
  {
    if t < 0.0 then 0.0 else if t > 1.0 then 1.0 else t
  }
}
