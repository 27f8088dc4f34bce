/**
 * How an expanding alert pulse meets an agent's hearing circle: the agent
 * hears a pulse once the wavefront radius plus its hearing radius reaches
 * its ground-plane distance from the pulse's origin.
 */
module Hearing {
  import opened Geometry
  import opened Pulse

  /**
   * The overlap test an agent applies to a pulse of the given age, on the
   * squared planar distance `sq` from the pulse's origin.
   */
  predicate Overlaps(sq: real, hearingRadius: real, age: real, lifetime: real, maxRadius: real)
  {
    WithinDist(sq, RadiusAt(age, lifetime, maxRadius) + hearingRadius)
  }

  /** The wavefront only grows: an agent the pulse reaches at one age it reaches at every later age. */
  lemma ReachOnlyGrows(sq: real, hearingRadius: real, a1: real, a2: real, lifetime: real, maxRadius: real)
    requires 0.0 <= a1 <= a2 && 0.0 <= maxRadius
    requires Overlaps(sq, hearingRadius, a1, lifetime, maxRadius)
    ensures Overlaps(sq, hearingRadius, a2, lifetime, maxRadius)
  {
    RadiusMonotone(a1, a2, lifetime, maxRadius);
    WithinDistWider(sq, RadiusAt(a1, lifetime, maxRadius) + hearingRadius,
                    RadiusAt(a2, lifetime, maxRadius) + hearingRadius);
  }

  /**
   * On its final frame a pulse reaches every agent whose planar distance is
   * at most `maxRadius + hearingRadius`, and no agent farther away.
   */
  lemma FinalReach(sq: real, d: real, hearingRadius: real, age: real, lifetime: real, maxRadius: real)
    requires 0.0 < lifetime <= age && 0.0 <= d && d * d == sq
    ensures Overlaps(sq, hearingRadius, age, lifetime, maxRadius) <==> d <= maxRadius + hearingRadius
  {
    WithinDistMeans(sq, maxRadius + hearingRadius, d);
  }

  /**
   * A pulse growing to 20 units over 2 seconds reaches an agent of hearing
   * radius 5 standing 12 units away (planar) exactly from age 0.7 on.
   */
  lemma ReachedAtSevenTenths(age: real)
    requires 0.0 <= age <= 2.0
    ensures Overlaps(144.0, 5.0, age, 2.0, 20.0) <==> age >= 0.7
  {
    assert Progress(age, 2.0) == age / 2.0;
    assert RadiusAt(age, 2.0, 20.0) == 10.0 * age;
    WithinDistMeans(144.0, 10.0 * age + 5.0, 12.0);
  }
}
