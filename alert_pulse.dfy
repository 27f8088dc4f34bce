/**
 * `AlertPulse`: a sound wave that grows from nothing to `maxRadius` over
 * `lifetime` seconds, broadcasting itself once per frame, then disappears.
 */
module Pulse {
  import opened Geometry
  import opened Wrappers
  import opened Noise
  import opened Int32

  /**
   * `Mathf.Clamp01(age / lifetime)`. With a zero lifetime the float division
   * gives plus or minus infinity, which clamps to 1 or 0.
   */
  function Progress(age: real, lifetime: real): (t: real)
    ensures 0.0 <= t <= 1.0
    ensures lifetime > 0.0 && age >= lifetime ==> t == 1.0
    ensures lifetime > 0.0 && age <= 0.0 ==> t == 0.0
  {
    if lifetime == 0.0 then (if age > 0.0 then 1.0 else 0.0)
    else Clamp01(age / lifetime)
  }

  /** The wave's radius at a given age: `Mathf.Lerp(0, maxRadius, Progress(age, lifetime))`. */
  function RadiusAt(age: real, lifetime: real, maxRadius: real): (r: real)
    ensures 0.0 <= maxRadius ==> 0.0 <= r <= maxRadius
    ensures lifetime > 0.0 && age >= lifetime ==> r == maxRadius
    ensures lifetime > 0.0 && age <= 0.0 ==> r == 0.0
    ensures r == maxRadius * Progress(age, lifetime)
  {
    var t := Progress(age, lifetime);
    assert 0.0 <= maxRadius ==> maxRadius * t <= maxRadius by {
      if 0.0 <= maxRadius {
        MulMonotone(t, 1.0, maxRadius);
      }
    }
    Lerp(0.0, maxRadius, t)
  }

  /** An older wave is never smaller: the radius only grows while `age` grows. */
  lemma ProgressMonotone(a1: real, a2: real, lifetime: real)
    requires 0.0 <= a1 <= a2
    ensures Progress(a1, lifetime) <= Progress(a2, lifetime)
  {
    if lifetime > 0.0 {
      assert a1 / lifetime <= a2 / lifetime by {
        DivMonotone(a1, a2, lifetime);
      }
    } else if lifetime < 0.0 {
      assert a2 / lifetime <= 0.0 by {
        DivNonPositive(a2, lifetime);
      }
      assert a1 / lifetime <= 0.0 by {
        DivNonPositive(a1, lifetime);
      }
    }
  }

  lemma DivMonotone(a1: real, a2: real, l: real)
    requires a1 <= a2 && l > 0.0
    ensures a1 / l <= a2 / l
  {
    assert (a2 - a1) / l >= 0.0;
    assert a2 / l - a1 / l == (a2 - a1) / l;
  }

  lemma DivNonPositive(a: real, l: real)
    requires a >= 0.0 && l < 0.0
    ensures a / l <= 0.0
  {
    assert a / l == -(a / -l);
  }

  /** With `dt >= 0` on every frame, the broadcast radius never shrinks. */
  lemma RadiusMonotone(a1: real, a2: real, lifetime: real, maxRadius: real)
    requires 0.0 <= a1 <= a2 && 0.0 <= maxRadius
    ensures RadiusAt(a1, lifetime, maxRadius) <= RadiusAt(a2, lifetime, maxRadius)
  {
    var t1 := Progress(a1, lifetime);
    var t2 := Progress(a2, lifetime);
    ProgressMonotone(a1, a2, lifetime);
    assert t1 <= t2;
    MulMonotone(t1, t2, maxRadius);
    assert maxRadius * t1 <= maxRadius * t2;
    assert RadiusAt(a1, lifetime, maxRadius) == maxRadius * t1;
    assert RadiusAt(a2, lifetime, maxRadius) == maxRadius * t2;
  }

  /**
   * The static `nextId` counter, as an allocator object. It is a C# `int`, so
   * `nextId++` wraps from `int.MaxValue` to `int.MinValue`; until that
   * happens every id it hands out is fresh and larger than all earlier ones.
   */
  class PulseIds {
    var nextId: int32
    /** Every id handed out so far. */
    ghost var issued: set<int>
    /** The counter has passed `int.MaxValue` and restarted at `int.MinValue`. */
    ghost var wrapped: bool

    ghost predicate Valid()
      reads this
    {
      !wrapped ==> forall i :: i in issued ==> i < nextId
    }

    constructor ()
      ensures Valid() && nextId == 1 && issued == {} && !wrapped
    {
      nextId := 1;
      issued := {};
      wrapped := false;
    }

    /** `nextId++`. */
    method Take() returns (id: int32)
      requires Valid()
      modifies this
      ensures Valid()
      ensures id == old(nextId) && nextId == Wrap(id + 1) && issued == old(issued) + {id}
      ensures wrapped == (old(wrapped) || id == Int32Max)
      ensures id == Int32Max ==> nextId == Int32Min
      ensures !old(wrapped) ==> id !in old(issued) && forall i :: i in old(issued) ==> i < id
    {
      id := nextId;
      nextId := Wrap(nextId + 1);
      issued := issued + {id};
      wrapped := wrapped || id == Int32Max;
    }
  }

  class AlertPulse {
    var maxRadius: real
    var lifetime: real
    var position: Vec3
    var age: real
    const pulseId: int32
    /** `Destroy(gameObject)` has run; Unity calls no further `Update`. */
    var destroyed: bool

    /** A new pulse at `position`; `Start` takes the next id from `ids`. */
    constructor (position: Vec3, maxRadius: real, lifetime: real, ids: PulseIds)
      requires ids.Valid()
      modifies ids
      ensures ids.Valid()
      ensures this.position == position && this.maxRadius == maxRadius && this.lifetime == lifetime
      ensures age == 0.0 && !destroyed
      ensures pulseId == old(ids.nextId) && ids.nextId == Wrap(pulseId + 1)
      ensures ids.issued == old(ids.issued) + {pulseId}
      ensures !old(ids.wrapped) ==> pulseId !in old(ids.issued)
    {
      var id := ids.Take();
      pulseId := id;
      this.position := position;
      this.maxRadius := maxRadius;
      this.lifetime := lifetime;
      age := 0.0;
      destroyed := false;
    }

    /** The radius the pulse broadcasts at its current age. */
    function CurrentRadius(): real
      reads this
    {
      RadiusAt(age, lifetime, maxRadius)
    }

    /**
     * One frame: the pulse ages by `dt`, broadcasts exactly one wave frame
     * with its own id, its current radius and source 0, and destroys itself
     * once its age reaches its lifetime. A destroyed pulse broadcasts nothing.
     */
    method Update(dt: real) returns (emitted: Option<NoisePulse>)
      modifies this`age, this`destroyed
      ensures old(destroyed) ==> emitted == None && age == old(age) && destroyed
      ensures !old(destroyed) ==> age == old(age) + dt
      ensures !old(destroyed) ==> emitted == Some(NoisePulse(pulseId, position, CurrentRadius(), 0))
      ensures !old(destroyed) ==> destroyed == (age >= lifetime)
      ensures emitted.Some? && lifetime > 0.0 && destroyed ==> emitted.value.currentRadius == maxRadius
    {
      if destroyed {
        return None;
      }
      age := age + dt;
      var t := Progress(age, lifetime);
      var currentRadius := Lerp(0.0, maxRadius, t);
      emitted := Some(NoisePulse(pulseId, position, currentRadius, 0));
      if age >= lifetime {
        destroyed := true;
      }
    }
  }
}
