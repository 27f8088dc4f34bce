/**
 * The target side of combat: a player's hit points (`PlayerHealth`) and the
 * player object the agents see and strike (`PlayerProxy`).
 */
module Player {
  import opened Geometry
  import opened Int32

  /**
   * Hit points after taking `amount` damage: `Mathf.Max(0, hp - amount)`,
   * the subtraction being an unchecked C# `int` one. Without overflow the
   * hit points drop by `amount`, clamped at zero. A difference above
   * `Int32Max` (a large negative `amount`) wraps to a negative value and
   * kills; one below `Int32Min` (a negative `hp`) wraps to a large positive one.
   */
  function DamagedHP(hp: int32, amount: int32): (r: int32)
    ensures r >= 0
    ensures Int32Min <= hp - amount <= Int32Max ==> (r == 0 <==> hp <= amount)
    ensures Int32Min <= hp - amount <= Int32Max && r > 0 ==> r == hp - amount
    ensures hp - amount > Int32Max ==> r == 0
    ensures hp - amount < Int32Min ==> r == hp - amount + Turn
  {
    var d := Wrap(hp - amount);
    if d > 0 then d else 0
  }

  /** Non-negative damage never raises hit points, and lowers them by at most `amount`. */
  lemma DamageNeverHeals(hp: int32, amount: int32)
    requires hp >= 0 && amount >= 0
    ensures hp - amount <= DamagedHP(hp, amount) <= hp
  {
  }

  /**
   * A negative amount is not rejected: while the sum fits an `int` it heals,
   * and nothing caps the result at `maxHP`.
   */
  lemma NegativeDamageHeals(hp: int32, amount: int32)
    requires hp >= 0 && amount < 0 && hp - amount <= Int32Max
    ensures DamagedHP(hp, amount) == hp - amount > hp
  {
  }

  /** A heal so large that the sum overflows wraps to a negative value and kills instead. */
  lemma OverflowingHealKills()
    ensures DamagedHP(100, -2147483600) == 0
    ensures DamagedHP(0, Int32Min) == 0
  {
  }

  /** Damage taken in two blows of non-negative size is damage taken in one blow of their sum. */
  lemma DamageAccumulates(hp: int32, a: int32, b: int32)
    requires hp >= 0 && a >= 0 && b >= 0 && a + b <= Int32Max
    ensures DamagedHP(DamagedHP(hp, a), b) == DamagedHP(hp, a + b)
  {
  }

  /** Hit points after `n` successive blows of `amount` each. */
  function AfterBlows(hp: int32, amount: int32, n: nat): int32
  {
    if n == 0 then hp else DamagedHP(AfterBlows(hp, amount, n - 1), amount)
  }

  /**
   * `n` blows of a non-negative `amount` take `n * amount` off, clamped at
   * zero, however many blows there are: the hit points stay within
   * `[0, hp]`, so no subtraction overflows.
   */
  lemma {:induction false} BlowsAccumulate(hp: int32, amount: int32, n: nat)
    requires hp >= 0 && amount >= 0
    ensures AfterBlows(hp, amount, n) == if hp - n * amount > 0 then hp - n * amount else 0
  {
    if n > 0 {
      BlowsAccumulate(hp, amount, n - 1);
      assert hp - (n - 1) * amount - amount == hp - n * amount;
    }
  }

  /** A living player dies from the blows of a positive `amount` exactly when they add up to its hit points. */
  lemma BlowsToKill(hp: int32, amount: int32, n: nat)
    requires hp > 0 && amount > 0
    ensures AfterBlows(hp, amount, n) == 0 <==> n * amount >= hp
  {
    BlowsAccumulate(hp, amount, n);
  }

  class PlayerHealth {
    var maxHP: int32
    var currentHP: int32
    /** The player's GameObject has been destroyed by `Die`. */
    var destroyed: bool

    /** `Awake`: the player starts at full health. */
    constructor (maxHP: int32)
      ensures this.maxHP == maxHP && currentHP == maxHP && !destroyed
    {
      this.maxHP := maxHP;
      currentHP := maxHP;
      destroyed := false;
    }

    /**
     * `TakeDamage`: hit points drop by `amount`, clamped at zero; `Die` runs
     * (and destroys the player) exactly when the new value is zero.
     */
    method TakeDamage(amount: int32) returns (died: bool)
      modifies this`currentHP, this`destroyed
      ensures currentHP == DamagedHP(old(currentHP), amount)
      ensures died <==> currentHP == 0
      ensures destroyed == (old(destroyed) || died)
    {
      var d := Wrap(currentHP - amount);
      currentHP := if d > 0 then d else 0;
      died := currentHP == 0;
      if died {
        Die();
      }
    }

    /** `Die`: destroys the player's GameObject. */
    method Die()
      modifies this`destroyed
      ensures destroyed
    {
      destroyed := true;
    }
  }

  /** A player the agents can see: its position and its (optional) health component. */
  class PlayerProxy {
    var position: Vec3
    const health: PlayerHealth?

    constructor (position: Vec3, health: PlayerHealth?)
      ensures this.position == position && this.health == health
    {
      this.position := position;
      this.health := health;
    }

    /** Unity compares a destroyed object equal to `null`. */
    predicate Destroyed()
      reads health
    {
      health != null && health.destroyed
    }
  }
}
