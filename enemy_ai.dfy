/**
 * The enemy AI: the per-agent state machine `EnemyAI` (patrol, hunt, attack,
 * with a windup/strike/recovery sub-machine) and the group it belongs to,
 * `EnemyGroup` (shared hunt centre with a countdown, patrol radius, members).
 *
 * The outside world comes in as parameters: the frame time `dt`, what the
 * navigation service reports (`NavReport`), a navigation-mesh point sampler
 * (`NavSampler`), and, per visible player, the view angle and the outcome of
 * the line-of-sight ray (`Sighting`). Positions of the agent, the group and
 * the players are fields that the engine (dragging, navigation) moves.
 */
module AI {
  import opened Wrappers
  import opened Geometry
  import opened Noise
  import opened Player
  import opened Lists
  import opened Int32

  datatype State = Patrol | Hunting | Attack

  /** The navigation agent's answer this frame: is a path being computed, how far is left. */
  datatype NavReport = NavReport(pathPending: bool, remainingDistance: real)

  /**
   * `NavMesh.SamplePosition` around a random point `Random.insideUnitCircle * r`
   * of `center`, searching within `r`: the navigable point found, or none.
   */
  type NavSampler = (Vec3, real) -> Option<Vec3>

  /**
   * What the engine guarantees of the sampler: the random candidate lies
   * within `r` of `center` on the ground plane, and `SamplePosition` only
   * finds points within `r` of the candidate, so a point found lies within
   * `2 * r` of `center`.
   */
  ghost predicate SamplerBounded(sampler: NavSampler)
  {
    forall center: Vec3, r: real :: sampler(center, r).Some? ==>
      WithinDist(DistSq(sampler(center, r).value, center), 2.0 * r)
  }

  /**
   * One player as the perception sweep meets it: the player, the angle in
   * degrees between the agent's facing and the direction to it
   * (`Vector3.Angle`), and whether the eye-height ray towards it first hits
   * that player (`Physics.Raycast` and `GetComponentInParent`).
   */
  datatype Sighting = Sighting(player: PlayerProxy, angle: real, lineOfSight: bool)

  /** The inspector values of an enemy, and the speed of its navigation agent. */
  datatype AgentConfig = AgentConfig(
    viewAngle: real, viewDistance: real, hearingRadius: real,
    attackRange: real, patrolPointTolerance: real, patrolWait: real,
    huntSpeedMultiplier: real, attackDamage: int32, attackWindup: real,
    attackRecovery: real, huntingTimeout: real, navSpeed: real)

  /** The defaults `EnemyAI` declares (3.5 is the navigation agent's default speed). */
  const DefaultAgent := AgentConfig(70.0, 12.0, 14.0, 1.8, 0.6, 1.0, 1.3, 10, 0.35, 0.25, 6.0, 3.5)

  /** A prefab to spawn from; `None` when it carries no `EnemyAI`, so one with the defaults is added. */
  datatype Prefab = Prefab(enemy: Option<AgentConfig>)

  /** The group's hunt memory as a value: the countdown and whether the group is away at a sighting. */
  datatype HuntClock = HuntClock(timer: real, atLastSeen: bool)

  /** One frame of `EnemyGroup.Update`'s countdown: it runs only while away, and ends once it reaches zero. */
  function CountDown(c: HuntClock, dt: real): (c': HuntClock)
    ensures !c.atLastSeen ==> c' == c
    ensures c.atLastSeen ==> c'.timer == c.timer - dt && (c'.atLastSeen <==> c.timer - dt > 0.0)
  {
    if !c.atLastSeen then c
    else if c.timer - dt <= 0.0 then HuntClock(c.timer - dt, false)
    else HuntClock(c.timer - dt, true)
  }

  function Sum(dts: seq<real>): real {
    if dts == [] then 0.0 else dts[0] + Sum(dts[1..])
  }

  lemma {:induction false} SumNonNegative(dts: seq<real>)
    requires forall i :: 0 <= i < |dts| ==> dts[i] >= 0.0
    ensures Sum(dts) >= 0.0
  {
    if dts != [] {
      SumNonNegative(dts[1..]);
    }
  }

  /** The countdown over consecutive frames of lengths `dts`. */
  function CountDownAll(c: HuntClock, dts: seq<real>): HuntClock
    decreases |dts|
  {
    if dts == [] then c else CountDownAll(CountDown(c, dts[0]), dts[1..])
  }

  /** Once home, the group stays home until the next sighting. */
  lemma {:induction false} StaysHome(c: HuntClock, dts: seq<real>)
    requires !c.atLastSeen
    ensures CountDownAll(c, dts) == c
  {
    if dts != [] {
      StaysHome(CountDown(c, dts[0]), dts[1..]);
    }
  }

  /**
   * The group returns: over at least one frame with non-negative lengths
   * adding up to the timer, the away flag is cleared.
   */
  lemma {:induction false} HuntExpires(c: HuntClock, dts: seq<real>)
    requires dts != []
    requires forall i :: 0 <= i < |dts| ==> dts[i] >= 0.0
    requires Sum(dts) >= c.timer
    ensures !CountDownAll(c, dts).atLastSeen
    decreases |dts|
  {
    var c1 := CountDown(c, dts[0]);
    if !c1.atLastSeen {
      StaysHome(c1, dts[1..]);
    } else {
      assert c1.timer > 0.0;
      assert Sum(dts[1..]) >= c1.timer;
      if dts[1..] != [] {
        HuntExpires(c1, dts[1..]);
      }
    }
  }

  /** The group stays away while the frames so far add up to less than the timer. */
  lemma {:induction false} HuntHolds(c: HuntClock, dts: seq<real>)
    requires c.atLastSeen
    requires forall i :: 0 <= i < |dts| ==> dts[i] >= 0.0
    requires Sum(dts) < c.timer
    ensures CountDownAll(c, dts) == HuntClock(c.timer - Sum(dts), true)
    decreases |dts|
  {
    if dts != [] {
      SumNonNegative(dts[1..]);
      var c1 := CountDown(c, dts[0]);
      assert c1 == HuntClock(c.timer - dts[0], true);
      HuntHolds(c1, dts[1..]);
    }
  }

  /** The radius after the grow key: `patrolRadius + radiusStep`. */
  function GrownRadius(radius: real, step: real): real {
    radius + step
  }

  /** The radius after the shrink key: `Mathf.Max(1f, patrolRadius - radiusStep)`. */
  function ShrunkRadius(radius: real, step: real): (r: real)
    ensures r >= 1.0
    ensures r == radius - step || r == 1.0
    ensures step >= 0.0 && radius >= 1.0 ==> r <= radius
  {
    Max(1.0, radius - step)
  }

  /** Scaling a range by a factor of at least one keeps everything that was in range in range. */
  lemma ScaledRangeCovers(sq: real, r: real, factor: real)
    requires 1.0 <= factor && WithinDist(sq, r)
    ensures WithinDist(sq, r * factor)
  {
    MulMonotone(1.0, factor, r);
    WithinDistWider(sq, r, r * factor);
  }

  class EnemyGroup {
    /** `transform.position`: home, or the hunt centre while away. */
    var position: Vec3
    var patrolRadius: real
    /** Position of the `homeAnchor` transform, if one is assigned. */
    var homeAnchor: Option<Vec3>
    /** Position of the `spawnPoint` transform, if one is assigned. */
    var spawnPoint: Option<Vec3>
    var enemyPrefab: Option<Prefab>
    var huntDuration: real
    var returnDelay: real
    var radiusStep: real

    var members: seq<EnemyAI>
    var originalHome: Vec3
    var huntTimer: real
    var atLastSeen: bool
    /** `Invoke(nameof(TeleportHome), returnDelay)` is scheduled and has not run yet. */
    var returnPending: bool

    ghost predicate Valid()
      reads this
    {
      NoDuplicates(members)
    }

    constructor (position: Vec3, patrolRadius: real, homeAnchor: Option<Vec3>, spawnPoint: Option<Vec3>,
                 enemyPrefab: Option<Prefab>, huntDuration: real, returnDelay: real, radiusStep: real)
      ensures Valid() && members == []
      ensures this.position == position && this.patrolRadius == patrolRadius
      ensures this.homeAnchor == homeAnchor && this.spawnPoint == spawnPoint && this.enemyPrefab == enemyPrefab
      ensures this.huntDuration == huntDuration && this.returnDelay == returnDelay && this.radiusStep == radiusStep
      ensures huntTimer == 0.0 && !atLastSeen && !returnPending
    {
      this.position := position;
      this.patrolRadius := patrolRadius;
      this.homeAnchor := homeAnchor;
      this.spawnPoint := spawnPoint;
      this.enemyPrefab := enemyPrefab;
      this.huntDuration := huntDuration;
      this.returnDelay := returnDelay;
      this.radiusStep := radiusStep;
      members := [];
      originalHome := Origin;
      huntTimer := 0.0;
      atLastSeen := false;
      returnPending := false;
    }

    function Clock(): HuntClock
      reads this
    {
      HuntClock(huntTimer, atLastSeen)
    }

    /** Where `TeleportHome` sends the group: the anchor if there is one, else the remembered home. */
    function HomePosition(): Vec3
      reads this
    {
      homeAnchor.GetOr(originalHome)
    }

    /**
     * `ResetHome` (all that `Start` does besides visuals): home becomes the
     * anchor's position, or the current position without an anchor; the group
     * moves there and forgets any hunt.
     */
    method ResetHome()
      modifies this`originalHome, this`position, this`huntTimer, this`atLastSeen
      ensures originalHome == old(homeAnchor.GetOr(position))
      ensures position == originalHome
      ensures huntTimer == 0.0 && !atLastSeen
    {
      originalHome := if homeAnchor.Some? then homeAnchor.value else position;
      position := originalHome;
      huntTimer := 0.0;
      atLastSeen := false;
    }

    /**
     * `Update`, for one frame of `dt` seconds. `selected` stands for
     * `Active == this`, `growKey`/`shrinkKey` for the key presses. The radius
     * grows, then shrinks (never below 1); the hunt clock counts down while
     * away, and on expiry the return home is scheduled (or done at once when
     * `returnDelay <= 0`).
     */
    method Update(dt: real, selected: bool, growKey: bool, shrinkKey: bool)
      modifies this`patrolRadius, this`huntTimer, this`atLastSeen, this`position, this`returnPending
      ensures var grown := if selected && growKey then GrownRadius(old(patrolRadius), radiusStep) else old(patrolRadius);
              patrolRadius == if selected && shrinkKey then ShrunkRadius(grown, radiusStep) else grown
      ensures Clock() == CountDown(old(Clock()), dt)
      ensures old(atLastSeen) && !atLastSeen && returnDelay > 0.0 ==> returnPending && position == old(position)
      ensures old(atLastSeen) && !atLastSeen && returnDelay <= 0.0 ==> position == HomePosition() && returnPending == old(returnPending)
      ensures !(old(atLastSeen) && !atLastSeen) ==> position == old(position) && returnPending == old(returnPending)
    {
      if selected {
        if growKey {
          patrolRadius := patrolRadius + radiusStep;
        }
        if shrinkKey {
          patrolRadius := Max(1.0, patrolRadius - radiusStep);
        }
      }
      if atLastSeen {
        huntTimer := huntTimer - dt;
        if huntTimer <= 0.0 {
          if returnDelay > 0.0 {
            returnPending := true;
          } else {
            TeleportHome();
          }
          atLastSeen := false;
        }
      }
    }

    /** `TeleportHome`: to the anchor, or to the remembered home. */
    method TeleportHome()
      modifies this`position
      ensures position == HomePosition()
    {
      position := if homeAnchor.Some? then homeAnchor.value else originalHome;
    }

    /**
     * The scheduled `TeleportHome` running `returnDelay` after expiry. It
     * runs even if a new sighting has moved the group away again meanwhile.
     */
    method RunScheduledReturn()
      modifies this`position, this`returnPending
      ensures old(returnPending) ==> position == HomePosition() && !returnPending
      ensures !old(returnPending) ==> position == old(position) && !returnPending
    {
      if returnPending {
        TeleportHome();
        returnPending := false;
      }
    }

    /** `Register`: adds the agent unless it is already a member, and makes this its group. */
    method Register(ai: EnemyAI)
      requires Valid()
      modifies this`members, ai`group
      ensures Valid()
      ensures members == if ai in old(members) then old(members) else old(members) + [ai]
      ensures ai.group == this
    {
      AddIfAbsent(members, ai);
      if ai !in members {
        members := members + [ai];
      }
      ai.group := this;
    }

    /** `Unregister`: removes the agent and keeps every other member, in order. */
    method Unregister(ai: EnemyAI)
      requires Valid()
      modifies this`members
      ensures Valid()
      ensures members == RemoveFirst(old(members), ai)
      ensures ai !in members
      ensures forall m :: m != ai ==> (m in members <==> m in old(members))
    {
      RemoveFromDistinct(members, ai);
      members := RemoveFirst(members, ai);
    }

    /**
     * `SpawnEnemy`: without a prefab or a spawn point nothing happens (the
     * source logs an error); otherwise a new enemy appears at the spawn point
     * and is registered.
     */
    method SpawnEnemy() returns (ai: EnemyAI?)
      requires Valid()
      modifies this`members
      ensures Valid()
      ensures ai == null <==> enemyPrefab.None? || spawnPoint.None?
      ensures ai == null ==> members == old(members)
      ensures ai != null ==> fresh(ai) && members == old(members) + [ai] && ai.group == this
      ensures ai != null ==> ai.position == spawnPoint.value && ai.state == Patrol
      ensures ai != null ==> ai.Config() == enemyPrefab.value.enemy.GetOr(DefaultAgent)
    {
      if enemyPrefab.None? || spawnPoint.None? {
        return null;
      }
      ai := new EnemyAI(enemyPrefab.value.enemy.GetOr(DefaultAgent), null, spawnPoint.value);
      Register(ai);
    }

    /**
     * `SetHuntCenter`, called on visual contact: the group's area snaps to the
     * sighting and the countdown restarts. The new state depends only on the
     * arguments, so repeating the call changes nothing.
     */
    method SetHuntCenter(worldPos: Vec3, duration: real)
      modifies this`position, this`huntTimer, this`atLastSeen
      ensures position == worldPos && Clock() == HuntClock(duration, true)
    {
      position := worldPos;
      huntTimer := duration;
      atLastSeen := true;
    }
  }

  class EnemyAI {
    var group: EnemyGroup?

    var viewAngle: real
    var viewDistance: real
    var hearingRadius: real
    var attackRange: real
    var patrolPointTolerance: real
    var patrolWait: real
    var huntSpeedMultiplier: real
    var attackDamage: int32
    var attackWindup: real
    var attackRecovery: real
    var huntingTimeout: real

    var state: State
    var currentTarget: PlayerProxy?
    var targetPos: Vec3
    var baseSpeed: real
    var stateTimer: real
    var huntingTimer: real
    /** True during a windup. */
    var attacking: bool
    var attackTimer: real
    /** Ids of the pulses already reacted to; never pruned. */
    var pulsesHandled: set<int>

    /** `transform.position`, moved by the navigation agent or by dragging. */
    var position: Vec3
    /** The navigation agent's settings and current destination. */
    var speed: real
    var stoppingDistance: real
    var isStopped: bool
    var destination: Vec3

    /** A new enemy with the given settings (`Awake`): in Patrol, idle, with no target. */
    constructor (config: AgentConfig, group: EnemyGroup?, position: Vec3)
      ensures Config() == config && this.group == group && this.position == position
      ensures state == Patrol && currentTarget == null && !attacking && pulsesHandled == {}
      ensures baseSpeed == config.navSpeed && speed == baseSpeed && stoppingDistance == 0.0
    {
      this.group := group;
      viewAngle := config.viewAngle;
      viewDistance := config.viewDistance;
      hearingRadius := config.hearingRadius;
      attackRange := config.attackRange;
      patrolPointTolerance := config.patrolPointTolerance;
      patrolWait := config.patrolWait;
      huntSpeedMultiplier := config.huntSpeedMultiplier;
      attackDamage := config.attackDamage;
      attackWindup := config.attackWindup;
      attackRecovery := config.attackRecovery;
      huntingTimeout := config.huntingTimeout;
      state := Patrol;
      currentTarget := null;
      targetPos := Origin;
      baseSpeed := config.navSpeed;
      stateTimer := 0.0;
      huntingTimer := 0.0;
      attacking := false;
      attackTimer := 0.0;
      pulsesHandled := {};
      this.position := position;
      speed := config.navSpeed;
      stoppingDistance := 0.0;
      isStopped := false;
      destination := position;
    }

    function Config(): AgentConfig
      reads this
    {
      AgentConfig(viewAngle, viewDistance, hearingRadius, attackRange, patrolPointTolerance, patrolWait,
                  huntSpeedMultiplier, attackDamage, attackWindup, attackRecovery, huntingTimeout, baseSpeed)
    }

    // ------------ Helpers ----------------

    /**
     * `ArrivedAtPoint`: no path pending and within the larger of the patrol
     * tolerance and the stopping distance plus 0.05, that is, within either.
     */
    predicate ArrivedAtPoint(nav: NavReport): (r: bool)
      reads this`patrolPointTolerance, this`stoppingDistance
      ensures r <==> (!nav.pathPending &&
        (nav.remainingDistance <= patrolPointTolerance || nav.remainingDistance <= stoppingDistance + 0.05))
    {
      !nav.pathPending && nav.remainingDistance <= Max(patrolPointTolerance, stoppingDistance + 0.05)
    }

    /**
     * Where `SetNextPatrolPoint` sends the agent: a sampled point around the
     * group's current position (the hunt centre while the group is away),
     * within the patrol radius or half of it, or that position itself when
     * sampling fails; without a group the destination stays `current`.
     */
    function NextPatrolPoint(nearCenter: bool, sampler: NavSampler, current: Vec3): Vec3
      reads this`group, group
    {
      if group == null then current
      else sampler(group.position, SampleRadius(nearCenter)).GetOr(group.position)
    }

    /** The radius `SetNextPatrolPoint` samples within: the patrol radius, or half of it near the centre. */
    function SampleRadius(nearCenter: bool): real
      requires group != null
      reads this`group, group
    {
      if nearCenter then group.patrolRadius * 0.5 else group.patrolRadius
    }

    /**
     * `p` lies within twice the sampling radius of the group's position (when
     * there is a group and its radius is not negative).
     */
    ghost predicate NearGroup(p: Vec3, nearCenter: bool)
      reads this`group, group
    {
      group != null && group.patrolRadius >= 0.0 ==>
        WithinDist(DistSq(p, group.position), 2.0 * SampleRadius(nearCenter))
    }

    /** With a well-behaved sampler every patrol or search point stays near the group's position. */
    lemma NextPatrolPointNear(nearCenter: bool, sampler: NavSampler, current: Vec3)
      requires SamplerBounded(sampler)
      ensures NearGroup(NextPatrolPoint(nearCenter, sampler, current), nearCenter)
    {
      if group != null && group.patrolRadius >= 0.0 {
        var hit := sampler(group.position, SampleRadius(nearCenter));
        if hit.None? {
          assert DistSq(group.position, group.position) == 0.0;
        }
      }
    }

    /** The agent's group as a frame: empty without one. */
    function Groups(): set<EnemyGroup>
      reads this`group
    {
      if group != null then {group} else {}
    }

    /** The agent is in Patrol as `GoPatrol` leaves it. */
    ghost predicate PatrolEntered(sampler: NavSampler, previous: Vec3)
      reads this, group
    {
      state == Patrol && stateTimer == patrolWait && speed == baseSpeed && stoppingDistance == 0.0
      && !isStopped && destination == NextPatrolPoint(false, sampler, previous)
    }

    /** The agent is in Hunting as `GoHunting(center)` leaves it. */
    ghost predicate HuntingEntered(center: Vec3)
      reads this
    {
      state == Hunting && huntingTimer == huntingTimeout && speed == baseSpeed * huntSpeedMultiplier
      && stoppingDistance == 0.0 && !isStopped && targetPos == center && destination == center
    }

    /** The agent is in Attack as `GoAttack(pos)` leaves it: chasing, no swing started. */
    ghost predicate AttackEntered(pos: Vec3)
      reads this
    {
      state == Attack && speed == baseSpeed * huntSpeedMultiplier
      && stoppingDistance == Max(0.01, attackRange * 0.9) && !isStopped
      && targetPos == pos && destination == pos && !attacking && attackTimer == 0.0
    }

    /**
     * The current target is there (not null, not destroyed) and within
     * `attackRange` on the ground plane.
     */
    predicate InStrikeRange()
      reads this`currentTarget, this`position, this`attackRange, currentTarget,
            if currentTarget != null then {currentTarget.health} else {}
    {
      currentTarget != null && !currentTarget.Destroyed()
      && WithinDist(PlanarDistSq(position, currentTarget.position), attackRange)
    }

    /** The soft leash: the 3-D distance to the group's current position exceeds 1.2 patrol radii. */
    predicate Leashed()
      reads this`group, this`position, group
    {
      group != null && !WithinDist(DistSq(position, group.position), group.patrolRadius * 1.2)
    }

    // ------------ States ----------------

    /** `GoPatrol`: Patrol, the dwell timer at `patrolWait`, base speed, and a fresh patrol point. */
    method GoPatrol(sampler: NavSampler)
      requires SamplerBounded(sampler)
      modifies this`state, this`stateTimer, this`speed, this`stoppingDistance, this`isStopped, this`destination
      ensures PatrolEntered(sampler, old(destination))
      ensures NearGroup(destination, false)
    {
      state := Patrol;
      stateTimer := patrolWait;
      speed := baseSpeed;
      stoppingDistance := 0.0;
      isStopped := false;
      SetNextPatrolPoint(false, sampler);
    }

    /**
     * `TickPatrol`: the dwell timer runs only while arrived; when it reaches
     * zero a new point is picked and the timer starts over.
     */
    method TickPatrol(dt: real, nav: NavReport, sampler: NavSampler)
      requires SamplerBounded(sampler)
      modifies this`stateTimer, this`destination
      ensures !ArrivedAtPoint(nav) ==> stateTimer == old(stateTimer) && destination == old(destination)
      ensures ArrivedAtPoint(nav) && old(stateTimer) - dt > 0.0 ==>
        stateTimer == old(stateTimer) - dt && destination == old(destination)
      ensures ArrivedAtPoint(nav) && old(stateTimer) - dt <= 0.0 ==>
        stateTimer == patrolWait && destination == NextPatrolPoint(false, sampler, old(destination))
        && NearGroup(destination, false)
    {
      if ArrivedAtPoint(nav) {
        stateTimer := stateTimer - dt;
        if stateTimer <= 0.0 {
          SetNextPatrolPoint(false, sampler);
          stateTimer := patrolWait;
        }
      }
    }

    /** `GoHunting(center)`: Hunting, the timeout restarted, faster, heading for `center`. */
    method GoHunting(center: Vec3)
      modifies this`state, this`huntingTimer, this`speed, this`stoppingDistance, this`isStopped,
               this`targetPos, this`destination
      ensures HuntingEntered(center)
    {
      state := Hunting;
      huntingTimer := huntingTimeout;
      speed := baseSpeed * huntSpeedMultiplier;
      stoppingDistance := 0.0;
      isStopped := false;
      targetPos := center;
      destination := targetPos;
    }

    /**
     * `TickHunting`: the first tick on which the timeout reaches zero returns
     * to Patrol (with a patrol point, not a search point); before that, every
     * arrival picks a search point within half the patrol radius of the
     * group's position.
     */
    method TickHunting(dt: real, nav: NavReport, sampler: NavSampler)
      requires SamplerBounded(sampler)
      modifies this`huntingTimer, this`state, this`stateTimer, this`speed, this`stoppingDistance,
               this`isStopped, this`destination
      ensures huntingTimer == old(huntingTimer) - dt
      ensures huntingTimer <= 0.0 ==> PatrolEntered(sampler, old(destination)) && NearGroup(destination, false)
      ensures huntingTimer > 0.0 && ArrivedAtPoint(nav) ==> NearGroup(destination, true)
      ensures huntingTimer > 0.0 ==>
        state == old(state) && stateTimer == old(stateTimer) && speed == old(speed)
        && stoppingDistance == old(stoppingDistance) && isStopped == old(isStopped)
      ensures huntingTimer > 0.0 ==>
        destination == if ArrivedAtPoint(nav) then NextPatrolPoint(true, sampler, old(destination)) else old(destination)
    {
      huntingTimer := huntingTimer - dt;
      if huntingTimer <= 0.0 {
        GoPatrol(sampler);
        return;
      }
      if ArrivedAtPoint(nav) {
        SetNextPatrolPoint(true, sampler);
      }
    }

    /** `GoAttack(pos)`: Attack, faster, stopping short of the target, no swing started yet. */
    method GoAttack(pos: Vec3)
      modifies this`state, this`speed, this`stoppingDistance, this`isStopped, this`targetPos,
               this`destination, this`attacking, this`attackTimer
      ensures AttackEntered(pos)
    {
      state := Attack;
      speed := baseSpeed * huntSpeedMultiplier;
      stoppingDistance := Max(0.01, attackRange * 0.9);
      isStopped := false;
      targetPos := pos;
      destination := targetPos;
      attacking := false;
      attackTimer := 0.0;
    }

    /**
     * The swing's step over one Attack frame: out of a windup, a target in
     * strike range starts one, whatever `attackTimer` holds; in a windup the
     * timer runs down by `dt`, and when it reaches zero the windup ends and
     * the recovery time is set.
     */
    twostate predicate SwingStep(dt: real)
      reads this`attacking, this`attackTimer, this`attackWindup, this`attackRecovery
    {
      && (!old(attacking) && old(InStrikeRange()) ==> attacking && attackTimer == attackWindup)
      && (!old(attacking) && !old(InStrikeRange()) ==> !attacking && attackTimer == old(attackTimer))
      && (old(attacking) && old(attackTimer) - dt > 0.0 ==> attacking && attackTimer == old(attackTimer) - dt)
      && (old(attacking) && old(attackTimer) - dt <= 0.0 ==> !attacking && attackTimer == attackRecovery)
    }

    /**
     * The strike over one Attack frame, for the frame's starting target
     * `target`: one blow of `attackDamage` lands exactly when a windup ran out
     * with the target still in strike range and it has health, and the player
     * dies when it leaves no hit points (its `maxHP` is kept); otherwise its
     * health is untouched.
     */
    twostate predicate StrikeStep(dt: real, target: PlayerProxy?, struck: bool)
      reads this`attackDamage, if target != null then {target.health} else {}
    {
      && target == old(currentTarget)
      && (struck <==> old(attacking) && old(attackTimer) - dt <= 0.0 && old(InStrikeRange()) && target.health != null)
      && (struck ==>
            && target.health.currentHP == DamagedHP(old(target.health.currentHP), attackDamage)
            && target.health.maxHP == old(target.health.maxHP)
            && target.health.destroyed == (old(target.health.destroyed) || target.health.currentHP == 0))
      && (!struck && target != null && target.health != null ==> unchanged(target.health))
    }

    /**
     * `TickAttack`. Out of a windup, a target in strike range starts one
     * (whatever `attackTimer` holds: the recovery time set after a strike is
     * never read, so it is no lockout); otherwise the agent chases `targetPos`.
     * In a windup the agent stands still; when the windup runs out, damage is
     * dealt only if the target is still in range, and the windup ends either
     * way, so a windup deals damage at most once. Finally the leash sends the
     * agent back to Patrol when it is too far from the group's position.
     * `struck` tells whether damage was dealt.
     */
    method TickAttack(dt: real, sampler: NavSampler) returns (struck: bool)
      requires SamplerBounded(sampler)
      modifies this`isStopped, this`attacking, this`attackTimer, this`destination, this`state,
               this`stateTimer, this`speed, this`stoppingDistance
      modifies if currentTarget != null then {currentTarget.health} else {}
      ensures SwingStep(dt) && StrikeStep(dt, currentTarget, struck)
      ensures unchanged(Groups())
      ensures isStopped == (attacking && !old(Leashed()))
      ensures old(Leashed()) ==>
        state == Patrol && stateTimer == patrolWait && speed == baseSpeed
        && stoppingDistance == 0.0 && destination == NextPatrolPoint(false, sampler, old(destination))
        && NearGroup(destination, false)
      ensures !old(Leashed()) ==>
        state == old(state) && stateTimer == old(stateTimer) && speed == old(speed)
        && stoppingDistance == old(stoppingDistance)
      ensures !old(Leashed()) ==>
        destination == if !old(attacking) && !old(InStrikeRange()) then targetPos else old(destination)
    {
      // the swing moves neither the agent nor the group, so the leash reads the same before and after it
      var leashed := Leashed();
      struck := Swing(dt);
      if leashed {
        isStopped := false;
        GoPatrol(sampler);
      }
    }

    /** The windup and strike of `TickAttack`, before its leash check. */
    method Swing(dt: real) returns (struck: bool)
      modifies this`isStopped, this`attacking, this`attackTimer, this`destination
      modifies if currentTarget != null then {currentTarget.health} else {}
      ensures SwingStep(dt) && StrikeStep(dt, currentTarget, struck)
      ensures isStopped == attacking
      ensures destination == if !old(attacking) && !old(InStrikeRange()) then targetPos else old(destination)
    {
      var inRange := InStrikeRange();
      struck := false;
      if !attacking {
        if inRange {
          isStopped := true;
          attacking := true;
          attackTimer := attackWindup;
        } else {
          isStopped := false;
          destination := targetPos;
        }
      } else {
        isStopped := true;
        attackTimer := attackTimer - dt;
        if attackTimer <= 0.0 {
          if inRange {
            var hp := currentTarget.health;
            if hp != null {
              var _ := hp.TakeDamage(attackDamage);
              struck := true;
            }
          }
          attacking := false;
          attackTimer := attackRecovery;
          isStopped := false;
        }
      }
    }

    // ------------ Patrol utilities ----------------

    /**
     * `SetNextPatrolPoint`: aims at a point sampled around the group's
     * position (not around `targetPos`), within the patrol radius, or half of
     * it when `nearCenter`; at the group's position if sampling fails; nowhere
     * new without a group.
     */
    method SetNextPatrolPoint(nearCenter: bool, sampler: NavSampler)
      requires SamplerBounded(sampler)
      modifies this`destination
      ensures group == null ==> destination == old(destination)
      ensures group != null ==>
        destination == sampler(group.position, if nearCenter then group.patrolRadius * 0.5 else group.patrolRadius).GetOr(group.position)
      ensures destination == NextPatrolPoint(nearCenter, sampler, old(destination))
      ensures NearGroup(destination, nearCenter)
    {
      NextPatrolPointNear(nearCenter, sampler, destination);
      if group == null {
        return;
      }
      var r := if nearCenter then group.patrolRadius * 0.5 else group.patrolRadius;
      var hit := sampler(group.position, r);
      if hit.Some? {
        destination := hit.value;
      } else {
        destination := group.position;
      }
    }

    // ------------ Perception ----------------

    /** The squared distance from the agent to the sighted player. */
    function SightDistSq(s: Sighting): real
      reads this`position, s.player
    {
      DistSq(s.player.position, position)
    }

    /**
     * A sighted player qualifies when it is within `viewDistance`, at most
     * `viewAngle` degrees off the agent's facing, and first on the ray.
     */
    predicate Qualifies(s: Sighting)
      reads this`position, this`viewDistance, this`viewAngle, s.player
    {
      WithinDist(SightDistSq(s), viewDistance) && s.angle <= viewAngle && s.lineOfSight
    }

    /**
     * `best` is the outcome the sweep must have: none when nobody qualifies,
     * else a qualifying player at the least distance, the earliest one on ties.
     */
    ghost predicate NearestVisible(sightings: seq<Sighting>, best: Option<nat>)
      reads this`position, this`viewDistance, this`viewAngle, set i | 0 <= i < |sightings| :: sightings[i].player
    {
      && (best.None? ==> forall k :: 0 <= k < |sightings| ==> !Qualifies(sightings[k]))
      && (best.Some? ==>
        && best.value < |sightings|
        && Qualifies(sightings[best.value])
        && (forall k :: 0 <= k < |sightings| && Qualifies(sightings[k]) ==>
              SightDistSq(sightings[best.value]) <= SightDistSq(sightings[k]))
        && (forall k :: 0 <= k < best.value && Qualifies(sightings[k]) ==>
              SightDistSq(sightings[best.value]) < SightDistSq(sightings[k])))
    }

    /** At most one outcome meets `NearestVisible`: the sweep's choice is determined. */
    lemma NearestVisibleUnique(sightings: seq<Sighting>, a: Option<nat>, b: Option<nat>)
      requires NearestVisible(sightings, a) && NearestVisible(sightings, b)
      ensures a == b
    {
    }

    /**
     * The selection loop of `ScanForPlayers`: the nearest qualifying player,
     * the first found winning a tie (the comparison is strict).
     */
    method SelectTarget(sightings: seq<Sighting>) returns (best: Option<nat>)
      ensures NearestVisible(sightings, best)
    {
      best := None;
      var bestDist := 0.0;
      for k := 0 to |sightings|
        invariant best.None? ==> forall j :: 0 <= j < k ==> !Qualifies(sightings[j])
        invariant best.Some? ==> best.value < k && Qualifies(sightings[best.value])
        invariant best.Some? ==> bestDist == SightDistSq(sightings[best.value])
        invariant best.Some? ==> forall j :: 0 <= j < k && Qualifies(sightings[j]) ==> bestDist <= SightDistSq(sightings[j])
        invariant best.Some? ==> forall j :: 0 <= j < best.value && Qualifies(sightings[j]) ==> bestDist < SightDistSq(sightings[j])
      {
        var p := sightings[k].player;
        var dist := DistSq(p.position, position);
        if !WithinDist(dist, viewDistance) {
          continue;
        }
        if sightings[k].angle > viewAngle {
          continue;
        }
        if sightings[k].lineOfSight {
          if best.None? || dist < bestDist {
            best := Some(k);
            bestDist := dist;
          }
        }
      }
    }

    /**
     * `ScanForPlayers`. On a sighting: the last known position and the target
     * are updated, the group's hunt centre moves there, and the agent enters
     * Attack unless already in it (an ongoing windup is left alone). With
     * nobody in sight: an attacking agent hunts at the last known position,
     * and the target is dropped in every state.
     */
    method ScanForPlayers(sightings: seq<Sighting>) returns (seen: Option<nat>)
      modifies this`targetPos, this`currentTarget, this`state, this`huntingTimer, this`speed,
               this`stoppingDistance, this`isStopped, this`destination, this`attacking, this`attackTimer
      modifies Groups()`position, Groups()`huntTimer, Groups()`atLastSeen
      ensures Swept(sightings, seen) && GroupKept(seen)
      ensures seen.Some? ==> huntingTimer == old(huntingTimer)
      ensures seen.Some? && old(state) != Attack ==> AttackEntered(targetPos)
      ensures seen.Some? && old(state) == Attack ==>
        state == Attack && attacking == old(attacking)
        && attackTimer == old(attackTimer) && destination == old(destination) && speed == old(speed)
        && stoppingDistance == old(stoppingDistance) && isStopped == old(isStopped)
      ensures seen.None? && group != null ==> unchanged(group)
      ensures seen.None? ==> attacking == old(attacking) && attackTimer == old(attackTimer)
      ensures seen.None? && old(state) == Attack ==> HuntingEntered(old(targetPos))
      ensures seen.None? && old(state) != Attack ==>
        state == old(state) && targetPos == old(targetPos) && huntingTimer == old(huntingTimer)
        && destination == old(destination) && speed == old(speed) && isStopped == old(isStopped)
        && stoppingDistance == old(stoppingDistance)
      ensures group != null ==>
        group.homeAnchor == old(group.homeAnchor) && group.originalHome == old(group.originalHome)
        && group.returnDelay == old(group.returnDelay)
    {
      seen := SelectTarget(sightings);
      if seen.Some? {
        Engage(sightings[seen.value].player);
      } else {
        LoseSight();
      }
    }

    /** What `ScanForPlayers` does on a sighting of `best`. */
    method Engage(best: PlayerProxy)
      modifies this`targetPos, this`currentTarget, this`state, this`speed, this`stoppingDistance,
               this`isStopped, this`destination, this`attacking, this`attackTimer
      modifies Groups()`position, Groups()`huntTimer, Groups()`atLastSeen
      ensures currentTarget == best && targetPos == best.position && state == Attack
      ensures group != null ==> group.position == targetPos && group.Clock() == HuntClock(group.huntDuration, true)
      ensures old(state) != Attack ==> AttackEntered(targetPos)
      ensures old(state) == Attack ==>
        state == Attack && attacking == old(attacking)
        && attackTimer == old(attackTimer) && destination == old(destination) && speed == old(speed)
        && stoppingDistance == old(stoppingDistance) && isStopped == old(isStopped)
      ensures group != null ==>
        group.patrolRadius == old(group.patrolRadius) && group.members == old(group.members)
        && group.huntDuration == old(group.huntDuration) && group.returnPending == old(group.returnPending)
        && group.homeAnchor == old(group.homeAnchor) && group.originalHome == old(group.originalHome)
        && group.returnDelay == old(group.returnDelay)
    {
      targetPos := best.position;
      currentTarget := best;
      if group != null {
        group.SetHuntCenter(targetPos, group.huntDuration);
      }
      if state != Attack {
        GoAttack(targetPos);
      }
    }

    /** What `ScanForPlayers` does with nobody in sight. */
    method LoseSight()
      modifies this`currentTarget, this`state, this`huntingTimer, this`speed, this`stoppingDistance,
               this`isStopped, this`targetPos, this`destination
      ensures currentTarget == null && state != Attack
      ensures old(state) == Attack ==> HuntingEntered(old(targetPos))
      ensures old(state) != Attack ==>
        state == old(state) && targetPos == old(targetPos) && huntingTimer == old(huntingTimer)
        && destination == old(destination) && speed == old(speed) && isStopped == old(isStopped)
        && stoppingDistance == old(stoppingDistance)
    {
      if state == Attack {
        GoHunting(targetPos);
      }
      currentTarget := null;
    }

    /**
     * What the perception sweep leaves, whatever the state it found: `seen` is
     * the nearest visible player and the agent is in Attack exactly when there
     * is one. On a sighting the agent targets that player, and the group's area
     * moves to the player with a fresh countdown; otherwise the target is
     * dropped.
     */
    ghost predicate Swept(sightings: seq<Sighting>, seen: Option<nat>)
      reads this`position, this`viewDistance, this`viewAngle, this`state, this`currentTarget, this`targetPos,
            this`group, Groups(), set i | 0 <= i < |sightings| :: sightings[i].player
    {
      && NearestVisible(sightings, seen)
      && (state == Attack <==> seen.Some?)
      && (seen.Some? ==> currentTarget == sightings[seen.value].player && targetPos == currentTarget.position)
      && (seen.None? ==> currentTarget == null)
      && (seen.Some? && group != null ==>
            group.position == targetPos && group.Clock() == HuntClock(group.huntDuration, true))
    }

    /**
     * The group over a frame: the agent keeps its group; without a sighting
     * the group's area and countdown stay where they were; either way the group
     * keeps its members, radius, hunt duration and return flag, and stays
     * valid.
     */
    twostate predicate GroupKept(new seen: Option<nat>)
      reads this`group, Groups()
    {
      && group == old(group)
      && (seen.None? && group != null ==>
            group.position == old(group.position) && group.Clock() == old(group.Clock()))
      && (group != null ==>
            group.members == old(group.members) && group.patrolRadius == old(group.patrolRadius)
            && group.huntDuration == old(group.huntDuration) && group.returnPending == old(group.returnPending))
      && (group != null && old(group.Valid()) ==> group.Valid())
    }

    /**
     * `Update`: the current state's tick, then the perception sweep. After a
     * frame the agent is in Attack exactly when it sees a player, so a leash
     * back to Patrol is undone in the same frame while the target stays in
     * view, discarding any windup. Only an Attack frame can strike, and it
     * strikes as `TickAttack` does.
     */
    method Update(dt: real, nav: NavReport, sampler: NavSampler, sightings: seq<Sighting>)
      returns (struck: bool, seen: Option<nat>)
      requires SamplerBounded(sampler)
      modifies this`stateTimer, this`huntingTimer, this`attacking, this`attackTimer, this`targetPos,
               this`currentTarget, this`state, this`speed, this`stoppingDistance, this`isStopped, this`destination
      modifies Groups()`position, Groups()`huntTimer, Groups()`atLastSeen
      modifies if currentTarget != null then {currentTarget.health} else {}
      ensures Swept(sightings, seen) && GroupKept(seen)
      // Patrol
      ensures old(state) == Patrol ==>
        stateTimer == (if !old(ArrivedAtPoint(nav)) then old(stateTimer)
                       else if old(stateTimer) - dt > 0.0 then old(stateTimer) - dt else patrolWait)
        && huntingTimer == old(huntingTimer)
      ensures old(state) == Patrol && seen.None? ==>
        state == Patrol && destination ==
          if old(ArrivedAtPoint(nav)) && old(stateTimer) - dt <= 0.0 then NextPatrolPoint(false, sampler, old(destination))
          else old(destination)
      ensures old(state) == Patrol && seen.None? ==>
        speed == old(speed) && stoppingDistance == old(stoppingDistance) && isStopped == old(isStopped)
      // Hunting
      ensures old(state) == Hunting ==> huntingTimer == old(huntingTimer) - dt
      ensures old(state) == Hunting && huntingTimer > 0.0 ==> stateTimer == old(stateTimer)
      ensures old(state) == Hunting && seen.None? && huntingTimer <= 0.0 ==> PatrolEntered(sampler, old(destination))
      ensures old(state) == Hunting && seen.None? && huntingTimer > 0.0 ==>
        state == Hunting && destination ==
          if old(ArrivedAtPoint(nav)) then NextPatrolPoint(true, sampler, old(destination)) else old(destination)
      ensures old(state) == Hunting && seen.None? && huntingTimer > 0.0 ==>
        speed == old(speed) && stoppingDistance == old(stoppingDistance) && isStopped == old(isStopped)
      // Patrol and Hunting: no swing progresses and the target's health is untouched
      ensures old(state) != Attack ==>
        !struck && (old(currentTarget) != null && old(currentTarget).health != null ==> unchanged(old(currentTarget).health))
      ensures old(state) != Attack && seen.None? ==> attacking == old(attacking) && attackTimer == old(attackTimer)
      // Attack
      ensures struck ==> old(state) == Attack && old(attacking) && old(currentTarget) != null
      ensures old(state) == Attack ==> StrikeStep(dt, old(currentTarget), struck)
      ensures old(state) == Attack && (seen.None? || !old(Leashed())) ==> SwingStep(dt)
      ensures old(state) == Attack && !old(Leashed()) && seen.Some? ==>
        state == Attack && isStopped == attacking && stateTimer == old(stateTimer) && speed == old(speed)
        && stoppingDistance == old(stoppingDistance) && huntingTimer == old(huntingTimer)
        && destination == if !old(attacking) && !old(InStrikeRange()) then old(targetPos) else old(destination)
      ensures old(state) == Attack && seen.None? ==>
        if old(Leashed()) then PatrolEntered(sampler, old(destination)) else HuntingEntered(old(targetPos))
      ensures seen.Some? && (old(state) != Attack || old(Leashed())) ==> AttackEntered(targetPos)
    {
      struck := false;
      match state {
        case Patrol => seen := PatrolFrame(dt, nav, sampler, sightings);
        case Hunting => seen := HuntingFrame(dt, nav, sampler, sightings);
        case Attack => struck, seen := AttackFrame(dt, sampler, sightings);
      }
    }

    /** An `Update` frame that starts in Patrol: `TickPatrol`, then the sweep. */
    method PatrolFrame(dt: real, nav: NavReport, sampler: NavSampler, sightings: seq<Sighting>)
      returns (seen: Option<nat>)
      requires state == Patrol && SamplerBounded(sampler)
      modifies this`stateTimer, this`huntingTimer, this`attacking, this`attackTimer, this`targetPos,
               this`currentTarget, this`state, this`speed, this`stoppingDistance, this`isStopped, this`destination
      modifies Groups()`position, Groups()`huntTimer, Groups()`atLastSeen
      ensures Swept(sightings, seen) && GroupKept(seen)
      ensures stateTimer == (if !old(ArrivedAtPoint(nav)) then old(stateTimer)
                             else if old(stateTimer) - dt > 0.0 then old(stateTimer) - dt else patrolWait)
        && huntingTimer == old(huntingTimer)
      ensures seen.None? ==>
        state == Patrol && destination ==
          if old(ArrivedAtPoint(nav)) && old(stateTimer) - dt <= 0.0 then NextPatrolPoint(false, sampler, old(destination))
          else old(destination)
      ensures seen.None? ==>
        speed == old(speed) && stoppingDistance == old(stoppingDistance) && isStopped == old(isStopped)
        && attacking == old(attacking) && attackTimer == old(attackTimer)
      ensures seen.Some? ==> AttackEntered(targetPos)
    {
      TickPatrol(dt, nav, sampler);
      seen := ScanForPlayers(sightings);
    }

    /** An `Update` frame that starts in Hunting: `TickHunting`, then the sweep. */
    method HuntingFrame(dt: real, nav: NavReport, sampler: NavSampler, sightings: seq<Sighting>)
      returns (seen: Option<nat>)
      requires state == Hunting && SamplerBounded(sampler)
      modifies this`stateTimer, this`huntingTimer, this`attacking, this`attackTimer, this`targetPos,
               this`currentTarget, this`state, this`speed, this`stoppingDistance, this`isStopped, this`destination
      modifies Groups()`position, Groups()`huntTimer, Groups()`atLastSeen
      ensures Swept(sightings, seen) && GroupKept(seen)
      ensures huntingTimer == old(huntingTimer) - dt
      ensures huntingTimer > 0.0 ==> stateTimer == old(stateTimer)
      ensures seen.None? && huntingTimer <= 0.0 ==> PatrolEntered(sampler, old(destination))
      ensures seen.None? && huntingTimer > 0.0 ==>
        state == Hunting && destination ==
          if old(ArrivedAtPoint(nav)) then NextPatrolPoint(true, sampler, old(destination)) else old(destination)
      ensures seen.None? && huntingTimer > 0.0 ==>
        speed == old(speed) && stoppingDistance == old(stoppingDistance) && isStopped == old(isStopped)
      ensures seen.None? ==> attacking == old(attacking) && attackTimer == old(attackTimer)
      ensures seen.Some? ==> AttackEntered(targetPos)
    {
      TickHunting(dt, nav, sampler);
      seen := ScanForPlayers(sightings);
    }

    /** An `Update` frame that starts in Attack: `TickAttack`, then the sweep. */
    method AttackFrame(dt: real, sampler: NavSampler, sightings: seq<Sighting>)
      returns (struck: bool, seen: Option<nat>)
      requires state == Attack && SamplerBounded(sampler)
      modifies this`stateTimer, this`huntingTimer, this`attacking, this`attackTimer, this`targetPos,
               this`currentTarget, this`state, this`speed, this`stoppingDistance, this`isStopped, this`destination
      modifies Groups()`position, Groups()`huntTimer, Groups()`atLastSeen
      modifies if currentTarget != null then {currentTarget.health} else {}
      ensures Swept(sightings, seen) && GroupKept(seen)
      ensures StrikeStep(dt, old(currentTarget), struck)
      ensures seen.None? || !old(Leashed()) ==> SwingStep(dt)
      ensures !old(Leashed()) && seen.Some? ==>
        state == Attack && isStopped == attacking && stateTimer == old(stateTimer) && speed == old(speed)
        && stoppingDistance == old(stoppingDistance) && huntingTimer == old(huntingTimer)
        && destination == if !old(attacking) && !old(InStrikeRange()) then old(targetPos) else old(destination)
      ensures seen.None? ==>
        if old(Leashed()) then PatrolEntered(sampler, old(destination)) else HuntingEntered(old(targetPos))
      ensures seen.Some? && old(Leashed()) ==> AttackEntered(targetPos)
    {
      if Leashed() {
        struck, seen := LeashedAttackFrame(dt, sampler, sightings);
      } else {
        struck, seen := HeldAttackFrame(dt, sampler, sightings);
      }
    }

    /** An Attack frame that finds the agent beyond the leash. */
    method LeashedAttackFrame(dt: real, sampler: NavSampler, sightings: seq<Sighting>)
      returns (struck: bool, seen: Option<nat>)
      requires state == Attack && Leashed() && SamplerBounded(sampler)
      modifies this`stateTimer, this`huntingTimer, this`attacking, this`attackTimer, this`targetPos,
               this`currentTarget, this`state, this`speed, this`stoppingDistance, this`isStopped, this`destination
      modifies Groups()`position, Groups()`huntTimer, Groups()`atLastSeen
      modifies if currentTarget != null then {currentTarget.health} else {}
      ensures Swept(sightings, seen) && GroupKept(seen)
      ensures StrikeStep(dt, old(currentTarget), struck)
      ensures seen.None? ==> SwingStep(dt) && PatrolEntered(sampler, old(destination))
      ensures seen.Some? ==> AttackEntered(targetPos)
    {
      struck := TickAttack(dt, sampler);
      seen := ScanForPlayers(sightings);
    }

    /** An Attack frame that finds the agent within the leash. */
    method HeldAttackFrame(dt: real, sampler: NavSampler, sightings: seq<Sighting>)
      returns (struck: bool, seen: Option<nat>)
      requires state == Attack && !Leashed() && SamplerBounded(sampler)
      modifies this`stateTimer, this`huntingTimer, this`attacking, this`attackTimer, this`targetPos,
               this`currentTarget, this`state, this`speed, this`stoppingDistance, this`isStopped, this`destination
      modifies Groups()`position, Groups()`huntTimer, Groups()`atLastSeen
      modifies if currentTarget != null then {currentTarget.health} else {}
      ensures Swept(sightings, seen) && GroupKept(seen)
      ensures StrikeStep(dt, old(currentTarget), struck) && SwingStep(dt)
      ensures seen.Some? ==>
        state == Attack && isStopped == attacking && stateTimer == old(stateTimer) && speed == old(speed)
        && stoppingDistance == old(stoppingDistance) && huntingTimer == old(huntingTimer)
        && destination == if !old(attacking) && !old(InStrikeRange()) then old(targetPos) else old(destination)
      ensures seen.None? ==> HuntingEntered(old(targetPos))
    {
      struck := TickAttack(dt, sampler);
      seen := ScanForPlayers(sightings);
    }

    // ------------ Hearing ----------------

    /**
     * `OnNoise`: a one-shot sound within `hearingRadius` on the ground plane
     * sends the agent hunting at the sound; the event's own `radius` plays no
     * part. Anything farther changes nothing.
     */
    method OnNoise(e: NoiseEvent)
      modifies this`state, this`huntingTimer, this`speed, this`stoppingDistance, this`isStopped,
               this`targetPos, this`destination
      ensures WithinDist(PlanarDistSq(position, e.position), hearingRadius) ==> HuntingEntered(e.position)
      ensures !WithinDist(PlanarDistSq(position, e.position), hearingRadius) ==> unchanged(this)
    {
      if WithinDist(PlanarDistSq(position, e.position), hearingRadius) {
        GoHunting(e.position);
      }
    }

    /**
     * `OnNoisePulse`: a pulse whose id is new and whose wavefront overlaps the
     * hearing circle (planar distance at most `currentRadius + hearingRadius`)
     * records its id and sends the agent hunting at the pulse's origin. A
     * handled id changes nothing, so each pulse triggers at most once.
     */
    method OnNoisePulse(p: NoisePulse)
      modifies this`pulsesHandled, this`state, this`huntingTimer, this`speed, this`stoppingDistance,
               this`isStopped, this`targetPos, this`destination
      ensures p.pulseId in old(pulsesHandled) ==> unchanged(this)
      ensures p.pulseId !in old(pulsesHandled) && WithinDist(PlanarDistSq(position, p.position), p.currentRadius + hearingRadius) ==>
        pulsesHandled == old(pulsesHandled) + {p.pulseId} && HuntingEntered(p.position)
      ensures p.pulseId !in old(pulsesHandled) && !WithinDist(PlanarDistSq(position, p.position), p.currentRadius + hearingRadius) ==>
        unchanged(this)
      ensures p.pulseId in pulsesHandled
        <==> p.pulseId in old(pulsesHandled) || WithinDist(PlanarDistSq(position, p.position), p.currentRadius + hearingRadius)
    {
      if p.pulseId in pulsesHandled {
        return;
      }
      var dist := PlanarDistSq(position, p.position);
      if WithinDist(dist, p.currentRadius + hearingRadius) {
        pulsesHandled := pulsesHandled + {p.pulseId};
        GoHunting(p.position);
      }
    }

    // ------------ Lifecycle and scaling ----------------

    /** `Start`: joins the group, if any, then enters Patrol. */
    method Start(sampler: NavSampler)
      requires SamplerBounded(sampler)
      requires group != null ==> group.Valid()
      modifies this`group, this`state, this`stateTimer, this`speed, this`stoppingDistance, this`isStopped,
               this`destination
      modifies Groups()`members
      ensures group == old(group)
      ensures group != null ==>
        group.Valid() && group.members == if this in old(group.members) then old(group.members) else old(group.members) + [this]
      ensures group != null ==>
        group.position == old(group.position) && group.patrolRadius == old(group.patrolRadius)
        && group.Clock() == old(group.Clock()) && group.returnPending == old(group.returnPending)
      ensures PatrolEntered(sampler, old(destination)) && NearGroup(destination, false)
    {
      if group != null {
        group.Register(this);
      }
      GoPatrol(sampler);
    }

    /**
     * `ApplyEnemyScale`: view distance, hearing radius and attack range all
     * scale by `factor`. Growing (a factor of at least one) loses nothing:
     * whatever was within view, hearing or striking distance still is.
     */
    method ApplyEnemyScale(factor: real)
      modifies this`viewDistance, this`hearingRadius, this`attackRange
      ensures viewDistance == old(viewDistance) * factor
      ensures hearingRadius == old(hearingRadius) * factor
      ensures attackRange == old(attackRange) * factor
      ensures 1.0 <= factor ==> forall sq :: WithinDist(sq, old(viewDistance)) ==> WithinDist(sq, viewDistance)
      ensures 1.0 <= factor ==> forall sq :: WithinDist(sq, old(hearingRadius)) ==> WithinDist(sq, hearingRadius)
      ensures 1.0 <= factor ==> forall sq :: WithinDist(sq, old(attackRange)) ==> WithinDist(sq, attackRange)
    {
      var view, hearing, reach := viewDistance, hearingRadius, attackRange;
      viewDistance := viewDistance * factor;
      hearingRadius := hearingRadius * factor;
      attackRange := attackRange * factor;
      if 1.0 <= factor {
        forall sq | WithinDist(sq, view)
          ensures WithinDist(sq, viewDistance)
        {
          ScaledRangeCovers(sq, view, factor);
        }
        forall sq | WithinDist(sq, hearing)
          ensures WithinDist(sq, hearingRadius)
        {
          ScaledRangeCovers(sq, hearing, factor);
        }
        forall sq | WithinDist(sq, reach)
          ensures WithinDist(sq, attackRange)
        {
          ScaledRangeCovers(sq, reach, factor);
        }
      }
    }
  }
}
