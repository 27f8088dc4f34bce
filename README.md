# Enemy AI core of Misadventures, modelled in Dafny

This project models the enemy AI of the Misadventures Unity sandbox and proves
properties of that model:

- **`EnemyAI`**: each enemy's state machine. It has three states:
  - Patrol: wander between sampled points inside the group's area, with a dwell timer.
  - Hunting: search around the group's position until a timeout.
  - Attack: chase the target, then a windup, a strike if the target is still in range, and a recovery.

  Attack also has a soft leash that sends the enemy back to Patrol when it strays from its group.
- **Perception**: the nearest player in the view cone and in line of sight.
- **Hearing**: one-shot sounds and expanding alert pulses.
- **`EnemyGroup`**: the group's shared area.
  - The area snaps to a sighting.
  - A hunt countdown then sends it home, now or after a delay.
  - The patrol radius changes with hotkeys.
  - The group keeps a member list and spawns enemies.
- **`PlayerHealth`**: hit points, damage clamped at zero, and death.
- **`AlertPulse`**: pulse ids, the wavefront that grows with age, one broadcast per frame, and self-destruction at the end of its lifetime.
- **`VisionCone.BuildCone`**: the triangle fan that draws the view cone.

| file | module | models |
|---|---|---|
| `wrappers.dfy` | `Wrappers` | `Option` |
| `int32.dfy` | `Int32` | C#'s 32-bit `int` and its unchecked wrap-around |
| `geometry.dfy` | `Geometry` | `Vector3` arithmetic: squared 3-D and planar distances, `Mathf.Max`, `Clamp01`, `Lerp` |
| `player.dfy` | `Player` | `PlayerHealth.cs`; the player object the enemies see |
| `noise.dfy` | `Noise` | the `NoiseEvent` and `NoisePulse` payloads |
| `alert_pulse.dfy` | `Pulse` | `AlertPulse.cs` |
| `hearing.dfy` | `Hearing` | how an alert pulse's wavefront meets an enemy's hearing circle |
| `vision_cone.dfy` | `VisionCone` | `VisionCone.BuildCone` |
| `lists.dfy` | `Lists` | `List.Contains`/`Add`/`Remove` on a duplicate-free list |
| `enemy_ai.dfy` | `AI` | `EnemyAI.cs` and `EnemyGroup.cs` (they refer to each other) |

How the engine appears in the model:

- **Integers.** C# `int` arithmetic is unchecked: it wraps modulo 2^32. Hit points and damage are `int32` values, and `Int32.Wrap` writes the wrap out.
- **Distances.** Dafny has no square root on reals. Every test "distance `<=` r" is written `WithinDist(sq, r)` on the squared distance `sq`. `Geometry.WithinDistMeans` shows this means exactly `d <= r` for the true distance `d`. Planar distances drop the height coordinate, as `PlanarDistance` does.
- **Engine inputs.** The rest of the engine comes in as parameters:
  - the frame time `dt`;
  - the navigation agent's per-frame report (`NavReport`: path pending, remaining distance);
  - a navigation-mesh sampler that stands for `Random.insideUnitCircle` with `NavMesh.SamplePosition`: `NavSampler(center, r)` gives a point or nothing. The agent's methods take a sampler that meets `AI.SamplerBounded`: any point it gives lies within `2r` of `center`. The random candidate is within `r` of the centre, and the mesh hit is within `r` of the candidate;
  - for each player, one `Sighting`: the player, the angle from the enemy's facing, and whether the line-of-sight ray hits that player first.
- **Navigation commands.** The navigation agent's settings are fields of the enemy: `speed`, `stoppingDistance`, `isStopped`, `destination`.
- **Destroyed objects.** Unity treats a destroyed object as equal to `null`. A player counts as gone once its `PlayerHealth` has run `Die`.
- **Scheduled return.** The delayed `Invoke(TeleportHome, returnDelay)` becomes a `returnPending` flag. The caller fires it with `RunScheduledReturn`.
- **Group selection.** The selection singleton `EnemyGroup.Active` becomes a `selected` argument.
- **Pulse ids.** The static pulse-id counter becomes a `PulseIds` allocator shared by all pulses. The counter is an `int32` and wraps from `int.MaxValue` to `int.MinValue`, as `nextId++` does.
- **Missing noise types.** `NoiseSystem.cs` declares neither the `NoisePulse` payload nor the `EmitPulse` and `OnNoisePulse` members that `AlertPulse.cs` and `EnemyAI.cs` use. The model gives `NoisePulse` the shape those calls imply: id, position, current radius, source.

Behaviour kept as the code has it, where its comments suggest otherwise:

- **Recovery is no lockout.**
  - After a strike, `attackTimer` is set to `attackRecovery`, and nothing reads it when not in a windup.
  - The next frame in range starts a new windup.
  - `AI.EnemyAI.TickAttack` states that starting a windup depends on no timer.
- **The leash can be undone in the same frame.**
  - The leash measures 3-D distance to the group's *current* position, which is the hunt centre while the group is away.
  - The perception sweep runs after the tick, in the same frame. If the player is still in view, the enemy is back in Attack with its windup discarded.
  - `AI.EnemyAI.Update` proves both facts.
- **Search points ignore the last sighting.** Hunting search points are sampled around the group's position, not around `targetPos`.
- **One-shot sounds ignore their radius.** `OnNoise` compares the distance with the enemy's `hearingRadius`, never with the event's `radius`.
- **Unregister is never called.** `EnemyGroup.Unregister` exists, but no code calls it.
- **Handled pulse ids are never pruned.** `pulsesHandled` only grows.

## Model

| member | source | states |
|---|---|---|
| Geometry.PlanarDistSq | Assets/Scripts/AI/EnemyAI.cs:145-149 | the planar distance is the 3-D distance of the points dropped to height 0, never exceeds the 3-D distance, and does not depend on either point's height |
| Geometry.WithinDistMeans | Assets/Scripts/AI/EnemyAI.cs:388-398 | the squared-distance test holds exactly when the true distance is at most the radius, as `Vector3.Distance(a, b) <= hearingRadius` |
| Geometry.CloserMeans | Assets/Scripts/AI/EnemyAI.cs:363 | comparing squared distances orders players exactly as comparing distances (`dist < bestDist`) |
| Player.DamagedHP | Assets/Scripts/PlayerHealth.cs:21 | hit points after damage are never negative. When `currentHP - amount` fits in 32 bits, they are zero exactly when the damage is at least the hit points, and otherwise drop by the damage. A difference above `int.MaxValue` wraps negative and clamps to zero; one below `int.MinValue` wraps up by 2^32 |
| Player.DamageNeverHeals | Assets/Scripts/PlayerHealth.cs:19-23 | non-negative damage never raises hit points and removes at most its amount |
| Player.NegativeDamageHeals | Assets/Scripts/PlayerHealth.cs:19-23 | negative damage is accepted and raises hit points, even past `maxHP`, as long as the sum does not overflow |
| Player.OverflowingHealKills | Assets/Scripts/PlayerHealth.cs:21 | a heal that overflows kills: 100 HP taking -2147483600 damage, or 0 HP taking `int.MinValue`, ends at 0 HP |
| Player.DamageAccumulates | Assets/Scripts/PlayerHealth.cs:19-23 | two non-negative blows leave what one blow of their sum leaves, when the sum is a 32-bit value |
| Player.BlowsAccumulate | Assets/Scripts/PlayerHealth.cs:19-23 | n blows of the same non-negative amount leave the hit points less n times the amount, clamped at zero; with non-negative operands the subtraction never wraps |
| Player.BlowsToKill | Assets/Scripts/PlayerHealth.cs:19-23 | a living player is dead after n blows of a positive amount exactly when n times the amount reaches its hit points |
| Player.PlayerHealth.constructor | Assets/Scripts/PlayerHealth.cs:10-17 | a player starts alive at full health |
| Player.PlayerHealth.TakeDamage | Assets/Scripts/PlayerHealth.cs:19-23 | hit points become the wrapped and clamped difference (`DamagedHP`); the player dies exactly when they reach zero, and stays destroyed |
| Player.PlayerHealth.Die | Assets/Scripts/PlayerHealth.cs:25-29 | the player's object is destroyed |
| Pulse.Progress | Assets/Scripts/AlertPulse.cs:35 | the pulse's progress lies in [0, 1], is 0 before it starts and 1 once its age reaches its lifetime |
| Pulse.RadiusAt | Assets/Scripts/AlertPulse.cs:34-37 | the wavefront radius lies between 0 and `maxRadius`, starts at 0 and is `maxRadius` from the end of the lifetime on |
| Pulse.ProgressMonotone | Assets/Scripts/AlertPulse.cs:35 | progress never decreases with age |
| Pulse.RadiusMonotone | Assets/Scripts/AlertPulse.cs:34-37 | the wavefront never shrinks as the pulse ages |
| Pulse.PulseIds.constructor | Assets/Scripts/AlertPulse.cs:15 | ids start at 1, none issued |
| Pulse.PulseIds.Take | Assets/Scripts/AlertPulse.cs:29 | `nextId++`: the counter moves on by one with 32-bit wrap-around, from `int.MaxValue` to `int.MinValue`; until that wrap each id is new and greater than every id issued before |
| Pulse.AlertPulse.constructor | Assets/Scripts/AlertPulse.cs:17-30 | a new pulse takes the counter's id, unused until the counter wraps, and starts at age 0, alive |
| Pulse.AlertPulse.Update | Assets/Scripts/AlertPulse.cs:32-49 | each frame of a live pulse ages it and broadcasts exactly one wave frame with its own id and current radius; it is destroyed once its age reaches its lifetime, the last frame broadcasting the full radius; a destroyed pulse broadcasts nothing |
| Hearing.ReachOnlyGrows | Assets/Scripts/AI/EnemyAI.cs:402-415 | an enemy the wavefront reaches at some age it reaches at every later age |
| Hearing.FinalReach | Assets/Scripts/AlertPulse.cs:34-48 | on its final frame a pulse reaches exactly the enemies within `maxRadius + hearingRadius` on the ground plane |
| Hearing.ReachedAtSevenTenths | Assets/Scripts/AI/EnemyAI.cs:402-415 | a 20-unit, 2-second pulse reaches an enemy of hearing radius 5 at planar distance 12 exactly from age 0.7 on |
| VisionCone.FanIndex | Assets/Scripts/AI/VisionCone.cs:46-52 | every third triangle index is the centre 0, and index k never exceeds k / 3 + 2 |
| VisionCone.FanTriangle | Assets/Scripts/AI/VisionCone.cs:47-52 | triangle i is (0, i + 1, i + 2) |
| VisionCone.FanIndexInRange | Assets/Scripts/AI/VisionCone.cs:32-52 | every triangle index names one of the `segments + 2` vertices |
| VisionCone.BuildCone | Assets/Scripts/AI/VisionCone.cs:29-58 | no mesh exactly when C# would throw (negative segments, 32-bit overflow of `segments * 3`); otherwise `segments + 2` vertices, the centre first and then the arc points in sweep order, and `3 * segments` indices forming triangles (0, i + 1, i + 2) |
| Lists.RemoveFirstSpec | Assets/Scripts/AI/EnemyGroup.cs:142 | `List.Remove` leaves the list unchanged when the item is absent, and otherwise drops its first occurrence only |
| Lists.RemoveFromDistinct | Assets/Scripts/AI/EnemyGroup.cs:140-143 | on a duplicate-free list, removal keeps it duplicate-free, removes the item and keeps every other member |
| Lists.AddIfAbsent | Assets/Scripts/AI/EnemyGroup.cs:136 | adding only when absent keeps the list duplicate-free |
| AI.CountDown | Assets/Scripts/AI/EnemyGroup.cs:82-91 | the hunt countdown runs only while the group is away and ends on the first frame it reaches zero |
| AI.StaysHome | Assets/Scripts/AI/EnemyGroup.cs:82-91 | a group at home stays at home over any frames without a sighting |
| AI.HuntExpires | Assets/Scripts/AI/EnemyGroup.cs:82-91 | once the frame times add up to the hunt timer, the group is no longer away |
| AI.HuntHolds | Assets/Scripts/AI/EnemyGroup.cs:82-91 | while the frame times add up to less than the timer, the group stays away with the timer reduced by their sum |
| AI.ShrunkRadius | Assets/Scripts/AI/EnemyGroup.cs:74 | the shrunk radius is never below 1, and for a non-negative step and an old radius of at least 1 never above the old radius |
| AI.EnemyGroup.constructor | Assets/Scripts/AI/EnemyGroup.cs:10-32 | a new group has no members, no hunt and no pending return |
| AI.EnemyGroup.ResetHome | Assets/Scripts/AI/EnemyGroup.cs:61-67 | home becomes the anchor or the current position, the group moves there and forgets any hunt |
| AI.EnemyGroup.Update | Assets/Scripts/AI/EnemyGroup.cs:69-92 | the radius grows, then shrinks to no less than 1, only while selected; the hunt clock advances by one countdown frame; on expiry the return is scheduled, or done at once without a delay; otherwise the group stays put |
| AI.EnemyGroup.TeleportHome | Assets/Scripts/AI/EnemyGroup.cs:94-97 | the group lands on the anchor if there is one, else on the remembered home |
| AI.EnemyGroup.RunScheduledReturn | Assets/Scripts/AI/EnemyGroup.cs:87 | a scheduled return takes the group home once, even after a new sighting moved it away again |
| AI.EnemyGroup.Register | Assets/Scripts/AI/EnemyGroup.cs:134-138 | the member list stays duplicate-free, gains the enemy only if absent, and the enemy's group becomes this one |
| AI.EnemyGroup.Unregister | Assets/Scripts/AI/EnemyGroup.cs:140-143 | the enemy is no longer a member and every other member is kept |
| AI.EnemyGroup.SpawnEnemy | Assets/Scripts/AI/EnemyGroup.cs:145-157 | without a prefab or a spawn point nothing happens; otherwise exactly one new enemy, at the spawn point with the prefab's settings or the defaults, joins the members |
| AI.EnemyGroup.SetHuntCenter | Assets/Scripts/AI/EnemyGroup.cs:159-165 | the area snaps to the sighting and the countdown restarts at the given duration |
| AI.EnemyAI.constructor | Assets/Scripts/AI/EnemyAI.cs:88-107 | a new enemy has its settings, is in Patrol with no target and no swing, at its base speed with stopping distance 0 |
| AI.EnemyAI.ArrivedAtPoint | Assets/Scripts/AI/EnemyAI.cs:174-179 | `remainingDistance <= Max(tolerance, stoppingDistance + 0.05)` with no path pending holds exactly when no path is pending and the agent is within the tolerance OR within the stopping distance plus 0.05 |
| AI.EnemyAI.NextPatrolPointNear | Assets/Scripts/AI/EnemyAI.cs:318-331 | a patrol point is within twice the sampling radius (the patrol radius, or half of it near the centre) of the group's position, given a bounded sampler |
| AI.EnemyAI.GoPatrol | Assets/Scripts/AI/EnemyAI.cs:183-191 | Patrol at base speed with the full dwell time, reaching points fully, heading for a new patrol point within twice the patrol radius of the group's position |
| AI.EnemyAI.TickPatrol | Assets/Scripts/AI/EnemyAI.cs:193-204 | the dwell timer runs only while arrived; when it runs out a new point within twice the patrol radius of the group's position is chosen and the timer restarts; otherwise the destination is kept |
| AI.EnemyAI.GoHunting | Assets/Scripts/AI/EnemyAI.cs:206-216 | Hunting at the faster speed, with the full timeout, heading for the given centre, which becomes the last known position |
| AI.EnemyAI.TickHunting | Assets/Scripts/AI/EnemyAI.cs:218-232 | the timeout counts down every frame; at zero the enemy is back in Patrol; before that each arrival picks a search point sampled with half the radius, so within the full radius of the group's position |
| AI.EnemyAI.GoAttack | Assets/Scripts/AI/EnemyAI.cs:234-250 | Attack at the faster speed, stopping at 0.9 of the attack range (at least 0.01), heading for the target, with no swing started |
| AI.EnemyAI.Swing | Assets/Scripts/AI/EnemyAI.cs:252-302 | out of a windup, a target in range starts one with the full windup time and stands still, whatever the recovery timer holds, and otherwise the enemy closes on the last known position; in a windup the timer drops by the frame time, and when it runs out the swing ends in recovery, dealing exactly one blow of `attackDamage` (`DamagedHP`) when the target is still in range and has health, which kills the player exactly when no hit points remain and keeps its `maxHP`; without a blow the target's health is untouched |
| AI.EnemyAI.TickAttack | Assets/Scripts/AI/EnemyAI.cs:252-314 | the swing as `Swing` states it, the group untouched; the leash, measured before the swing, returns the enemy to Patrol exactly when it is beyond 1.2 radii of the group's position, and otherwise the state, timers, speed and stopping distance are kept |
| AI.EnemyAI.SetNextPatrolPoint | Assets/Scripts/AI/EnemyAI.cs:318-331 | without a group the destination is kept; otherwise the next point is sampled around the group's position with the radius (half of it near the centre), or is that position; it lies within twice the sampling radius of that position |
| AI.EnemyAI.NearestVisibleUnique | Assets/Scripts/AI/EnemyAI.cs:342-366 | the sweep's choice is determined: at most one outcome is the nearest qualifying player, the earliest on ties |
| AI.EnemyAI.SelectTarget | Assets/Scripts/AI/EnemyAI.cs:337-366 | the chosen player is in range, in the cone and in sight, no qualifying player is nearer, every earlier one is farther; none is chosen exactly when no player qualifies |
| AI.EnemyAI.ScanForPlayers | Assets/Scripts/AI/EnemyAI.cs:335-385 | on a sighting the target and last known position are the nearest visible player, the group's area moves there with a fresh countdown, and the enemy enters Attack unless already in it (keeping a windup); with nobody in sight the target is dropped and an attacking enemy hunts at the last known position, while every other state, its timers and the group are left alone; the group's home, return flag and delay are never touched, and the swing is kept unless a sighting enters Attack, which clears it |
| AI.EnemyAI.Update | Assets/Scripts/AI/EnemyAI.cs:117-135 | after a frame the enemy is in Attack exactly when it sees a player, and the group's area is at the sighting with a fresh countdown or unmoved; the group stays valid and keeps its members, radius and return flag. Patrol and Hunting frames leave the target's health alone, and keep the swing unless a sighting enters Attack, which clears it; the dwell timer, hunt timeout and destination evolve as their ticks set them, and speed, stopping distance and stopping are kept while nobody is seen. An Attack frame deals a blow of `attackDamage` exactly when a windup runs out with the target in range and with health, killing the player exactly when no hit points remain and keeping its `maxHP`, and leaves health alone otherwise; without a leash the windup progresses and, with the target still seen, the state, timers and speed are kept; a leash followed by a sighting discards the windup |
| AI.EnemyAI.PatrolFrame | Assets/Scripts/AI/EnemyAI.cs:122-131 | a Patrol frame: the dwell timer and destination as `TickPatrol` sets them, then the sweep; with nobody seen the enemy stays in Patrol with its speed, stopping and swing kept |
| AI.EnemyAI.HuntingFrame | Assets/Scripts/AI/EnemyAI.cs:122-131 | a Hunting frame: the timeout drops by the frame time, back to Patrol at zero and otherwise the next search point on arrival, then the sweep; with nobody seen speed, stopping and swing are kept while the hunt lasts |
| AI.EnemyAI.AttackFrame | Assets/Scripts/AI/EnemyAI.cs:122-131 | an Attack frame: the blow as `Swing` deals it; the windup progresses unless the leash fires and the player is seen again; with nobody seen the enemy goes to Patrol if leashed and hunts at the last known position otherwise |
| AI.EnemyAI.LeashedAttackFrame | Assets/Scripts/AI/EnemyAI.cs:304-313 | an Attack frame beyond the leash: the blow as `Swing` deals it, then Patrol, or Attack anew when the player is still seen |
| AI.EnemyAI.HeldAttackFrame | Assets/Scripts/AI/EnemyAI.cs:252-302 | an Attack frame within the leash: the blow and windup as `Swing` sets them; with the player still seen the enemy stays in Attack with its timers, speed and stopping distance, and it hunts at the last known position otherwise |
| AI.EnemyAI.OnNoise | Assets/Scripts/AI/EnemyAI.cs:387-398 | a sound within the hearing radius on the ground plane sends the enemy hunting there, whatever its radius; farther sounds change nothing |
| AI.EnemyAI.OnNoisePulse | Assets/Scripts/AI/EnemyAI.cs:400-415 | a pulse triggers hunting at its origin only if its id is new and its wavefront overlaps the hearing circle, and then its id is recorded; a handled id changes nothing, so each pulse triggers at most once |
| AI.EnemyAI.Start | Assets/Scripts/AI/EnemyAI.cs:109-115 | the enemy joins its group at most once and enters Patrol, heading within twice the patrol radius of the group's position; the group's position, radius, hunt clock and return flag are unchanged |
| AI.EnemyAI.ApplyEnemyScale | Assets/Scripts/AI/EnemyAI.cs:472-485 | view distance, hearing radius and attack range each scale by the factor; with a factor of at least one, every point that was within view, hearing or attack range still is |

## Left out

- Rendering and visuals are not modelled: emission highlight, hearing ring, attack pulse ring, `VisionCone` vertex coordinates (sines and cosines), pulse colour fading, group highlight and `AttackPulse`.
- Physics and navigation are inputs, not models: ray casts, `Vector3.Angle`, `NavMesh.SamplePosition`, `Random`, the agent's movement and path planning.
- The event wiring of `OnEnable`/`OnDisable` and `NoiseSystem` is left out. Noise events and pulses are delivered by calling the handlers.
- Mouse selection (`OnMouseDown`) and the static `active`/`Active` selections are left out. The group's selection is a parameter.
- The timing of Unity callbacks is left out. `Awake` and `Start` become constructors or explicit calls; `Invoke` becomes a pending flag.
- Floating-point precision is not modelled: reals are exact.
- Pulse.Progress: with age and lifetime both zero the source divides 0 by 0 and broadcasts a `NaN` radius; the model takes progress 0 there.
- `float.MaxValue` as the first best distance is left out. The sweep treats "no best yet" explicitly, which differs only for players farther than `float.MaxValue`.
- Facing the target at the start of a windup (`transform.rotation`) is left out; the facing only feeds the angle input.
- Player.PlayerHealth.Die: the object's destruction takes effect at once. Unity defers it to the end of the frame, so another enemy striking in the same frame would still reach a zero-HP player; the model no longer counts that player as in range.
- AI.EnemyAI.ApplyEnemyScale: `transform.localScale` is a visual and is not modelled.
- AI.EnemyAI.NextPatrolPointNear: the distance bound is stated for a non-negative patrol radius only; a negative radius set in the inspector gives `Random.insideUnitCircle * r` no meaningful bound. The bound also rests on the sampler meeting `AI.SamplerBounded`, since `NavMesh.SamplePosition` is an input.
- VisionCone.BuildCone: the exception C# throws is a `None` result; `segments + 2` overflow is subsumed by the `segments * 3` bound.
