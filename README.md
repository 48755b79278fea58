# Patrol guard and first-person controller, modelled in Dafny

This project models the decision logic of a small Unity level-design game.

- **The patrol guard** (`Guard.cs`) has three states: `Roaming`, `ChaseTarget` and `StopChasing`.
  `Update` drives it once per frame.
  While roaming, the guard walks a cyclic waypoint route and fills a suspicion timer (`playerVisibleTimer`) while it sees the player.
  When the timer reaches `timeToSpotPlayer` and the static spotted event has a subscriber, it starts chasing.
  It gives up the chase once the player is further away than `stopChaseDistance`.
  It then walks home and, within 0.1 of its starting position, runs `Start` again.
- **The first-person controller** (`FPSController.cs`) keeps a stamina bar that sprinting drains.
  It has a `canSprint` flag and a regeneration coroutine with a handle.
  It also keeps a clamped camera pitch, a crouch toggle guarded by an animation flag, and a rule that picks the movement speed.

Files:

- `unity_math.dfy`: `Mathf.Clamp`, `Vector3` and a square-root-free test for `Vector3.Distance(a, b) < limit`.
- `patrol.dfy`: the `FollowPath`/`TurnToFace` coroutines as an explicit phase (`Walking | Waiting(ticksLeft) | Turning`).
  It also holds the cyclic cursor `(i + 1) % n` and its lap lemmas.
- `guard.dfy`: the guard's state (`GuardData`) and `CanSeePlayer`.
  It has the specification functions `StartSpec`, `UpdateSpec`, `EnableSpec` and the whole-frame `FrameSpec`.
  The class `Guard` has fields and methods proved equal to those functions.
- `guard_properties.dfy`: per-frame and multi-frame properties of the guard.
- `fps_controller.dfy`: the controller's state (`Body`) and the specification functions of its handlers and coroutine steps.
  The class `FPSController` has methods proved equal to those functions.
- `fps_properties.dfy`: stamina, regeneration, pitch, crouch and speed properties.

## How the engine is represented

- **Geometry comes in as inputs for each frame.**
  The guard gets the distance and angle to the player and the result of the line-of-sight cast.
  It also gets its own position and the spotlight angle.
  For the patrol step it gets `arrived` (the step reached the waypoint) and `aligned` (the guard already faces the next waypoint).
  The controller gets its axes, its keys, the ground test and the ceiling ray cast.
- **The home test is exact.**
  `Vector3.Distance(p, home) < 0.1` is decided as `0.1 > 0 && |p - home|² < 0.01`.
  For a non-negative distance the two are the same.
- **Coroutines are state plus a resume step.**
  Each coroutine is the state it keeps between frames, plus a step for each resumption by the scheduler.
  A whole frame (`FrameSpec`, and the class method `RunFrame`) runs `Update` first.
  The coroutines that were running before that `Update`, and that it did not stop, resume after it.
  A coroutine started during `Update` has already run to its first `yield` and does not resume again in that frame.
  Runs of frames (`Run`, `RunFrames`) are runs of whole frames.
- **Waits.**
  The guard's wait after each arrival is a countdown of `waitTicks` frames.
  For stamina regeneration, the input `regenWaitOver` of each frame says whether the coroutine's current `WaitForSeconds` runs out in that frame.
- **Player lookup.**
  The player reference is assigned only inside `Start`'s `if` (`Guard.cs:61-63`).
  The model records this as `playerFound`.
  Until it is set, `CanSeePlayer` and the chase distance throw, so the rest of that frame's `Update` is skipped.
- **Regeneration handle.**
  `regenRoutines` counts the live regeneration coroutines.
  The invariant `Valid` proves it equals 1 while the handle is set and 0 otherwise.
  So at most one regeneration runs.

### Behaviours of the code worth knowing

- Unlike Roaming, StopChasing does not clamp the suspicion timer (`Guard.cs:124-131`).
  It can rise above `timeToSpotPlayer` and drop below 0 (`StopChasingTimerUnclamped`).
- `CanSeePlayer` uses strict `<` for both the distance and the half angle (`Guard.cs:151`, `Guard.cs:155`).
  `viewDistanceChase` is never read.
- A frame that enters `ChaseTarget` from `Roaming` does not stop the patrol.
  `StopAllCoroutines` runs on the *next* `ChaseTarget` frame (`ChaseCancelsPatrolOneFrameLater`).
- `StopChasing` never goes back to `ChaseTarget` by itself.
- `Start` recaptures the home position on every re-entry.
  It relaunches the patrol only when `playerVisibleTimer <= timeToSpotPlayer` (`Guard.cs:61`).
  A guard that reaches home with a higher timer (possible because of the missing clamp) is put in `Roaming` with **no** patrol.
  Without a subscriber to the spotted event, it never gets one back (`SuspiciousReturnLaunchesNoPatrol`, `NoListenerPatrolAdvancesPerArrival`).
- Suppose `staminaValueIncrement >= maxStamina`.
  Then the first regeneration step after an exhausted sprint fills the bar while `canSprint` is still false (`FPSController.cs:190-199`).
  Nothing can set it again after that (`LargeIncrementEndsRegenWithoutSprint`, `SprintLockedForGood`).
  With the shipped values (100 and 2), sprinting comes back on the second step (`ExhaustedSprintReturnsOnSecondStep`).

## Model

| member | source | states |
|---|---|---|
| `UnityMath.Clamp` | LevelDesign/Assets/Hugo/Guard/Guard.cs:91 | `Mathf.Clamp`: a value below `min` gives `min`. Otherwise a value above `max` gives `max`, and a value in range is kept. The result lies in `[min, max]` when that range is not empty. |
| `Patrol.Next` | LevelDesign/Assets/Hugo/Guard/Guard.cs:185 | The cursor step stays inside `[0, n)`. It is `i + 1`, or wraps to 0 after the last waypoint. |
| `Patrol.AdvanceWithinTwoLaps` | LevelDesign/Assets/Hugo/Guard/Guard.cs:185 | During its first two laps, the cursor after `k` arrivals is `i + k`, or `i + k - n` once it has wrapped. |
| `Patrol.CycleCloses` | LevelDesign/Assets/Hugo/Guard/Guard.cs:185 | After exactly `n` arrivals the cursor is back at its starting value, and it is not back after any smaller positive number of arrivals. |
| `Patrol.AdvancePeriodic` | LevelDesign/Assets/Hugo/Guard/Guard.cs:185 | `n` more arrivals never change where the cursor points. |
| `Patrol.Resume` | LevelDesign/Assets/Hugo/Guard/Guard.cs:177-209 | One resumption keeps the route well formed and its waypoints fixed. The cursor moves only on an arrival while walking, and then by one step. Walking becomes `Waiting(waitTicks)` on arrival and stays Walking otherwise. A wait counts down and then turns. Turning lasts until aligned, then walks. |
| `Patrol.Launch` | LevelDesign/Assets/Hugo/Guard/Guard.cs:168-175 | A patrol runs only with at least two waypoints. It heads for waypoint 1 with the cursor at 1, or is already waiting with the cursor advanced if the first step arrives. |
| `Patrol.CursorCountsArrivals` | LevelDesign/Assets/Hugo/Guard/Guard.cs:183-186 | Over any run of resumptions, the cursor has advanced exactly once per arrival, and the waypoints are unchanged. |
| `Patrol.LapReturnsCursor` | LevelDesign/Assets/Hugo/Guard/Guard.cs:185 | A run with as many arrivals as there are waypoints ends with the cursor where it began. |
| `Patrol.WaitThenTurn` | LevelDesign/Assets/Hugo/Guard/Guard.cs:188-190 | A wait of `k` ticks lasts exactly `k + 1` resumptions, whatever the engine reports. It stays in `Waiting` throughout, then turns toward the same waypoint. |
| `GuardAI.CanSeePlayer` | LevelDesign/Assets/Hugo/Guard/Guard.cs:149-164 | The nested tests are exactly the conjunction: distance `<` view distance, angle `<` half the view angle, and no obstruction. |
| `GuardAI.AtHeight` | LevelDesign/Assets/Hugo/Guard/Guard.cs:64-69 | Every waypoint keeps its x and z and takes the guard's height, one waypoint per path point. |
| `GuardAI.StartSpec` | LevelDesign/Assets/Hugo/Guard/Guard.cs:51-73 | `Start` always recaptures home and view angle and leaves the timer alone. With the timer at or below the threshold, it looks the player up, enters Roaming and launches the patrol. That patrol runs iff there are at least two path points, over the path points at the guard's height. Above the threshold, the state, the player reference and the patrol are left as they were. |
| `GuardAI.UpdateSpec` | LevelDesign/Assets/Hugo/Guard/Guard.cs:75-147 | `Update` keeps the invariant: a well-formed patrol, and none while walking home. |
| `GuardAI.FrameSpec` | LevelDesign/Assets/Hugo/Guard/Guard.cs:75-209 | A whole frame, `Update` then one resumption of the patrol that was already running, keeps the invariant. |
| `GuardAI.Run` | LevelDesign/Assets/Hugo/Guard/Guard.cs:75-209 | The invariant holds after any run of whole frames. |
| `GuardAI.Guard.constructor` | LevelDesign/Assets/Hugo/Guard/Guard.cs:18-50 | The loaded guard is `Roaming` with its serialized timer, no player reference and no patrol, and satisfies the invariant. |
| `GuardAI.Guard.Start` | LevelDesign/Assets/Hugo/Guard/Guard.cs:51-73 | Home and view angle are recaptured. The waypoints are built by a loop at the guard's height. The patrol is launched and the state set to `Roaming` only if the timer is at most the threshold. |
| `GuardAI.Guard.Update` | LevelDesign/Assets/Hugo/Guard/Guard.cs:75-147 | The fields after one frame are `UpdateSpec` of the fields before. The invariant is kept. |
| `GuardAI.Guard.ResumePatrol` | LevelDesign/Assets/Hugo/Guard/Guard.cs:168-210 | One resumption of the patrol coroutine. It changes only the patrol and keeps the invariant. |
| `GuardAI.Guard.RunFrame` | LevelDesign/Assets/Hugo/Guard/Guard.cs:75-209 | Runs `Update`, then resumes the patrol only if one was running before it. The fields equal `FrameSpec` of the old fields, and the invariant is kept. |
| `GuardAI.Guard.Enable` | LevelDesign/Assets/Hugo/Guard/Guard.cs:232-235 | The state becomes `ChaseTarget` unconditionally. Nothing else changes. |
| `GuardProperties.SightCone` | LevelDesign/Assets/Hugo/Guard/Guard.cs:151-157 | A player exactly at the view distance, exactly at half the view angle, or behind an obstruction is not seen. Moving nearer or more central never hides a seen player. |
| `GuardProperties.ChaseViewDistanceUnused` | LevelDesign/Assets/Hugo/Guard/Guard.cs:33 | Changing `viewDistanceChase` changes nothing the controller does. |
| `GuardProperties.RoamingTimerStaysClamped` | LevelDesign/Assets/Hugo/Guard/Guard.cs:82-91 | After a Roaming frame the timer lies in `[0, timeToSpotPlayer]`. It equals `min(T, t + dt)` when the player is seen and `max(0, t - dt)` otherwise. It rises only when the player is seen and falls only when not. |
| `GuardProperties.RoamingChasesOnlyWhenHeard` | LevelDesign/Assets/Hugo/Guard/Guard.cs:95-101 | Roaming becomes ChaseTarget exactly when the timer has reached the threshold and the spotted event has a subscriber. With no subscriber the guard stays Roaming. It never jumps to StopChasing. |
| `GuardProperties.ChaseGivesUpBeyondStopDistance` | LevelDesign/Assets/Hugo/Guard/Guard.cs:105-119 | A ChaseTarget frame stops the patrol. It becomes StopChasing exactly when the player is further than `stopChaseDistance`. Otherwise it stays ChaseTarget, and the timer is untouched. |
| `GuardProperties.ChaseCancelsPatrolOneFrameLater` | LevelDesign/Assets/Hugo/Guard/Guard.cs:95-108 | The frame entering ChaseTarget keeps the patrol running. The next frame stops it. |
| `GuardProperties.StopChasingReturnsHome` | LevelDesign/Assets/Hugo/Guard/Guard.cs:120-143 | StopChasing never becomes ChaseTarget, and the timer moves by `±dt` without a clamp. The guard becomes Roaming exactly when within 0.1 of home. It then recaptures home and restarts the patrol only if the timer is at most the threshold and there are at least two waypoints. |
| `GuardProperties.StopChasingTimerUnclamped` | LevelDesign/Assets/Hugo/Guard/Guard.cs:124-131 | In StopChasing, a timer at the threshold that keeps seeing the player goes above it. A timer at 0 that does not see the player goes below 0. |
| `GuardProperties.SuspiciousReturnLaunchesNoPatrol` | LevelDesign/Assets/Hugo/Guard/Guard.cs:135-141 | A guard reaching home with its timer above the threshold is put in Roaming with no patrol. |
| `GuardProperties.NoListenerKeepsRoaming` | LevelDesign/Assets/Hugo/Guard/Guard.cs:95-101 | With no subscriber in any frame, a roaming guard stays Roaming over any run of whole frames and its home is kept. Its patrol is exactly the patrol coroutine alone, resumed with the frames' motion reports. |
| `GuardProperties.NoListenerPatrolAdvancesPerArrival` | LevelDesign/Assets/Hugo/Guard/Guard.cs:183-186 | Over such a run, a guard without a patrol stays without one. A patrolling guard keeps its waypoints, and its cursor has moved once per arrival. |
| `GuardProperties.SustainedSightWithoutListener` | LevelDesign/Assets/Hugo/Guard/Guard.cs:82-101 | Seeing the player in every frame with no subscriber, the timer is `min(T, t + total time)` and the state stays Roaming. |
| `GuardProperties.SustainedSightWithListener` | LevelDesign/Assets/Hugo/Guard/Guard.cs:82-101 | Seeing the player in every frame with a subscriber, once the elapsed time covers the threshold the guard switches to ChaseTarget at some frame. It roams in every frame before that. |
| `GuardProperties.StartForgetsPreviousEpisode` | LevelDesign/Assets/Hugo/Guard/Guard.cs:51-73 | Re-entry keeps nothing of the previous patrol, state or home: two guards started with the same inputs differ only in their timers. Starting twice equals starting once. |
| `GuardProperties.UpdatePreservesValid` | LevelDesign/Assets/Hugo/Guard/Guard.cs:75-147 | `Update` keeps the invariant. The patrol is well formed, and no patrol runs while walking home, so `Start` never launches a second one. |
| `GuardProperties.EnableThenUpdateStopsPatrol` | LevelDesign/Assets/Hugo/Guard/Guard.cs:232-235 | After `Enable`, the next frame stops the patrol. The guard is then chasing or returning. |
| `FirstPersonMovement.MoveSpeed` | LevelDesign/Assets/FirstPersonMovement/FPSController.cs:110 | The speed is always one of the crouch, sprint or walk speeds. |
| `FirstPersonMovement.MovementInputSpec` | LevelDesign/Assets/FirstPersonMovement/FPSController.cs:108-115 | Movement input changes only `currentInput`. |
| `FirstPersonMovement.LookInputSpec` | LevelDesign/Assets/FirstPersonMovement/FPSController.cs:117-123 | Look input changes only the pitch, and leaves it within the look limits. |
| `FirstPersonMovement.CrouchStep` | LevelDesign/Assets/FirstPersonMovement/FPSController.cs:236-249 | A crouch resumption changes only the posture, the animation flag and the elapsed time. |
| `FirstPersonMovement.CrouchSpec` | LevelDesign/Assets/FirstPersonMovement/FPSController.cs:125-131 | `HandleCrouch` changes only the posture, the animation flag and the elapsed time. |
| `FirstPersonMovement.BeforeStamina` | LevelDesign/Assets/FirstPersonMovement/FPSController.cs:85-96 | The handlers before `HandleStamina` keep the invariant and leave stamina, `canSprint` and the regeneration handle untouched. |
| `FirstPersonMovement.StaminaSpec` | LevelDesign/Assets/FirstPersonMovement/FPSController.cs:152-181 | `HandleStamina` keeps stamina in `[0, maxStamina]` and keeps at most one regeneration alive. It never raises stamina. |
| `FirstPersonMovement.RegenStep` | LevelDesign/Assets/FirstPersonMovement/FPSController.cs:183-208 | A regeneration step keeps the invariant and never lowers stamina. |
| `FirstPersonMovement.UpdateSpec` | LevelDesign/Assets/FirstPersonMovement/FPSController.cs:81-106 | A whole `Update` keeps stamina, pitch and the regeneration count within their invariant. |
| `FirstPersonMovement.FrameSpec` | LevelDesign/Assets/FirstPersonMovement/FPSController.cs:81-249 | A whole frame keeps the invariant: `Update`, then the crouch coroutine if it was running, and the regeneration if `Update` did not stop it and its wait is over. |
| `FirstPersonMovement.RunFrames` | LevelDesign/Assets/FirstPersonMovement/FPSController.cs:81-249 | The invariant holds after any run of whole frames. |
| `FirstPersonMovement.FPSController.constructor` | LevelDesign/Assets/FirstPersonMovement/FPSController.cs:13-79 | After `Awake`, stamina is full and `canSprint` has its serialized value. Nothing is regenerating or crouching. |
| `FirstPersonMovement.FPSController.HandleMovementInput` | LevelDesign/Assets/FirstPersonMovement/FPSController.cs:108-115 | `currentInput` is the axes scaled by the selected speed. |
| `FirstPersonMovement.FPSController.HandleLookInput` | LevelDesign/Assets/FirstPersonMovement/FPSController.cs:117-123 | The pitch moves against the mouse and is clamped to the look limits. |
| `FirstPersonMovement.FPSController.HandleCrouch` | LevelDesign/Assets/FirstPersonMovement/FPSController.cs:125-131 | Starts `CrouchStand` only when `ShouldCrouch`, runs its first step in this frame, and changes nothing else. |
| `FirstPersonMovement.FPSController.ResumeCrouch` | LevelDesign/Assets/FirstPersonMovement/FPSController.cs:236-249 | One pass of the crouch loop. Time accumulates until `timeToCrouch`, then the posture flips and the animation ends. |
| `FirstPersonMovement.FPSController.HandleStamina` | LevelDesign/Assets/FirstPersonMovement/FPSController.cs:152-181 | Equals `StaminaSpec` and keeps the invariant. |
| `FirstPersonMovement.FPSController.ResumeRegeneration` | LevelDesign/Assets/FirstPersonMovement/FPSController.cs:183-208 | Equals `RegenStep` and keeps the invariant. |
| `FirstPersonMovement.FPSController.RunFrame` | LevelDesign/Assets/FirstPersonMovement/FPSController.cs:81-249 | Runs `Update`, then the coroutines that were running before it and survived it. The fields equal `FrameSpec` of the old fields. |
| `FirstPersonMovement.FPSController.Update` | LevelDesign/Assets/FirstPersonMovement/FPSController.cs:81-106 | The handlers run in source order, gated by `canCrouch` and `useStamina`. The invariant is kept. |
| `FirstPersonProperties.SprintDrainsStamina` | LevelDesign/Assets/FirstPersonMovement/FPSController.cs:154-180 | A sprinting frame with input drains to `max(0, s - staminaUseMultiplier·dt)`, and sprint is forbidden exactly when stamina is empty. The pending regeneration is cancelled. A new one starts only if sprint was just forbidden with stamina short of full. |
| `FirstPersonProperties.RegenerationStartsOnlyWhenIdle` | LevelDesign/Assets/FirstPersonMovement/FPSController.cs:177-180 | Otherwise stamina and `canSprint` are unchanged. A regeneration is running afterwards exactly when one was already running, or when the player is not sprinting and stamina is short of full. At most one ever runs. |
| `FirstPersonProperties.RegenStepRefills` | LevelDesign/Assets/FirstPersonMovement/FPSController.cs:188-207 | While stamina is short, a step adds the increment capped at the maximum and allows sprint iff it was allowed or stamina was positive before the step. Once full, the next step ends and clears the handle. |
| `FirstPersonProperties.ExhaustedSprintReturnsOnSecondStep` | LevelDesign/Assets/FirstPersonMovement/FPSController.cs:190-195 | From empty stamina with sprint forbidden and an increment smaller than the maximum: the first step keeps sprint forbidden and the second allows it. |
| `FirstPersonProperties.LargeIncrementEndsRegenWithoutSprint` | LevelDesign/Assets/FirstPersonMovement/FPSController.cs:188-207 | With an increment at least the maximum, regeneration from empty ends full with sprint still forbidden. |
| `FirstPersonProperties.SprintLockedForGood` | LevelDesign/Assets/FirstPersonMovement/FPSController.cs:152-181 | Full stamina with sprint forbidden and no regeneration is a fixed point: no run of whole frames allows sprint again. |
| `FirstPersonProperties.RegenerationFillsAndEnds` | LevelDesign/Assets/FirstPersonMovement/FPSController.cs:188-207 | If `k` increments cover the shortfall, `k + 1` resumptions leave stamina full and the handle cleared. |
| `FirstPersonProperties.PitchWithinLookLimits` | LevelDesign/Assets/FirstPersonMovement/FPSController.cs:119-120 | After look input, `rotationX` lies in `[-upperLookLimit, lowerLookLimit]`. It is the unclamped value whenever that is in range. |
| `FirstPersonProperties.CrouchStartsOnlyWhenAllowed` | LevelDesign/Assets/FirstPersonMovement/FPSController.cs:10 | Nothing happens without a key press while grounded and not animating. Standing up under a ceiling is refused. A started animation keeps the posture and raises the flag, unless `timeToCrouch <= 0`, when it completes at once. |
| `FirstPersonProperties.CrouchFlipsOnceAtEnd` | LevelDesign/Assets/FirstPersonMovement/FPSController.cs:236-249 | Over any run of the crouch coroutine, the posture has flipped exactly when the animation has ended. |
| `FirstPersonProperties.CrouchCompletes` | LevelDesign/Assets/FirstPersonMovement/FPSController.cs:236-249 | With non-negative frame times covering `timeToCrouch`, one more resumption ends the animation. |
| `FirstPersonProperties.FramesDriveCrouchCoroutine` | LevelDesign/Assets/FirstPersonMovement/FPSController.cs:125-131 | While the crouch key is not pressed, whole frames move the posture exactly as the crouch coroutine alone does, with one resumption per frame at that frame's time. |
| `FirstPersonProperties.CrouchCompletesOverFrames` | LevelDesign/Assets/FirstPersonMovement/FPSController.cs:236-249 | Over whole frames with no key press, a running animation whose frame times cover `timeToCrouch` ends one frame later with the posture flipped. |
| `FirstPersonProperties.MovementInputFollowsSpeedRule` | LevelDesign/Assets/FirstPersonMovement/FPSController.cs:110 | Crouching always selects the crouch speed. Standing, the speed is the sprint speed when `canSprint` and the key are both on, and the walk speed otherwise. The movement input is non-zero iff the speed is non-zero and an axis is pressed. |
| `FirstPersonProperties.UpdatePreservesValid` | LevelDesign/Assets/FirstPersonMovement/FPSController.cs:81-106 | `Update` keeps the invariant, so at most one regeneration coroutine is ever alive. |

## Left out

- The navigation agent (`updatePosition`, `nextPosition`, `destination`) is left out. It moves the guard, and the guard's position comes back in as an input.
- The chase destination `movePositionTransform` is not modelled.
- The spotlight colour lerps, `OnDrawGizmos` and `Debug.Log` are left out. They only render or log.
- Geometry is not modelled: `Vector3.MoveTowards`, `Vector3.Angle`, `transform.LookAt`, `Mathf.Atan2`/`DeltaAngle`/`MoveTowardsAngle` and the ray and line casts. They appear only as the per-frame inputs `playerDistance`, `playerAngle`, `lineBlocked`, `arrived`, `aligned` and `ceilingAbove`. The yaw turn and the camera rotation in `HandleLookInput` (`transform.rotation`, `Quaternion.Euler`) are not modelled either; only the pitch `rotationX` is.
- `FollowPath`'s writes to `transform.position` are not modelled, because the position is an input.
- Arrival in the source is the engine's approximate `Vector3 ==`. Here it is the `arrived` input.
- Frame-exact timing of coroutine phase changes is not modelled. An example is whether a turn that is already aligned costs a frame.
- Real-time waits (`guardWaitTime`, `timeBeforeStaminaRegen`, `staminaTimeIncrement`) are not modelled. The guard's wait is a frame count. For the stamina waits, the per-frame input `regenWaitOver` says in which frames the regeneration resumes; the model does not check it against elapsed time.
- The listeners of `OnGuardHasSpottedPlayer` are not modelled. Only whether one is attached is an input, and what a listener does (for example, calling `Enable` on a guard) is left out.
- Null references from configuration are not modelled: a missing `Player` tag, `spotlight`, `pathHolder` or `movePositionTransform`.
- `FPSController` head bob, gravity, `CharacterController.Move`, the movement-direction vectors and the height and centre lerp are left out. They are float animation and physics and never touch the modelled fields.
- The `OnStaminaChange` notification is left out. It only feeds the stamina display (`UI.cs`).
- `CanMove` is left out. It is always true.
- The cursor lock in `Awake` is left out.
- `currentInput != Vector3.zero` is the engine's approximate comparison. Here it is exact.
- `Door.cs` and `UI.cs` are not part of this model. The first is a two-flag slide animation and the second only formats a number.
- Single-precision float rounding is not modelled. All quantities are mathematical reals.
- `GuardAI.Guard.Start`: requires that no patrol coroutine is running. It is the only call that launches one, and a second coroutine beside the first is not modelled. The engine's first call satisfies this. For the call from `Update`, the invariant `Valid` proves it.
- `FirstPersonMovement.StaminaSpec`, `FirstPersonMovement.RegenStep`, `FirstPersonMovement.UpdateSpec` and `FirstPersonMovement.FPSController.constructor`: require the invariant, or for the constructor `WellConfigured` alone. `WellConfigured` is part of it, and says the look limits lie in their `Range(1, 180)` and the stamina parameters are non-negative. With negative parameters the stamina bounds need not hold.
