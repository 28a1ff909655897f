# Platformer character core, modelled in Dafny

This project models the per-character decision layer of a 2D platformer written
for the Unity engine in C#:

- **Animation priority state machine** (`AnimationStateManager`, the ranked
  `PlayerAnimationState` enum). Movement code *applies* states and combat code
  *triggers* them. A triggered state can only be displaced by a state of
  strictly higher rank, or by the clip's "finished" signal. Displacing it raises
  a `Canceled` event.
- **Attack arbitration** (`CharacterFightingController`, `AttackInfo`). There are
  two buffered press timestamps and one shared recharge timer. An input-buffer
  window decides which attack fires, if any. Only the slot(s) holding the fired
  attack are consumed.
- **Platformer motion tick** (`CharacterController2DPlatformer`). It covers the
  edge-triggered input snapshot and the ground check with its leave-time stamp
  and coyote re-arming. It also covers coyote and buffered jumps, horizontal
  acceleration with clamp and apex bonus, deceleration, the fall clamp, one-shot
  early-release damping, and the movement-driven animation choice.
- **Animation selection** (`PlayerAnimationController`). It turns velocity, axis
  input and attack availability into exactly one trigger or apply call, plus a
  sprite flip.
- **Parallax background** (both `ParallaxBackgroundController` variants). Each
  layer moves linearly with the camera's displacement. Static layers snap to the
  camera.

Engine callbacks are replaced by pure functions. Each takes the state, the event
or frame inputs, `now` and `dt`, and returns the new state together with what
the source would have sent to the engine. That output is the integer pushed to
the animator, the raised events, the rigidbody velocity, the chosen animation
and the flipper scale. Floats are modelled as `real`.

| file | module | models |
|---|---|---|
| `unity_math.dfy` | `UnityMath` | `Mathf.Abs/Min/Max/Sign/Clamp/Clamp01/InverseLerp/MoveTowards`, `Vector2.Lerp`, `Option`, vectors |
| `player_animation_state.dfy` | `PlayerAnimationStates` | the ranked enum |
| `animation_state_manager.dfy` | `AnimationStateManager` | apply / trigger / performed / finished, event and push trace |
| `attack_info.dfy` | `Attacks` | `AttackInfo` and its equality and hash inputs |
| `character_fighting.dfy` | `CharacterFighting` | press handlers, target selection, the `Update` frame |
| `platformer.dfy` | `Platformer` | input handlers, ground check, probe points, speeds, jump, animation, the `Update` frame |
| `platformer_properties.dfy` | `PlatformerProperties` | multi-frame properties of the motion tick |
| `player_animation_controller.dfy` | `PlayerAnimationController` | `PreUpdate`, `UpdateAnimationSystem`, flip |
| `parallax.dfy` | `Parallax` | the shared `FixedUpdate` of both background controllers |

Behaviour of the code worth knowing, each stated by a lemma:

- A fired attack consumes only the slots whose `AttackInfo` equals it. After
  near-simultaneous presses (A at 5.0, B at 5.0005) A fires, and with two
  different attacks B stays pending (`CharacterFighting.NearTieGoesToA`).
- `QuickTurn` has rank 8, above every other state
  (`PlayerAnimationStates.QuickTurnIsGreatest`). A movement apply can therefore
  outrank a running attack: applying `QuickTurn` cancels it
  (`PlayerAnimationController.AttackSurvivesMovementFrames`).
- The leave-ground time is stamped only when the combined result of all probes
  changes from grounded to airborne, not when a single probe changes
  (`Platformer.RunGroundCheck`).

## Model

| member | source | states |
|---|---|---|
| PlayerAnimationStates.RanksFollowDeclarationOrder | Assets/Scripts/PlayerAnimationState.cs:5-13 | the nine ranks are the declaration positions 0..8, strictly increasing from Idle to QuickTurn |
| PlayerAnimationStates.FromRank | Assets/Scripts/PlayerAnimationState.cs:5-13 | exactly the integers 0..8 name a state |
| PlayerAnimationStates.RankRoundTrip | Assets/Scripts/PlayerAnimationState.cs:5-13 | the integer pushed to the animator decodes back to the state, and to no other |
| PlayerAnimationStates.RankInjective | Assets/Scripts/PlayerAnimationState.cs:5-13 | distinct states have distinct ranks |
| PlayerAnimationStates.IdleIsLeast | Assets/Scripts/PlayerAnimationState.cs:5 | Idle ranks below or equal to every state, and only Idle ranks at most Idle, so a trigger of Idle never takes effect |
| PlayerAnimationStates.QuickTurnIsGreatest | Assets/Scripts/PlayerAnimationState.cs:13 | QuickTurn outranks every other state, Attack, GetHit and Death included |
| PlayerAnimationStates.AttacksOutrankMovement | Assets/Scripts/PlayerAnimationState.cs:5-10 | Attack and Attack2 strictly outrank Idle, Jump, Fall and Run |
| AnimationStateManager.ApplyAnimationState | Assets/Scripts/AnimationStateManager.cs:16-30 | outside trigger mode the state is taken and pushed silently; in trigger mode an equal or lower rank is a complete no-op; a higher rank emits one Canceled(old), leaves trigger mode and is pushed; apply never enters trigger mode |
| AnimationStateManager.TriggerAnimationState | Assets/Scripts/AnimationStateManager.cs:32-43 | an equal or lower rank is a no-op in either mode; a higher rank enters trigger mode and is pushed; Canceled(old) is raised iff a trigger was already running |
| AnimationStateManager.OnAnimationPerformed | Assets/Scripts/AnimationStateManager.cs:45-48 | raises Performed(current) and changes nothing |
| AnimationStateManager.OnAnimationFinished | Assets/Scripts/AnimationStateManager.cs:50-54 | from any machine the result is the initial one (Idle, trigger mode off), 0 is pushed, and no Canceled is raised because the flag is cleared before Idle is applied |
| AnimationStateManager.EntryPointsPreserveValid | Assets/Scripts/AnimationStateManager.cs:16-54 | no entry point can put the machine in trigger mode showing Idle |
| AnimationStateManager.ReplayKeepsAnimatorInSync | Assets/Scripts/AnimationStateManager.cs:16-54 | over any sequence of calls, the last integer pushed to the animator is the rank of the current state, and trigger mode never shows Idle |
| AnimationStateManager.TriggerSurvivesLowerApplies | Assets/Scripts/AnimationStateManager.cs:18-21 | while a state is triggered, any number of applies of equal or lower rank push nothing, raise nothing and change nothing |
| AnimationStateManager.AttackScenario | Assets/Scripts/AnimationStateManager.cs:16-54 | during Attack, a trigger and an apply of Run are ignored; triggering Attack2 cancels Attack; applying QuickTurn cancels Attack; Performed then Finished after Death returns to Idle, pushing 7 then 0 |
| Attacks.EqualsIsValueEquality | Assets/Scripts/AttackInfo.cs:12-15 | typed Equals holds iff state, recharge time and damage are all equal, that is iff the records are equal |
| Attacks.EqualsIsEquivalence | Assets/Scripts/AttackInfo.cs:12-15 | typed Equals is reflexive, symmetric and transitive |
| Attacks.EqualsObjectAgreesWithEquals | Assets/Scripts/AttackInfo.cs:17-20 | Equals(object) is false for a non-AttackInfo and otherwise agrees with the typed Equals |
| Attacks.HashInputsMatchEquals | Assets/Scripts/AttackInfo.cs:22-25 | the hash is fed exactly the three compared fields: equal attacks give identical hash inputs and vice versa |
| CharacterFighting.InputIsBuffered | Assets/Scripts/CharacterFightingController.cs:23 | some input is buffered iff at least one slot holds a positive time |
| CharacterFighting.GatherInputAttackA | Assets/Scripts/CharacterFightingController.cs:66-72 | a performed press stamps slot A with now; a non-performed context changes nothing; slot B is untouched |
| CharacterFighting.GatherInputAttackB | Assets/Scripts/CharacterFightingController.cs:74-80 | a performed press stamps slot B with now; a non-performed context changes nothing; slot A is untouched |
| CharacterFighting.RestInput | Assets/Scripts/CharacterFightingController.cs:57-64 | each slot asked for is reset to -1 and so no longer pending; the other keeps its press |
| CharacterFighting.GetTargetAttack | Assets/Scripts/CharacterFightingController.cs:88-114 | no attack iff both min and max press are older than the window, in which case both slots become -1; otherwise input is unchanged and A is chosen iff A is pending and within 0.001 of the arbitration time, else B |
| CharacterFighting.EarlierPressWins | Assets/Scripts/CharacterFightingController.cs:91-111 | both pending and the earlier one in the window: A wins iff A < B + 0.001, so the earlier press wins and near ties go to A |
| CharacterFighting.LaterPressWinsAfterEarlierExpires | Assets/Scripts/CharacterFightingController.cs:93-111 | both pending, only the later one in the window: A wins iff B < A + 0.001 |
| CharacterFighting.SentinelQuirk | Assets/Scripts/CharacterFightingController.cs:91-111 | with only A pending and in the window, A fires when B's sentinel counts as expired, but B fires when the sentinel is still inside the window and A was pressed at least 0.001 after it |
| CharacterFighting.Update | Assets/Scripts/CharacterFightingController.cs:37-64 | while recharging only the timer counts down by dt; with nothing pending nothing changes; expired presses clear both slots without touching the timer; an attack fires iff ready, buffered and in the window; the fired attack is A exactly when A is pending and within 0.001 of the arbitration time, otherwise B; it sets the timer to its recharge time, and exactly the slots equal to it become -1 |
| CharacterFighting.DriveAnimator | Assets/Scripts/CharacterFightingController.cs:82-86 | a fired attack triggers its animation state once; no attack leaves the animation machine untouched |
| CharacterFighting.FiredAttackTakesOverAnimation | Assets/Scripts/CharacterFightingController.cs:82-86 | an attack fired during a movement animation puts its state in trigger mode, after which movement applies are no-ops |
| CharacterFighting.CooldownBlocksAttacks | Assets/Scripts/CharacterFightingController.cs:39-43 | over any frames whose total dt is below the recharge timer, nothing fires, both timestamps are kept and the timer drops by exactly the total dt |
| CharacterFighting.NearTieGoesToA | Assets/Scripts/CharacterFightingController.cs:54 | presses at 5.0 (A) and 5.0005 (B), window 0.1, frame at 5.05: A fires and, for distinct attacks, B stays pending |
| CharacterFighting.StalePressDecays | Assets/Scripts/CharacterFightingController.cs:91-101 | a lone press at 5.0 seen at 5.2 with window 0.1 fires nothing and clears both slots |
| CharacterFighting.EarlyPressOfAFiresB | Assets/Scripts/CharacterFightingController.cs:104-111 | from a fresh controller, pressing A at 0.05 with window 0.1 fires B and consumes B's slot, leaving A pending |
| Platformer.GatherJumpInput | Assets/Scripts/CharacterController2DPlatformer.cs:105-117 | the snapshot is rebuilt with JumpDown = performed, JumpUp = canceled and the current axis; only a press stamps the press time; nothing else changes |
| Platformer.GatherHorizontalInput | Assets/Scripts/CharacterController2DPlatformer.cs:119-127 | only the axis value changes |
| Platformer.ResetInput | Assets/Scripts/CharacterController2DPlatformer.cs:129-137 | both jump edges are cleared and the axis is kept |
| Platformer.PressAndReleaseInOneFrame | Assets/Scripts/CharacterController2DPlatformer.cs:105-117 | a press and a release between two frames leave only JumpUp set, while the press time stays stamped |
| Platformer.EvaluateRayPositions | Assets/Scripts/CharacterController2DPlatformer.cs:163-170 | detectorCount points, the first at start and the last at end, equally spaced by (end-start)/(detectorCount-1), all on the segment |
| Platformer.ProbePoints | Assets/Scripts/CharacterController2DPlatformer.cs:145-147 | the probes lie on the bottom edge of the bounds, inset by rayBuffer on both sides, with the first and last at the inset ends |
| Platformer.RunGroundCheck | Assets/Scripts/CharacterController2DPlatformer.cs:143-161 | grounded becomes "some probe hit"; a true-to-false change stamps the leave time with now; a false-to-true change re-arms coyote; nothing else changes |
| Platformer.ApexPoint | Assets/Scripts/CharacterController2DPlatformer.cs:82-91 | the apex factor is in [0,1], 0 on the ground, 1 in the air at zero vertical speed, 0 once the speed reaches the apex threshold |
| Platformer.CalculateHorizontalSpeed | Assets/Scripts/CharacterController2DPlatformer.cs:176-195 | with input the speed is within moveClamp plus the apex bonus; without it the speed moves toward 0 by at most deAcceleration*dt, never crosses 0, and moves by exactly that much unless it reaches 0 |
| Platformer.ApexBonusBound | Assets/Scripts/CharacterController2DPlatformer.cs:186-188 | since the apex factor is at most 1, the bonus adds at most abs(apexBonus)*dt beyond the clamp |
| Platformer.HeldAxisAccelerates | Assets/Scripts/CharacterController2DPlatformer.cs:178-184 | without apex bonus, one frame of held input moves the speed toward the clamp in the input's direction and never past it |
| Platformer.CalculateJump | Assets/Scripts/CharacterController2DPlatformer.cs:201-217 | a fired jump sets the jump velocity, clears endedJumpEarly and coyote, and stamps the leave time with float.MinValue; early release multiplies the vertical speed once when airborne, released, rising before the frame and not yet damped since the jump; the press time is never cleared |
| Platformer.CalculateAnimation | Assets/Scripts/CharacterController2DPlatformer.cs:223-242 | Jump iff vy > 0, Fall iff vy < 0, QuickTurn iff vy = 0, vx != 0 and turning, Run iff vy = 0, vx != 0 and not turning, Idle iff the velocity is zero; when not turning the flipper's x-scale becomes Sign(vx) |
| Platformer.PrepareFrame | Assets/Scripts/CharacterController2DPlatformer.cs:76-93 | the vertical speed is the rigidbody's clamped from below by fallClamp; the apex factor reads the rigidbody's vertical speed before the frame; with axis input, sane tuning and dt >= 0, the horizontal speed stays within moveClamp + abs(apexBonus)*dt |
| Platformer.DefaultsAreSane | Assets/Scripts/CharacterController2DPlatformer.cs:16-33 | the serialized defaults satisfy the sign and range conditions the bounds rely on |
| Platformer.JumpKeepsFallClamp | Assets/Scripts/CharacterController2DPlatformer.cs:79-80 | neither the jump nor the early-release damping takes the vertical speed below fallClamp |
| Platformer.Tick | Assets/Scripts/CharacterController2DPlatformer.cs:73-100 | grounded follows the probes; a jump fires iff (JumpDown and coyote usable) or a buffered jump exists, judged after the ground check; a jump disarms coyote; damping happens iff the body is airborne, JumpUp is set, the rigidbody was rising and no damping happened since the last jump; the written vertical velocity is the jump velocity if a jump fired, else the rigidbody's clamped at fallClamp, times the gravity multiplier if damped, and with sane tuning stays at or above fallClamp; the animation is chosen from the written velocity, turning when speed and axis have opposite signs; the edges are cleared and the axis and press time kept |
| Platformer.TickKeepsHorizontalClamp | Assets/Scripts/CharacterController2DPlatformer.cs:83-96 | with axis input, sane tuning and dt >= 0, the horizontal velocity a frame writes is within moveClamp + abs(apexBonus)*dt |
| UnityMath.OppositeSignsIsNegativeProduct | Assets/Scripts/CharacterController2DPlatformer.cs:98 | the turning test h*X < 0 holds iff speed and axis are non-zero with opposite signs |
| PlatformerProperties.NoJumpWhileAirborne | Assets/Scripts/CharacterController2DPlatformer.cs:46-47 | with coyote disarmed, no jump fires while no probe hits the ground, and coyote stays disarmed |
| PlatformerProperties.OneJumpPerLanding | Assets/Scripts/CharacterController2DPlatformer.cs:203-209 | after a jump fires, no further jump fires until a probe touches the ground again |
| PlatformerProperties.AirborneKeepsCoyote | Assets/Scripts/CharacterController2DPlatformer.cs:150-160 | airborne frames without a press keep coyoteUsable and the leave-ground stamp, stay airborne and bring no press |
| PlatformerProperties.CoyoteWindow | Assets/Scripts/CharacterController2DPlatformer.cs:46 | with coyote armed while grounded, after walking off a ledge at t0 and any number of airborne frames without a press, a press at t0+delta while still airborne jumps iff delta < coyoteTimeThreshold |
| PlatformerProperties.JumpBufferWindow | Assets/Scripts/CharacterController2DPlatformer.cs:47 | a press at t0 jumps on a landing frame at t0+delta iff delta < jumpBuffer |
| PlatformerProperties.PressTimeSurvivesFrames | Assets/Scripts/CharacterController2DPlatformer.cs:113-116 | no frame clears the press time; only a new press changes it |
| PlatformerProperties.FirstGroundedFrameJumpsUnprompted | Assets/Scripts/CharacterController2DPlatformer.cs:44 | because the press time starts at 0, a grounded frame before time jumpBuffer jumps without any press |
| PlatformerProperties.DampingAtMostOncePerJump | Assets/Scripts/CharacterController2DPlatformer.cs:211-216 | between jumps at most one frame damps, none if damping was already used (as initially, line 42), and the flag records whether it was used |
| PlatformerProperties.HeldAxisOnGround | Assets/Scripts/CharacterController2DPlatformer.cs:178-184 | holding the axis on the ground from a speed within moveClamp, with sane tuning, acceleration >= 0 and dt >= 0, the speed never decreases in the held direction, never exceeds moveClamp, and the axis persists |
| PlayerAnimationController.PreUpdate | Assets/Scripts/Animation/PlayerAnimationController.cs:20-23 | the attack flag is overwritten with the attacker's ability flag |
| PlayerAnimationController.UpdateAnimationSystem | Assets/Scripts/Animation/PlayerAnimationController.cs:25-54 | the attack state is triggered iff the flag is set and an attack is supplied; otherwise Jump iff vy > 0, Fall iff vy < 0, QuickTurn iff vy = 0 and vx, X have opposite signs, Run iff vy = 0, vx != 0 and not opposite, Idle iff the velocity is zero; the flip is Sign(vx), only when not turning and X != 0 |
| PlayerAnimationController.ApplyFlip | Assets/Scripts/Animation/PlayerAnimationController.cs:46-51 | the flip changes only the x component of the flipper's scale |
| PlayerAnimationController.Execute | Assets/Scripts/Animation/PlayerAnimationController.cs:30-53 | the decision becomes exactly one call: a trigger of the attack's state, or one apply of the selected state |
| PlayerAnimationController.SameStateAsPlatformer | Assets/Scripts/Animation/PlayerAnimationController.cs:36-44 | outside the attack path this controller picks the same state as the platformer's own choice for the same velocity and input |
| PlayerAnimationController.FlipRulesDiffer | Assets/Scripts/Animation/PlayerAnimationController.cs:46 | this controller never flips without axis input, unlike the platformer; in the air it flips even against the input, the platformer does not |
| PlayerAnimationController.AttackSurvivesMovementFrames | Assets/Scripts/Animation/PlayerAnimationController.cs:30-34 | a triggered attack makes the following movement applies no-ops, except QuickTurn, which cancels the attack |
| Parallax.ShiftLayer | Assets/Scripts/Animation/ParallaxBackgroundController.cs:35-38 | a layer keeps its z and moves by delta.x*f and delta.y*f*yFactor, with f = abs(z-characterOffset) / (camZ + far or near plane) and a non-zero denominator |
| Parallax.FixedUpdate | Assets/Scripts/Animation/ParallaxBackgroundController.cs:27-48 | the loop computes the functional frame: layers shifted by camera minus last camera, static layers exactly at the camera, last camera updated; the multiplier compounds once per layer |
| Parallax.StillCameraLeavesLayers | Assets/Scripts/Animation/ParallaxBackgroundController.cs:30 | a frame with an unchanged camera leaves every parallax layer where it was |
| Parallax.FocalLayerNeverMoves | Assets/Scripts/Animation/ParallaxBackgroundController.cs:35-38 | a layer on the character plane never moves |
| Parallax.Step | Assets/Scripts/ParalaxBackGroundController.cs:24-45 | one frame keeps the layer counts, shifts every parallax layer by ShiftLayer of the camera displacement, puts every static layer at the camera, and remembers the camera as the last position |
| Parallax.FramesCompose | Assets/Scripts/ParalaxBackGroundController.cs:27-35 | layers keep their z, and at a fixed camera depth two frames move every layer exactly as one frame to the final camera position |
| Parallax.MultiplierNeverMovesLayers | Assets/Scripts/ParalaxBackGroundController.cs:28-36 | the compounded multiplier is dead: the frame's result does not depend on the offset or declaration values |
| Parallax.LegacyDefaultsDivideByCameraDepth | Assets/Scripts/ParalaxBackGroundController.cs:8-15 | under either controller's defaults (near plane 0, far plane 50) a layer in front of or on the character plane divides by the camera depth alone, a layer behind it by camera depth + 50 |

## Left out

- Parallax layers are modelled as independent positions. The source moves `Transform` references, so the model assumes the layers are distinct, unparented transforms. A transform listed twice, listed in both arrays, or parented to another layer would move differently.
- Engine lifecycle and event wiring (`Awake`, `Start`, `Update`, `FixedUpdate`, `OnDestroy`, input subscriptions) are replaced by explicit step functions that take `now` and `dt`.
- `GlobalPlayerInput` and `GlobalSceneManager` are not modelled. They provide the input-action singleton, the camera registry and mouse conversion, which are engine plumbing. The camera position is a parameter.
- `Physics2D.Raycast`, collider bounds and the rigidbody are not modelled. The per-probe hit results, the bounds corners and the pre-frame rigidbody velocity are inputs. `detectionRayLength` and the ground layer mask therefore play no part.
- The physics between frames (gravity, collisions) is not modelled. The multi-frame lemmas take each frame's rigidbody velocity as given.
- `Animator.SetInteger` and transform writes become returned values: the pushed integer, the chosen animation, the flipper scale, and the layer positions.
- Platformer.EvaluateRayPositions and Platformer.ProbePoints: require `detectorCount != 1`. With one detector the source divides 0 by 0 and gets NaN, and NaN has no `real` counterpart. Counts of 0 or less give no probes, as in the source.
- IEEE float behaviour is not modelled: rounding, NaN, `float.MinValue + threshold` rounding back to `float.MinValue`, and `float.Equals` treating NaN as equal to itself. Every number is an exact `real`.
- `HashCode.Combine` itself is not modelled; only the values fed to it are (`Attacks.HashInputs`).
- The damage amount is carried in `AttackInfo` but never used by the core.
- `AttackInfo` field names are not kept as written. `AttackInfo.cs` names the fields `State` and `rechargTime`, while the fighting and animation controllers read `animationState` and `rechargeTime`. The model has one record with `state`, `rechargeTime` and `damage`.
- `BasicAttacker` and `MovementInput` of the animation controller are not part of this model. Its `IsAbleToAttack` is a boolean input, and only the axis value of the input is used.
- AnimationStateManager.ReplayKeepsAnimatorInSync: assumes the animator's integer starts in agreement with the machine (0 for Idle). The animator's initial parameter value is asset configuration, not code.
- Platformer.TickKeepsHorizontalClamp: states the bound as `moveClamp + |apexBonus|*dt`, using that the apex factor is at most 1. The sharper bound that depends on `apexPoint` is stated by `Platformer.CalculateHorizontalSpeed`.
