# TurboTrip game rules in Dafny

TurboTrip is a 2D Unity platformer. This project models its game-rule layer and proves properties about it:

- the player's ability gate (`AbilitySystem`);
- the split player controllers: momentum (`Movement2D`), jump and double jump (`Jump2D`), dash (`Dash2D`) and wall bounce (`WallBounce2D`);
- the older one-class controller `Nick`;
- the enemy (`Homeless_script`);
- the level timer and the level button's time label;
- the two NPC dialogue controllers;
- the progression manager (`GameProgressManager`), with its persistence in the engine's key-value store.

Each MonoBehaviour whose methods update fields in place is a Dafny `class`, with those fields and with methods that carry `modifies` clauses. Most classes expose their fields as a value (`State()` or `Snap()`), and each method is proved to move that value as a pure function of the module (`AfterUpdate`, `AfterAdvance`, ...). The properties the game relies on are stated as lemmas about those functions, or directly in the method contracts.

Engine behaviour is modelled as follows:

- **Coroutines** are an explicit phase with a deadline. A `Resume(now)` method stands for the engine resuming the routine on a later frame.
- **Inputs.** Raycasts, collider lookups, distances and the input component's per-frame snapshot are parameters.
- **Floats** are `real`, with Unity's `Mathf` semantics. In particular `Mathf.Sign(0) == 1`.
- **PlayerPrefs** is a map from keys to string, int or float values.
- **Saved sets.** A saved hash set is the comma join of some enumeration of the set, because the order in which a `HashSet` is enumerated is not specified.

Modules, one per source file, plus shared helpers:

- `Wrappers`: `Option`.
- `UnityMath`: `Mathf` on `real`.
- `Physics` and `Input`: the rigidbody and transform fields, and the command record.
- `Animation`: clip lookup by name.
- `AbilitySystem`.
- `Movement`, `Jump`, `Dash`, `WallBounce`, `NickController`, `Homeless`.
- `LevelTimer`, `LevelButton`.
- `Dialogue` (the rules both NPCs share), `NpcSmallTalk`, `NpcDialogueAbility`.
- `ListCodec` (join and split), `Prefs` (the store and what a save writes), `ProgressData` (worlds, levels, the unlock search, the ability table), `GameProgress`.

Two writes in the code target fields that `Movement2D.cs` does not declare: `ignoreMaxSpeed` and `suppressJumping`. They are modelled as plain fields of `Movement2D` that nothing in `Movement2D` reads; its speed clamp is unconditional. `DevModeToggleButton.cs` calls two manager methods that do not exist; they are not modelled.

`UnlockNextLevel` writes a log line after each unlock call. Each of these lines reads the name of the asset it just unlocked, so a null next level, a null next world, or a null first level of the next world throws once the unlock call has returned without doing anything. The model keeps this: `UnlockNextLevel` and `CompleteLevel` return `faulted`, and a fault skips `CompleteLevel`'s final save.

## Model

| member | source | states |
|---|---|---|
| AbilitySystem.Abilities.constructor | TurboTrip/Assets/Scripts/Player/AbilitySystem.cs:13-15 | the three flags take the given values and no unlock event has fired |
| AbilitySystem.Abilities.Unlocked | TurboTrip/Assets/Scripts/Player/AbilitySystem.cs:13-15 | each ability is in the unlocked set exactly when its flag is set |
| AbilitySystem.Abilities.Has | TurboTrip/Assets/Scripts/Player/AbilitySystem.cs:26-32 | `Has(a)` holds exactly when `a`'s own flag is set |
| AbilitySystem.Abilities.Unlock | TurboTrip/Assets/Scripts/Player/AbilitySystem.cs:34-47 | reports a change exactly when `a` was locked; afterwards `a` is unlocked and the other flags are unchanged; the event fires once for a locked ability and not at all for an unlocked one |
| AbilitySystem.Abilities.ResetAll | TurboTrip/Assets/Scripts/Player/AbilitySystem.cs:52-57 | every ability is locked and no event fires |
| AbilitySystem.UnlockTwiceIsUnlockOnce | TurboTrip/Assets/Scripts/Player/AbilitySystem.cs:34-47 | a second unlock of the same ability leaves the same flags and events as one; flags only grow |
| Animation.FirstMatch | TurboTrip/Assets/Scripts/Player/Jump2D.cs:140-148 | the index of the first non-null clip whose name matches; none when no clip matches |
| Animation.NamesMatch | TurboTrip/Assets/Scripts/Player/Jump2D.cs:143 | no contract of its own: the case-insensitive name comparison; specified by `FirstMatch` |
| Animation.ClipLengthOr | TurboTrip/Assets/Scripts/Player/Jump2D.cs:140-148 | the break-on-first-match loop returns the first matching clip's length, else the fallback |
| Movement.TimerStep | TurboTrip/Assets/Scripts/Player/Movement2D.cs:59-68 | a zero axis counts as +1; the timer grows by dt on the same sign and resets to 0 on a sign change, which it records; it is never negative |
| Movement.FacingAfter | TurboTrip/Assets/Scripts/Player/Movement2D.cs:51-52 | a negative axis faces left, a positive one right, zero keeps the facing |
| Movement.MoveSign | TurboTrip/Assets/Scripts/Player/Movement2D.cs:78-80 | the probed direction comes from momentum when it exceeds 0.01, else from the input, else 0 |
| Movement.WallCut | TurboTrip/Assets/Scripts/Player/Movement2D.cs:78-87 | momentum is zeroed when it points into the probed wall, or when it is slower than the anti-stick speed and the input pushes away from the wall; otherwise it is kept |
| Movement.BoostFraction | TurboTrip/Assets/Scripts/Player/Movement2D.cs:89 | the boost fraction lies in [0, 1]; it is 1 when the time to full boost is not positive or has passed, and 0 at the start |
| Movement.MaxSpeedNow | TurboTrip/Assets/Scripts/Player/Movement2D.cs:89-90 | the speed cap lies between the base and boosted speeds, equal to each at the ends of the boost |
| Movement.DesiredAccelBounds | TurboTrip/Assets/Scripts/Player/Movement2D.cs:92-103 | turn resistance applies only when the input opposes momentum; the acceleration never exceeds the base one and keeps the input's sign |
| Movement.TurnScale | TurboTrip/Assets/Scripts/Player/Movement2D.cs:97-101 | a resistance in [0, 1] only weakens an acceleration and never reverses it |
| Movement.AccelBounds | TurboTrip/Assets/Scripts/Player/Movement2D.cs:92-95 | the base acceleration is at most the axis times the acceleration and has the input's sign |
| Movement.FrictionDecays | TurboTrip/Assets/Scripts/Player/Movement2D.cs:105-112 | without input, momentum moves toward 0 by the friction step without crossing it; with input, the light friction never reduces the speed; the sign never changes |
| Movement.AfterWall | TurboTrip/Assets/Scripts/Player/Movement2D.cs:78-87 | after the wall check, momentum is either unchanged or zero |
| Movement.MomentumStepCapped | TurboTrip/Assets/Scripts/Player/Movement2D.cs:71-116 | after every fixed step, the momentum's magnitude is within this step's speed cap, hence within the larger of the two speeds |
| Movement.BaseAccel | TurboTrip/Assets/Scripts/Player/Movement2D.cs:92-95 | no contract of its own: the input times the acceleration; specified by `AccelBounds` |
| Movement.DesiredAccel | TurboTrip/Assets/Scripts/Player/Movement2D.cs:92-103 | no contract of its own: the acceleration after turn resistance; specified by `DesiredAccelBounds`, `TurnScale` |
| Movement.ApplyFriction | TurboTrip/Assets/Scripts/Player/Movement2D.cs:105-112 | no contract of its own: the idle or light friction stage; specified by `FrictionDecays`, `FrictionKeepsCap`, `CoastIsLinear` |
| Movement.MomentumStep | TurboTrip/Assets/Scripts/Player/Movement2D.cs:71-116 | no contract of its own: the wall, acceleration, friction and clamp step of `FixedUpdate`; specified by `MomentumStepCapped`, `AfterWall`, `IdleStages`, `Movement2D.FixedUpdate` |
| Movement.Movement2D.constructor | TurboTrip/Assets/Scripts/Player/Movement2D.cs:32-44 | zero momentum and timer, no last sign, both flags off |
| Movement.Movement2D.Update | TurboTrip/Assets/Scripts/Player/Movement2D.cs:46-69 | the boost timer follows `TimerStep` and the facing follows `FacingAfter`; the velocity, the momentum and the flags are untouched |
| Movement.Movement2D.FixedUpdate | TurboTrip/Assets/Scripts/Player/Movement2D.cs:71-116 | momentum takes the wall, acceleration, friction and clamp step, and the horizontal velocity becomes it; the vertical velocity is kept |
| Movement.Movement2D.SetHorizontalVelocity | TurboTrip/Assets/Scripts/Player/Movement2D.cs:118-122 | momentum and horizontal velocity both become vx; the vertical velocity is kept |
| Movement.Movement2D.SetVerticalVelocity | TurboTrip/Assets/Scripts/Player/Movement2D.cs:124-127 | only the vertical velocity changes |
| Movement.CoastIsLinear | TurboTrip/Assets/Scripts/Player/Movement2D.cs:105-106 | n idle friction stages reduce the speed by n times the step, down to 0, and never change its sign |
| Movement.CoastBy | TurboTrip/Assets/Scripts/Player/Movement2D.cs:105-106 | the same as an n-fold sum of steps: the speed after n stages is the old speed less that sum, down to 0 |
| Movement.CoastReachesZero | TurboTrip/Assets/Scripts/Player/Movement2D.cs:105-106 | momentum is exactly 0 once n steps cover its magnitude |
| Movement.FrictionKeepsCap | TurboTrip/Assets/Scripts/Player/Movement2D.cs:105-115 | idle friction never pushes momentum outside a cap it was within, so the clamp then has no effect |
| Movement.IdleStages | TurboTrip/Assets/Scripts/Player/Movement2D.cs:78-103 | with no input and no walls, the wall cut and the acceleration leave momentum unchanged |
| Jump.ShortHoldWithinFull | TurboTrip/Assets/Scripts/Player/Jump2D.cs:47-59 | with a factor in [0, 1], the hold cap after a dash is between 0 and the full hold time |
| Jump.ClearDeadline | TurboTrip/Assets/Scripts/Player/Jump2D.cs:152-153 | the auto-clear resumes no earlier than now; with a positive wait, exactly after the wait |
| Jump.Jump2D.constructor | TurboTrip/Assets/Scripts/Player/Jump2D.cs:47-59 | the hold cap starts at the full hold time, with no dash yet recorded and no jump under way |
| Jump.Jump2D.StartJump | TurboTrip/Assets/Scripts/Player/Jump2D.cs:117-130 | a new hold starts with the cap of this moment; vy is zeroed, the impulse is queued, and momentum is synchronised with the velocity |
| Jump.Jump2D.Update | TurboTrip/Assets/Scripts/Player/Jump2D.cs:61-106 | the jump fields follow `Frame`; landing clears the suppression flag; a double jump with an animator raises it and schedules the auto-clear with the clip's length |
| Jump.Jump2D.JumpOnPress | TurboTrip/Assets/Scripts/Player/Jump2D.cs:71-99 | a ground jump or an air jump launches as `Kind` says; the air jump spends the double jump; no press changes nothing |
| Jump.Jump2D.FixedUpdate | TurboTrip/Assets/Scripts/Player/Jump2D.cs:108-115 | vy gains the hold force times dt exactly while jumping below the cap |
| Jump.Jump2D.NotifyDashStarted | TurboTrip/Assets/Scripts/Player/Jump2D.cs:172 | only the time of the last dash changes, to now |
| Jump.Jump2D.ResumeAutoClear | TurboTrip/Assets/Scripts/Player/Jump2D.cs:152-169 | once its deadline has passed the routine clears the suppression flag and ends; before then nothing changes |
| Jump.GroundRefills | TurboTrip/Assets/Scripts/Player/Jump2D.cs:64-69 | a grounded frame always leaves the double jump available |
| Jump.KindExactly | TurboTrip/Assets/Scripts/Player/Jump2D.cs:60-104 | a ground jump happens exactly on a grounded press; an air jump exactly on an airborne press with the double jump available and unlocked; never both. A frame starts a jump exactly on a press while grounded or with the double jump available and unlocked; that frame sets the hold cap of the moment, advances the fresh hold by dt when held, and keeps the jump exactly while not released and below the cap; a frame with no jump keeps the cap and can only end a jump |
| Jump.AirJumpConsumes | TurboTrip/Assets/Scripts/Player/Jump2D.cs:75-78 | an air jump spends the double jump, and without the ability there is no air jump |
| Jump.AirborneKeepsSpent | TurboTrip/Assets/Scripts/Player/Jump2D.cs:64-78 | an airborne frame never makes the double jump available again; only landing does |
| Jump.FlightKeepsSpent | TurboTrip/Assets/Scripts/Player/Jump2D.cs:64-78 | once spent, the double jump stays spent through any number of airborne frames |
| Jump.OneAirJumpPerFlight | TurboTrip/Assets/Scripts/Player/Jump2D.cs:64-78 | after an air jump, any number of airborne frames may follow; a further airborne press before landing still starts no jump |
| Jump.LaunchHold | TurboTrip/Assets/Scripts/Player/Jump2D.cs:117-130 | a jump starts a fresh hold; its cap is the full hold times the dash factor inside the dash window and the full hold outside it |
| Jump.EarlyJumpUncapped | TurboTrip/Assets/Scripts/Player/Jump2D.cs:42 | with the default tuning, a jump at a non-negative time before any dash gets the full hold |
| Jump.HoldRules | TurboTrip/Assets/Scripts/Player/Jump2D.cs:101-105 | the hold timer grows by dt exactly while jumping, held and below the cap; the jump ends on release or at the cap |
| Jump.NoJumpWithoutPress | TurboTrip/Assets/Scripts/Player/Jump2D.cs:61-106 | without a press, a frame that starts with no jump under way ends with none |
| Jump.AutoClearWaitNonNegative | TurboTrip/Assets/Scripts/Player/Jump2D.cs:134-148 | with clips of non-negative length, the wait is never negative; without a name or a controller it is max(0, fallback) |
| Jump.RuleOf | TurboTrip/Assets/Scripts/Player/Jump2D.cs:47-59 | no contract of its own: the full and dash-shortened hold caps of the tuning; specified by `ShortHoldWithinFull` |
| Jump.HoldCap | TurboTrip/Assets/Scripts/Player/Jump2D.cs:117-130 | no contract of its own: the cap a jump gets: short inside the dash window, full outside; specified by `LaunchHold`, `EarlyJumpUncapped` |
| Jump.Launch | TurboTrip/Assets/Scripts/Player/Jump2D.cs:117-130 | no contract of its own: `StartJump` on the controller's fields; specified by `LaunchHold`, `Jump2D.StartJump` |
| Jump.Kind | TurboTrip/Assets/Scripts/Player/Jump2D.cs:70-78 | no contract of its own: which jump a frame's press starts; specified by `KindExactly`, `AirJumpConsumes`, `NoJumpWithoutPress`, `Jump2D.JumpOnPress` |
| Jump.Hold | TurboTrip/Assets/Scripts/Player/Jump2D.cs:101-105 | no contract of its own: the hold timer and the end of the jump; specified by `HoldRules` |
| Jump.Frame | TurboTrip/Assets/Scripts/Player/Jump2D.cs:61-106 | no contract of its own: one `Update` on the controller's fields; specified by `Jump2D.Update`, `KindExactly`, `GroundRefills`, `AirJumpConsumes`, `NoJumpWithoutPress` |
| Jump.Flight | TurboTrip/Assets/Scripts/Player/Jump2D.cs:61-106 | no contract of its own: successive airborne `Update`s; specified by `FlightKeepsSpent`, `OneAirJumpPerFlight` |
| Jump.AutoClearWait | TurboTrip/Assets/Scripts/Player/Jump2D.cs:134-148 | no contract of its own: the wait of the auto-clear routine; specified by `AutoClearWaitNonNegative`, `Jump2D.Update` |
| Dash.DashDirection | TurboTrip/Assets/Scripts/Player/Dash2D.cs:37 | the dash goes along the input when its magnitude is at least 0.1, else along the facing; it is always ±1 |
| Dash.CarryBounded | TurboTrip/Assets/Scripts/Player/Dash2D.cs:65 | with a carry-over in [0, 1], the carried speed is at most the exit speed and has its sign |
| Dash.Carry | TurboTrip/Assets/Scripts/Player/Dash2D.cs:65 | no contract of its own: the share of the exit velocity kept as momentum; specified by `CarryBounded`, `Dash2D.Resume` |
| Dash.Dash2D.constructor | TurboTrip/Assets/Scripts/Player/Dash2D.cs:22-31 | the dash is available and not running |
| Dash.Dash2D.Update | TurboTrip/Assets/Scripts/Player/Dash2D.cs:33-57 | a dash starts exactly on a press with the dash available and unlocked. It saves gravity and zeroes it, lifts the speed cap, notifies the jump controller, and sets the velocity to (dir · speed, 0). Otherwise nothing changes |
| Dash.Dash2D.StartDash | TurboTrip/Assets/Scripts/Player/Dash2D.cs:42-59 | the routine up to its first wait: gravity saved and off, the cap lifted, velocity and momentum at dash speed, the deadline set |
| Dash.Dash2D.Resume | TurboTrip/Assets/Scripts/Player/Dash2D.cs:59-69 | after the dash deadline: gravity restored, the flag and the cap lift cleared, the carried velocity kept, the cooldown started. After the cooldown the dash is available again. Before a deadline nothing changes |
| Dash.NextPhase | TurboTrip/Assets/Scripts/Player/Dash2D.cs:59-69 | Ready stays Ready; a dash becomes a cooldown only at or after its deadline; a cooldown becomes Ready exactly at or after its deadline |
| Dash.NoDashBeforeCooldown | TurboTrip/Assets/Scripts/Player/Dash2D.cs:35 | every resume before the dash duration plus the cooldown leaves the routine short of Ready, so no second dash can start |
| Dash.RunPhasesSnoc | TurboTrip/Assets/Scripts/Player/Dash2D.cs:59-69 | running a sequence of resumes and then one more equals one further step |
| Dash.DashingStays | TurboTrip/Assets/Scripts/Player/Dash2D.cs:59 | a dash phase that survives any resumes keeps its deadline |
| Dash.CooldownNeverDashes | TurboTrip/Assets/Scripts/Player/Dash2D.cs:61-69 | resumes alone never start a dash |
| WallBounce.Widest | TurboTrip/Assets/Scripts/Player/WallBounce2D.cs:40-51 | the index of a contact with maximal \|normal.x\|, the earliest one on ties |
| WallBounce.SelectNormal | TurboTrip/Assets/Scripts/Player/WallBounce2D.cs:40-51 | the strict-improvement loop picks that contact, or the zero normal when there are none |
| WallBounce.BounceReflects | TurboTrip/Assets/Scripts/Player/WallBounce2D.cs:56-68 | the bounce reverses the horizontal direction and scales the speed by the bounce factor, and again by the strong-hit multiplier exactly on a strong hit |
| WallBounce.BestNormal | TurboTrip/Assets/Scripts/Player/WallBounce2D.cs:40-51 | no contract of its own: the normal of the widest contact, or zero; specified by `Widest`, `SelectNormal` |
| WallBounce.BounceX | TurboTrip/Assets/Scripts/Player/WallBounce2D.cs:63-66 | no contract of its own: the bounced horizontal speed; specified by `BounceReflects`, `WallBounce2D.OnCollisionEnter` |
| WallBounce.WallBounce2D.constructor | TurboTrip/Assets/Scripts/Player/WallBounce2D.cs:21-26 | no sampled velocity and no unlock routine running |
| WallBounce.WallBounce2D.FixedUpdate | TurboTrip/Assets/Scripts/Player/WallBounce2D.cs:28-31 | the sampled velocity equals the body's velocity at this fixed step |
| WallBounce.WallBounce2D.OnCollisionEnter | TurboTrip/Assets/Scripts/Player/WallBounce2D.cs:33-75 | nothing happens unless a movement component exists, the dash is active, the widest normal is at least 0.1 and the speed reaches the minimum. A bounce sets vx to the reflected speed and keeps vy; momentum takes the velocity, the cap is lifted and an unlock routine starts |
| WallBounce.WallBounce2D.ResumeUnlocks | TurboTrip/Assets/Scripts/Player/WallBounce2D.cs:78-82 | each routine whose deadline has passed ends and clears the cap lift; the others keep waiting |
| WallBounce.Waiting | TurboTrip/Assets/Scripts/Player/WallBounce2D.cs:78-82 | the routines still waiting are exactly those with deadlines after now |
| WallBounce.WaitingUnchanged | TurboTrip/Assets/Scripts/Player/WallBounce2D.cs:78-82 | the cap lift survives a resume exactly when no deadline has passed |
| WallBounce.LockEnds | TurboTrip/Assets/Scripts/Player/WallBounce2D.cs:80-81 | once every lock time has passed, no routine waits |
| NickController.Axis | TurboTrip/Assets/Scripts/Nick.cs:94-96 | the axis is -1, 0 or +1: -1 for A alone, +1 for D alone, 0 for neither or both |
| NickController.Nick.constructor | TurboTrip/Assets/Scripts/Nick.cs:81-89 | the hold cap starts full, the gravity is remembered, and the dash is available |
| NickController.Nick.Update | TurboTrip/Assets/Scripts/Nick.cs:91-152 | the controller and body fields move as `AfterUpdate`: input, jumps, hold, dash and refill, boost timer |
| NickController.Nick.ReadInput | TurboTrip/Assets/Scripts/Nick.cs:94-102 | the axis, the last non-zero direction and the sprite flip |
| NickController.Nick.PressJumps | TurboTrip/Assets/Scripts/Nick.cs:110-121 | the ground jump, then the double jump that spends `hasDoublejump` |
| NickController.Nick.HoldJump | TurboTrip/Assets/Scripts/Nick.cs:124-128 | the hold timer, then the end of the jump on release or at the cap |
| NickController.Nick.DashAndRefill | TurboTrip/Assets/Scripts/Nick.cs:131-139 | the dash along the last direction, then the landing refill |
| NickController.Nick.BoostTimer | TurboTrip/Assets/Scripts/Nick.cs:142-151 | the boost timer rule of `Movement2D` |
| NickController.Nick.StartJump | TurboTrip/Assets/Scripts/Nick.cs:216-234 | an active dash ends, vy is zeroed, the impulse is queued and a hold starts with the dash-window cap |
| NickController.Nick.EndDashImmediately | TurboTrip/Assets/Scripts/Nick.cs:264-269 | the dash flag is cleared and the original gravity restored |
| NickController.Nick.StartDash | TurboTrip/Assets/Scripts/Nick.cs:236-250 | the routine up to its first wait: dash spent, gravity saved and off, velocity at dash speed with no vertical part |
| NickController.Nick.FixedUpdate | TurboTrip/Assets/Scripts/Nick.cs:154-214 | while dashing the velocity is pinned to (momentum, 0); otherwise the `Movement2D` step and the hold force |
| NickController.Nick.Resume | TurboTrip/Assets/Scripts/Nick.cs:251-262 | the routine's later parts as `AfterResume` |
| NickController.PressesFollowKind | TurboTrip/Assets/Scripts/Nick.cs:110-121 | the presses follow `Jump.Kind` with the double jump always unlocked; the dash fields are untouched |
| NickController.UpdateFollowsJumpRules | TurboTrip/Assets/Scripts/Nick.cs:109-139 | the jump fields after a frame equal `Jump.Frame`'s, though the refill comes after the presses here |
| NickController.UpdateKeepsInv | TurboTrip/Assets/Scripts/Nick.cs:91-152 | a frame keeps the invariant: the dash is available exactly while its routine is idle, the direction is a unit, and the timers are in range |
| NickController.UpdateDash | TurboTrip/Assets/Scripts/Nick.cs:131-132 | a dash starts exactly on a Shift press with the dash available and refilled, along the last non-zero input, with gravity off and velocity at dash speed |
| NickController.UpdateHasDash | TurboTrip/Assets/Scripts/Nick.cs:135-139 | landing refills the dash and dashing spends it, with no ability gate |
| NickController.JumpCutsDash | TurboTrip/Assets/Scripts/Nick.cs:218-222 | a jump during a dash ends it at once and restores the original gravity; the routine keeps running |
| NickController.NoDashWhileRoutineRuns | TurboTrip/Assets/Scripts/Nick.cs:131-132 | while the routine runs no frame starts another dash |
| NickController.FixedUpdateRules | TurboTrip/Assets/Scripts/Nick.cs:154-214 | while dashing only the velocity is pinned; otherwise momentum stays within the speed cap, and the vertical velocity gains the hold force times dt exactly while a jump is held below its cap and is otherwise kept |
| NickController.ResumeKeepsInv | TurboTrip/Assets/Scripts/Nick.cs:236-262 | resuming the routine keeps the invariant |
| NickController.ResumeRules | TurboTrip/Assets/Scripts/Nick.cs:251-260 | at the first resume after the deadline: the saved gravity returns, the flag is cleared, the carried velocity is kept and the cooldown starts; after the cooldown the dash is available |
| NickController.JumpDuringDash | TurboTrip/Assets/Scripts/Nick.cs:251-269 | after a jump cuts a dash short, the routine still ends it: the carry overwrites momentum and the gravity saved at dash start returns |
| NickController.AfterReadInput | TurboTrip/Assets/Scripts/Nick.cs:94-102 | no contract of its own: the input read; specified by `Nick.ReadInput`, `UpdateKeepsInv` |
| NickController.AfterEndDash | TurboTrip/Assets/Scripts/Nick.cs:264-269 | no contract of its own: `EndDashImmediately`; specified by `Nick.EndDashImmediately`, `JumpCutsDash` |
| NickController.AfterStartJump | TurboTrip/Assets/Scripts/Nick.cs:216-234 | no contract of its own: `StartJump`; specified by `Nick.StartJump`, `JumpCutsDash` |
| NickController.AfterPresses | TurboTrip/Assets/Scripts/Nick.cs:110-121 | no contract of its own: the ground and double jump presses; specified by `Nick.PressJumps`, `PressesFollowKind` |
| NickController.AfterHold | TurboTrip/Assets/Scripts/Nick.cs:124-128 | no contract of its own: the hold timer and the end of the jump; specified by `Nick.HoldJump`, `UpdateFollowsJumpRules` |
| NickController.AfterStartDash | TurboTrip/Assets/Scripts/Nick.cs:236-250 | no contract of its own: the dash routine up to its first wait; specified by `Nick.StartDash`, `UpdateDash` |
| NickController.AfterDashAndRefill | TurboTrip/Assets/Scripts/Nick.cs:131-139 | no contract of its own: the dash press and the landing refill; specified by `Nick.DashAndRefill`, `UpdateDash`, `UpdateHasDash` |
| NickController.AfterBoostTimer | TurboTrip/Assets/Scripts/Nick.cs:142-151 | no contract of its own: the boost timer; specified by `Nick.BoostTimer`, `UpdateKeepsInv` |
| NickController.AfterUpdate | TurboTrip/Assets/Scripts/Nick.cs:91-152 | no contract of its own: one `Update`; specified by `Nick.Update`, `UpdateFollowsJumpRules`, `UpdateKeepsInv`, `UpdateDash`, `UpdateHasDash`, `NoDashWhileRoutineRuns` |
| NickController.AfterFixedUpdate | TurboTrip/Assets/Scripts/Nick.cs:154-214 | no contract of its own: one `FixedUpdate`; specified by `Nick.FixedUpdate`, `FixedUpdateRules` |
| NickController.AfterResume | TurboTrip/Assets/Scripts/Nick.cs:251-262 | no contract of its own: the dash routine resumed after a wait; specified by `Nick.Resume`, `ResumeRules`, `ResumeKeepsInv`, `JumpDuringDash` |
| Homeless.PatrolTurn | TurboTrip/Assets/Scripts/Homeless/Homeless_script.cs:122-126 | right at or left of the left end, left at or right of the right end, unchanged in between |
| Homeless.HomelessEnemy.constructor | TurboTrip/Assets/Scripts/Homeless/Homeless_script.cs:44-49 | the spawn point is the starting x; idle, patrolling right, not attacking, no kills |
| Homeless.HomelessEnemy.Update | TurboTrip/Assets/Scripts/Homeless/Homeless_script.cs:60-116 | the enemy's fields move as `AfterUpdate` |
| Homeless.HomelessEnemy.PatrolBehaviour | TurboTrip/Assets/Scripts/Homeless/Homeless_script.cs:119-130 | the fields move as `AfterPatrol`: turn at the ends, move, face the patrol |
| Homeless.HomelessEnemy.Move | TurboTrip/Assets/Scripts/Homeless/Homeless_script.cs:132-165 | the fields move as `AfterMove` |
| Homeless.HomelessEnemy.FlipTowards | TurboTrip/Assets/Scripts/Homeless/Homeless_script.cs:167-173 | faces left of a target on its left, right otherwise |
| Homeless.HomelessEnemy.TryAttack | TurboTrip/Assets/Scripts/Homeless/Homeless_script.cs:203-226 | an attack starts with its delay only when none is running |
| Homeless.HomelessEnemy.OnContact | TurboTrip/Assets/Scripts/Homeless/Homeless_script.cs:185-201 | touching the player tries an attack; anything else changes nothing |
| Homeless.HomelessEnemy.Resume | TurboTrip/Assets/Scripts/Homeless/Homeless_script.cs:211-231 | the attack routine's end as `AfterResume` |
| Homeless.ChaseHysteresis | TurboTrip/Assets/Scripts/Homeless/Homeless_script.cs:73-96 | an idle enemy starts chasing exactly within the detection radius; a chasing one keeps on exactly within the lose radius; without a player nothing changes |
| Homeless.LoseRadiusWider | TurboTrip/Assets/Scripts/Homeless/Homeless_script.cs:92-96 | with a lose factor of at least 1, the lose radius is at least the detection radius |
| Homeless.MoveObstacleRule | TurboTrip/Assets/Scripts/Homeless/Homeless_script.cs:134-148 | a blocked move stops horizontally and reverses the patrol only when not chasing; an unblocked one moves at the requested velocity |
| Homeless.PatrolStep | TurboTrip/Assets/Scripts/Homeless/Homeless_script.cs:119-130 | a patrol frame turns at the bounds, moves at patrol speed unless blocked (which reverses it), and faces the patrol direction |
| Homeless.ChaseStep | TurboTrip/Assets/Scripts/Homeless/Homeless_script.cs:98-104 | a chase frame runs toward the player's side at chase speed unless blocked, and faces the player |
| Homeless.AttackNoOverlap | TurboTrip/Assets/Scripts/Homeless/Homeless_script.cs:107-113 | while an attack runs, no frame or contact starts another, moves its deadline or kills |
| Homeless.AttackStart | TurboTrip/Assets/Scripts/Homeless/Homeless_script.cs:107-113 | an idle frame starts an attack only from a chase within attack range, with the attack delay |
| Homeless.ResumeKillsOnce | TurboTrip/Assets/Scripts/Homeless/Homeless_script.cs:226-231 | at the first resume after the delay, the player is killed once when a respawn manager exists, and the attack ends |
| Homeless.UpdateKeepsInv | TurboTrip/Assets/Scripts/Homeless/Homeless_script.cs:60-116 | every frame keeps the patrol direction a unit |
| Homeless.LoseRadius | TurboTrip/Assets/Scripts/Homeless/Homeless_script.cs:92-96 | no contract of its own: the radius at which a chase is given up; specified by `LoseRadiusWider`, `ChaseHysteresis` |
| Homeless.AfterMove | TurboTrip/Assets/Scripts/Homeless/Homeless_script.cs:132-165 | no contract of its own: `Move`; specified by `HomelessEnemy.Move`, `MoveObstacleRule` |
| Homeless.AfterFlip | TurboTrip/Assets/Scripts/Homeless/Homeless_script.cs:167-173 | no contract of its own: `FlipTowards`; specified by `HomelessEnemy.FlipTowards` |
| Homeless.AfterPatrol | TurboTrip/Assets/Scripts/Homeless/Homeless_script.cs:119-130 | no contract of its own: `PatrolBehaviour`; specified by `HomelessEnemy.PatrolBehaviour`, `PatrolStep` |
| Homeless.AttackDelay | TurboTrip/Assets/Scripts/Homeless/Homeless_script.cs:211-226 | no contract of its own: the wait before the kill, chosen by the player's tag; specified by `HomelessEnemy.TryAttack`, `AttackStart` |
| Homeless.AfterTryAttack | TurboTrip/Assets/Scripts/Homeless/Homeless_script.cs:203-226 | no contract of its own: the start of `AttackThenKill`; specified by `HomelessEnemy.TryAttack`, `AttackNoOverlap`, `AttackStart` |
| Homeless.AfterUpdate | TurboTrip/Assets/Scripts/Homeless/Homeless_script.cs:60-116 | no contract of its own: one `Update`; specified by `HomelessEnemy.Update`, `ChaseHysteresis`, `PatrolStep`, `ChaseStep`, `AttackStart`, `UpdateKeepsInv` |
| Homeless.AfterResume | TurboTrip/Assets/Scripts/Homeless/Homeless_script.cs:226-231 | no contract of its own: the end of `AttackThenKill`; specified by `HomelessEnemy.Resume`, `ResumeKillsOnce` |
| LevelTimer.Timer.constructor | TurboTrip/Assets/Scripts/LevelTimer.cs:6-8 | zero, stopped, not finished |
| LevelTimer.Timer.Update | TurboTrip/Assets/Scripts/LevelTimer.cs:29-35 | elapsed time grows by dt only while running and not finished |
| LevelTimer.Timer.ResetTimer | TurboTrip/Assets/Scripts/LevelTimer.cs:37-43 | zero, running, not finished |
| LevelTimer.Timer.FinishLevel | TurboTrip/Assets/Scripts/LevelTimer.cs:45-53 | the first call finishes and stops the timer; later calls change nothing; the count is kept |
| LevelTimer.Timer.GetElapsedTime | TurboTrip/Assets/Scripts/LevelTimer.cs:55-58 | returns the count and changes nothing |
| LevelTimer.RunFrames | TurboTrip/Assets/Scripts/LevelTimer.cs:29-43 | after a reset, frames with non-negative dt leave the timer running at the sum of their times |
| LevelTimer.FrozenAfterFinish | TurboTrip/Assets/Scripts/LevelTimer.cs:29-53 | once finished, no number of frames or further finishes changes the count |
| LevelTimer.Sum | TurboTrip/Assets/Scripts/LevelTimer.cs:31-34 | the total of non-negative frame times is non-negative |
| LevelTimer.SumGrows | TurboTrip/Assets/Scripts/LevelTimer.cs:29-35 | the count never decreases: with non-negative frame times, more frames never give a smaller total |
| LevelButton.Trunc | TurboTrip/Assets/Scripts/LevelButton.cs:101-102 | truncation toward zero: a non-negative value lies in [r, r + 1) with r ≥ 0, a negative one in (r − 1, r] with r ≤ 0 |
| LevelButton.FModRange | TurboTrip/Assets/Scripts/LevelButton.cs:101-102 | C#'s float remainder has the dividend's sign and is smaller than the modulus |
| LevelButton.ClockExact | TurboTrip/Assets/Scripts/LevelButton.cs:100-102 | for t ≥ 0, seconds are 0 to 59 and centiseconds 0 to 99, and together with the minutes they count exactly the whole centiseconds of t |
| LevelButton.Digits | TurboTrip/Assets/Scripts/LevelButton.cs:104-107 | a number prints as at least one decimal digit |
| LevelButton.DigitsValue | TurboTrip/Assets/Scripts/LevelButton.cs:104-107 | the digits read back as the number; one digit below 10, two from 10 to 99 |
| LevelButton.Pad2Value | TurboTrip/Assets/Scripts/LevelButton.cs:104-107 | the "00" format prints at least two digits, exactly two below 100, reading back as the number |
| LevelButton.TwoFields | TurboTrip/Assets/Scripts/LevelButton.cs:104-107 | two fields below 100 joined by a dot are five characters, each field reading back |
| LevelButton.MinutesFrom | TurboTrip/Assets/Scripts/LevelButton.cs:100-104 | the minutes field appears exactly from one minute on |
| LevelButton.FormatTimeLayout | TurboTrip/Assets/Scripts/LevelButton.cs:98-108 | below a minute the label is "SS.CC"; from a minute on it is "MM:SS.CC"; each field reads back as the clock's number |
| LevelButton.FMod | TurboTrip/Assets/Scripts/LevelButton.cs:101-102 | no contract of its own: C#'s float remainder; specified by `FModRange` |
| LevelButton.ClockOf | TurboTrip/Assets/Scripts/LevelButton.cs:100-102 | no contract of its own: the minutes, seconds and centiseconds of a time; specified by `ClockExact`, `MinutesFrom` |
| LevelButton.Pad2 | TurboTrip/Assets/Scripts/LevelButton.cs:104-107 | no contract of its own: the "00" number format; specified by `Pad2Value`, `TwoFields` |
| LevelButton.FormatTime | TurboTrip/Assets/Scripts/LevelButton.cs:98-108 | no contract of its own: the best-time label; specified by `FormatTimeLayout`, `LevelButtonView.Setup` |
| LevelButton.LevelButtonView.constructor | TurboTrip/Assets/Scripts/LevelButton.cs:13-30 | nothing shown, the button interactable |
| LevelButton.LevelButtonView.Setup | TurboTrip/Assets/Scripts/LevelButton.cs:67-95 | the best time is shown exactly when positive, as "Best: " and the formatted time; the completed indicator exactly when completed; the locked overlay exactly when locked; interactable exactly when unlocked; an unassigned widget is untouched |
| Dialogue.Initial | TurboTrip/Assets/Scripts/NPC/NPCDialogueAbility.cs:36-56 | after start: nobody near, closed, index 0, nothing shown |
| Dialogue.AfterExit | TurboTrip/Assets/Scripts/NPC/NPCDialogueAbility.cs:166-179 | leaving clears near, input and active, rewinds to line 0 and hides both panels |
| Dialogue.InteractGate | TurboTrip/Assets/Scripts/NPC/NPCDialogueAbility.cs:68-78 | the interact key does nothing unless the player is near with their input; then a press opens a closed dialogue or advances an open one |
| Dialogue.ShowFirstLineRule | TurboTrip/Assets/Scripts/NPC/NPCDialogueAbility.cs:81-93 | opening rewinds to 0 and opens only with the panel and the text box, showing line 0 or "" without lines |
| Dialogue.AdvanceRule | TurboTrip/Assets/Scripts/NPC/NPCDialogueAbility.cs:95-121 | advancing moves one line on; within range it shows that line and stays open; past the end it closes and the prompt returns when the player is near |
| Dialogue.UpdateKeepsInv | TurboTrip/Assets/Scripts/NPC/NPCDialogueAbility.cs:58-79 | every frame keeps the invariant: nobody near means closed and rewound; an open dialogue shows the current, existing line |
| Dialogue.TriggersKeepInv | TurboTrip/Assets/Scripts/NPC/NPCDialogueAbility.cs:124-150 | the trigger handlers keep the invariant |
| Dialogue.FinishCloses | TurboTrip/Assets/Scripts/NPC/NPCDialogueAbility.cs:103-108 | an update closes an open dialogue only by advancing past its last line on a press |
| Dialogue.LoopUnobservable | TurboTrip/Assets/Scripts/NPC/NPCDialogue.cs:85-116 | the small talk's loop rewind is invisible: with and without it, updates and triggers reach states that differ at most in a closed dialogue's index |
| Dialogue.ConversationLines | TurboTrip/Assets/Scripts/NPC/NPCDialogue.cs:60-110 | the k-th press of a conversation shows line k-1, for every line |
| Dialogue.ConversationEnds | TurboTrip/Assets/Scripts/NPC/NPCDialogue.cs:106-120 | the press after the last line closes the dialogue and shows the prompt again |
| Dialogue.AfterEnter | TurboTrip/Assets/Scripts/NPC/NPCDialogueAbility.cs:153-164 | no contract of its own: the player coming near; specified by `TriggersKeepInv` and the `OnPlayerEnter` rows |
| Dialogue.AfterShowFirstLine | TurboTrip/Assets/Scripts/NPC/NPCDialogueAbility.cs:81-93 | no contract of its own: opening the dialogue; specified by `ShowFirstLineRule` |
| Dialogue.AfterAdvance | TurboTrip/Assets/Scripts/NPC/NPCDialogueAbility.cs:95-121 | no contract of its own: advancing one line or closing; specified by `AdvanceRule`, `ConversationLines`, `ConversationEnds` |
| Dialogue.AfterInteract | TurboTrip/Assets/Scripts/NPC/NPCDialogueAbility.cs:68-78 | no contract of its own: the interact key; specified by `InteractGate` |
| Dialogue.AfterProbe | TurboTrip/Assets/Scripts/NPC/NPCDialogueAbility.cs:61-66 | no contract of its own: the talk-radius probe when triggers are off; specified by `UpdateKeepsInv` |
| Dialogue.AfterUpdate | TurboTrip/Assets/Scripts/NPC/NPCDialogueAbility.cs:58-79 | no contract of its own: one `Update`; specified by `UpdateKeepsInv`, `FinishCloses`, `LoopUnobservable` and the `Update` rows of both controllers |
| Dialogue.AfterTriggerEnter | TurboTrip/Assets/Scripts/NPC/NPCDialogueAbility.cs:124-133 | no contract of its own: the enter trigger; specified by `TriggersKeepInv` |
| Dialogue.AfterTriggerExit | TurboTrip/Assets/Scripts/NPC/NPCDialogueAbility.cs:142-150 | no contract of its own: the exit trigger; specified by `TriggersKeepInv` |
| NpcSmallTalk.SmallTalk.constructor | TurboTrip/Assets/Scripts/NPC/NPCDialogue.cs:38-58 | the controller starts as `Initial` |
| NpcSmallTalk.SmallTalk.Update | TurboTrip/Assets/Scripts/NPC/NPCDialogue.cs:60-81 | the fields move as `Dialogue.AfterUpdate` with the loop option |
| NpcSmallTalk.SmallTalk.ShowFirstLine | TurboTrip/Assets/Scripts/NPC/NPCDialogue.cs:83-95 | the fields move as `Dialogue.AfterShowFirstLine` |
| NpcSmallTalk.SmallTalk.Advance | TurboTrip/Assets/Scripts/NPC/NPCDialogue.cs:97-121 | the fields move as `Dialogue.AfterAdvance`, rewinding when looping |
| NpcSmallTalk.SmallTalk.OnTriggerEnter | TurboTrip/Assets/Scripts/NPC/NPCDialogue.cs:124-132 | only a collider carrying the player's input enters, with triggers on |
| NpcSmallTalk.SmallTalk.OnTriggerExit | TurboTrip/Assets/Scripts/NPC/NPCDialogue.cs:134-142 | only a collider carrying the player's input leaves, with triggers on |
| NpcSmallTalk.SmallTalk.OnPlayerEnter | TurboTrip/Assets/Scripts/NPC/NPCDialogue.cs:145-155 | near, the input reference taken, and the prompt shown unless talking |
| NpcSmallTalk.SmallTalk.OnPlayerExit | TurboTrip/Assets/Scripts/NPC/NPCDialogue.cs:157-169 | the fields move as `Dialogue.AfterExit` |
| NpcSmallTalk.Frame | TurboTrip/Assets/Scripts/NPC/NPCDialogue.cs:60-121 | a frame keeps the controller valid and ends indistinguishable from the same frame without looping |
| NpcDialogueAbility.DialogueAbility.constructor | TurboTrip/Assets/Scripts/NPC/NPCDialogueAbility.cs:36-56 | the controller starts as `Initial`, with no ability reference |
| NpcDialogueAbility.DialogueAbility.Update | TurboTrip/Assets/Scripts/NPC/NPCDialogueAbility.cs:58-79 | the conversation follows `Dialogue.AfterUpdate`; exactly an update that finishes with unlocking on and a reference unlocks the ability once; otherwise the components are untouched |
| NpcDialogueAbility.DialogueAbility.ShowFirstLine | TurboTrip/Assets/Scripts/NPC/NPCDialogueAbility.cs:81-93 | the fields move as `Dialogue.AfterShowFirstLine` |
| NpcDialogueAbility.DialogueAbility.Advance | TurboTrip/Assets/Scripts/NPC/NPCDialogueAbility.cs:95-121 | the fields move as `Dialogue.AfterAdvance`; at the end, with unlocking on and a reference, the ability is unlocked on it once |
| NpcDialogueAbility.DialogueAbility.OnTriggerEnter | TurboTrip/Assets/Scripts/NPC/NPCDialogueAbility.cs:124-133 | only a collider carrying the player's input enters, taking its ability component |
| NpcDialogueAbility.DialogueAbility.OnTriggerExit | TurboTrip/Assets/Scripts/NPC/NPCDialogueAbility.cs:142-150 | only a collider carrying the player's input leaves, clearing the references |
| NpcDialogueAbility.DialogueAbility.OnPlayerEnter | TurboTrip/Assets/Scripts/NPC/NPCDialogueAbility.cs:153-164 | near, the references taken, and the prompt shown unless talking |
| NpcDialogueAbility.DialogueAbility.OnPlayerExit | TurboTrip/Assets/Scripts/NPC/NPCDialogueAbility.cs:166-179 | not near, references cleared, closed and rewound to line 0 |
| NpcDialogueAbility.TalkThrough | TurboTrip/Assets/Scripts/NPC/NPCDialogueAbility.cs:95-121 | one press per line plus one more closes the dialogue and unlocks the ability, however many lines there are |
| ListCodec.Split | TurboTrip/Assets/Scripts/GameProgressManager.cs:268 | splitting gives at least one field, and no field holds a comma |
| ListCodec.SplitJoin | TurboTrip/Assets/Scripts/GameProgressManager.cs:240-243 | splitting what was joined gives the items back when none holds a comma |
| ListCodec.JoinSplit | TurboTrip/Assets/Scripts/GameProgressManager.cs:265-268 | joining what was split gives the text back |
| ListCodec.JoinEmpty | TurboTrip/Assets/Scripts/GameProgressManager.cs:265-268 | the join is empty exactly for no items or one empty item |
| ListCodec.Join | TurboTrip/Assets/Scripts/GameProgressManager.cs:240-243 | no contract of its own: `string.Join(",", ...)`; specified by `SplitJoin`, `JoinSplit`, `JoinEmpty` |
| Prefs.BestKeyApart | TurboTrip/Assets/Scripts/GameProgressManager.cs:256 | the best-time key is one-to-one and never one of the fixed keys |
| Prefs.MarkAll | TurboTrip/Assets/Scripts/GameProgressManager.cs:279-287 | every non-empty field is marked completed; other records keep their flags |
| Prefs.StoredSetReadsBack | TurboTrip/Assets/Scripts/GameProgressManager.cs:240-276 | a stored set reads back as itself when no name holds a comma; an empty set, or the set holding only the empty name, leaves the current set as it was |
| Prefs.StoredCompletedReadsBack | TurboTrip/Assets/Scripts/GameProgressManager.cs:247-287 | stored completions read back as exactly the stored non-empty names, marked on top of the current records |
| Prefs.SaveLoadRoundTrip | TurboTrip/Assets/Scripts/GameProgressManager.cs:237-287 | a save read back by a fresh manager gives the same worlds, levels and completed levels |
| Prefs.BestKey | TurboTrip/Assets/Scripts/GameProgressManager.cs:256 | no contract of its own: the best-time key of a level; specified by `BestKeyApart` |
| Prefs.StringOr | TurboTrip/Assets/Scripts/GameProgressManager.cs:265 | no contract of its own: `PlayerPrefs.GetString` with a default; specified by `StoredSetReadsBack`, `SaveLoadRoundTrip` |
| Prefs.IntOr | TurboTrip/Assets/Scripts/GameProgressManager.cs:184 | no contract of its own: `PlayerPrefs.GetInt` with a default; specified by `ProgressManager.SetAbilitiesForCurrentWorld`, `SelectThenLoad` |
| Prefs.FloatOr | TurboTrip/Assets/Scripts/GameProgressManager.cs:301 | no contract of its own: `PlayerPrefs.GetFloat` with its default 0; specified by `GameProgress.LoadLevels`, `BestTimesReadBack` |
| Prefs.LoadedSet | TurboTrip/Assets/Scripts/GameProgressManager.cs:264-276 | no contract of its own: a hash set as `LoadProgress` reads it; specified by `StoredSetReadsBack`, `SaveLoadRoundTrip` |
| Prefs.LoadedCompleted | TurboTrip/Assets/Scripts/GameProgressManager.cs:278-289 | no contract of its own: the completions as `LoadProgress` reads them; specified by `StoredCompletedReadsBack`, `SaveLoadRoundTrip` |
| ProgressData.FindIn | TurboTrip/Assets/Scripts/GameProgressManager.cs:106-112 | the first position at or after i holding the level, or none |
| ProgressData.FindFrom | TurboTrip/Assets/Scripts/GameProgressManager.cs:104-112 | the first world holding the level, and the level's first position in it |
| ProgressData.IndexOf | TurboTrip/Assets/Scripts/GameProgressManager.cs:120 | `Array.IndexOf`: the first index holding the value, or -1 |
| ProgressData.IndexOfFound | TurboTrip/Assets/Scripts/GameProgressManager.cs:118-120 | the world found by the search is found again by `IndexOf` |
| ProgressData.NextUnlockRule | TurboTrip/Assets/Scripts/GameProgressManager.cs:101-139 | the next level of the same world is unlocked, and nothing else. At the end of a world, the next world and its first level are unlocked. At the end of the last world nothing is. A null asset where the rule looks for the next one faults |
| ProgressData.NowhereUnlocksNothing | TurboTrip/Assets/Scripts/GameProgressManager.cs:101-139 | a level in no world unlocks and saves nothing |
| ProgressData.NextUnlocks | TurboTrip/Assets/Scripts/GameProgressManager.cs:101-139 | no contract of its own: what `UnlockNextLevel` unlocks, and whether it faults; specified by `NextUnlockRule`, `NowhereUnlocksNothing`, `ProgressManager.UnlockNextLevel`, `ProgressManager.CompleteLevel` |
| ProgressData.AbilitySetOf | TurboTrip/Assets/Scripts/GameProgressManager.cs:198-224 | world 2 grants double jump; world 3 double jump and dash; world 4 all three; every other number nothing |
| ProgressData.AbilityTable | TurboTrip/Assets/Scripts/GameProgressManager.cs:198-224 | each world from 2 to 4 grants one ability more than the one before; world 4 grants all; no call repeats an ability |
| GameProgress.KeepBest | TurboTrip/Assets/Scripts/GameProgressManager.cs:76-80 | the new record is the smaller of the old one and the time, or the time when there was none; other records are unchanged |
| GameProgress.LoadLevels | TurboTrip/Assets/Scripts/GameProgressManager.cs:295-303 | every level of the array whose best-time key is stored gets the stored float; other records stay |
| GameProgress.LoadWorlds | TurboTrip/Assets/Scripts/GameProgressManager.cs:290-304 | the same over every world with a levels array |
| GameProgress.BestTimesReadBack | TurboTrip/Assets/Scripts/GameProgressManager.cs:253-304 | best times survive a save and a load: every level of the worlds with a saved best time reads back that time |
| GameProgress.Loaded | TurboTrip/Assets/Scripts/GameProgressManager.cs:262-305 | no contract of its own: the progress after `LoadProgress`; specified by `ProgressManager.LoadProgress`, `SaveLoadRoundTrip`, `BestTimesReadBack` |
| GameProgress.FirstRun | TurboTrip/Assets/Scripts/GameProgressManager.cs:311-342 | no contract of its own: the progress of a first run; specified by `ProgressManager.InitializeFirstTimeProgress`, `ProgressManager.ResetProgress` |
| GameProgress.Enumerate | TurboTrip/Assets/Scripts/GameProgressManager.cs:240 | a hash set's enumeration: every element exactly once |
| GameProgress.CompletedList | TurboTrip/Assets/Scripts/GameProgressManager.cs:246-251 | the list of levels whose flag is true, each once |
| GameProgress.StoreBestTimes | TurboTrip/Assets/Scripts/GameProgressManager.cs:254-257 | every best time is stored under its key; no other key changes |
| GameProgress.MarkFields | TurboTrip/Assets/Scripts/GameProgressManager.cs:282-286 | the loop marks exactly as `MarkAll` |
| GameProgress.LoadLevelTimes | TurboTrip/Assets/Scripts/GameProgressManager.cs:295-303 | the inner loop reads exactly as `LoadLevels` |
| GameProgress.LoadBestTimes | TurboTrip/Assets/Scripts/GameProgressManager.cs:292-304 | the outer loop reads exactly as `LoadWorlds` |
| GameProgress.GrantWorld | TurboTrip/Assets/Scripts/GameProgressManager.cs:198-224 | from cleared flags, the world number's table entry is granted, each ability firing its event once, in order |
| GameProgress.ProgressManager.constructor | TurboTrip/Assets/Scripts/GameProgressManager.cs:14-23 | empty sets and maps over the store as found |
| GameProgress.ProgressManager.Awake | TurboTrip/Assets/Scripts/GameProgressManager.cs:25-37 | with the initialised key, the progress is what the store holds; without it, the first-run progress, saved with the key |
| GameProgress.ProgressManager.IsWorldUnlocked | TurboTrip/Assets/Scripts/GameProgressManager.cs:41-46 | only the unlocked set counts; a null world is locked |
| GameProgress.ProgressManager.IsLevelUnlocked | TurboTrip/Assets/Scripts/GameProgressManager.cs:48-53 | only the unlocked set counts; a null level is locked |
| GameProgress.ProgressManager.IsLevelCompleted | TurboTrip/Assets/Scripts/GameProgressManager.cs:88-92 | the recorded flag; null and unrecorded levels are not completed |
| GameProgress.ProgressManager.GetBestTime | TurboTrip/Assets/Scripts/GameProgressManager.cs:94-99 | the recorded time; 0 for null and unrecorded levels |
| GameProgress.ProgressManager.UnlockWorld | TurboTrip/Assets/Scripts/GameProgressManager.cs:55-60 | adds exactly the world's name, removes nothing, and saves; null changes nothing |
| GameProgress.ProgressManager.UnlockLevel | TurboTrip/Assets/Scripts/GameProgressManager.cs:62-67 | adds exactly the level's key, removes nothing, and saves; null changes nothing |
| GameProgress.ProgressManager.CompleteLevel | TurboTrip/Assets/Scripts/GameProgressManager.cs:69-86 | marks the level completed, keeps the minimum time, and applies the unlock rule, then saves. A null level changes nothing. On a fault the final save is skipped |
| GameProgress.ProgressManager.UnlockNextLevel | TurboTrip/Assets/Scripts/GameProgressManager.cs:101-139 | the nested search unlocks exactly what `NextUnlocks` says and faults exactly when it does |
| GameProgress.ProgressManager.UnlockAt | TurboTrip/Assets/Scripts/GameProgressManager.cs:108-135 | the search's hit unlocks exactly what `NextUnlocks` says |
| GameProgress.ProgressManager.SelectWorld | TurboTrip/Assets/Scripts/GameProgressManager.cs:145-176 | remembers the world and stores its number for the next level load; null stores nothing |
| GameProgress.ProgressManager.SelectLevel | TurboTrip/Assets/Scripts/GameProgressManager.cs:151-154 | remembers the level; nothing else changes |
| GameProgress.ProgressManager.SetAbilitiesForCurrentWorld | TurboTrip/Assets/Scripts/GameProgressManager.cs:182-226 | resets every ability, then grants exactly the stored world number's abilities, with 1 when none is stored; without a component nothing happens |
| GameProgress.ProgressManager.SaveProgress | TurboTrip/Assets/Scripts/GameProgressManager.cs:237-260 | the sets are stored as joins of an enumeration and every best time under its key; other keys and the progress are unchanged |
| GameProgress.ProgressManager.LoadProgress | TurboTrip/Assets/Scripts/GameProgressManager.cs:262-305 | the progress becomes what the store holds, as `Loaded`; the store is unchanged |
| GameProgress.ProgressManager.InitializeFirstTimeProgress | TurboTrip/Assets/Scripts/GameProgressManager.cs:311-342 | runs only without the initialised key; it then leaves exactly the first world and its first level, saved with the key |
| GameProgress.ProgressManager.UnlockFirst | TurboTrip/Assets/Scripts/GameProgressManager.cs:316-336 | cleared progress plus the first world and its first level |
| GameProgress.ProgressManager.ResetProgress | TurboTrip/Assets/Scripts/GameProgressManager.cs:344-357 | exactly the first world and its first level unlocked, nothing completed, no best times; the store holds only that save and the initialised key |
| GameProgress.SelectThenLoad | TurboTrip/Assets/Scripts/GameProgressManager.cs:145-226 | selecting a world then loading a level grants exactly that world number's abilities |
| GameProgress.CompleteTwice | TurboTrip/Assets/Scripts/GameProgressManager.cs:69-86 | completing a level twice leaves it completed with the best of both times and any earlier record |

## Left out

- Engine lifecycle, singletons and lookups are not modelled: `Awake`/`Start` ordering, `DontDestroyOnLoad` and the duplicate manager's `Destroy`, `FindFirstObjectByType`, `GetComponent`, and the lookup of the player by tag or of a panel by name. The references they produce are constructor or method parameters.
- Physics queries are inputs: the ground, wall and obstacle raycasts, the NPC radius probe and the player distance. The physics engine itself (gravity integration, applying the queued impulse, collision resolution) is not modelled.
- Floats are exact reals. Single-precision rounding is not modelled, and neither is the exact float behaviour of `Lerp`, `MoveTowards`, `%` and `FloorToInt`.
- Coroutines are resumed only through the `Resume` methods; the interleaving of `Update` and `FixedUpdate` is the order of the calls.
- Sound effects, particles, sprite colours, animator parameters and debug drawing have no effect on the rules and are left out.
- The NPC and manager debug logs are left out. The exception is the three logs in `UnlockNextLevel`, whose null dereference is modelled as `faulted`.
- Animation clip names are compared ignoring only ASCII letter case; other case mappings are not modelled.
- `WallBounce2D.cs:57`: the `dash ? ... : 12f` fallback is dead code, because the method returns earlier without a dash. The model reads the dash speed directly.
- `Nick.cs:148-151`: the decay branch of the boost timer cannot run because `Mathf.Sign(0)` is +1. The model keeps it as an unreachable branch.
- The `Movement2D.cs:114` clamp is always applied; `ignoreMaxSpeed` and `suppressJumping` are plain fields that `Movement2D` never reads.
- NickController.Nick: `momentum.y` is never read or written, so it is not modelled.
- Movement.IdleStages: the whole idle fixed step is stated stage by stage (this lemma, `FrictionDecays`, `FrictionKeepsCap`) rather than as one equation with friction.
- LevelButton.LevelButtonView.Setup: the level name and number text (with its fallback lookup), the icon, the background colour, the unused star images and the click listener are not modelled.
- `NPCDialogueAbility.cs:135-140`: `OnTriggerStay2D` has an empty body and is not modelled.
- The gizmo drawing of the NPCs and the enemy is left out, and so is the collider reference the NPCs keep.
- The show/hide-only `NPCDialogue` component at the scripts' root is not part of this model.
- A null `lines` array is the empty sequence; it behaves identically in every branch.
- A null `allWorlds` array is not modelled: every loop over it would throw at once.
- Level identity is an `asset` number, and the key of a level is its asset name.
- `PlayerPrefs.Save` (the disk flush) and `PlayerPrefs.DeleteAll` beyond clearing the map are not modelled.
- The order in which a hash set or dictionary is enumerated is not modelled; a save stores the join of some enumeration.
- `DevModeToggleButton.cs` calls manager methods that do not exist, so it is not part of this model.
- `GameProgressManager.cs:232-235`: `GetLevelKey` is the level's name and has no contract of its own.
