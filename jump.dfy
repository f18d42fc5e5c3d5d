/**
 * The jump controller (`Jump2D`): a ground jump, a double jump gated by the
 * DoubleJump ability, a variable-height hold, a shorter hold right after a
 * dash, and the auto-clear routine that lifts `suppressJumping` once the
 * double-jump animation has played.
 *
 * The per-frame rules on the controller's own fields are the pure function
 * `Frame`; `Jump2D.Update` is proved to follow it.
 */
module Jump {
  import opened Wrappers
  import opened UnityMath
  import opened Physics
  import opened Input
  import opened Animation
  import opened AbilitySystem
  import opened Movement

  datatype JumpTuning = JumpTuning(
    jumpImpulse: real,
    jumpHoldForce: real,
    maxJumpHoldTime: real,
    dashJumpWindow: real,
    dashHoldFactor: real)

  const DefaultJumpTuning := JumpTuning(4.0, 7.0, 0.75, 1.0, 0.5)

  /** The time of the last dash before any dash: far enough back to be outside any window. */
  const NoDashYet: real := -999.0

  /** The controller's own fields. */
  datatype JumpState = JumpState(
    holdTimer: real,
    maxHold: real,
    jumping: bool,
    canDouble: bool,
    lastDashTime: real)

  /** What a frame's press did. */
  datatype JumpKind = NoJump | GroundJump | AirJump

  /**
   * The two hold caps a jump can get and the window that chooses between
   * them. The controllers compute it once from their tuning (`RuleOf`), so
   * the frame rules below see the shortened cap as a value.
   */
  datatype HoldRule = HoldRule(window: real, full: real, short: real)

  /** The hold rule of a tuning: the short cap is the full hold time times the dash hold factor. */
  function RuleOf(tn: JumpTuning): HoldRule
  {
    HoldRule(tn.dashJumpWindow, tn.maxJumpHoldTime, tn.maxJumpHoldTime * tn.dashHoldFactor)
  }

  /** With a factor in [0, 1] the jump after a dash is never held longer than a normal one. */
  lemma ShortHoldWithinFull(tn: JumpTuning)
    requires tn.maxJumpHoldTime >= 0.0 && 0.0 <= tn.dashHoldFactor <= 1.0
    ensures 0.0 <= RuleOf(tn).short <= RuleOf(tn).full
  {
    var r := RuleOf(tn);
    ScaleWithin(r.full, tn.dashHoldFactor);
    assert r.short == r.full * tn.dashHoldFactor;
  }

  /** The hold cap of a jump started at `now`: shortened inside the dash window. */
  function HoldCap(rule: HoldRule, now: real, lastDashTime: real): real
  {
    if now - lastDashTime <= rule.window then rule.short else rule.full
  }

  /** `StartJump` on the controller's fields: a new hold with the cap of this moment. */
  function Launch(rule: HoldRule, s: JumpState, now: real): JumpState
  {
    s.(maxHold := HoldCap(rule, now, s.lastDashTime), jumping := true, holdTimer := 0.0)
  }

  /** Which jump, if any, a frame starts. */
  function Kind(s: JumpState, cmd: Command, grounded: bool, doubleUnlocked: bool): JumpKind
  {
    if cmd.jumpPressed && grounded then GroundJump
    else if cmd.jumpPressed && !grounded && s.canDouble && doubleUnlocked then AirJump
    else NoJump
  }

  /** The hold timer advances while the button is held below the cap; release or the cap end the jump. */
  function Hold(s: JumpState, cmd: Command, dt: real): JumpState
  {
    var s1 := if s.jumping && cmd.jumpHeld && s.holdTimer < s.maxHold then s.(holdTimer := s.holdTimer + dt) else s;
    if s1.jumping && (cmd.jumpReleased || s1.holdTimer >= s1.maxHold) then s1.(jumping := false) else s1
  }

  /** One `Update` on the controller's fields. */
  function Frame(rule: HoldRule, s: JumpState, cmd: Command, grounded: bool, doubleUnlocked: bool,
                 now: real, dt: real): JumpState
  {
    var s1 := if grounded then s.(canDouble := true) else s;
    var s2 := match Kind(s, cmd, grounded, doubleUnlocked)
      case GroundJump => Launch(rule, s1, now)
      case AirJump => Launch(rule, s1, now).(canDouble := false)
      case NoJump => s1;
    Hold(s2, cmd, dt)
  }

  /**
   * How long the auto-clear routine waits: the length of the first clip
   * whose name equals the configured one ignoring case, when a name is set
   * and the animator has a controller; otherwise the fallback, floored at 0.
   */
  function AutoClearWait(clipName: string, controller: Option<seq<Option<Clip>>>, fallback: real): real
  {
    if clipName != [] && controller.Some? && FirstMatch(controller.value, clipName, true).Some?
    then controller.value[FirstMatch(controller.value, clipName, true).value].value.length
    else Max(0.0, fallback)
  }

  /** The auto-clear routine: idle, or waiting until a deadline to clear `suppressJumping`. */
  datatype AutoClear = Idle | Pending(deadline: real)

  /** The routine's deadline: a positive wait is a timed wait, any other resumes on the next frame. */
  function ClearDeadline(now: real, wait: real): (d: real)
    ensures d >= now
    ensures wait > 0.0 ==> d == now + wait
  {
    if wait > 0.0 then now + wait else now
  }

  class Jump2D {
    const tuning: JumpTuning
    /** `RuleOf(tuning)`, fixed at `Awake`. */
    const rule: HoldRule
    const movement: Movement2D
    const abilities: Abilities?
    /** The controller of `movement`'s animator, when it has one. */
    const controller: Option<seq<Option<Clip>>>
    const doubleJumpClipName: string
    const doubleJumpFallbackDuration: real

    var jumpHoldTimer: real
    var currentMaxHold: real
    var jumping: bool
    var canDouble: bool
    var lastDashTime: real
    var autoClear: AutoClear

    function State(): JumpState
      reads this
    {
      JumpState(jumpHoldTimer, currentMaxHold, jumping, canDouble, lastDashTime)
    }

    function DoubleJumpUnlocked(): bool
      reads this, abilities
    {
      abilities != null && abilities.Has(DoubleJump)
    }

    /** `Awake`: the hold cap starts at the full hold time; no dash has happened. */
    constructor (tn: JumpTuning, mv: Movement2D, ab: Abilities?, ctrl: Option<seq<Option<Clip>>>,
                 clipName: string, fallback: real)
      ensures tuning == tn && rule == RuleOf(tn) && movement == mv && abilities == ab && controller == ctrl
      ensures doubleJumpClipName == clipName && doubleJumpFallbackDuration == fallback
      ensures State() == JumpState(0.0, tn.maxJumpHoldTime, false, false, NoDashYet)
      ensures autoClear == Idle
    {
      tuning, rule, movement, abilities, controller := tn, RuleOf(tn), mv, ab, ctrl;
      doubleJumpClipName, doubleJumpFallbackDuration := clipName, fallback;
      jumpHoldTimer, currentMaxHold := 0.0, tn.maxJumpHoldTime;
      jumping, canDouble := false, false;
      lastDashTime := NoDashYet;
      autoClear := Idle;
    }

    /**
     * `StartJump`: vertical velocity zeroed, the jump impulse queued, the
     * hold cap chosen by the dash window, momentum synchronised with the
     * body's horizontal velocity, and a fresh hold begun.
     */
    method StartJump(now: real)
      modifies this, movement, movement.body
      ensures State() == Launch(rule, old(State()), now)
      ensures autoClear == old(autoClear)
      ensures movement.body.vy == 0.0 && movement.body.vx == old(movement.body.vx)
      ensures movement.body.pendingImpulseY == old(movement.body.pendingImpulseY) + tuning.jumpImpulse
      ensures movement.body.gravityScale == old(movement.body.gravityScale)
      ensures movement.body.scaleX == old(movement.body.scaleX)
      ensures movement.momentumX == old(movement.body.vx) && movement.momentumY == old(movement.momentumY)
      ensures movement.sameDirTimer == old(movement.sameDirTimer) && movement.lastDirSign == old(movement.lastDirSign)
      ensures movement.ignoreMaxSpeed == old(movement.ignoreMaxSpeed)
      ensures movement.suppressJumping == old(movement.suppressJumping)
    {
      var rb := movement.body;
      rb.vy := 0.0;
      rb.pendingImpulseY := rb.pendingImpulseY + tuning.jumpImpulse;
      var withinDash := now - lastDashTime <= rule.window;
      currentMaxHold := if withinDash then rule.short else rule.full;
      movement.SetHorizontalVelocity(rb.vx);
      jumping := true;
      jumpHoldTimer := 0.0;
    }

    /**
     * The frame update at time `now`. Landing refills the double jump and
     * lifts the suppression; a press starts a jump (`JumpOnPress`); then the
     * hold timer and the end of the jump.
     */
    method Update(cmd: Command, grounded: bool, now: real, dt: real)
      modifies this, movement, movement.body
      ensures State() == Frame(rule, old(State()), cmd, grounded, old(DoubleJumpUnlocked()), now, dt)
      ensures var k := Kind(old(State()), cmd, grounded, old(DoubleJumpUnlocked()));
              && (k != NoJump ==> movement.body.vy == 0.0 && movement.momentumX == old(movement.body.vx))
              && (k == NoJump ==> movement.body.vy == old(movement.body.vy) && movement.momentumX == old(movement.momentumX))
              && movement.body.pendingImpulseY
                 == old(movement.body.pendingImpulseY) + (if k != NoJump then tuning.jumpImpulse else 0.0)
              && movement.suppressJumping
                 == (if k == AirJump && movement.hasAnimator then true
                     else if grounded then false else old(movement.suppressJumping))
              && autoClear
                 == (if k == AirJump && movement.hasAnimator
                     then Pending(ClearDeadline(now, AutoClearWait(doubleJumpClipName, controller, doubleJumpFallbackDuration)))
                     else old(autoClear))
      ensures movement.body.vx == old(movement.body.vx) && movement.body.gravityScale == old(movement.body.gravityScale)
      ensures movement.body.scaleX == old(movement.body.scaleX)
      ensures movement.momentumY == old(movement.momentumY)
      ensures movement.sameDirTimer == old(movement.sameDirTimer) && movement.lastDirSign == old(movement.lastDirSign)
      ensures movement.ignoreMaxSpeed == old(movement.ignoreMaxSpeed)
    {
      if grounded {
        canDouble := true;
        movement.suppressJumping := false;
      }
      JumpOnPress(cmd, grounded, now);
      if jumping && cmd.jumpHeld && jumpHoldTimer < currentMaxHold {
        jumpHoldTimer := jumpHoldTimer + dt;
      }
      if jumping && (cmd.jumpReleased || jumpHoldTimer >= currentMaxHold) {
        jumping := false;
      }
    }

    /**
     * The press handling of `Update`: a press on the ground jumps; a press in
     * the air double-jumps when the double jump is available and unlocked,
     * uses it up, and with an animator raises the suppression and (re)starts
     * the auto-clear routine with the clip's length as its wait.
     */
    method JumpOnPress(cmd: Command, grounded: bool, now: real)
      requires grounded ==> canDouble
      modifies this, movement, movement.body
      ensures var k := Kind(old(State()), cmd, grounded, old(DoubleJumpUnlocked()));
              && State() == (match k
                             case GroundJump => Launch(rule, old(State()), now)
                             case AirJump => Launch(rule, old(State()), now).(canDouble := false)
                             case NoJump => old(State()))
              && (k != NoJump ==> movement.body.vy == 0.0 && movement.momentumX == old(movement.body.vx))
              && (k == NoJump ==> movement.body.vy == old(movement.body.vy) && movement.momentumX == old(movement.momentumX))
              && movement.body.pendingImpulseY
                 == old(movement.body.pendingImpulseY) + (if k != NoJump then tuning.jumpImpulse else 0.0)
              && movement.suppressJumping
                 == (if k == AirJump && movement.hasAnimator then true else old(movement.suppressJumping))
              && autoClear
                 == (if k == AirJump && movement.hasAnimator
                     then Pending(ClearDeadline(now, AutoClearWait(doubleJumpClipName, controller, doubleJumpFallbackDuration)))
                     else old(autoClear))
      ensures movement.body.vx == old(movement.body.vx) && movement.body.gravityScale == old(movement.body.gravityScale)
      ensures movement.body.scaleX == old(movement.body.scaleX)
      ensures movement.momentumY == old(movement.momentumY)
      ensures movement.sameDirTimer == old(movement.sameDirTimer) && movement.lastDirSign == old(movement.lastDirSign)
      ensures movement.ignoreMaxSpeed == old(movement.ignoreMaxSpeed)
    {
      if cmd.jumpPressed && grounded {
        StartJump(now);
      }
      if cmd.jumpPressed && !grounded && canDouble && abilities != null && abilities.Has(DoubleJump) {
        StartJump(now);
        canDouble := false;
        if movement.hasAnimator {
          movement.suppressJumping := true;
          var wait := Max(0.0, doubleJumpFallbackDuration);
          if doubleJumpClipName != [] && controller.Some? {
            wait := ClipLengthOr(controller.value, doubleJumpClipName, true, wait);
          }
          autoClear := Pending(ClearDeadline(now, wait));
        }
      }
    }

    /** The fixed step: the hold force lifts the body while a jump is held below its cap. */
    method FixedUpdate(dt: real)
      modifies movement.body
      ensures movement.body.vy
              == old(movement.body.vy) + (if jumping && jumpHoldTimer < currentMaxHold then tuning.jumpHoldForce * dt else 0.0)
      ensures movement.body.vx == old(movement.body.vx) && movement.body.gravityScale == old(movement.body.gravityScale)
      ensures movement.body.scaleX == old(movement.body.scaleX)
      ensures movement.body.pendingImpulseY == old(movement.body.pendingImpulseY)
    {
      if jumping && jumpHoldTimer < currentMaxHold {
        var vy := movement.body.vy + tuning.jumpHoldForce * dt;
        movement.SetVerticalVelocity(vy);
      }
    }

    /** The dash controller reports the moment a dash starts. */
    method NotifyDashStarted(now: real)
      modifies this
      ensures State() == old(State()).(lastDashTime := now)
      ensures autoClear == old(autoClear)
    {
      lastDashTime := now;
    }

    /**
     * The auto-clear routine resumed on a later frame at time `now`: once its
     * deadline has passed it clears the suppression and ends.
     */
    method ResumeAutoClear(now: real)
      modifies this, movement
      ensures old(autoClear).Pending? && now >= old(autoClear).deadline ==>
                autoClear == Idle && !movement.suppressJumping
      ensures !(old(autoClear).Pending? && now >= old(autoClear).deadline) ==>
                autoClear == old(autoClear) && movement.suppressJumping == old(movement.suppressJumping)
      ensures State() == old(State())
      ensures movement.momentumX == old(movement.momentumX) && movement.momentumY == old(movement.momentumY)
      ensures movement.sameDirTimer == old(movement.sameDirTimer) && movement.lastDirSign == old(movement.lastDirSign)
      ensures movement.ignoreMaxSpeed == old(movement.ignoreMaxSpeed)
    {
      if autoClear.Pending? && now >= autoClear.deadline {
        movement.suppressJumping := false;
        autoClear := Idle;
      }
    }
  }

  // ---------------------------------------------------------------------
  // Properties of a frame
  // ---------------------------------------------------------------------

  /** Standing on the ground always leaves the double jump available. */
  lemma GroundRefills(rule: HoldRule, s: JumpState, cmd: Command, du: bool, now: real, dt: real)
    ensures Frame(rule, s, cmd, true, du, now, dt).canDouble
  {
  }

  /**
   * A ground jump happens exactly on a press while grounded, a double jump
   * exactly on a press in the air with the double jump available and
   * unlocked; so one press never triggers both. A frame that starts a jump
   * starts a fresh hold with the cap of the moment, already advanced by the
   * frame when held; a frame that starts none keeps the cap and can only
   * end a jump.
   */
  lemma KindExactly(rule: HoldRule, s: JumpState, cmd: Command, grounded: bool, du: bool, now: real, dt: real)
    ensures Kind(s, cmd, grounded, du) == GroundJump <==> cmd.jumpPressed && grounded
    ensures Kind(s, cmd, grounded, du) == AirJump <==> cmd.jumpPressed && !grounded && s.canDouble && du
    ensures Kind(s, cmd, grounded, du) != NoJump <==> cmd.jumpPressed && (grounded || (s.canDouble && du))
    ensures var r := Frame(rule, s, cmd, grounded, du, now, dt);
            Kind(s, cmd, grounded, du) != NoJump ==>
              r.holdTimer == (if cmd.jumpHeld && 0.0 < HoldCap(rule, now, s.lastDashTime) then dt else 0.0)
              && r.maxHold == HoldCap(rule, now, s.lastDashTime)
              && (r.jumping <==> !cmd.jumpReleased && r.holdTimer < r.maxHold)
    ensures var r := Frame(rule, s, cmd, grounded, du, now, dt);
            Kind(s, cmd, grounded, du) == NoJump ==>
              r.maxHold == s.maxHold && r.lastDashTime == s.lastDashTime && (r.jumping ==> s.jumping)
  {
  }

  /** A double jump uses up the double jump; without the ability there is none. */
  lemma AirJumpConsumes(rule: HoldRule, s: JumpState, cmd: Command, du: bool, now: real, dt: real)
    ensures Kind(s, cmd, false, du) == AirJump ==> !Frame(rule, s, cmd, false, du, now, dt).canDouble
    ensures Kind(s, cmd, false, false) != AirJump
  {
  }

  /** One airborne frame's inputs: the command, the time and the frame's length. */
  datatype Tick = Tick(cmd: Command, now: real, dt: real)

  /** The frames of a flight: `Frame` on each tick in turn, never grounded. */
  function Flight(rule: HoldRule, s: JumpState, ticks: seq<Tick>, du: bool): JumpState
    decreases |ticks|
  {
    if ticks == [] then s
    else Flight(rule, Frame(rule, s, ticks[0].cmd, false, du, ticks[0].now, ticks[0].dt), ticks[1..], du)
  }

  /** Only landing gives the double jump back: an airborne frame never sets `canDouble`. */
  lemma AirborneKeepsSpent(rule: HoldRule, s: JumpState, cmd: Command, du: bool, now: real, dt: real)
    ensures Frame(rule, s, cmd, false, du, now, dt).canDouble ==> s.canDouble
  {
  }

  /** A spent double jump stays spent for the rest of the flight. */
  lemma {:induction false} FlightKeepsSpent(rule: HoldRule, s: JumpState, ticks: seq<Tick>, du: bool)
    requires !s.canDouble
    ensures !Flight(rule, s, ticks, du).canDouble
    decreases |ticks|
  {
    if ticks != [] {
      var s1 := Frame(rule, s, ticks[0].cmd, false, du, ticks[0].now, ticks[0].dt);
      AirborneKeepsSpent(rule, s, ticks[0].cmd, du, ticks[0].now, ticks[0].dt);
      FlightKeepsSpent(rule, s1, ticks[1..], du);
    }
  }

  /**
   * At most one double jump per flight: after an air jump, however many
   * airborne frames follow, a further press before landing starts no jump.
   */
  lemma {:induction false} OneAirJumpPerFlight(rule: HoldRule, s: JumpState, c1: Command, t1: real, dt1: real,
                                               ticks: seq<Tick>, c2: Command, du: bool)
    requires Kind(s, c1, false, du) == AirJump
    ensures Kind(Flight(rule, Frame(rule, s, c1, false, du, t1, dt1), ticks, du), c2, false, du) == NoJump
  {
    var s1 := Frame(rule, s, c1, false, du, t1, dt1);
    AirJumpConsumes(rule, s, c1, du, t1, dt1);
    FlightKeepsSpent(rule, s1, ticks, du);
  }

  /** A jump starts a fresh hold, capped shorter inside the dash window. */
  lemma LaunchHold(tn: JumpTuning, s: JumpState, now: real)
    ensures var r := Launch(RuleOf(tn), s, now);
            && r.jumping && r.holdTimer == 0.0
            && (now - s.lastDashTime <= tn.dashJumpWindow ==> r.maxHold == tn.maxJumpHoldTime * tn.dashHoldFactor)
            && (now - s.lastDashTime > tn.dashJumpWindow ==> r.maxHold == tn.maxJumpHoldTime)
            && r.canDouble == s.canDouble && r.lastDashTime == s.lastDashTime
  {
  }

  /** Before any dash, a jump at a non-negative time gets the full hold (with the default window). */
  lemma EarlyJumpUncapped(s: JumpState, now: real)
    requires s.lastDashTime == NoDashYet && now >= 0.0
    ensures Launch(RuleOf(DefaultJumpTuning), s, now).maxHold == DefaultJumpTuning.maxJumpHoldTime
  {
  }

  /**
   * The hold timer grows by dt exactly while jumping, held and below the
   * cap, and is otherwise unchanged; the jump ends on release or at the cap.
   */
  lemma HoldRules(s: JumpState, cmd: Command, dt: real)
    ensures var r := Hold(s, cmd, dt);
            && (s.jumping && cmd.jumpHeld && s.holdTimer < s.maxHold ==> r.holdTimer == s.holdTimer + dt)
            && (!(s.jumping && cmd.jumpHeld && s.holdTimer < s.maxHold) ==> r.holdTimer == s.holdTimer)
            && (r.jumping <==> s.jumping && !cmd.jumpReleased && r.holdTimer < r.maxHold)
            && r.maxHold == s.maxHold && r.canDouble == s.canDouble && r.lastDashTime == s.lastDashTime
  {
  }

  /** A jump that is not held or is at its cap ends in the frame; no frame starts one without a press. */
  lemma NoJumpWithoutPress(rule: HoldRule, s: JumpState, cmd: Command, grounded: bool, du: bool,
                           now: real, dt: real)
    requires !cmd.jumpPressed && !s.jumping
    ensures !Frame(rule, s, cmd, grounded, du, now, dt).jumping
  {
  }

  /** The wait never is negative when clips have non-negative lengths. */
  lemma {:induction false} AutoClearWaitNonNegative(clipName: string, controller: Option<seq<Option<Clip>>>,
                                                    fallback: real)
    requires controller.Some? ==> forall i :: 0 <= i < |controller.value| && controller.value[i].Some? ==>
                                               controller.value[i].value.length >= 0.0
    ensures AutoClearWait(clipName, controller, fallback) >= 0.0
    ensures clipName == [] || controller.None? ==> AutoClearWait(clipName, controller, fallback) == Max(0.0, fallback)
  {
  }
}
