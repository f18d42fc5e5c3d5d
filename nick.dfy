/**
 * `Nick`: the older single-class player controller. It keeps the momentum,
 * boost-timer, jump and dash rules of the split controllers in one class,
 * with these differences: horizontal input comes from two keys, the double
 * jump and the dash are refilled on landing with no ability gate, the dash
 * goes along the last non-zero input, a jump cuts an active dash short (but
 * does not stop the dash routine), and while dashing the fixed step only
 * pins the velocity.
 *
 * Each method of the class is proved to move the controller's fields and
 * the body's fields (a `Scene`) as a pure function `After...` says; the
 * properties are lemmas about those functions.
 */
module NickController {
  import opened UnityMath
  import opened Physics
  import opened Input
  import opened Movement
  import opened Jump
  import Dash

  /** The keys read this frame: A and D held, Space and Shift edges. */
  datatype Keys = Keys(left: bool, right: bool, jumpPressed: bool, jumpHeld: bool, jumpReleased: bool,
                       dashPressed: bool)

  /** The horizontal input: -1, 0 or +1 from the two keys. */
  function Axis(k: Keys): (r: real)
    ensures r == -1.0 || r == 0.0 || r == 1.0
    ensures r == 0.0 <==> k.left == k.right
    ensures r == 1.0 <==> k.right && !k.left
  {
    (if k.right then 1.0 else 0.0) - (if k.left then 1.0 else 0.0)
  }

  /** The keys as the command the split controllers read. */
  function AsCommand(k: Keys): Command
  {
    Command(Axis(k), k.jumpPressed, k.jumpHeld, k.jumpReleased, k.dashPressed, false)
  }

  datatype NickDashTuning = NickDashTuning(dashSpeed: real, dashDuration: real, dashCooldown: real, dashCarryOver: real)

  const DefaultNickDashTuning := NickDashTuning(13.0, 0.2, 1.0, 0.5)

  /** The inspector values, the hold rule computed from them, and the gravity saved at `Start`. */
  datatype NickConfig = NickConfig(tuning: Tuning, jump: JumpTuning, rule: HoldRule, dash: NickDashTuning,
                                   originalGravity: real)

  /** The dash routine; its first part keeps the gravity it saved in a local. */
  datatype NickDashPhase = Ready | Dashing(until: real, savedGravity: real) | Cooldown(until: real)

  /** The controller's fields; `jump.canDouble` is `hasDoublejump`, `jump.maxHold` is `currentMaxJumpHold`. */
  datatype NickState = NickState(
    inputDir: real,
    lastMoveDir: real,
    grounded: bool,
    sameDirTimer: real,
    lastDirSign: int,
    jump: JumpState,
    hasDash: bool,
    canDash: bool,
    isDashing: bool,
    phase: NickDashPhase,
    momentumX: real)

  /** The controller's fields together with the body's. */
  datatype Scene = Scene(nick: NickState, body: BodyState)

  /**
   * What holds between frames: the dash is available exactly while its
   * routine is not running, the dash flag is only set during the dash part
   * of the routine, the last direction is a unit, the input is -1, 0 or +1,
   * and the boost timer and the last sign are in range.
   */
  predicate Inv(s: NickState)
  {
    && (s.canDash <==> s.phase == Ready)
    && (s.isDashing ==> s.phase.Dashing?)
    && (s.lastMoveDir == 1.0 || s.lastMoveDir == -1.0)
    && (s.inputDir == -1.0 || s.inputDir == 0.0 || s.inputDir == 1.0)
    && s.sameDirTimer >= 0.0 && -1 <= s.lastDirSign <= 1
  }

  // ---------------------------------------------------------------------
  // The rules, on values
  // ---------------------------------------------------------------------

  /** Input and facing: the axis from the keys, the last non-zero direction, the sprite flip. */
  function AfterReadInput(s: Scene, k: Keys): Scene
  {
    var ax := Axis(k);
    Scene(s.nick.(inputDir := ax, lastMoveDir := if ax != 0.0 then ax else s.nick.lastMoveDir),
          s.body.(scaleX := FacingAfter(s.body.scaleX, ax)))
  }

  /** `EndDashImmediately`: the dash flag cleared and the original gravity back. */
  function AfterEndDash(c: NickConfig, s: Scene): Scene
  {
    Scene(s.nick.(isDashing := false), s.body.(gravityScale := c.originalGravity))
  }

  /**
   * `StartJump`: an active dash is ended, the vertical velocity zeroed, the
   * impulse queued, a new hold begun with the cap of this moment, and
   * momentum synchronised with the body.
   */
  function AfterStartJump(c: NickConfig, s: Scene, now: real): Scene
  {
    var s1 := if s.nick.isDashing then AfterEndDash(c, s) else s;
    Scene(s1.nick.(jump := Launch(c.rule, s1.nick.jump, now), momentumX := s1.body.vx),
          s1.body.(vy := 0.0, pendingImpulseY := s1.body.pendingImpulseY + c.jump.jumpImpulse))
  }

  /** The ground jump, then the double jump, which spends `hasDoublejump`. */
  function AfterPresses(c: NickConfig, s: Scene, k: Keys, now: real): Scene
  {
    var s1 := if k.jumpPressed && s.nick.grounded then AfterStartJump(c, s, now) else s;
    if k.jumpPressed && s1.nick.jump.canDouble && !s1.nick.grounded then
      var s2 := AfterStartJump(c, s1, now);
      s2.(nick := s2.nick.(jump := s2.nick.jump.(canDouble := false)))
    else s1
  }

  /** The hold timer, then the end of the jump on release or at the cap. */
  function AfterHold(s: Scene, k: Keys, dt: real): Scene
  {
    s.(nick := s.nick.(jump := Hold(s.nick.jump, AsCommand(k), dt)))
  }

  /**
   * The dash routine up to its first wait, along `direction`: the dash is
   * taken and spent, its time recorded, gravity saved and switched off, and
   * momentum and velocity set to the dash speed with no vertical part.
   */
  function AfterStartDash(c: NickConfig, s: Scene, direction: real, now: real): Scene
  {
    var v := direction * c.dash.dashSpeed;
    Scene(s.nick.(canDash := false, hasDash := false, isDashing := true,
                  jump := s.nick.jump.(lastDashTime := now), momentumX := v,
                  phase := Dashing(now + c.dash.dashDuration, s.body.gravityScale)),
          s.body.(gravityScale := 0.0, vx := v, vy := 0.0))
  }

  /** Whether this frame's Shift press starts a dash. */
  predicate Dashes(s: NickState, k: Keys)
  {
    k.dashPressed && s.canDash && s.hasDash
  }

  /** The dash along the last non-zero input, then the landing refill of the double jump and the dash. */
  function AfterDashAndRefill(c: NickConfig, s: Scene, k: Keys, now: real): Scene
  {
    var s1 := if Dashes(s.nick, k) then AfterStartDash(c, s, s.nick.lastMoveDir, now) else s;
    if s1.nick.grounded then s1.(nick := s1.nick.(jump := s1.nick.jump.(canDouble := true), hasDash := true))
    else s1
  }

  /** The boost timer, as in `Movement2D`. */
  function AfterBoostTimer(s: Scene, dt: real): Scene
  {
    var t := TimerStep(s.nick.sameDirTimer, s.nick.lastDirSign, s.nick.inputDir, dt);
    s.(nick := s.nick.(sameDirTimer := t.0, lastDirSign := t.1))
  }

  /** One `Update`: input, ground probe, jumps, hold, dash and refill, boost timer. */
  function AfterUpdate(c: NickConfig, s: Scene, k: Keys, groundedNow: bool, now: real, dt: real): Scene
  {
    var s1 := AfterReadInput(s, k);
    var s2 := s1.(nick := s1.nick.(grounded := groundedNow));
    var s3 := AfterHold(AfterPresses(c, s2, k, now), k, dt);
    AfterBoostTimer(AfterDashAndRefill(c, s3, k, now), dt)
  }

  /**
   * One `FixedUpdate`. While dashing the velocity is pinned to the momentum
   * with no vertical part. Otherwise momentum takes the same step as
   * `Movement2D` and the hold force lifts a held jump below its cap.
   */
  function AfterFixedUpdate(c: NickConfig, s: Scene, wallRight: bool, wallLeft: bool, dt: real): Scene
  {
    if s.nick.isDashing then s.(body := s.body.(vx := s.nick.momentumX, vy := 0.0))
    else
      var m := MomentumStep(c.tuning, s.nick.momentumX, s.nick.sameDirTimer,
                            StepInput(s.nick.inputDir, s.nick.grounded, wallRight, wallLeft, s.body.vx, dt));
      var lift := s.nick.jump.jumping && s.nick.jump.holdTimer < s.nick.jump.maxHold;
      Scene(s.nick.(momentumX := m),
            s.body.(vx := m, vy := if lift then s.body.vy + c.jump.jumpHoldForce * dt else s.body.vy))
  }

  /**
   * The dash routine resumed on a later frame at time `now`. After the dash
   * it restores the gravity it saved, clears the dash flag and keeps a share
   * of the body's horizontal velocity as momentum, whether or not a jump
   * already ended the dash; after the cooldown the dash is available again.
   */
  function AfterResume(c: NickConfig, s: Scene, now: real): Scene
  {
    match s.nick.phase
    case Dashing(until, savedGravity) =>
      if now >= until then
        Scene(s.nick.(isDashing := false, momentumX := Dash.Carry(s.body.vx, c.dash.dashCarryOver),
                      phase := Cooldown(now + c.dash.dashCooldown)),
              s.body.(gravityScale := savedGravity))
      else s
    case Cooldown(until) =>
      if now >= until then s.(nick := s.nick.(canDash := true, phase := Ready)) else s
    case Ready => s
  }

  // ---------------------------------------------------------------------
  // The component
  // ---------------------------------------------------------------------

  class Nick {
    const cfg: NickConfig
    const body: Body

    var inputDir: real
    var sameDirTimer: real
    var lastDirSign: int
    var grounded: bool
    var jumping: bool
    var hasDoublejump: bool
    var hasDash: bool
    var canDash: bool
    var isDashing: bool
    var lastMoveDir: real
    var jumpHoldTimer: real
    var currentMaxJumpHold: real
    var lastDashTime: real
    /** `momentum.x`; `momentum.y` is never read or written. */
    var momentumX: real
    /** Where the dash routine is. */
    var phase: NickDashPhase

    function State(): NickState
      reads this
    {
      NickState(inputDir, lastMoveDir, grounded, sameDirTimer, lastDirSign,
                JumpState(jumpHoldTimer, currentMaxJumpHold, jumping, hasDoublejump, lastDashTime),
                hasDash, canDash, isDashing, phase, momentumX)
    }

    function Snap(): Scene
      reads this, body
    {
      Scene(State(), body.State())
    }

    ghost predicate Valid()
      reads this
    {
      Inv(State())
    }

    /** `Start`: the hold cap starts full and the body's gravity is remembered. */
    constructor (tn: Tuning, jt: JumpTuning, dn: NickDashTuning, rb: Body)
      ensures Valid()
      ensures cfg == NickConfig(tn, jt, RuleOf(jt), dn, rb.gravityScale) && body == rb
      ensures State() == NickState(0.0, 1.0, false, 0.0, 0,
                                   JumpState(0.0, jt.maxJumpHoldTime, false, false, NoDashYet),
                                   false, true, false, Ready, 0.0)
    {
      cfg := NickConfig(tn, jt, RuleOf(jt), dn, rb.gravityScale);
      body := rb;
      inputDir, sameDirTimer, lastDirSign := 0.0, 0.0, 0;
      grounded, jumping, hasDoublejump, hasDash := false, false, false, false;
      canDash, isDashing := true, false;
      lastMoveDir := 1.0;
      jumpHoldTimer, currentMaxJumpHold, lastDashTime := 0.0, jt.maxJumpHoldTime, NoDashYet;
      momentumX := 0.0;
      phase := Ready;
    }

    /** The frame update at time `now` with the keys `k` and the ground probe's answer. */
    method Update(k: Keys, groundedNow: bool, now: real, dt: real)
      modifies this, body
      ensures Snap() == AfterUpdate(cfg, old(Snap()), k, groundedNow, now, dt)
    {
      ReadInput(k);
      grounded := groundedNow;
      PressJumps(k, now);
      HoldJump(k, dt);
      DashAndRefill(k, now);
      BoostTimer(dt);
    }

    method ReadInput(k: Keys)
      modifies this, body
      ensures Snap() == AfterReadInput(old(Snap()), k)
    {
      inputDir := 0.0;
      if k.left {
        inputDir := inputDir - 1.0;
      }
      if k.right {
        inputDir := inputDir + 1.0;
      }
      if inputDir != 0.0 {
        lastMoveDir := inputDir;
      }
      if inputDir < 0.0 {
        body.scaleX := -1.0;
      } else if inputDir > 0.0 {
        body.scaleX := 1.0;
      }
    }

    method PressJumps(k: Keys, now: real)
      modifies this, body
      ensures Snap() == AfterPresses(cfg, old(Snap()), k, now)
    {
      if k.jumpPressed && grounded {
        StartJump(now);
      }
      if k.jumpPressed && hasDoublejump && !grounded {
        StartJump(now);
        hasDoublejump := false;
      }
    }

    method HoldJump(k: Keys, dt: real)
      modifies this
      ensures Snap() == AfterHold(old(Snap()), k, dt)
    {
      if jumping && k.jumpHeld && jumpHoldTimer < currentMaxJumpHold {
        jumpHoldTimer := jumpHoldTimer + dt;
      }
      if jumping && (k.jumpReleased || jumpHoldTimer >= currentMaxJumpHold) {
        jumping := false;
      }
    }

    method DashAndRefill(k: Keys, now: real)
      modifies this, body
      ensures Snap() == AfterDashAndRefill(cfg, old(Snap()), k, now)
    {
      if k.dashPressed && canDash && hasDash {
        StartDash(lastMoveDir, now);
      }
      if grounded {
        hasDoublejump := true;
        hasDash := true;
      }
    }

    method BoostTimer(dt: real)
      modifies this
      ensures Snap() == AfterBoostTimer(old(Snap()), dt)
    {
      var currentSign := SignInt(inputDir);
      if currentSign != 0 {
        if currentSign == lastDirSign {
          sameDirTimer := sameDirTimer + dt;
        } else {
          sameDirTimer := 0.0;
          lastDirSign := currentSign;
        }
      } else {
        // Sign(0) is +1, so the sign is never 0 and the decay branch is dead.
        assert false;
      }
    }

    method StartJump(now: real)
      modifies this, body
      ensures Snap() == AfterStartJump(cfg, old(Snap()), now)
    {
      var withinDashWindow := now - lastDashTime <= cfg.rule.window;
      if isDashing {
        EndDashImmediately();
      }
      body.vy, body.pendingImpulseY := 0.0, body.pendingImpulseY + cfg.jump.jumpImpulse;
      currentMaxJumpHold := if withinDashWindow then cfg.rule.short else cfg.rule.full;
      momentumX, jumping, jumpHoldTimer := body.vx, true, 0.0;
    }

    method EndDashImmediately()
      modifies this, body
      ensures Snap() == AfterEndDash(cfg, old(Snap()))
    {
      isDashing := false;
      body.gravityScale := cfg.originalGravity;
    }

    /** `DashRoutine` up to its first wait. */
    method StartDash(direction: real, now: real)
      modifies this, body
      ensures Snap() == AfterStartDash(cfg, old(Snap()), direction, now)
    {
      var savedGravity := body.gravityScale;
      var dashVX := direction * cfg.dash.dashSpeed;
      canDash, hasDash, isDashing, lastDashTime := false, false, true, now;
      momentumX, phase := dashVX, Dashing(now + cfg.dash.dashDuration, savedGravity);
      body.gravityScale, body.vx, body.vy := 0.0, dashVX, 0.0;
    }

    /** The physics step; the wall probes' answers are parameters. */
    method FixedUpdate(wallRight: bool, wallLeft: bool, dt: real)
      modifies this, body
      ensures Snap() == AfterFixedUpdate(cfg, old(Snap()), wallRight, wallLeft, dt)
    {
      if isDashing {
        body.vx, body.vy := momentumX, 0.0;
        return;
      }
      var inp := StepInput(inputDir, grounded, wallRight, wallLeft, body.vx, dt);
      momentumX := MomentumStep(cfg.tuning, momentumX, sameDirTimer, inp);
      var vy := body.vy;
      if jumping && jumpHoldTimer < currentMaxJumpHold {
        vy := vy + cfg.jump.jumpHoldForce * dt;
      }
      body.vx, body.vy := momentumX, vy;
    }

    /** The dash routine resumed by the engine at time `now`. */
    method Resume(now: real)
      modifies this, body
      ensures Snap() == AfterResume(cfg, old(Snap()), now)
    {
      match phase {
        case Dashing(until, savedGravity) =>
          if now >= until {
            body.gravityScale := savedGravity;
            isDashing, momentumX := false, Dash.Carry(body.vx, cfg.dash.dashCarryOver);
            phase := Cooldown(now + cfg.dash.dashCooldown);
          }
        case Cooldown(until) =>
          if now >= until {
            canDash := true;
            phase := Ready;
          }
        case Ready =>
      }
    }
  }

  // ---------------------------------------------------------------------
  // Properties
  // ---------------------------------------------------------------------

  /**
   * The presses on the jump fields: a ground jump launches, an air jump with
   * `hasDoublejump` left launches and spends it, and otherwise nothing
   * changes (the rules of `Jump.Kind` with the double jump always
   * unlocked). The dash fields are untouched.
   */
  lemma PressesFollowKind(c: NickConfig, s: Scene, k: Keys, now: real)
    ensures var p := AfterPresses(c, s, k, now);
            && p.nick.jump == (match Kind(s.nick.jump, AsCommand(k), s.nick.grounded, true)
                               case GroundJump => Launch(c.rule, s.nick.jump, now)
                               case AirJump => Launch(c.rule, s.nick.jump, now).(canDouble := false)
                               case NoJump => s.nick.jump)
            && p.nick.canDash == s.nick.canDash && p.nick.hasDash == s.nick.hasDash
            && p.nick.phase == s.nick.phase && p.nick.grounded == s.nick.grounded
            && p.nick.lastMoveDir == s.nick.lastMoveDir
  {
    var s1 := if k.jumpPressed && s.nick.grounded then AfterStartJump(c, s, now) else s;
    assert s1.nick.grounded == s.nick.grounded;
    assert s1.nick.jump.canDouble == s.nick.jump.canDouble;
  }

  /**
   * The jump fields follow the rules of `Jump2D` with the double jump always
   * unlocked: refilling after the presses (here) or before them
   * (`Jump.Frame`) ends in the same state, because only an airborne press
   * reads the refill. A dash in the same frame only records its time.
   */
  lemma UpdateFollowsJumpRules(c: NickConfig, s: Scene, k: Keys, g: bool, now: real, dt: real)
    ensures AfterUpdate(c, s, k, g, now, dt).nick.jump
            == Frame(c.rule, s.nick.jump, AsCommand(k), g, true, now, dt)
                 .(lastDashTime := if Dashes(s.nick, k) then now else s.nick.jump.lastDashTime)
  {
    var s1 := AfterReadInput(s, k);
    var s2 := s1.(nick := s1.nick.(grounded := g));
    PressesFollowKind(c, s2, k, now);
    var p := AfterPresses(c, s2, k, now);
    var h := AfterHold(p, k, dt);
    assert Dashes(h.nick, k) == Dashes(s.nick, k);
  }

  /** A frame keeps the invariant. */
  lemma UpdateKeepsInv(c: NickConfig, s: Scene, k: Keys, g: bool, now: real, dt: real)
    requires Inv(s.nick) && dt >= 0.0
    ensures Inv(AfterUpdate(c, s, k, g, now, dt).nick)
  {
    var s1 := AfterReadInput(s, k);
    var s2 := s1.(nick := s1.nick.(grounded := g));
    var s3 := AfterHold(AfterPresses(c, s2, k, now), k, dt);
    assert s3.nick.phase == s.nick.phase && s3.nick.canDash == s.nick.canDash;
    assert s3.nick.isDashing ==> s.nick.isDashing;
    var s4 := AfterDashAndRefill(c, s3, k, now);
    assert Inv(s4.nick);
  }

  /**
   * A dash starts exactly on a Shift press with the dash available and
   * refilled. It then takes the gravity the frame began with (no dash was
   * running to be cut by a jump), switches gravity off, and sets momentum
   * and velocity to the dash speed along the last non-zero input, with no
   * vertical part. Without a dash the routine and the availability are
   * untouched.
   */
  lemma UpdateDash(c: NickConfig, s: Scene, k: Keys, g: bool, now: real, dt: real)
    requires Inv(s.nick)
    ensures var r := AfterUpdate(c, s, k, g, now, dt);
            && (Dashes(s.nick, k) ==>
                  && r.nick.isDashing && !r.nick.canDash
                  && r.nick.phase == Dashing(now + c.dash.dashDuration, s.body.gravityScale)
                  && r.body.gravityScale == 0.0
                  && r.nick.momentumX == r.nick.lastMoveDir * c.dash.dashSpeed
                  && r.body.vx == r.nick.momentumX && r.body.vy == 0.0)
            && (!Dashes(s.nick, k) ==> r.nick.phase == s.nick.phase && r.nick.canDash == s.nick.canDash)
  {
    var s1 := AfterReadInput(s, k);
    var s2 := s1.(nick := s1.nick.(grounded := g));
    var s3 := AfterHold(AfterPresses(c, s2, k, now), k, dt);
    if Dashes(s.nick, k) {
      assert !s.nick.isDashing;
      assert s3.body.gravityScale == s.body.gravityScale;
    }
  }

  /** The dash is refilled exactly by landing, and spent exactly by dashing. */
  lemma UpdateHasDash(c: NickConfig, s: Scene, k: Keys, g: bool, now: real, dt: real)
    ensures AfterUpdate(c, s, k, g, now, dt).nick.hasDash == (g || (s.nick.hasDash && !Dashes(s.nick, k)))
  {
    var s1 := AfterReadInput(s, k);
    var s2 := s1.(nick := s1.nick.(grounded := g));
    var s3 := AfterHold(AfterPresses(c, s2, k, now), k, dt);
    assert s3.nick.hasDash == s.nick.hasDash && s3.nick.canDash == s.nick.canDash;
  }

  /**
   * A jump during a dash ends the dash at once: the flag is cleared and the
   * original gravity restored, though the routine itself keeps running.
   */
  lemma JumpCutsDash(c: NickConfig, s: Scene, k: Keys, g: bool, now: real, dt: real)
    requires Inv(s.nick) && s.nick.isDashing
    requires Kind(s.nick.jump, AsCommand(k), g, true) != NoJump
    ensures var r := AfterUpdate(c, s, k, g, now, dt);
            && !r.nick.isDashing && r.body.gravityScale == c.originalGravity
            && r.nick.phase == s.nick.phase && r.body.vy == 0.0
  {
    var s1 := AfterReadInput(s, k);
    var s2 := s1.(nick := s1.nick.(grounded := g));
    var p := AfterPresses(c, s2, k, now);
    assert !p.nick.isDashing && p.body.gravityScale == c.originalGravity && p.body.vy == 0.0;
    assert !Dashes(s.nick, k);
  }

  /** While the routine runs, no frame starts another dash. */
  lemma NoDashWhileRoutineRuns(c: NickConfig, s: Scene, k: Keys, g: bool, now: real, dt: real)
    requires Inv(s.nick) && s.nick.phase != Ready
    ensures AfterUpdate(c, s, k, g, now, dt).nick.phase == s.nick.phase
    ensures !AfterUpdate(c, s, k, g, now, dt).nick.canDash
  {
    UpdateDash(c, s, k, g, now, dt);
  }

  /**
   * The fixed step: while dashing it only pins the velocity to the momentum;
   * otherwise the momentum takes the `Movement2D` step, so (with
   * non-negative speeds) it stays within the speed cap of the boost timer.
   */
  lemma FixedUpdateRules(c: NickConfig, s: Scene, wallRight: bool, wallLeft: bool, dt: real)
    requires c.tuning.baseMaxSpeed >= 0.0 && c.tuning.boostedMaxSpeed >= 0.0
    ensures var r := AfterFixedUpdate(c, s, wallRight, wallLeft, dt);
            && r.nick.jump == s.nick.jump && r.nick.phase == s.nick.phase
            && (s.nick.isDashing ==>
                  r.nick == s.nick && r.body.vx == s.nick.momentumX && r.body.vy == 0.0)
            && (!s.nick.isDashing ==>
                  && Abs(r.nick.momentumX) <= MaxSpeedNow(c.tuning, s.nick.sameDirTimer)
                  && r.body.vx == r.nick.momentumX
                  && (s.nick.jump.jumping && s.nick.jump.holdTimer < s.nick.jump.maxHold ==>
                        r.body.vy == s.body.vy + c.jump.jumpHoldForce * dt)
                  && (!(s.nick.jump.jumping && s.nick.jump.holdTimer < s.nick.jump.maxHold) ==>
                        r.body.vy == s.body.vy))
  {
    if !s.nick.isDashing {
      MomentumStepCapped(c.tuning, s.nick.momentumX, s.nick.sameDirTimer,
                         StepInput(s.nick.inputDir, s.nick.grounded, wallRight, wallLeft, s.body.vx, dt));
    }
  }

  /** Resuming the routine keeps the invariant. */
  lemma ResumeKeepsInv(c: NickConfig, s: Scene, now: real)
    requires Inv(s.nick)
    ensures Inv(AfterResume(c, s, now).nick)
  {
  }

  /**
   * The routine ends its dash part at the first resume at or after its
   * deadline: the saved gravity comes back, the flag is cleared, momentum
   * keeps the carried share of the velocity and the cooldown starts then.
   * It makes the dash available at the first resume after the cooldown.
   */
  lemma ResumeRules(c: NickConfig, s: Scene, now: real)
    ensures var r := AfterResume(c, s, now);
            && (s.nick.phase.Dashing? && now >= s.nick.phase.until ==>
                  && r.nick.phase == Cooldown(now + c.dash.dashCooldown)
                  && r.body.gravityScale == s.nick.phase.savedGravity && !r.nick.isDashing
                  && r.nick.momentumX == Dash.Carry(s.body.vx, c.dash.dashCarryOver))
            && (s.nick.phase.Cooldown? && now >= s.nick.phase.until ==> r.nick.phase == Ready && r.nick.canDash)
            && (s.nick.phase == Ready || now < s.nick.phase.until ==> r == s)
            && r.nick.jump == s.nick.jump && r.body.vx == s.body.vx && r.body.vy == s.body.vy
  {
  }

  /**
   * A jump during a dash ends the dash at once, yet the dash routine still
   * finishes: when its deadline passes it overwrites the momentum with the
   * carried share of the velocity and puts back the gravity it saved.
   */
  method JumpDuringDash(n: Nick, tJump: real, tEnd: real)
    requires n.Valid() && n.isDashing && tEnd >= n.phase.until
    modifies n, n.body
    ensures n.Valid()
    ensures !n.isDashing && n.jumping
    ensures n.phase == Cooldown(tEnd + n.cfg.dash.dashCooldown)
    ensures n.body.gravityScale == old(n.phase).savedGravity
    ensures n.momentumX == Dash.Carry(old(n.body.vx), n.cfg.dash.dashCarryOver)
  {
    n.StartJump(tJump);
    ResumeKeepsInv(n.cfg, n.Snap(), tEnd);
    n.Resume(tEnd);
  }
}
