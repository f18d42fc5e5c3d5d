/**
 * The dash controller (`Dash2D`): a gated start, then the dash routine as an
 * explicit phase machine Ready -> Dashing -> Cooldown -> Ready. The routine's
 * two waits become deadlines; `Resume` stands for the engine resuming the
 * routine on a later frame.
 */
module Dash {
  import opened UnityMath
  import opened Physics
  import opened Input
  import opened AbilitySystem
  import opened Movement
  import opened Jump

  datatype DashTuning = DashTuning(dashSpeed: real, dashDuration: real, dashCooldown: real, dashCarryOver: real)

  const DefaultDashTuning := DashTuning(10.0, 0.2, 1.0, 0.5)

  /** Where the dash routine is: not running, dashing until a deadline, or cooling down until one. */
  datatype DashPhase = Ready | Dashing(until: real) | Cooldown(until: real)

  /**
   * The dash direction: the facing when the stick is near the centre,
   * otherwise the stick's side. Always +1 or -1.
   */
  function DashDirection(moveAxis: real, scaleX: real): (dir: real)
    ensures dir == 1.0 || dir == -1.0
    ensures Abs(moveAxis) >= 0.1 ==> (dir > 0.0 <==> moveAxis > 0.0)
    ensures Abs(moveAxis) < 0.1 ==> (dir > 0.0 <==> scaleX >= 0.0)
  {
    if Abs(moveAxis) < 0.1 then Sign(scaleX) else Sign(moveAxis)
  }

  /** The momentum carried out of a dash: the exit velocity scaled by the carry-over factor. */
  function Carry(exitVx: real, carryOver: real): real
  {
    exitVx * carryOver
  }

  /** With the carry-over factor in [0, 1] the carried speed never exceeds the exit speed, nor flips it. */
  lemma CarryBounded(exitVx: real, carryOver: real)
    requires 0.0 <= carryOver <= 1.0
    ensures Abs(Carry(exitVx, carryOver)) <= Abs(exitVx)
    ensures exitVx >= 0.0 ==> Carry(exitVx, carryOver) >= 0.0
    ensures exitVx <= 0.0 ==> Carry(exitVx, carryOver) <= 0.0
  {
    ScaleWithin(Abs(exitVx), carryOver);
    if exitVx < 0.0 {
      assert Carry(exitVx, carryOver) == -(Abs(exitVx) * carryOver);
    } else {
      assert Carry(exitVx, carryOver) == Abs(exitVx) * carryOver;
    }
  }

  class Dash2D {
    const tuning: DashTuning
    const movement: Movement2D
    const abilities: Abilities?
    const jump2D: Jump2D?

    var canDash: bool
    var isDashing: bool
    var savedGravity: real
    var phase: DashPhase

    /** `canDash` is down exactly while the routine runs, `isDashing` exactly during its first wait. */
    ghost predicate Valid()
      reads this
    {
      (canDash <==> phase == Ready) && (isDashing <==> phase.Dashing?)
    }

    function DashUnlocked(): bool
      reads this, abilities
    {
      abilities != null && abilities.Has(Dash)
    }

    constructor (tn: DashTuning, mv: Movement2D, ab: Abilities?, jp: Jump2D?)
      ensures Valid()
      ensures tuning == tn && movement == mv && abilities == ab && jump2D == jp
      ensures canDash && !isDashing && phase == Ready
    {
      tuning, movement, abilities, jump2D := tn, mv, ab, jp;
      canDash, isDashing := true, false;
      savedGravity := 0.0;
      phase := Ready;
    }

    /**
     * The frame update at time `now`: a dash starts exactly on a press while
     * the dash is available and unlocked. Starting runs the routine up to
     * its first wait: the dash is taken, the speed cap lifted, the jump
     * controller told, gravity saved and switched off, and the body sent
     * along `DashDirection` at dash speed with no vertical velocity.
     */
    method Update(cmd: Command, now: real)
      requires Valid()
      modifies this, movement, movement.body, jump2D
      ensures Valid()
      ensures var starts := cmd.dashPressed && old(canDash) && old(DashUnlocked());
              && (starts ==>
                    && phase == Dashing(now + tuning.dashDuration)
                    && savedGravity == old(movement.body.gravityScale)
                    && movement.body.gravityScale == 0.0
                    && movement.ignoreMaxSpeed
                    && movement.body.vx == DashDirection(cmd.moveAxis, old(movement.body.scaleX)) * tuning.dashSpeed
                    && movement.momentumX == movement.body.vx
                    && movement.body.vy == 0.0
                    && (jump2D != null ==>
                          && jump2D.State() == old(jump2D.State()).(lastDashTime := now)
                          && jump2D.autoClear == old(jump2D.autoClear)))
              && (!starts ==>
                    && phase == old(phase) && savedGravity == old(savedGravity)
                    && movement.body.gravityScale == old(movement.body.gravityScale)
                    && movement.ignoreMaxSpeed == old(movement.ignoreMaxSpeed)
                    && movement.body.vx == old(movement.body.vx) && movement.momentumX == old(movement.momentumX)
                    && movement.body.vy == old(movement.body.vy)
                    && (jump2D != null ==>
                          && jump2D.State() == old(jump2D.State())
                          && jump2D.autoClear == old(jump2D.autoClear)))
      ensures movement.body.scaleX == old(movement.body.scaleX)
      ensures movement.body.pendingImpulseY == old(movement.body.pendingImpulseY)
      ensures movement.momentumY == old(movement.momentumY) && movement.suppressJumping == old(movement.suppressJumping)
      ensures movement.sameDirTimer == old(movement.sameDirTimer) && movement.lastDirSign == old(movement.lastDirSign)
    {
      if cmd.dashPressed && canDash && abilities != null && abilities.Has(Dash) {
        var dir := if Abs(cmd.moveAxis) < 0.1 then Sign(movement.body.scaleX) else Sign(cmd.moveAxis);
        StartDash(dir, now);
      }
    }

    /** The dash routine up to its first wait. */
    method StartDash(direction: real, now: real)
      modifies this, movement, movement.body, jump2D
      ensures Valid()
      ensures phase == Dashing(now + tuning.dashDuration)
      ensures savedGravity == old(movement.body.gravityScale) && movement.body.gravityScale == 0.0
      ensures movement.ignoreMaxSpeed
      ensures movement.body.vx == direction * tuning.dashSpeed && movement.momentumX == movement.body.vx
      ensures movement.body.vy == 0.0
      ensures jump2D != null ==>
                jump2D.State() == old(jump2D.State()).(lastDashTime := now) && jump2D.autoClear == old(jump2D.autoClear)
      ensures movement.body.scaleX == old(movement.body.scaleX)
      ensures movement.body.pendingImpulseY == old(movement.body.pendingImpulseY)
      ensures movement.momentumY == old(movement.momentumY) && movement.suppressJumping == old(movement.suppressJumping)
      ensures movement.sameDirTimer == old(movement.sameDirTimer) && movement.lastDirSign == old(movement.lastDirSign)
    {
      canDash := false;
      isDashing := true;
      movement.ignoreMaxSpeed := true;
      if jump2D != null {
        jump2D.NotifyDashStarted(now);
      }
      var rb := movement.body;
      savedGravity := rb.gravityScale;
      rb.gravityScale := 0.0;
      var dashVX := direction * tuning.dashSpeed;
      movement.SetHorizontalVelocity(dashVX);
      rb.vx, rb.vy := dashVX, 0.0;
      phase := Dashing(now + tuning.dashDuration);
    }

    /**
     * The routine resumed on a later frame at time `now`. When the dash
     * deadline has passed: gravity is restored, the dash flag and the speed
     * cap lift are cleared, momentum keeps `Carry` of the exit velocity, and
     * the cooldown starts. When the cooldown deadline has passed the dash is
     * available again. Before a deadline nothing changes.
     */
    method Resume(now: real)
      requires Valid()
      modifies this, movement, movement.body
      ensures Valid()
      ensures phase == NextPhase(old(phase), now, tuning.dashCooldown)
      ensures old(phase).Dashing? && now >= old(phase).until ==>
                && phase == Cooldown(now + tuning.dashCooldown)
                && movement.body.gravityScale == old(savedGravity)
                && !movement.ignoreMaxSpeed
                && movement.momentumX == Carry(old(movement.body.vx), tuning.dashCarryOver)
                && movement.body.vx == movement.momentumX
      ensures old(phase).Cooldown? && now >= old(phase).until ==>
                && phase == Ready
                && movement.body.gravityScale == old(movement.body.gravityScale)
                && movement.ignoreMaxSpeed == old(movement.ignoreMaxSpeed)
                && movement.momentumX == old(movement.momentumX) && movement.body.vx == old(movement.body.vx)
      ensures (old(phase) == Ready || now < old(phase).until) ==>
                && phase == old(phase)
                && movement.body.gravityScale == old(movement.body.gravityScale)
                && movement.ignoreMaxSpeed == old(movement.ignoreMaxSpeed)
                && movement.momentumX == old(movement.momentumX) && movement.body.vx == old(movement.body.vx)
      ensures savedGravity == old(savedGravity)
      ensures movement.body.vy == old(movement.body.vy) && movement.body.scaleX == old(movement.body.scaleX)
      ensures movement.body.pendingImpulseY == old(movement.body.pendingImpulseY)
      ensures movement.momentumY == old(movement.momentumY) && movement.suppressJumping == old(movement.suppressJumping)
      ensures movement.sameDirTimer == old(movement.sameDirTimer) && movement.lastDirSign == old(movement.lastDirSign)
    {
      match phase {
        case Dashing(until) =>
          if now >= until {
            var rb := movement.body;
            rb.gravityScale := savedGravity;
            isDashing := false;
            movement.ignoreMaxSpeed := false;
            var carry := rb.vx * tuning.dashCarryOver;
            movement.SetHorizontalVelocity(carry);
            phase := Cooldown(now + tuning.dashCooldown);
          }
        case Cooldown(until) =>
          if now >= until {
            canDash := true;
            phase := Ready;
          }
        case Ready =>
      }
      assert phase == NextPhase(old(phase), now, tuning.dashCooldown);
    }
  }

  /**
   * Phase order of the routine: resuming only ever moves it one step along
   * Ready -> Dashing -> Cooldown -> Ready, and only once the deadline of the
   * current phase has passed; a press starts a dash only from Ready.
   */
  function NextPhase(p: DashPhase, now: real, cooldown: real): (q: DashPhase)
    ensures p == Ready ==> q == Ready
    ensures p.Dashing? ==> q == p || (now >= p.until && q == Cooldown(now + cooldown))
    ensures p.Cooldown? ==> (q == Ready <==> now >= p.until) && (q != Ready ==> q == p)
  {
    match p
    case Ready => Ready
    case Dashing(until) => if now >= until then Cooldown(now + cooldown) else p
    case Cooldown(until) => if now >= until then Ready else p
  }

  /**
   * No second dash before the cooldown ends: once a dash has started at
   * `start`, the routine is not back to Ready at any resume time earlier
   * than start + duration + cooldown.
   */
  lemma {:induction false} NoDashBeforeCooldown(tn: DashTuning, start: real, resumes: seq<real>)
    requires forall i :: 0 <= i < |resumes| ==> resumes[i] < start + tn.dashDuration + tn.dashCooldown
    ensures RunPhases(Dashing(start + tn.dashDuration), resumes, tn.dashCooldown) != Ready
    ensures RunPhases(Dashing(start + tn.dashDuration), resumes, tn.dashCooldown).Cooldown? ==>
              RunPhases(Dashing(start + tn.dashDuration), resumes, tn.dashCooldown).until
              >= start + tn.dashDuration + tn.dashCooldown
    decreases |resumes|
  {
    if |resumes| > 0 {
      var p := RunPhases(Dashing(start + tn.dashDuration), resumes[..|resumes| - 1], tn.dashCooldown);
      assert resumes[..|resumes| - 1] + [resumes[|resumes| - 1]] == resumes;
      RunPhasesSnoc(Dashing(start + tn.dashDuration), resumes[..|resumes| - 1], resumes[|resumes| - 1], tn.dashCooldown);
      NoDashBeforeCooldown(tn, start, resumes[..|resumes| - 1]);
      if p.Dashing? {
        assert p == Dashing(start + tn.dashDuration) by {
          DashingStays(start + tn.dashDuration, resumes[..|resumes| - 1], tn.dashCooldown);
        }
      }
    }
  }

  /** The phase after resuming at each time of `resumes` in turn. */
  function RunPhases(p: DashPhase, resumes: seq<real>, cooldown: real): DashPhase
    decreases |resumes|
  {
    if |resumes| == 0 then p
    else RunPhases(NextPhase(p, resumes[0], cooldown), resumes[1..], cooldown)
  }

  lemma {:induction false} RunPhasesSnoc(p: DashPhase, resumes: seq<real>, t: real, cooldown: real)
    ensures RunPhases(p, resumes + [t], cooldown) == NextPhase(RunPhases(p, resumes, cooldown), t, cooldown)
    decreases |resumes|
  {
    if |resumes| > 0 {
      assert (resumes + [t])[1..] == resumes[1..] + [t];
      RunPhasesSnoc(NextPhase(p, resumes[0], cooldown), resumes[1..], t, cooldown);
    }
  }

  /** While still dashing, the dash deadline has not moved. */
  lemma {:induction false} DashingStays(d: real, resumes: seq<real>, cooldown: real)
    ensures RunPhases(Dashing(d), resumes, cooldown).Dashing? ==> RunPhases(Dashing(d), resumes, cooldown) == Dashing(d)
    decreases |resumes|
  {
    if |resumes| > 0 {
      var q := NextPhase(Dashing(d), resumes[0], cooldown);
      if q.Dashing? {
        DashingStays(d, resumes[1..], cooldown);
      } else {
        CooldownNeverDashes(q, resumes[1..], cooldown);
      }
    }
  }

  /** Once past the dash, the routine never dashes again on its own. */
  lemma {:induction false} CooldownNeverDashes(p: DashPhase, resumes: seq<real>, cooldown: real)
    requires !p.Dashing?
    ensures !RunPhases(p, resumes, cooldown).Dashing?
    decreases |resumes|
  {
    if |resumes| > 0 {
      CooldownNeverDashes(NextPhase(p, resumes[0], cooldown), resumes[1..], cooldown);
    }
  }
}
