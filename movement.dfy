/**
 * The momentum integrator (`Movement2D`): a same-direction boost timer
 * advanced every frame, and a fixed-step update of the horizontal momentum
 * (wall cut, acceleration, friction, clamp) written into the rigidbody.
 *
 * The step is specified by the pure functions below, one per stage, and the
 * methods of `Movement2D` are proved to compute their composition.
 */
module Movement {
  import opened UnityMath
  import opened Physics
  import opened Input

  /** The inspector tuning of the integrator. */
  datatype Tuning = Tuning(
    baseMaxSpeed: real,
    boostedMaxSpeed: real,
    timeToMaxBoost: real,
    acceleration: real,
    groundFriction: real,
    airFriction: real,
    turnResistance: real,
    airControl: real,
    antiStickMinSpeed: real)

  const DefaultTuning := Tuning(5.0, 6.0, 1.5, 40.0, 10.0, 6.0, 0.6, 0.7, 0.3)

  /** The `[Range(0, 1)]` sliders of the inspector. */
  predicate InRange(tn: Tuning)
  {
    0.0 <= tn.turnResistance <= 1.0 && 0.0 <= tn.airControl <= 1.0
  }

  // ---------------------------------------------------------------------
  // Same-direction boost timer (frame update)
  // ---------------------------------------------------------------------

  /**
   * New (timer, last sign) after one frame with input `axis`. The sign of a
   * zero axis is +1, so the current sign is never zero and the source's
   * "decay while no input" branch cannot run.
   */
  function TimerStep(timer: real, lastSign: int, axis: real, dt: real): (r: (real, int))
    ensures r.1 == SignInt(axis) && r.1 != 0
    ensures SignInt(axis) == lastSign ==> r.0 == timer + dt
    ensures SignInt(axis) != lastSign ==> r.0 == 0.0
    ensures timer >= 0.0 && dt >= 0.0 ==> r.0 >= timer || r.0 == 0.0
    ensures timer >= 0.0 && dt >= 0.0 ==> r.0 >= 0.0
  {
    var currentSign := SignInt(axis);
    if currentSign == lastSign then (timer + dt, lastSign) else (0.0, currentSign)
  }

  /** The sprite flip of `Update`: left for a negative axis, right for a positive one. */
  function FacingAfter(scaleX: real, axis: real): (r: real)
    ensures axis == 0.0 ==> r == scaleX
    ensures axis != 0.0 ==> r == Sign(axis)
  {
    if axis < 0.0 then -1.0 else if axis > 0.0 then 1.0 else scaleX
  }

  // ---------------------------------------------------------------------
  // Momentum step (fixed update), stage by stage
  // ---------------------------------------------------------------------

  /** Direction probed for a wall: from momentum when it is not negligible, else from input. */
  function MoveSign(mx: real, axis: real): (r: int)
    ensures -1 <= r <= 1
    ensures r == 0 <==> Abs(mx) <= 0.01 && Abs(axis) <= 0.01
    ensures Abs(mx) > 0.01 ==> r == SignInt(mx)
    ensures Abs(mx) <= 0.01 && Abs(axis) > 0.01 ==> r == SignInt(axis)
  {
    if Abs(mx) > 0.01 then SignInt(mx)
    else if Abs(axis) > 0.01 then SignInt(axis)
    else 0
  }

  /** The wall sensor's answer for a direction (+1 right, -1 left). */
  function WallAt(dir: int, wallRight: bool, wallLeft: bool): bool
  {
    if dir > 0 then wallRight else wallLeft
  }

  /**
   * With a wall ahead in direction `moveSign`: momentum pointing into it is
   * zeroed, and so is any momentum when the body is nearly stopped and the
   * input points away from the wall (anti-stick).
   */
  function WallCut(mx: real, axis: real, vx: real, moveSign: int, antiStick: real): (r: real)
    ensures r == 0.0 || r == mx
    ensures Sign(mx) == moveSign as real ==> r == 0.0
    ensures Abs(vx) < antiStick && Sign(axis) == -(moveSign as real) ==> r == 0.0
    ensures r == 0.0 && mx != 0.0 ==>
              Sign(mx) == moveSign as real || (Abs(vx) < antiStick && Sign(axis) == -(moveSign as real))
  {
    var pushed := if Sign(mx) == moveSign as real then 0.0 else mx;
    if Abs(vx) < antiStick && Sign(axis) == -(moveSign as real) then 0.0 else pushed
  }

  /** Boost fraction: the timer over the time to full boost, clamped; 1 when that time is not positive. */
  function BoostFraction(timer: real, timeToMax: real): (t: real)
    ensures 0.0 <= t <= 1.0
    ensures timeToMax <= 0.0 ==> t == 1.0
    ensures timeToMax > 0.0 && timer >= timeToMax ==> t == 1.0
    ensures timeToMax > 0.0 && timer <= 0.0 ==> t == 0.0
  {
    Clamp01(if timeToMax > 0.0 then timer / timeToMax else 1.0)
  }

  /** The speed cap of this step, interpolated from base to boosted speed. */
  function MaxSpeedNow(tn: Tuning, timer: real): (r: real)
    ensures Min(tn.baseMaxSpeed, tn.boostedMaxSpeed) <= r <= Max(tn.baseMaxSpeed, tn.boostedMaxSpeed)
    ensures BoostFraction(timer, tn.timeToMaxBoost) == 0.0 ==> r == tn.baseMaxSpeed
    ensures BoostFraction(timer, tn.timeToMaxBoost) == 1.0 ==> r == tn.boostedMaxSpeed
    ensures tn.baseMaxSpeed >= 0.0 && tn.boostedMaxSpeed >= 0.0 ==> r >= 0.0
  {
    Lerp(tn.baseMaxSpeed, tn.boostedMaxSpeed, BoostFraction(timer, tn.timeToMaxBoost))
  }

  /** Input opposes momentum: both non-negligible and of different signs. */
  predicate Opposes(axis: real, mx: real)
  {
    Abs(axis) > 0.01 && Abs(mx) > 0.0001 && Sign(axis) != Sign(mx)
  }

  /** Acceleration before turn resistance: full on the ground, scaled by air control in the air. */
  function BaseAccel(tn: Tuning, axis: real, grounded: bool): real
  {
    axis * (tn.acceleration * (if grounded then 1.0 else tn.airControl))
  }

  /** The acceleration applied this step (see `DesiredAccelBounds`). */
  function DesiredAccel(tn: Tuning, axis: real, mx: real, grounded: bool): real
  {
    var base := BaseAccel(tn, axis, grounded);
    if Opposes(axis, mx) then base * (1.0 - tn.turnResistance) else base
  }

  /**
   * Reversing against the momentum weakens the acceleration by
   * `1 - turnResistance`; otherwise it is the base acceleration. With the
   * sliders in range it never exceeds |axis| * acceleration and it pushes
   * in the direction of the input.
   */
  lemma DesiredAccelBounds(tn: Tuning, axis: real, mx: real, grounded: bool)
    ensures !Opposes(axis, mx) ==> DesiredAccel(tn, axis, mx, grounded) == BaseAccel(tn, axis, grounded)
    ensures InRange(tn) ==> Abs(DesiredAccel(tn, axis, mx, grounded)) <= Abs(BaseAccel(tn, axis, grounded))
    ensures InRange(tn) && tn.acceleration >= 0.0 ==>
              Abs(DesiredAccel(tn, axis, mx, grounded)) <= Abs(axis) * tn.acceleration
    ensures InRange(tn) && tn.acceleration >= 0.0 && axis > 0.0 ==> DesiredAccel(tn, axis, mx, grounded) >= 0.0
    ensures InRange(tn) && tn.acceleration >= 0.0 && axis < 0.0 ==> DesiredAccel(tn, axis, mx, grounded) <= 0.0
  {
    AccelBounds(tn, axis, grounded);
    TurnScale(BaseAccel(tn, axis, grounded), tn.turnResistance);
  }

  /** Turn resistance in [0, 1] only weakens an acceleration, never reverses it. */
  lemma TurnScale(base: real, tr: real)
    ensures 0.0 <= tr <= 1.0 ==> Abs(base * (1.0 - tr)) <= Abs(base)
    ensures 0.0 <= tr <= 1.0 && base >= 0.0 ==> base * (1.0 - tr) >= 0.0
    ensures 0.0 <= tr <= 1.0 && base <= 0.0 ==> base * (1.0 - tr) <= 0.0
  {
    if 0.0 <= tr <= 1.0 {
      ScaleWithin(Abs(base), 1.0 - tr);
      if base < 0.0 {
        assert base * (1.0 - tr) == -(Abs(base) * (1.0 - tr));
      }
    }
  }

  lemma AccelBounds(tn: Tuning, axis: real, grounded: bool)
    ensures InRange(tn) && tn.acceleration >= 0.0 ==>
      Abs(BaseAccel(tn, axis, grounded)) <= Abs(axis) * tn.acceleration
    ensures InRange(tn) && tn.acceleration >= 0.0 && axis > 0.0 ==> BaseAccel(tn, axis, grounded) >= 0.0
    ensures InRange(tn) && tn.acceleration >= 0.0 && axis < 0.0 ==> BaseAccel(tn, axis, grounded) <= 0.0
  {
    if InRange(tn) && tn.acceleration >= 0.0 {
      var k := if grounded then 1.0 else tn.airControl;
      var a := tn.acceleration * k;
      ScaleWithin(tn.acceleration, k);
      assert 0.0 <= a <= tn.acceleration;
      assert BaseAccel(tn, axis, grounded) == axis * a;
      MulMonotone(Abs(axis), a, tn.acceleration);
      if axis < 0.0 {
        assert axis * a == -(Abs(axis) * a);
      }
    }
  }

  lemma MulMonotone(x: real, a: real, b: real)
    requires x >= 0.0 && 0.0 <= a <= b
    ensures 0.0 <= x * a <= x * b
  {
    assert x * b - x * a == x * (b - a);
  }

  function FrictionFor(tn: Tuning, grounded: bool): real
  {
    if grounded then tn.groundFriction else tn.airFriction
  }

  /** Friction stage, `step` being friction times dt (see `FrictionDecays`). */
  function ApplyFriction(mx: real, axis: real, step: real): real
  {
    if Abs(axis) < 0.01 then MoveTowards(mx, 0.0, step)
    else if Abs(mx) > 0.0 then MoveTowards(mx, mx + Sign(mx) * 0.0001, 0.25 * step)
    else mx
  }

  /**
   * Without input the friction stage decays momentum linearly toward zero
   * and never overshoots or changes sign; with input a much smaller nudge
   * pushes it away from zero, by at most 0.0001.
   */
  lemma FrictionDecays(mx: real, axis: real, step: real)
    requires step >= 0.0
    ensures Abs(axis) < 0.01 ==> Abs(ApplyFriction(mx, axis, step)) == Max(0.0, Abs(mx) - step)
    ensures Abs(axis) >= 0.01 ==>
              Abs(ApplyFriction(mx, axis, step)) == Abs(mx) + (if mx == 0.0 then 0.0 else Min(0.0001, 0.25 * step))
    ensures mx >= 0.0 ==> ApplyFriction(mx, axis, step) >= 0.0
    ensures mx <= 0.0 ==> ApplyFriction(mx, axis, step) <= 0.0
  {
  }

  /** Inputs of one fixed step, as read from the sensors and the input component. */
  datatype StepInput = StepInput(axis: real, grounded: bool, wallRight: bool, wallLeft: bool, vx: real, dt: real)

  /** Momentum after the wall check. */
  function AfterWall(tn: Tuning, mx: real, inp: StepInput): (r: real)
    ensures r == 0.0 || r == mx
  {
    var ms := MoveSign(mx, inp.axis);
    if ms != 0 && WallAt(ms, inp.wallRight, inp.wallLeft) then WallCut(mx, inp.axis, inp.vx, ms, tn.antiStickMinSpeed)
    else mx
  }

  /** The whole fixed step on momentum.x (see `MomentumStepCapped`). */
  function MomentumStep(tn: Tuning, mx: real, timer: real, inp: StepInput): real
  {
    var m1 := AfterWall(tn, mx, inp);
    var m2 := m1 + DesiredAccel(tn, inp.axis, m1, inp.grounded) * inp.dt;
    var m3 := ApplyFriction(m2, inp.axis, FrictionFor(tn, inp.grounded) * inp.dt);
    var cap := MaxSpeedNow(tn, timer);
    Clamp(m3, -cap, cap)
  }

  /**
   * The step never leaves the speed cap of its timer (given non-negative
   * speeds): the clamp is unconditional, whatever the input, walls or dt.
   */
  lemma MomentumStepCapped(tn: Tuning, mx: real, timer: real, inp: StepInput)
    requires tn.baseMaxSpeed >= 0.0 && tn.boostedMaxSpeed >= 0.0
    ensures Abs(MomentumStep(tn, mx, timer, inp)) <= MaxSpeedNow(tn, timer)
    ensures Abs(MomentumStep(tn, mx, timer, inp)) <= Max(tn.baseMaxSpeed, tn.boostedMaxSpeed)
  {
  }

  // ---------------------------------------------------------------------
  // The component
  // ---------------------------------------------------------------------

  class Movement2D {
    const tuning: Tuning
    const body: Body
    /** Whether an animator is attached (the double jump consults it). */
    const hasAnimator: bool

    var momentumX: real
    var momentumY: real
    var sameDirTimer: real
    var lastDirSign: int
    /**
     * Written by the dash and wall-bounce controllers. This component
     * declares no such fields and its clamp is unconditional, so nothing
     * here reads them.
     */
    var ignoreMaxSpeed: bool
    var suppressJumping: bool

    ghost predicate Valid()
      reads this
    {
      sameDirTimer >= 0.0 && -1 <= lastDirSign <= 1
    }

    constructor (tn: Tuning, rb: Body, animator: bool)
      ensures Valid()
      ensures tuning == tn && body == rb && hasAnimator == animator
      ensures momentumX == 0.0 && momentumY == 0.0 && sameDirTimer == 0.0 && lastDirSign == 0
      ensures !ignoreMaxSpeed && !suppressJumping
    {
      tuning, body, hasAnimator := tn, rb, animator;
      momentumX, momentumY := 0.0, 0.0;
      sameDirTimer, lastDirSign := 0.0, 0;
      ignoreMaxSpeed, suppressJumping := false, false;
    }

    /** Frame update: sprite flip, then the same-direction timer. */
    method Update(cmd: Command, dt: real)
      requires Valid() && dt >= 0.0
      modifies this, body
      ensures Valid()
      ensures (sameDirTimer, lastDirSign) == TimerStep(old(sameDirTimer), old(lastDirSign), cmd.moveAxis, dt)
      ensures body.scaleX == FacingAfter(old(body.scaleX), cmd.moveAxis)
      ensures body.vx == old(body.vx) && body.vy == old(body.vy) && body.gravityScale == old(body.gravityScale)
      ensures body.pendingImpulseY == old(body.pendingImpulseY)
      ensures momentumX == old(momentumX) && momentumY == old(momentumY)
      ensures ignoreMaxSpeed == old(ignoreMaxSpeed) && suppressJumping == old(suppressJumping)
    {
      if cmd.moveAxis < 0.0 {
        body.scaleX := -1.0;
      } else if cmd.moveAxis > 0.0 {
        body.scaleX := 1.0;
      }
      var currentSign := SignInt(cmd.moveAxis);
      // currentSign is never 0 (Sign(0) is +1), so the decay branch is dead.
      if currentSign == lastDirSign {
        sameDirTimer := sameDirTimer + dt;
      } else {
        sameDirTimer := 0.0;
        lastDirSign := currentSign;
      }
    }

    /** Fixed step: the momentum update, written into the rigidbody's horizontal velocity. */
    method FixedUpdate(cmd: Command, grounded: bool, wallRight: bool, wallLeft: bool, dt: real)
      modifies this, body
      ensures momentumX == MomentumStep(tuning, old(momentumX), sameDirTimer,
                                        StepInput(cmd.moveAxis, grounded, wallRight, wallLeft, old(body.vx), dt))
      ensures body.vx == momentumX && body.vy == old(body.vy)
      ensures body.gravityScale == old(body.gravityScale) && body.scaleX == old(body.scaleX)
      ensures body.pendingImpulseY == old(body.pendingImpulseY)
      ensures momentumY == old(momentumY) && sameDirTimer == old(sameDirTimer) && lastDirSign == old(lastDirSign)
      ensures ignoreMaxSpeed == old(ignoreMaxSpeed) && suppressJumping == old(suppressJumping)
    {
      var inp := StepInput(cmd.moveAxis, grounded, wallRight, wallLeft, body.vx, dt);
      momentumX := MomentumStep(tuning, momentumX, sameDirTimer, inp);
      body.vx := momentumX;
    }

    /** Sets momentum.x and the body's horizontal velocity; vertical velocity is kept. */
    method SetHorizontalVelocity(vx: real)
      modifies this, body
      ensures momentumX == vx && body.vx == vx
      ensures body.vy == old(body.vy) && body.gravityScale == old(body.gravityScale)
      ensures body.scaleX == old(body.scaleX) && body.pendingImpulseY == old(body.pendingImpulseY)
      ensures momentumY == old(momentumY) && sameDirTimer == old(sameDirTimer) && lastDirSign == old(lastDirSign)
      ensures ignoreMaxSpeed == old(ignoreMaxSpeed) && suppressJumping == old(suppressJumping)
    {
      momentumX := vx;
      body.vx := vx;
    }

    /** Sets only the body's vertical velocity. */
    method SetVerticalVelocity(vy: real)
      modifies body
      ensures body.vy == vy && body.vx == old(body.vx)
      ensures body.gravityScale == old(body.gravityScale)
      ensures body.scaleX == old(body.scaleX) && body.pendingImpulseY == old(body.pendingImpulseY)
    {
      body.vy := vy;
    }
  }

  // ---------------------------------------------------------------------
  // Properties over several steps
  // ---------------------------------------------------------------------

  /** Momentum after `n` friction stages with no input. */
  function Coast(mx: real, step: real, n: nat): real
  {
    if n == 0 then mx else ApplyFriction(Coast(mx, step, n - 1), 0.0, step)
  }

  /**
   * Releasing input decays momentum linearly: after n idle stages its
   * magnitude is |m| - n * step, floored at zero, and its sign never flips.
   */
  lemma {:induction false} CoastIsLinear(mx: real, step: real, n: nat)
    requires step >= 0.0
    ensures Abs(Coast(mx, step, n)) == Max(0.0, Abs(mx) - n as real * step)
    ensures mx >= 0.0 ==> Coast(mx, step, n) >= 0.0
    ensures mx <= 0.0 ==> Coast(mx, step, n) <= 0.0
  {
    CoastBy(mx, step, n);
    TimesIsProduct(n, step);
  }

  /** `n` copies of `step` added up: n * step without the nonlinear product. */
  function Times(n: nat, step: real): real
  {
    if n == 0 then 0.0 else Times(n - 1, step) + step
  }

  lemma {:induction false} TimesIsProduct(n: nat, step: real)
    ensures Times(n, step) == n as real * step
  {
    if n > 0 {
      TimesIsProduct(n - 1, step);
      assert n as real * step == (n - 1) as real * step + step;
    }
  }

  lemma {:induction false} CoastBy(mx: real, step: real, n: nat)
    requires step >= 0.0
    ensures Abs(Coast(mx, step, n)) == Max(0.0, Abs(mx) - Times(n, step))
    ensures mx >= 0.0 ==> Coast(mx, step, n) >= 0.0
    ensures mx <= 0.0 ==> Coast(mx, step, n) <= 0.0
  {
    if n > 0 {
      CoastBy(mx, step, n - 1);
      FrictionDecays(Coast(mx, step, n - 1), 0.0, step);
    }
  }

  /** So momentum reaches exactly zero once n * step covers its magnitude. */
  lemma CoastReachesZero(mx: real, step: real, n: nat)
    requires step > 0.0 && n as real * step >= Abs(mx)
    ensures Coast(mx, step, n) == 0.0
  {
    CoastIsLinear(mx, step, n);
  }

  /** Friction without input never pushes momentum outside a cap it was inside. */
  lemma FrictionKeepsCap(mx: real, step: real, cap: real)
    requires step >= 0.0 && Abs(mx) <= cap
    ensures Clamp(ApplyFriction(mx, 0.0, step), -cap, cap) == ApplyFriction(mx, 0.0, step)
  {
    FrictionDecays(mx, 0.0, step);
  }

  /**
   * With no input and no wall the wall stage and the acceleration stage
   * leave momentum as it is, so an idle step is one friction stage followed
   * by the clamp, which `FrictionKeepsCap` shows to do nothing when the
   * momentum was already within the cap.
   */
  lemma IdleStages(tn: Tuning, mx: real, inp: StepInput)
    requires inp.axis == 0.0 && !inp.wallRight && !inp.wallLeft
    ensures AfterWall(tn, mx, inp) == mx
    ensures mx + DesiredAccel(tn, inp.axis, mx, inp.grounded) * inp.dt == mx
  {
    assert DesiredAccel(tn, inp.axis, mx, inp.grounded) == 0.0;
  }
}
