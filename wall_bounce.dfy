/**
 * The wall bounce (`WallBounce2D`): while dashing, a collision whose most
 * horizontal contact normal is a wall reflects part of the horizontal speed
 * sampled at the last fixed step, and lifts the speed cap for a short lock
 * window. Each bounce starts its own unlock routine; the pending ones are
 * kept as a list of deadlines.
 */
module WallBounce {
  import opened UnityMath
  import opened Physics
  import opened Movement
  import opened Dash

  /** A contact normal (`contact.normal`). */
  datatype Normal = Normal(x: real, y: real)

  const Zero := Normal(0.0, 0.0)

  datatype BounceTuning = BounceTuning(
    minBounceSpeed: real,
    strongHitMultiplier: real,
    strongDashFactor: real,
    controlLockTime: real,
    wallBounceFactor: real)

  const DefaultBounceTuning := BounceTuning(3.0, 1.1, 0.8, 0.12, 0.05)

  /**
   * Index of the contact the search keeps: one whose |normal.x| is maximal,
   * the earliest of those (a later one replaces it only when strictly wider).
   */
  function Widest(contacts: seq<Normal>): (i: nat)
    requires |contacts| > 0
    ensures i < |contacts|
    ensures forall j :: 0 <= j < |contacts| ==> Abs(contacts[j].x) <= Abs(contacts[i].x)
    ensures forall j :: 0 <= j < i ==> Abs(contacts[j].x) < Abs(contacts[i].x)
  {
    if |contacts| == 1 then 0
    else
      var k := Widest(contacts[..|contacts| - 1]);
      if Abs(contacts[|contacts| - 1].x) > Abs(contacts[k].x) then |contacts| - 1 else k
  }

  /** The normal the collision is judged by: the zero vector when there are no contacts. */
  function BestNormal(contacts: seq<Normal>): Normal
  {
    if |contacts| == 0 then Zero else contacts[Widest(contacts)]
  }

  /** The `foreach` search over the contacts, starting from a best dot of -1. */
  method SelectNormal(contacts: seq<Normal>) returns (best: Normal)
    ensures best == BestNormal(contacts)
    ensures |contacts| > 0 ==> best in contacts
    ensures forall j :: 0 <= j < |contacts| ==> Abs(contacts[j].x) <= Abs(best.x)
  {
    best := Zero;
    var bestDot := -1.0;
    var i := 0;
    while i < |contacts|
      invariant 0 <= i <= |contacts|
      invariant i == 0 ==> best == Zero && bestDot == -1.0
      invariant i > 0 ==> best == contacts[Widest(contacts[..i])] && bestDot == Abs(best.x)
    {
      var dot := Abs(contacts[i].x);
      if dot > bestDot {
        bestDot := dot;
        best := contacts[i];
      }
      assert contacts[..i + 1][..i] == contacts[..i];
      i := i + 1;
    }
    assert contacts[..|contacts|] == contacts;
  }

  /**
   * The reflected horizontal speed: the opposite of the sampled speed, scaled
   * by the bounce factor, and by the strong-hit multiplier when the sampled
   * speed beat the given share of the dash speed.
   */
  function BounceX(tn: BounceTuning, preVx: real, dashSpeed: real): real
  {
    var b := -preVx * tn.wallBounceFactor;
    if Abs(preVx) > dashSpeed * tn.strongDashFactor then b * tn.strongHitMultiplier else b
  }

  /**
   * With positive factors the bounce points away from the wall that was hit
   * (against the sampled speed) and its magnitude is the sampled speed times
   * the factor, times the multiplier on a strong hit.
   */
  lemma BounceReflects(tn: BounceTuning, preVx: real, dashSpeed: real)
    requires tn.wallBounceFactor > 0.0 && tn.strongHitMultiplier > 0.0
    ensures preVx > 0.0 ==> BounceX(tn, preVx, dashSpeed) < 0.0
    ensures preVx < 0.0 ==> BounceX(tn, preVx, dashSpeed) > 0.0
    ensures Abs(BounceX(tn, preVx, dashSpeed))
            == Abs(preVx) * tn.wallBounceFactor
               * (if Abs(preVx) > dashSpeed * tn.strongDashFactor then tn.strongHitMultiplier else 1.0)
  {
    var f := tn.wallBounceFactor;
    var m := if Abs(preVx) > dashSpeed * tn.strongDashFactor then tn.strongHitMultiplier else 1.0;
    assert BounceX(tn, preVx, dashSpeed) == -(preVx * f * m);
    if preVx > 0.0 {
      PositiveProduct(preVx, f, m);
    } else if preVx < 0.0 {
      PositiveProduct(-preVx, f, m);
      assert -(preVx * f * m) == (-preVx) * f * m;
    }
  }

  lemma PositiveProduct(a: real, b: real, c: real)
    requires a > 0.0 && b > 0.0 && c > 0.0
    ensures a * b * c > 0.0
  {
    assert a * b > 0.0;
  }

  /** Whether a collision bounces: walls only (|normal.x| at least 0.1), and fast enough. */
  predicate Bounces(tn: BounceTuning, contacts: seq<Normal>, preVx: real)
  {
    Abs(BestNormal(contacts).x) >= 0.1 && Abs(preVx) >= tn.minBounceSpeed
  }

  class WallBounce2D {
    const tuning: BounceTuning
    const body: Body
    const movement: Movement2D?
    const dash: Dash2D?

    /** The body's velocity at the last fixed step. */
    var preVx: real
    var preVy: real
    /** Deadlines of the running unlock routines, in start order. */
    var pendingUnlocks: seq<real>

    constructor (tn: BounceTuning, rb: Body, mv: Movement2D?, ds: Dash2D?)
      ensures tuning == tn && body == rb && movement == mv && dash == ds
      ensures preVx == 0.0 && preVy == 0.0 && pendingUnlocks == []
    {
      tuning, body, movement, dash := tn, rb, mv, ds;
      preVx, preVy := 0.0, 0.0;
      pendingUnlocks := [];
    }

    /** The fixed step samples the body's velocity. */
    method FixedUpdate()
      modifies this
      ensures preVx == body.vx && preVy == body.vy
      ensures pendingUnlocks == old(pendingUnlocks)
    {
      preVx, preVy := body.vx, body.vy;
    }

    /**
     * A collision at time `now` with the given contact normals. Nothing
     * happens without a movement component or outside a dash, nor when
     * `Bounces` fails. A bounce sets the horizontal velocity to `BounceX`
     * (keeping the vertical one), copies the whole velocity into the
     * momentum, lifts the speed cap and starts an unlock routine.
     */
    method OnCollisionEnter(contacts: seq<Normal>, now: real)
      modifies body, movement, this
      ensures var bounced := movement != null && dash != null && dash.isDashing
                             && Bounces(tuning, contacts, preVx);
              && (bounced ==>
                    && body.vx == BounceX(tuning, preVx, dash.tuning.dashSpeed) && body.vy == old(body.vy)
                    && movement.momentumX == body.vx && movement.momentumY == body.vy
                    && movement.ignoreMaxSpeed
                    && pendingUnlocks == old(pendingUnlocks) + [now + tuning.controlLockTime])
              && (!bounced ==>
                    && body.vx == old(body.vx) && body.vy == old(body.vy)
                    && pendingUnlocks == old(pendingUnlocks)
                    && (movement != null ==>
                          && movement.momentumX == old(movement.momentumX)
                          && movement.momentumY == old(movement.momentumY)
                          && movement.ignoreMaxSpeed == old(movement.ignoreMaxSpeed)))
      ensures preVx == old(preVx) && preVy == old(preVy)
      ensures body.gravityScale == old(body.gravityScale) && body.scaleX == old(body.scaleX)
      ensures body.pendingImpulseY == old(body.pendingImpulseY)
      ensures movement != null ==>
                && movement.sameDirTimer == old(movement.sameDirTimer)
                && movement.lastDirSign == old(movement.lastDirSign)
                && movement.suppressJumping == old(movement.suppressJumping)
    {
      if movement == null {
        return;
      }
      if dash == null || !dash.isDashing {
        return;
      }
      var bestNormal := SelectNormal(contacts);
      if Abs(bestNormal.x) < 0.1 {
        return;
      }
      var horizSpeed := Abs(preVx);
      var dashSpeed := dash.tuning.dashSpeed;
      var strongHit := horizSpeed > dashSpeed * tuning.strongDashFactor;
      if horizSpeed < tuning.minBounceSpeed {
        return;
      }
      var bounceX := -preVx * tuning.wallBounceFactor;
      if strongHit {
        bounceX := bounceX * tuning.strongHitMultiplier;
      }
      body.vx := bounceX;
      movement.momentumX, movement.momentumY := body.vx, body.vy;
      movement.ignoreMaxSpeed := true;
      pendingUnlocks := pendingUnlocks + [now + tuning.controlLockTime];
    }

    /**
     * The unlock routines resumed at time `now`: each whose deadline has
     * passed clears the speed cap lift and ends; the others keep waiting.
     */
    method ResumeUnlocks(now: real)
      requires movement != null || pendingUnlocks == []
      modifies this, movement
      ensures pendingUnlocks == Waiting(old(pendingUnlocks), now)
      ensures preVx == old(preVx) && preVy == old(preVy)
      ensures movement != null ==>
                && movement.ignoreMaxSpeed
                   == (old(movement.ignoreMaxSpeed) && Waiting(old(pendingUnlocks), now) == old(pendingUnlocks))
                && movement.momentumX == old(movement.momentumX) && movement.momentumY == old(movement.momentumY)
                && movement.sameDirTimer == old(movement.sameDirTimer) && movement.lastDirSign == old(movement.lastDirSign)
                && movement.suppressJumping == old(movement.suppressJumping)
    {
      var rest := Waiting(pendingUnlocks, now);
      if rest != pendingUnlocks {
        movement.ignoreMaxSpeed := false;
      }
      pendingUnlocks := rest;
    }
  }

  /** The deadlines still ahead of `now`, in order. */
  function Waiting(ds: seq<real>, now: real): (r: seq<real>)
    ensures |r| <= |ds|
    ensures forall i :: 0 <= i < |r| ==> r[i] > now && r[i] in ds
    ensures forall i :: 0 <= i < |ds| && ds[i] > now ==> ds[i] in r
  {
    if |ds| == 0 then []
    else if ds[0] > now then [ds[0]] + Waiting(ds[1..], now)
    else Waiting(ds[1..], now)
  }

  /** Some routine ends at `now` exactly when some deadline has passed. */
  lemma {:induction false} WaitingUnchanged(ds: seq<real>, now: real)
    ensures Waiting(ds, now) == ds <==> forall i :: 0 <= i < |ds| ==> ds[i] > now
  {
    if |ds| > 0 {
      WaitingUnchanged(ds[1..], now);
      if ds[0] <= now {
        assert |Waiting(ds, now)| <= |ds[1..]|;
      }
    }
  }

  /**
   * Once the last lock window has passed every routine has ended, so the
   * speed cap lift from bounces is gone: with no deadline after `now`,
   * nothing is left waiting.
   */
  lemma LockEnds(ds: seq<real>, now: real)
    requires forall i :: 0 <= i < |ds| ==> ds[i] <= now
    ensures Waiting(ds, now) == []
  {
  }
}
