/**
 * The enemy (`Homeless_script`): idle (patrolling back and forth around its
 * spawn point) until the player comes within the detection radius, then
 * chasing horizontally until the player is beyond a wider lose radius.
 * Close enough, or on touching the player, it starts an attack that kills
 * the player after a delay; an attack never overlaps another.
 *
 * The player lookup and its distance, the obstacle probe and whether a
 * respawn manager exists are inputs. The attack coroutine is a flag and a
 * deadline, resumed by `Resume`; the calls of `KillPlayer` are counted.
 */
module Homeless {
  import opened Wrappers
  import opened UnityMath
  import opened Animation

  datatype EnemyTuning = EnemyTuning(
    detectionRadius: real,
    catchDistance: real,
    loseFactor: real,
    chaseSpeed: real,
    patrolSpeed: real,
    patrolWhenIdle: bool,
    patrolRange: real,
    attackClipName: string,
    attackFallbackDelay: real)

  const DefaultEnemyTuning := EnemyTuning(6.0, 0.6, 1.5, 3.5, 1.5, true, 3.0, "", 0.35)

  /**
   * What `Awake` fixes: the tuning, the spawn x, whether there is a
   * rigidbody, and the clips of the animator's controller (`None` without an
   * animator or a controller).
   */
  datatype EnemySetup = EnemySetup(tuning: EnemyTuning, spawnX: real, hasRigidbody: bool,
                                   clips: Option<seq<Option<Clip>>>)

  /** The player as this frame sees it: its x and its distance from the enemy. */
  datatype Sighting = Sighting(playerX: real, dist: real)

  /** The enemy's fields, with the attack routine as a flag and its deadline. */
  datatype Enemy = Enemy(
    posX: real,
    scaleX: real,
    vx: real,
    chasing: bool,
    patrolDir: real,
    isAttacking: bool,
    attackDeadline: real,
    kills: nat)

  /** The chase is given up beyond this distance. */
  function LoseRadius(t: EnemyTuning): real
  {
    t.detectionRadius * t.loseFactor
  }

  /** The patrol turn: right at or beyond the left end, left at or beyond the right end, else as before. */
  function PatrolTurn(c: EnemySetup, posX: real, dir: real): (d: real)
    ensures posX <= c.spawnX - c.tuning.patrolRange ==> d == 1.0
    ensures c.spawnX - c.tuning.patrolRange < posX && posX >= c.spawnX + c.tuning.patrolRange ==> d == -1.0
    ensures c.spawnX - c.tuning.patrolRange < posX < c.spawnX + c.tuning.patrolRange ==> d == dir
  {
    if posX <= c.spawnX - c.tuning.patrolRange then 1.0
    else if posX >= c.spawnX + c.tuning.patrolRange then -1.0
    else dir
  }

  /** The patrol velocity along `dir`. */
  function PatrolVelocity(c: EnemySetup, dir: real): real
  {
    dir * c.tuning.patrolSpeed
  }

  /** The chase velocity: chase speed towards the player's side (`Sign(0)` is +1). */
  function ChaseVelocity(c: EnemySetup, dx: real): real
  {
    Sign(dx) * c.tuning.chaseSpeed
  }

  /** How far the transform moves at velocity `v` in one frame of `dt`. */
  function Travel(v: real, dt: real): real
  {
    v * dt
  }

  /** Whether the obstacle rule stops a move: a real move with an obstacle ahead. */
  predicate Blocked(vIn: real, obstacleAhead: bool)
  {
    Abs(vIn) > 0.01 && obstacleAhead
  }

  /**
   * `Move`: an obstacle ahead stops the horizontal move and, when not
   * chasing, reverses the patrol. The velocity goes to the rigidbody, or
   * without one moves the transform by velocity times `dt`.
   */
  function AfterMove(c: EnemySetup, s: Enemy, vIn: real, obstacleAhead: bool, dt: real): Enemy
  {
    var blocked := Blocked(vIn, obstacleAhead);
    var s1 := if blocked && !s.chasing then s.(patrolDir := -s.patrolDir) else s;
    var v := if blocked then 0.0 else vIn;
    if c.hasRigidbody then s1.(vx := v) else s1.(posX := s1.posX + Travel(v, dt))
  }

  /** `FlipTowards`: facing left when `worldX` is left of the enemy, right otherwise. */
  function AfterFlip(s: Enemy, worldX: real): Enemy
  {
    s.(scaleX := if worldX < s.posX then -Abs(s.scaleX) else Abs(s.scaleX))
  }

  /** `PatrolBehaviour`: turn at the ends, move at patrol speed, face the (possibly reversed) patrol. */
  function AfterPatrol(c: EnemySetup, s: Enemy, obstacleAhead: bool, dt: real): Enemy
  {
    var s1 := s.(patrolDir := PatrolTurn(c, s.posX, s.patrolDir));
    var s2 := AfterMove(c, s1, PatrolVelocity(c, s1.patrolDir), obstacleAhead, dt);
    AfterFlip(s2, s2.posX + s2.patrolDir)
  }

  /**
   * The attack delay: the length of the first clip named exactly
   * `attackClipName`, when a name is set and the controller is known;
   * otherwise the fallback delay.
   */
  function AttackDelay(c: EnemySetup): real
  {
    if c.tuning.attackClipName != [] && c.clips.Some?
       && FirstMatch(c.clips.value, c.tuning.attackClipName, false).Some?
    then c.clips.value[FirstMatch(c.clips.value, c.tuning.attackClipName, false).value].value.length
    else c.tuning.attackFallbackDelay
  }

  /** The guarded start of `AttackThenKill`: only when no attack is running. */
  function AfterTryAttack(c: EnemySetup, s: Enemy, now: real): Enemy
  {
    if s.isAttacking then s else s.(isAttacking := true, attackDeadline := now + AttackDelay(c))
  }

  /** One `Update`, with the player lookup's result. */
  function AfterUpdate(c: EnemySetup, s: Enemy, seen: Option<Sighting>, obstacleAhead: bool, now: real, dt: real)
    : Enemy
  {
    if seen.None? then s
    else
      var p := seen.value;
      if !s.chasing then
        if p.dist <= c.tuning.detectionRadius then s.(chasing := true)
        else if c.tuning.patrolWhenIdle then AfterPatrol(c, s, obstacleAhead, dt)
        else s
      else if p.dist > LoseRadius(c.tuning) then s.(chasing := false)
      else
        var s1 := AfterMove(c, s, ChaseVelocity(c, p.playerX - s.posX), obstacleAhead, dt);
        var s2 := AfterFlip(s1, p.playerX);
        if p.dist <= c.tuning.catchDistance then AfterTryAttack(c, s2, now) else s2
  }

  /** The attack routine resumed at `now`: after its delay it kills the player (if a manager exists) and ends. */
  function AfterResume(s: Enemy, now: real, respawnFound: bool): Enemy
  {
    if s.isAttacking && now >= s.attackDeadline then
      s.(isAttacking := false, kills := if respawnFound then s.kills + 1 else s.kills)
    else s
  }

  /** The patrol direction is a unit. */
  predicate Inv(s: Enemy)
  {
    s.patrolDir == 1.0 || s.patrolDir == -1.0
  }

  class HomelessEnemy {
    const setup: EnemySetup

    var posX: real
    var scaleX: real
    /** `rb.linearVelocity.x`; the vertical velocity is never changed. */
    var vx: real
    var chasing: bool
    var patrolDir: real
    var isAttacking: bool
    /** When the running attack kills; meaningful while `isAttacking`. */
    var attackDeadline: real
    /** How many times the enemy has called `KillPlayer`. */
    var kills: nat

    function State(): Enemy
      reads this
    {
      Enemy(posX, scaleX, vx, chasing, patrolDir, isAttacking, attackDeadline, kills)
    }

    ghost predicate Valid()
      reads this
    {
      Inv(State())
    }

    /** `Awake`: the spawn point is where the enemy starts. */
    constructor (tn: EnemyTuning, x: real, scale: real, rigidbody: bool, clips: Option<seq<Option<Clip>>>)
      ensures Valid()
      ensures setup == EnemySetup(tn, x, rigidbody, clips)
      ensures State() == Enemy(x, scale, 0.0, false, 1.0, false, 0.0, 0)
    {
      setup := EnemySetup(tn, x, rigidbody, clips);
      posX, scaleX, vx := x, scale, 0.0;
      chasing, patrolDir := false, 1.0;
      isAttacking, attackDeadline, kills := false, 0.0, 0;
    }

    method Update(seen: Option<Sighting>, obstacleAhead: bool, now: real, dt: real)
      modifies this
      ensures State() == AfterUpdate(setup, old(State()), seen, obstacleAhead, now, dt)
    {
      if seen.None? {
        return;
      }
      var p := seen.value;
      if !chasing {
        if p.dist <= setup.tuning.detectionRadius {
          chasing := true;
        } else if setup.tuning.patrolWhenIdle {
          PatrolBehaviour(obstacleAhead, dt);
        }
      } else {
        if p.dist > LoseRadius(setup.tuning) {
          chasing := false;
          return;
        }
        Move(ChaseVelocity(setup, p.playerX - posX), obstacleAhead, dt);
        FlipTowards(p.playerX);
        if p.dist <= setup.tuning.catchDistance {
          TryAttack(now);
        }
      }
    }

    method PatrolBehaviour(obstacleAhead: bool, dt: real)
      modifies this
      ensures State() == AfterPatrol(setup, old(State()), obstacleAhead, dt)
    {
      var left := setup.spawnX - setup.tuning.patrolRange;
      var right := setup.spawnX + setup.tuning.patrolRange;
      if posX <= left {
        patrolDir := 1.0;
      } else if posX >= right {
        patrolDir := -1.0;
      }
      Move(PatrolVelocity(setup, patrolDir), obstacleAhead, dt);
      FlipTowards(posX + patrolDir);
    }

    /** `Move`; `obstacleAhead` is the probe's answer in the direction of `velocityX`. */
    method Move(velocityX: real, obstacleAhead: bool, dt: real)
      modifies this
      ensures State() == AfterMove(setup, old(State()), velocityX, obstacleAhead, dt)
    {
      var v := velocityX;
      if Abs(v) > 0.01 {
        if obstacleAhead {
          if !chasing {
            patrolDir := -patrolDir;
          }
          v := 0.0;
        }
      }
      if setup.hasRigidbody {
        vx := v;
      } else {
        posX := posX + Travel(v, dt);
      }
    }

    method FlipTowards(worldX: real)
      modifies this
      ensures State() == AfterFlip(old(State()), worldX)
    {
      if worldX < posX {
        scaleX := -Abs(scaleX);
      } else {
        scaleX := Abs(scaleX);
      }
    }

    /** `if (!isAttacking) StartCoroutine(AttackThenKill())`, up to the routine's wait. */
    method TryAttack(now: real)
      modifies this
      ensures State() == AfterTryAttack(setup, old(State()), now)
    {
      if isAttacking {
        return;
      }
      var delay := setup.tuning.attackFallbackDelay;
      if setup.tuning.attackClipName != [] && setup.clips.Some? {
        delay := ClipLengthOr(setup.clips.value, setup.tuning.attackClipName, false, delay);
      }
      isAttacking, attackDeadline := true, now + delay;
    }

    /** `OnTriggerEnter2D` and `OnCollisionEnter2D` alike: touching the player starts an attack. */
    method OnContact(isPlayer: bool, now: real)
      modifies this
      ensures State() == (if isPlayer then AfterTryAttack(setup, old(State()), now) else old(State()))
    {
      if isPlayer {
        TryAttack(now);
      }
    }

    /** The attack routine resumed by the engine at `now`. */
    method Resume(now: real, respawnFound: bool)
      modifies this
      ensures State() == AfterResume(old(State()), now, respawnFound)
    {
      if isAttacking && now >= attackDeadline {
        if respawnFound {
          kills := kills + 1;
        }
        isAttacking := false;
      }
    }
  }

  // ---------------------------------------------------------------------
  // Properties
  // ---------------------------------------------------------------------

  /**
   * Chase hysteresis: an idle enemy starts chasing exactly when the player
   * is within the detection radius; a chasing one keeps chasing exactly
   * while the player is within the lose radius. Without a player nothing
   * changes.
   */
  lemma ChaseHysteresis(c: EnemySetup, s: Enemy, seen: Option<Sighting>, obstacleAhead: bool, now: real, dt: real)
    ensures seen.None? ==> AfterUpdate(c, s, seen, obstacleAhead, now, dt) == s
    ensures seen.Some? ==>
              AfterUpdate(c, s, seen, obstacleAhead, now, dt).chasing
              == if s.chasing then seen.value.dist <= LoseRadius(c.tuning)
                 else seen.value.dist <= c.tuning.detectionRadius
  {
  }

  /**
   * With a lose factor of at least 1 the lose radius is at least the
   * detection radius, so a player between the two keeps a chase going that
   * would not have started.
   */
  lemma LoseRadiusWider(t: EnemyTuning)
    requires t.detectionRadius >= 0.0 && t.loseFactor >= 1.0
    ensures LoseRadius(t) >= t.detectionRadius
  {
    assert t.detectionRadius * (t.loseFactor - 1.0) >= 0.0;
  }

  /**
   * The obstacle rule: a blocked move stops horizontally (the velocity is 0,
   * or the transform stays put) and reverses the patrol only when not
   * chasing; an unblocked one moves at the requested velocity.
   */
  lemma MoveObstacleRule(c: EnemySetup, s: Enemy, vIn: real, obstacleAhead: bool, dt: real)
    ensures var r := AfterMove(c, s, vIn, obstacleAhead, dt);
            && r.chasing == s.chasing && r.isAttacking == s.isAttacking && r.kills == s.kills
            && (r.patrolDir == if Blocked(vIn, obstacleAhead) && !s.chasing then -s.patrolDir else s.patrolDir)
            && (Blocked(vIn, obstacleAhead) ==> if c.hasRigidbody then r.vx == 0.0 else r.posX == s.posX)
            && (!Blocked(vIn, obstacleAhead) && c.hasRigidbody ==> r.vx == vIn)
  {
    if Blocked(vIn, obstacleAhead) && !c.hasRigidbody {
      assert 0.0 * dt == 0.0;
    }
  }

  /**
   * The patrol step (with a rigidbody): the enemy heads right at or left of
   * the left end and left at or right of the right end, keeps its
   * direction in between, and moves at patrol speed that way unless an
   * obstacle blocks it, which reverses the patrol and stops it. It then
   * faces the way it will patrol.
   */
  lemma PatrolStep(c: EnemySetup, s: Enemy, obstacleAhead: bool, dt: real)
    requires c.hasRigidbody && Inv(s) && !s.chasing && c.tuning.patrolSpeed > 0.01
    ensures var d := PatrolTurn(c, s.posX, s.patrolDir);
            var r := AfterPatrol(c, s, obstacleAhead, dt);
            && Inv(r)
            && (!obstacleAhead ==> r.patrolDir == d && r.vx == d * c.tuning.patrolSpeed)
            && (obstacleAhead ==> r.patrolDir == -d && r.vx == 0.0)
            && (r.scaleX == if r.patrolDir < 0.0 then -Abs(s.scaleX) else Abs(s.scaleX))
  {
    var d := PatrolTurn(c, s.posX, s.patrolDir);
    var v := d * c.tuning.patrolSpeed;
    assert Abs(v) == c.tuning.patrolSpeed by {
      if d == 1.0 { assert v == c.tuning.patrolSpeed; } else { assert v == -c.tuning.patrolSpeed; }
    }
  }

  /**
   * The chase step (with a rigidbody, the player within the lose radius):
   * the enemy runs towards the player's side at chase speed unless an
   * obstacle blocks it, in which case it stops but keeps its patrol
   * direction; it faces the player.
   */
  lemma ChaseStep(c: EnemySetup, s: Enemy, p: Sighting, obstacleAhead: bool, now: real, dt: real)
    requires c.hasRigidbody && s.chasing && p.dist <= LoseRadius(c.tuning) && c.tuning.chaseSpeed > 0.01
    ensures var r := AfterUpdate(c, s, Some(p), obstacleAhead, now, dt);
            && r.chasing && r.patrolDir == s.patrolDir
            && (!obstacleAhead ==> r.vx == Sign(p.playerX - s.posX) * c.tuning.chaseSpeed)
            && (obstacleAhead ==> r.vx == 0.0)
            && (r.scaleX == if p.playerX < s.posX then -Abs(s.scaleX) else Abs(s.scaleX))
  {
    var v := Sign(p.playerX - s.posX) * c.tuning.chaseSpeed;
    assert Abs(v) == c.tuning.chaseSpeed by {
      if Sign(p.playerX - s.posX) == 1.0 { assert v == c.tuning.chaseSpeed; }
      else { assert v == -c.tuning.chaseSpeed; }
    }
  }

  /**
   * Attacks never overlap: while one runs, no frame and no contact starts
   * another or moves its deadline, and only the routine's own resume ends
   * it. No frame or contact kills the player.
   */
  lemma AttackNoOverlap(c: EnemySetup, s: Enemy, seen: Option<Sighting>, obstacleAhead: bool, now: real, dt: real)
    requires s.isAttacking
    ensures var r := AfterUpdate(c, s, seen, obstacleAhead, now, dt);
            r.isAttacking && r.attackDeadline == s.attackDeadline && r.kills == s.kills
    ensures AfterTryAttack(c, s, now) == s
  {
  }

  /**
   * An idle frame starts an attack only from a chase, with the player
   * within catching distance, and then with the attack delay.
   */
  lemma AttackStart(c: EnemySetup, s: Enemy, p: Sighting, obstacleAhead: bool, now: real, dt: real)
    requires !s.isAttacking
    ensures var r := AfterUpdate(c, s, Some(p), obstacleAhead, now, dt);
            r.isAttacking <==> s.chasing && p.dist <= LoseRadius(c.tuning) && p.dist <= c.tuning.catchDistance
    ensures var r := AfterUpdate(c, s, Some(p), obstacleAhead, now, dt);
            r.isAttacking ==> r.attackDeadline == now + AttackDelay(c)
  {
  }

  /**
   * The routine kills at most once per attack: at its first resume at or
   * after the deadline it calls `KillPlayer` once when a respawn manager is
   * found, and ends; before the deadline, or with no attack, nothing
   * happens.
   */
  lemma ResumeKillsOnce(s: Enemy, now: real, respawnFound: bool)
    ensures var r := AfterResume(s, now, respawnFound);
            && r.kills == (if s.isAttacking && now >= s.attackDeadline && respawnFound then s.kills + 1 else s.kills)
            && (r.isAttacking <==> s.isAttacking && now < s.attackDeadline)
            && r.posX == s.posX && r.vx == s.vx && r.chasing == s.chasing && r.patrolDir == s.patrolDir
  {
  }

  /** Every step keeps the patrol direction a unit. */
  lemma UpdateKeepsInv(c: EnemySetup, s: Enemy, seen: Option<Sighting>, obstacleAhead: bool, now: real, dt: real)
    requires Inv(s)
    ensures Inv(AfterUpdate(c, s, seen, obstacleAhead, now, dt))
  {
  }
}
