/** The six enemy kinds (Assets/Scripts/Enemies/EnemySnail.cs, EnemyRino.cs,
    EnemyTrunk.cs, EnemyChicken.cs, EnemyPlant.cs, EnemyMushroom.cs). Each
    holds its shared enemy state in `enemy` and adds its own fields. */
module EnemyKinds {
  import opened Engine
  import opened Facing
  import opened EnemyBase

  // ---------------------------------------------------------------- shooting

  /** Every consecutive pair of attack times is more than `cooldown` apart. */
  predicate Spaced(times: seq<real>, cooldown: real) {
    forall i :: 0 < i < |times| ==> times[i] > times[i - 1] + cooldown
  }

  /** With a non-negative cooldown, spacing between neighbours is spacing
      between any two attacks. */
  lemma {:induction false} SpacedPair(times: seq<real>, cooldown: real, i: int, j: int)
    requires cooldown >= 0.0 && Spaced(times, cooldown)
    requires 0 <= i < j < |times|
    ensures times[j] > times[i] + cooldown
    decreases j - i
  {
    if j > i + 1 {
      SpacedPair(times, cooldown, i, j - 1);
      assert times[j] > times[j - 1] + cooldown;
    }
  }

  lemma SpacedApart(times: seq<real>, cooldown: real)
    requires cooldown >= 0.0 && Spaced(times, cooldown)
    ensures forall i, j :: 0 <= i < j < |times| ==> times[j] > times[i] + cooldown
  {
    forall i, j | 0 <= i < j < |times|
      ensures times[j] > times[i] + cooldown
    {
      SpacedPair(times, cooldown, i, j);
    }
  }

  /** The velocity of a new bullet: its speed along the facing direction. */
  function BulletVelocity(bulletSpeed: real, facingDirection: int): (v: Point)
    requires facingDirection == 1 || facingDirection == -1
    ensures v.y == 0.0
    ensures facingDirection == 1 ==> v.x == bulletSpeed
    ensures facingDirection == -1 ==> v.x == -bulletSpeed
  {
    Point(bulletSpeed * (facingDirection as real), 0.0)
  }

  /** The attack clock shared in shape by the trunk and the plant: an attack
      is allowed strictly after the cooldown since the last one. The log of
      attack times records every attack made. */
  class Gun {
    /** Inspector defaults: 7 and 1.5. */
    const bulletSpeed: real
    const attackCoolDown: real
    var lastTimeAttacked: real
    var attackTimes: seq<real>

    /** The attack log is spaced by the cooldown and ends at the last attack. */
    predicate Valid()
      reads this
    {
      && Spaced(attackTimes, attackCoolDown)
      && (|attackTimes| > 0 ==> lastTimeAttacked == attackTimes[|attackTimes| - 1])
    }

    constructor(bulletSpeed: real, attackCoolDown: real)
      ensures Valid() && lastTimeAttacked == 0.0 && attackTimes == []
      ensures this.bulletSpeed == bulletSpeed && this.attackCoolDown == attackCoolDown
    {
      this.bulletSpeed := bulletSpeed;
      this.attackCoolDown := attackCoolDown;
      lastTimeAttacked := 0.0;
      attackTimes := [];
    }

    /** Attacks when the player is seen and the cooldown has strictly passed;
        no attack comes at or before the last one plus the cooldown. */
    method TryAttack(now: real, playerDetected: bool) returns (attacked: bool)
      requires Valid()
      modifies this
      ensures Valid()
      ensures attacked <==> playerDetected && now > old(lastTimeAttacked) + attackCoolDown
      ensures attackTimes == if attacked then old(attackTimes) + [now] else old(attackTimes)
      ensures lastTimeAttacked == if attacked then now else old(lastTimeAttacked)
    {
      var canAttack := now > lastTimeAttacked + attackCoolDown;
      attacked := playerDetected && canAttack;
      if attacked {
        Attack(now);
      }
    }

    method Attack(now: real)
      requires Valid() && now > lastTimeAttacked + attackCoolDown
      modifies this
      ensures Valid() && lastTimeAttacked == now && attackTimes == old(attackTimes) + [now]
    {
      lastTimeAttacked := now;
      attackTimes := attackTimes + [now];
    }
  }

  // ---------------------------------------------------------------- snail

  /** The snail's life: in its shell, knocked out of it and stunned, racing
      without it, dead. */
  datatype SnailPhase = Shelled | Stunned | Racing | Dead

  function NextHit(p: SnailPhase): SnailPhase {
    match p
    case Shelled => Stunned
    case Stunned => Racing
    case Racing => Dead
    case Dead => Dead
  }

  function PhaseAfterHits(p: SnailPhase, hits: nat): SnailPhase
    decreases hits
  {
    if hits == 0 then p else PhaseAfterHits(NextHit(p), hits - 1)
  }

  /** Helper for ThreeHitsKill: further hits leave a dead snail dead. */
  lemma {:induction false} DeadStaysDead(hits: nat)
    ensures PhaseAfterHits(Dead, hits) == Dead
  {
    if hits > 0 {
      DeadStaysDead(hits - 1);
    }
  }

  /** A snail in its shell dies on exactly the third hit. */
  lemma {:induction false} ThreeHitsKill(hits: nat)
    ensures PhaseAfterHits(Shelled, hits) == Dead <==> hits >= 3
  {
    if hits >= 3 {
      calc {
        PhaseAfterHits(Shelled, hits);
        PhaseAfterHits(Stunned, hits - 1);
        PhaseAfterHits(Racing, hits - 2);
        PhaseAfterHits(Dead, hits - 3);
      }
      DeadStaysDead(hits - 3);
    } else if hits == 2 {
      assert PhaseAfterHits(Shelled, hits) == PhaseAfterHits(Racing, 0);
    } else if hits == 1 {
      assert PhaseAfterHits(Shelled, hits) == PhaseAfterHits(Stunned, 0);
    }
  }

  class Snail {
    const enemy: Enemy
    /** Inspector default 10. */
    const maxSpeed: real
    var hasBody: bool
    /** Times the wall-hit animation was triggered. */
    var wallHitTriggers: nat

    predicate Valid()
      reads this, enemy
    {
      enemy.Valid()
    }

    function Phase(): SnailPhase
      reads this, enemy
    {
      if enemy.isDead then Dead
      else if hasBody then Shelled
      else if !enemy.canMove then Stunned
      else Racing
    }

    constructor(enemy: Enemy, maxSpeed: real)
      requires enemy.Valid() && !enemy.isDead
      ensures Valid() && hasBody && Phase() == Shelled && wallHitTriggers == 0
      ensures this.enemy == enemy && this.maxSpeed == maxSpeed
    {
      this.enemy := enemy;
      this.maxSpeed := maxSpeed;
      hasBody := true;
      wallHitTriggers := 0;
    }

    /** The base start, with the snail's own flip. */
    method Start()
      requires Valid()
      modifies enemy, this
      ensures Valid() && hasBody == old(hasBody)
      ensures enemy.facingRight == (old(enemy.facingRight) || old(enemy.spriteFlipX))
    {
      var flipped := enemy.Start();
      if flipped && !hasBody {
        wallHitTriggers := wallHitTriggers + 1;
      }
    }

    /** A hit moves the snail one phase on. The first knocks it out of its
        shell and stuns it in place; the second sends it racing at full
        speed; the third kills it. */
    method Die(coin: bool)
      requires Valid()
      modifies this, enemy, enemy.colliders
      ensures Valid()
      ensures Phase() == NextHit(old(Phase()))
      ensures !old(hasBody) ==> !hasBody
      ensures old(hasBody) ==>
        && !hasBody && !enemy.canMove && enemy.vx == 0.0 && enemy.vy == 0.0
        && enemy.idleDuration == 0.0 && enemy.isDead == old(enemy.isDead)
      ensures !old(hasBody) && !old(enemy.canMove) ==>
        enemy.canMove && enemy.moveSpeed == maxSpeed && enemy.isDead == old(enemy.isDead)
      ensures !old(hasBody) && old(enemy.canMove) ==> enemy.isDead
    {
      if hasBody {
        enemy.canMove := false;
        hasBody := false;
        enemy.vx, enemy.vy := 0.0, 0.0;
        enemy.idleDuration := 0.0;
      } else if !enemy.canMove && !hasBody {
        enemy.canMove := true;
        enemy.moveSpeed := maxSpeed;
      } else {
        enemy.Die(coin);
      }
    }

    /** A frame: nothing but the base part once dead; otherwise moving and,
        on the ground, turning. */
    method Update(deltaTime: real, sensors: Sensors)
      requires Valid()
      modifies this, enemy
      ensures Valid() && enemy.SensorsAre(sensors)
      ensures hasBody == old(hasBody) && enemy.canMove == old(enemy.canMove) && enemy.isDead == old(enemy.isDead)
      ensures enemy.isDead ==>
        && enemy.FacingKept() && enemy.vx == old(enemy.vx) && enemy.vy == old(enemy.vy)
        && enemy.idleTimer == old(enemy.idleTimer) - deltaTime
      ensures !enemy.isDead && !sensors.grounded ==> enemy.FacingKept()
      ensures enemy.moveSpeed == old(enemy.moveSpeed) && enemy.idleDuration == old(enemy.idleDuration)
      ensures !enemy.isDead ==>
        var walk := old(enemy.idleTimer) - deltaTime <= 0.0 && enemy.canMove;
        var turn := sensors.grounded && ((!sensors.groundInFront && hasBody) || sensors.wallDetected);
        && (turn ==>
              && enemy.facingRight == !old(enemy.facingRight) && enemy.idleTimer == enemy.idleDuration
              && enemy.vx == 0.0 && enemy.vy == 0.0
              && wallHitTriggers == if hasBody then old(wallHitTriggers) else old(wallHitTriggers) + 1)
        && (!turn ==>
              && enemy.FacingKept() && enemy.idleTimer == old(enemy.idleTimer) - deltaTime
              && enemy.vx == (if walk then enemy.moveSpeed * (enemy.facingDirection as real) else old(enemy.vx))
              && enemy.vy == old(enemy.vy) && wallHitTriggers == old(wallHitTriggers))
      ensures enemy.isDead ==> wallHitTriggers == old(wallHitTriggers)
    {
      enemy.Update(deltaTime, sensors);
      if enemy.isDead {
        return;
      }
      HandleMovement();
      if enemy.isGrounded {
        HandleTurnAround();
      }
    }

    /** Turns at a wall always, and at a ledge only while in its shell. */
    method HandleTurnAround()
      requires Valid()
      modifies this, enemy
      ensures Valid() && hasBody == old(hasBody)
      ensures var turn := (!enemy.isGroundInFrontDetected && hasBody) || enemy.isWallDetected;
        && (turn ==> enemy.facingRight == !old(enemy.facingRight) && enemy.idleTimer == enemy.idleDuration
                     && enemy.vx == 0.0 && enemy.vy == 0.0)
        && (!turn ==> enemy.FacingKept() && enemy.idleTimer == old(enemy.idleTimer)
                      && enemy.vx == old(enemy.vx) && enemy.vy == old(enemy.vy))
      ensures enemy.SensorsKept() && enemy.canMove == old(enemy.canMove) && enemy.isDead == old(enemy.isDead)
      ensures enemy.idleDuration == old(enemy.idleDuration) && enemy.moveSpeed == old(enemy.moveSpeed)
      ensures wallHitTriggers == if ((!enemy.isGroundInFrontDetected && hasBody) || enemy.isWallDetected) && !hasBody
        then old(wallHitTriggers) + 1 else old(wallHitTriggers)
    {
      var canFlipFromLedge := !enemy.isGroundInFrontDetected && hasBody;
      if canFlipFromLedge || enemy.isWallDetected {
        Flip();
        enemy.StandIdle();
      }
    }

    /** Moves only when not idling and allowed to move. */
    method HandleMovement()
      modifies enemy
      ensures enemy.idleTimer <= 0.0 && enemy.canMove ==> enemy.vx == enemy.moveSpeed * (enemy.facingDirection as real)
      ensures !(enemy.idleTimer <= 0.0 && enemy.canMove) ==> enemy.vx == old(enemy.vx)
      ensures enemy.vy == old(enemy.vy) && enemy.FacingKept() && enemy.SensorsKept() && enemy.MotionKept()
      ensures enemy.Valid() <==> old(enemy.Valid())
    {
      if enemy.idleTimer > 0.0 {
        return;
      }
      if !enemy.canMove {
        return;
      }
      enemy.Walk();
    }

    /** The base flip, plus the wall-hit animation once the shell is gone. */
    method Flip()
      requires Valid()
      modifies this, enemy
      ensures Valid() && enemy.facingRight == !old(enemy.facingRight)
      ensures wallHitTriggers == if hasBody then old(wallHitTriggers) else old(wallHitTriggers) + 1
      ensures hasBody == old(hasBody)
      ensures enemy.MotionKept() && enemy.SensorsKept() && enemy.vx == old(enemy.vx) && enemy.vy == old(enemy.vy)
    {
      enemy.Flip();
      if !hasBody {
        wallHitTriggers := wallHitTriggers + 1;
      }
    }
  }

  /** Three hits in a row kill a snail in its shell, and two do not. */
  method HitSnailThrice(snail: Snail, coins: seq<bool>)
    requires snail.Valid() && snail.Phase() == Shelled && |coins| == 3
    modifies snail, snail.enemy, snail.enemy.colliders
    ensures snail.enemy.isDead && !snail.hasBody
  {
    snail.Die(coins[0]);
    snail.Die(coins[1]);
    assert snail.Phase() == Racing && !snail.enemy.isDead;
    snail.Die(coins[2]);
  }

  // ---------------------------------------------------------------- rino

  /** One charge step of the rino as written: the speed grows by the frame
      time times the rate, and the recorded maximum is raised to meet it.
      The result is the new speed and the new maximum. */
  function ChargeStep(speed: real, maxSpeed: real, deltaTime: real, rate: real): (real, real) {
    var s := speed + deltaTime * rate;
    (s, if s >= maxSpeed then s else maxSpeed)
  }

  /** The speed and maximum after `frames` charge steps, as written. */
  function ChargeSteps(speed: real, maxSpeed: real, deltaTime: real, rate: real, frames: nat): (real, real)
    decreases frames
  {
    if frames == 0 then (speed, maxSpeed)
    else
      var next := ChargeStep(speed, maxSpeed, deltaTime, rate);
      ChargeSteps(next.0, next.1, deltaTime, rate, frames - 1)
  }

  /** As written, the maximum never holds the speed back: after any number
      of frames the speed has grown by every step, and the maximum has only
      followed it. */
  lemma {:induction false} ChargeNeverCapped(speed: real, maxSpeed: real, deltaTime: real, rate: real, frames: nat)
    decreases frames
    ensures ChargeSteps(speed, maxSpeed, deltaTime, rate, frames).0 == speed + (frames as real) * deltaTime * rate
    ensures ChargeSteps(speed, maxSpeed, deltaTime, rate, frames).1 >= maxSpeed
  {
    if frames > 0 {
      var next := ChargeStep(speed, maxSpeed, deltaTime, rate);
      ChargeNeverCapped(next.0, next.1, deltaTime, rate, frames - 1);
    }
  }

  /** A rino walking at 2 with a maximum of 4 charges past it: after three
      one-second frames at rate 1 it runs at 5. */
  lemma ChargePassesMaximum()
    ensures ChargeSteps(2.0, 4.0, 1.0, 1.0, 3).0 == 5.0
  {
    ChargeNeverCapped(2.0, 4.0, 1.0, 1.0, 3);
  }

  /** One charge step as the comment at EnemyRino.cs:72 intends: the speed
      grows by the frame time times the rate, but not past the maximum. */
  function CappedChargeStep(speed: real, maxSpeed: real, deltaTime: real, rate: real): (s: real)
    ensures s <= maxSpeed || s == speed + deltaTime * rate
    ensures speed <= maxSpeed ==> s <= maxSpeed
    ensures deltaTime * rate >= 0.0 && speed <= maxSpeed ==> speed <= s
  {
    var grown := speed + deltaTime * rate;
    if grown >= maxSpeed then maxSpeed else grown
  }

  function CappedChargeSteps(speed: real, maxSpeed: real, deltaTime: real, rate: real, frames: nat): real
    decreases frames
  {
    if frames == 0 then speed
    else CappedChargeSteps(CappedChargeStep(speed, maxSpeed, deltaTime, rate), maxSpeed, deltaTime, rate, frames - 1)
  }

  /** With the cap, a charge that starts at or below the maximum never
      exceeds it and never slows down. */
  lemma {:induction false} CappedChargeStaysBelow(speed: real, maxSpeed: real, deltaTime: real, rate: real, frames: nat)
    requires speed <= maxSpeed && deltaTime * rate >= 0.0
    decreases frames
    ensures speed <= CappedChargeSteps(speed, maxSpeed, deltaTime, rate, frames) <= maxSpeed
  {
    if frames > 0 {
      CappedChargeStaysBelow(CappedChargeStep(speed, maxSpeed, deltaTime, rate), maxSpeed, deltaTime, rate, frames - 1);
    }
  }

  class Rino {
    const enemy: Enemy
    var defaultSpeed: real
    var maxSpeed: real
    /** Inspector default 0.6. */
    const speedUpRate: real
    const impactPower: Point
    /** The animator's hitWall flag. */
    var hitWall: bool
    /** Flips requested by ChargeIsOver and not yet made. */
    var pendingFlips: nat

    predicate Valid()
      reads this, enemy
    {
      enemy.Valid()
    }

    constructor(enemy: Enemy, maxSpeed: real, speedUpRate: real, impactPower: Point)
      requires enemy.Valid()
      ensures Valid() && !hitWall && pendingFlips == 0
      ensures this.enemy == enemy && this.maxSpeed == maxSpeed
      ensures this.speedUpRate == speedUpRate && this.impactPower == impactPower
    {
      this.enemy := enemy;
      defaultSpeed := enemy.moveSpeed;
      this.maxSpeed := maxSpeed;
      this.speedUpRate := speedUpRate;
      this.impactPower := impactPower;
      hitWall := false;
      pendingFlips := 0;
    }

    /** The rino waits until it sees the player, and remembers its walking
        speed. */
    method Start()
      requires Valid()
      modifies this, enemy
      ensures Valid() && !enemy.canMove && defaultSpeed == enemy.moveSpeed
      ensures enemy.moveSpeed == old(enemy.moveSpeed)
    {
      var flipped := enemy.Start();
      enemy.canMove := false;
      defaultSpeed := enemy.moveSpeed;
    }

    /** A frame: seeing the player starts the charge; a charging rino speeds
        up and stops exactly at a ledge or a wall. */
    method Update(deltaTime: real, sensors: Sensors)
      requires Valid()
      modifies this, enemy
      ensures Valid() && enemy.SensorsAre(sensors)
      ensures !old(enemy.canMove) && !sensors.playerDetected ==>
        && !enemy.canMove && enemy.moveSpeed == old(enemy.moveSpeed)
        && enemy.FacingKept() && enemy.vx == old(enemy.vx)
      ensures old(enemy.canMove) || sensors.playerDetected ==>
        && (enemy.canMove <==> sensors.groundInFront && !sensors.wallDetected)
        && enemy.moveSpeed == (if enemy.canMove then old(enemy.moveSpeed) + deltaTime * speedUpRate else defaultSpeed)
        && (sensors.wallDetected ==> hitWall)
        && (!sensors.wallDetected ==> hitWall == old(hitWall))
        && (!sensors.groundInFront ==> enemy.facingRight == !old(enemy.facingRight))
        && (sensors.groundInFront ==> enemy.FacingKept())
        && (sensors.wallDetected ==>
              enemy.vx == impactPower.x * (-enemy.facingDirection as real) && enemy.vy == impactPower.y)
        && (!sensors.wallDetected && !sensors.groundInFront ==> enemy.vx == 0.0 && enemy.vy == 0.0)
        && (!sensors.wallDetected && sensors.groundInFront ==>
              enemy.vx == enemy.moveSpeed * (enemy.facingDirection as real) && enemy.vy == old(enemy.vy))
      ensures !old(enemy.canMove) && !sensors.playerDetected ==> enemy.vy == old(enemy.vy) && hitWall == old(hitWall)
      ensures defaultSpeed == old(defaultSpeed) && maxSpeed >= old(maxSpeed) && pendingFlips == old(pendingFlips)
    {
      enemy.Update(deltaTime, sensors);
      if enemy.isPlayerDetected {
        enemy.canMove := true;
      }
      HandleCharge(deltaTime);
    }

    method HandleCharge(deltaTime: real)
      requires Valid()
      modifies this, enemy
      ensures Valid() && enemy.SensorsKept()
      ensures !old(enemy.canMove) ==>
        && !enemy.canMove && enemy.moveSpeed == old(enemy.moveSpeed) && enemy.FacingKept()
        && enemy.vx == old(enemy.vx) && hitWall == old(hitWall) && maxSpeed == old(maxSpeed)
      ensures old(enemy.canMove) ==>
        && (enemy.canMove <==> enemy.isGroundInFrontDetected && !enemy.isWallDetected)
        && enemy.moveSpeed == (if enemy.canMove then old(enemy.moveSpeed) + deltaTime * speedUpRate else defaultSpeed)
        && (enemy.isWallDetected ==> hitWall)
        && (!enemy.isWallDetected ==> hitWall == old(hitWall))
        && maxSpeed >= old(maxSpeed)
        && (!enemy.isGroundInFrontDetected ==> enemy.facingRight == !old(enemy.facingRight))
        && (enemy.isGroundInFrontDetected ==> enemy.FacingKept())
        && (enemy.isWallDetected ==>
              enemy.vx == impactPower.x * (-enemy.facingDirection as real) && enemy.vy == impactPower.y)
        && (!enemy.isWallDetected && !enemy.isGroundInFrontDetected ==> enemy.vx == 0.0 && enemy.vy == 0.0)
        && (!enemy.isWallDetected && enemy.isGroundInFrontDetected ==>
              enemy.vx == enemy.moveSpeed * (enemy.facingDirection as real) && enemy.vy == old(enemy.vy))
      ensures !old(enemy.canMove) ==> enemy.vy == old(enemy.vy)
      ensures defaultSpeed == old(defaultSpeed) && maxSpeed >= old(maxSpeed) && pendingFlips == old(pendingFlips)
    {
      if !enemy.canMove {
        return;
      }
      HandleSpeedMovement(deltaTime);
      if !enemy.isGroundInFrontDetected {
        TurnAround();
      }
      if enemy.isWallDetected {
        WallHit();
      }
    }

    /** Accelerates; the recorded maximum is raised to the speed rather than
        the speed capped at it. */
    method HandleSpeedMovement(deltaTime: real)
      modifies this, enemy
      ensures enemy.moveSpeed == old(enemy.moveSpeed) + deltaTime * speedUpRate
      ensures maxSpeed >= enemy.moveSpeed && maxSpeed >= old(maxSpeed)
      ensures maxSpeed == if enemy.moveSpeed >= old(maxSpeed) then enemy.moveSpeed else old(maxSpeed)
      ensures (enemy.moveSpeed, maxSpeed) == ChargeStep(old(enemy.moveSpeed), old(maxSpeed), deltaTime, speedUpRate)
      ensures enemy.vx == enemy.moveSpeed * (enemy.facingDirection as real) && enemy.vy == old(enemy.vy)
      ensures enemy.FacingKept() && enemy.SensorsKept() && enemy.canMove == old(enemy.canMove)
      ensures enemy.Valid() <==> old(enemy.Valid())
      ensures defaultSpeed == old(defaultSpeed) && hitWall == old(hitWall) && pendingFlips == old(pendingFlips)
    {
      enemy.moveSpeed := enemy.moveSpeed + deltaTime * speedUpRate;
      if enemy.moveSpeed >= maxSpeed {
        maxSpeed := enemy.moveSpeed;
      }
      enemy.vx := enemy.moveSpeed * (enemy.facingDirection as real);
    }

    /** At a ledge: back to walking speed, stopped, turned around. */
    method TurnAround()
      requires Valid()
      modifies enemy
      ensures Valid() && enemy.moveSpeed == defaultSpeed && !enemy.canMove
      ensures enemy.vx == 0.0 && enemy.vy == 0.0 && enemy.facingRight == !old(enemy.facingRight)
      ensures enemy.SensorsKept()
    {
      SpeedReset();
      enemy.canMove := false;
      enemy.vx, enemy.vy := 0.0, 0.0;
      enemy.Flip();
    }

    /** Into a wall: stopped, back to walking speed, and thrown back against
        the facing direction. */
    method WallHit()
      requires Valid()
      modifies this, enemy
      ensures Valid() && !enemy.canMove && enemy.moveSpeed == defaultSpeed && hitWall
      ensures enemy.vx == impactPower.x * (-enemy.facingDirection as real) && enemy.vy == impactPower.y
      ensures enemy.FacingKept() && enemy.SensorsKept()
      ensures defaultSpeed == old(defaultSpeed) && maxSpeed == old(maxSpeed) && pendingFlips == old(pendingFlips)
    {
      enemy.canMove := false;
      SpeedReset();
      hitWall := true;
      enemy.vx, enemy.vy := impactPower.x * (-enemy.facingDirection as real), impactPower.y;
    }

    method SpeedReset()
      modifies enemy
      ensures enemy.moveSpeed == defaultSpeed
      ensures enemy.FacingKept() && enemy.SensorsKept() && enemy.canMove == old(enemy.canMove)
      ensures enemy.vx == old(enemy.vx) && enemy.vy == old(enemy.vy)
      ensures enemy.Valid() <==> old(enemy.Valid())
    {
      enemy.moveSpeed := defaultSpeed;
    }

    /** The end of the wall-hit animation: the flag is cleared and one flip
        is requested for a second later. */
    method ChargeIsOver()
      modifies this
      ensures !hitWall && pendingFlips == old(pendingFlips) + 1
    {
      hitWall := false;
      pendingFlips := pendingFlips + 1;
    }

    /** The delayed flip. */
    method CompleteDelayedFlip()
      requires Valid() && pendingFlips > 0
      modifies this, enemy
      ensures Valid() && pendingFlips == old(pendingFlips) - 1
      ensures enemy.facingRight == !old(enemy.facingRight)
    {
      enemy.Flip();
      pendingFlips := pendingFlips - 1;
    }
  }

  // ---------------------------------------------------------------- trunk

  class Trunk {
    const enemy: Enemy
    const gun: Gun

    predicate Valid()
      reads this, enemy, gun
    {
      enemy.Valid() && gun.Valid()
    }

    constructor(enemy: Enemy, gun: Gun)
      requires enemy.Valid() && gun.Valid()
      ensures Valid() && this.enemy == enemy && this.gun == gun
    {
      this.enemy := enemy;
      this.gun := gun;
    }

    /** A frame. A dead trunk does nothing more than the base part; a live
        one stands while it sees the player, turns on the ground at a ledge
        or wall, and attacks when the cooldown allows. */
    method Update(now: real, deltaTime: real, sensors: Sensors) returns (attacked: bool)
      requires Valid()
      modifies enemy, gun
      ensures Valid() && enemy.SensorsAre(sensors)
      ensures enemy.isDead == old(enemy.isDead)
      ensures enemy.isDead ==>
        && !attacked && gun.attackTimes == old(gun.attackTimes)
        && enemy.FacingKept() && enemy.vx == old(enemy.vx) && enemy.canMove == old(enemy.canMove)
      ensures !enemy.isDead ==>
        && enemy.canMove == !sensors.playerDetected
        && (attacked <==> sensors.playerDetected && now > old(gun.lastTimeAttacked) + gun.attackCoolDown)
        && gun.attackTimes == (if attacked then old(gun.attackTimes) + [now] else old(gun.attackTimes))
      ensures var turn := sensors.grounded && (!sensors.groundInFront || sensors.wallDetected);
        var timer := old(enemy.idleTimer) - deltaTime;
        !enemy.isDead ==>
          && (turn ==> enemy.facingRight == !old(enemy.facingRight) && enemy.idleTimer == enemy.idleDuration
                       && enemy.vx == 0.0 && enemy.vy == 0.0)
          && (!turn ==> enemy.FacingKept() && enemy.idleTimer == timer && enemy.vy == old(enemy.vy))
          && (!turn && (sensors.playerDetected || timer > 0.0) ==> enemy.vx == old(enemy.vx))
          && (!turn && !sensors.playerDetected && timer <= 0.0 ==>
                enemy.vx == enemy.moveSpeed * (enemy.facingDirection as real))
    {
      enemy.Update(deltaTime, sensors);
      attacked := false;
      if enemy.isDead {
        return;
      }
      enemy.canMove := !enemy.isPlayerDetected;
      HandleMovement();
      if enemy.isGrounded {
        HandleTurnAround();
      }
      attacked := gun.TryAttack(now, enemy.isPlayerDetected);
    }

    /** Turns at a ledge or a wall and waits. */
    method HandleTurnAround()
      requires enemy.Valid()
      modifies enemy
      ensures enemy.Valid() && enemy.SensorsKept() && enemy.canMove == old(enemy.canMove)
      ensures var turn := !enemy.isGroundInFrontDetected || enemy.isWallDetected;
        && (turn ==> enemy.facingRight == !old(enemy.facingRight) && enemy.idleTimer == enemy.idleDuration
                     && enemy.vx == 0.0 && enemy.vy == 0.0)
        && (!turn ==> enemy.FacingKept() && enemy.vx == old(enemy.vx) && enemy.vy == old(enemy.vy)
                      && enemy.idleTimer == old(enemy.idleTimer))
      ensures enemy.isDead == old(enemy.isDead) && enemy.moveSpeed == old(enemy.moveSpeed)
    {
      if !enemy.isGroundInFrontDetected || enemy.isWallDetected {
        enemy.Flip();
        enemy.StandIdle();
      }
    }

    /** Velocity is left alone while the player is seen or while idling. */
    method HandleMovement()
      modifies enemy
      ensures (enemy.isPlayerDetected && !enemy.canMove) || enemy.idleTimer > 0.0 ==> enemy.vx == old(enemy.vx)
      ensures !((enemy.isPlayerDetected && !enemy.canMove) || enemy.idleTimer > 0.0) ==>
        enemy.vx == enemy.moveSpeed * (enemy.facingDirection as real)
      ensures enemy.vy == old(enemy.vy) && enemy.FacingKept() && enemy.SensorsKept() && enemy.MotionKept()
      ensures enemy.Valid() <==> old(enemy.Valid())
    {
      if enemy.isPlayerDetected && !enemy.canMove {
        return;
      }
      if enemy.idleTimer > 0.0 {
        return;
      }
      enemy.Walk();
    }

    /** The bullet flies along the facing direction, its sprite turned when
        shot to the right. */
    method CreateBullet() returns (velocity: Point, spriteFlipped: bool)
      requires enemy.Valid()
      ensures velocity == BulletVelocity(gun.bulletSpeed, enemy.facingDirection)
      ensures spriteFlipped <==> enemy.facingRight
    {
      spriteFlipped := enemy.facingDirection == 1;
      velocity := Point(gun.bulletSpeed * (enemy.facingDirection as real), 0.0);
    }
  }

  // ---------------------------------------------------------------- plant

  class Plant {
    const enemy: Enemy
    const gun: Gun

    predicate Valid()
      reads this, enemy, gun
    {
      enemy.Valid() && gun.Valid()
    }

    constructor(enemy: Enemy, gun: Gun)
      requires enemy.Valid() && gun.Valid()
      ensures Valid() && this.enemy == enemy && this.gun == gun
    {
      this.enemy := enemy;
      this.gun := gun;
    }

    /** A frame: the plant never moves and attacks by the cooldown alone; the
        attack does not check whether the plant is dead. */
    method Update(now: real, deltaTime: real, sensors: Sensors) returns (attacked: bool)
      requires Valid()
      modifies enemy, gun
      ensures Valid() && enemy.SensorsAre(sensors)
      ensures attacked <==> sensors.playerDetected && now > old(gun.lastTimeAttacked) + gun.attackCoolDown
      ensures gun.attackTimes == if attacked then old(gun.attackTimes) + [now] else old(gun.attackTimes)
      ensures enemy.FacingKept() && enemy.vx == old(enemy.vx) && enemy.isDead == old(enemy.isDead)
    {
      enemy.Update(deltaTime, sensors);
      attacked := gun.TryAttack(now, enemy.isPlayerDetected);
    }

    method CreateBullet() returns (velocity: Point)
      requires enemy.Valid()
      ensures velocity == BulletVelocity(gun.bulletSpeed, enemy.facingDirection)
    {
      velocity := Point(gun.bulletSpeed * (enemy.facingDirection as real), 0.0);
    }
  }

  /** However the frames go, a trunk's or a plant's attacks are more than a
      cooldown apart from one another. */
  lemma AttacksSpacedApart(gun: Gun)
    requires gun.Valid() && gun.attackCoolDown >= 0.0
    ensures forall i, j :: 0 <= i < j < |gun.attackTimes| ==>
      gun.attackTimes[j] > gun.attackTimes[i] + gun.attackCoolDown
  {
    SpacedApart(gun.attackTimes, gun.attackCoolDown);
  }

  // ---------------------------------------------------------------- chicken

  class Chicken {
    const enemy: Enemy
    const aggroDuration: real
    var aggroTimer: real
    /** HandleFlip may request a flip; cleared while a request is pending. */
    var canFlip: bool
    /** Flips requested by HandleFlip and not yet made. */
    var pendingFlips: nat

    /** While flipping is blocked, a requested flip is on its way. */
    predicate Valid()
      reads this, enemy
    {
      enemy.Valid() && (!canFlip ==> pendingFlips > 0)
    }

    constructor(enemy: Enemy, aggroDuration: real)
      requires enemy.Valid()
      ensures Valid() && canFlip && pendingFlips == 0 && aggroTimer == 0.0
      ensures this.enemy == enemy && this.aggroDuration == aggroDuration
    {
      this.enemy := enemy;
      this.aggroDuration := aggroDuration;
      aggroTimer := 0.0;
      canFlip := true;
      pendingFlips := 0;
    }

    method Start()
      requires Valid()
      modifies this, enemy
      ensures Valid()
      ensures enemy.facingRight == (old(enemy.facingRight) || old(enemy.spriteFlipX))
    {
      var flipped := enemy.Start();
      if flipped {
        canFlip := true;
      }
    }

    /** A frame. The aggro timer runs down even when dead. Seeing the player
        starts the chase and refills the timer; an empty timer ends it. A
        chasing chicken requests a turn towards the player (`playerX` is the
        x position of `enemy.player`) and runs; on the ground at a ledge or
        wall it turns and stops. Chasing with no player reference throws
        (`failed`), which ends the frame before the turn. */
    method Update(deltaTime: real, sensors: Sensors, playerX: real) returns (failed: bool)
      requires Valid()
      modifies this, enemy
      ensures Valid() && enemy.SensorsAre(sensors)
      ensures enemy.isDead == old(enemy.isDead) && enemy.player == old(enemy.player)
      ensures enemy.isDead ==>
        && !failed && aggroTimer == old(aggroTimer) - deltaTime && enemy.canMove == old(enemy.canMove)
        && enemy.FacingKept() && enemy.vx == old(enemy.vx) && enemy.vy == old(enemy.vy)
        && pendingFlips == old(pendingFlips) && canFlip == old(canFlip)
      ensures !enemy.isDead ==>
        aggroTimer == if sensors.playerDetected then aggroDuration else old(aggroTimer) - deltaTime
      ensures var moving := (old(enemy.canMove) || sensors.playerDetected) && aggroTimer >= 0.0;
        !enemy.isDead ==> (failed <==> moving && enemy.player == null)
      ensures !enemy.isDead && failed ==>
        && enemy.canMove && enemy.FacingKept() && enemy.vx == old(enemy.vx) && enemy.vy == old(enemy.vy)
        && pendingFlips == old(pendingFlips) && canFlip == old(canFlip)
      ensures var moving := (old(enemy.canMove) || sensors.playerDetected) && aggroTimer >= 0.0;
        var turn := sensors.grounded && (!sensors.groundInFront || sensors.wallDetected);
        var request := moving && NeedsFlip(playerX, old(enemy.x), old(enemy.facingRight)) && old(canFlip);
        !enemy.isDead && !failed ==>
          && enemy.canMove == (moving && !turn)
          && pendingFlips == (if request then old(pendingFlips) + 1 else old(pendingFlips))
          && canFlip == (turn || (old(canFlip) && !request))
      ensures var turn := sensors.grounded && (!sensors.groundInFront || sensors.wallDetected);
        !enemy.isDead && !failed && turn ==>
          enemy.facingRight == !old(enemy.facingRight) && enemy.vx == 0.0 && enemy.vy == 0.0
      ensures var moving := (old(enemy.canMove) || sensors.playerDetected) && aggroTimer >= 0.0;
        var turn := sensors.grounded && (!sensors.groundInFront || sensors.wallDetected);
        !enemy.isDead && !failed && !turn ==>
          && enemy.FacingKept() && enemy.vy == old(enemy.vy)
          && enemy.vx == if moving then enemy.moveSpeed * (enemy.facingDirection as real) else old(enemy.vx)
    {
      enemy.Update(deltaTime, sensors);
      aggroTimer := aggroTimer - deltaTime;
      failed := false;
      if enemy.isDead {
        return;
      }
      failed := Chase(playerX);
    }

    /** The rest of a live chicken's frame, on the sensors already read:
        the aggro update, the movement (which throws without a player
        reference) and, on the ground, the turn. */
    method Chase(playerX: real) returns (failed: bool)
      requires Valid()
      modifies this, enemy
      ensures Valid() && enemy.SensorsKept() && enemy.isDead == old(enemy.isDead) && enemy.player == old(enemy.player)
      ensures aggroTimer == if enemy.isPlayerDetected then aggroDuration else old(aggroTimer)
      ensures var moving := (old(enemy.canMove) || enemy.isPlayerDetected) && aggroTimer >= 0.0;
        (failed <==> moving && enemy.player == null)
      ensures failed ==>
        && enemy.canMove && enemy.FacingKept() && enemy.vx == old(enemy.vx) && enemy.vy == old(enemy.vy)
        && pendingFlips == old(pendingFlips) && canFlip == old(canFlip)
      ensures var moving := (old(enemy.canMove) || enemy.isPlayerDetected) && aggroTimer >= 0.0;
        var turn := enemy.isGrounded && (!enemy.isGroundInFrontDetected || enemy.isWallDetected);
        var request := moving && NeedsFlip(playerX, old(enemy.x), old(enemy.facingRight)) && old(canFlip);
        !failed ==>
          && enemy.canMove == (moving && !turn)
          && pendingFlips == (if request then old(pendingFlips) + 1 else old(pendingFlips))
          && canFlip == (turn || (old(canFlip) && !request))
      ensures var turn := enemy.isGrounded && (!enemy.isGroundInFrontDetected || enemy.isWallDetected);
        !failed && turn ==>
          enemy.facingRight == !old(enemy.facingRight) && enemy.vx == 0.0 && enemy.vy == 0.0
      ensures var moving := (old(enemy.canMove) || enemy.isPlayerDetected) && aggroTimer >= 0.0;
        var turn := enemy.isGrounded && (!enemy.isGroundInFrontDetected || enemy.isWallDetected);
        !failed && !turn ==>
          && enemy.FacingKept() && enemy.vy == old(enemy.vy)
          && enemy.vx == if moving then enemy.moveSpeed * (enemy.facingDirection as real) else old(enemy.vx)
    {
      UpdateAggro();
      failed := HandleMovement(playerX);
      if failed {
        return;
      }
      if enemy.isGrounded {
        HandleTurnAround();
      }
    }

    /** The chase part of a frame: seeing the player starts the chase and
        refills the aggro timer; an empty timer ends it. */
    method UpdateAggro()
      modifies this`aggroTimer, enemy`canMove
      ensures aggroTimer == if enemy.isPlayerDetected then aggroDuration else old(aggroTimer)
      ensures enemy.canMove == ((old(enemy.canMove) || enemy.isPlayerDetected) && aggroTimer >= 0.0)
    {
      if enemy.isPlayerDetected {
        enemy.canMove := true;
        aggroTimer := aggroDuration;
      }
      if aggroTimer < 0.0 {
        enemy.canMove := false;
      }
    }

    /** At a ledge or wall: turn now, stop and end the chase. */
    method HandleTurnAround()
      requires Valid()
      modifies this, enemy
      ensures Valid() && enemy.SensorsKept() && enemy.isDead == old(enemy.isDead)
      ensures aggroTimer == old(aggroTimer) && pendingFlips == old(pendingFlips)
      ensures enemy.moveSpeed == old(enemy.moveSpeed) && enemy.player == old(enemy.player)
      ensures var turn := !enemy.isGroundInFrontDetected || enemy.isWallDetected;
        && (turn ==> enemy.facingRight == !old(enemy.facingRight) && !enemy.canMove && canFlip
                     && enemy.vx == 0.0 && enemy.vy == 0.0)
        && (!turn ==> enemy.FacingKept() && enemy.canMove == old(enemy.canMove) && canFlip == old(canFlip)
                      && enemy.vx == old(enemy.vx) && enemy.vy == old(enemy.vy))
    {
      if !enemy.isGroundInFrontDetected || enemy.isWallDetected {
        Flip();
        enemy.canMove := false;
        enemy.vx, enemy.vy := 0.0, 0.0;
      }
    }

    /** Chasing: request a turn towards the player and run in the current
        facing direction. `playerX` is the x position of `enemy.player`; the
        source reads it without a null check, so chasing with no player
        reference throws (`failed`) before anything changes. */
    method HandleMovement(playerX: real) returns (failed: bool)
      requires Valid()
      modifies this, enemy
      ensures Valid() && enemy.SensorsKept() && enemy.FacingKept() && enemy.MotionKept()
      ensures aggroTimer == old(aggroTimer) && enemy.vy == old(enemy.vy)
      ensures failed <==> enemy.canMove && enemy.player == null
      ensures var request := enemy.canMove && !failed && NeedsFlip(playerX, enemy.x, enemy.facingRight) && old(canFlip);
        && pendingFlips == (if request then old(pendingFlips) + 1 else old(pendingFlips))
        && canFlip == (old(canFlip) && !request)
      ensures enemy.canMove && !failed ==> enemy.vx == enemy.moveSpeed * (enemy.facingDirection as real)
      ensures !enemy.canMove || failed ==> enemy.vx == old(enemy.vx)
    {
      failed := false;
      if !enemy.canMove {
        return;
      }
      if enemy.player == null {
        return true;
      }
      HandleFlip(playerX);
      enemy.Walk();
    }

    /** Requests one flip, a moment later, when the player is behind and no
        request is already pending since the last flip. */
    method HandleFlip(xValue: real)
      requires Valid()
      modifies this
      ensures Valid()
      ensures var request := NeedsFlip(xValue, enemy.x, enemy.facingRight) && old(canFlip);
        && pendingFlips == (if request then old(pendingFlips) + 1 else old(pendingFlips))
        && canFlip == (old(canFlip) && !request)
      ensures aggroTimer == old(aggroTimer)
    {
      if NeedsFlip(xValue, enemy.x, enemy.facingRight) {
        if canFlip {
          canFlip := false;
          pendingFlips := pendingFlips + 1;
        }
      }
    }

    /** The base flip; flipping allows the next request. */
    method Flip()
      requires Valid()
      modifies this, enemy
      ensures Valid() && canFlip && enemy.facingRight == !old(enemy.facingRight)
      ensures pendingFlips == old(pendingFlips) && aggroTimer == old(aggroTimer)
      ensures enemy.MotionKept() && enemy.SensorsKept() && enemy.vx == old(enemy.vx) && enemy.vy == old(enemy.vy)
    {
      enemy.Flip();
      canFlip := true;
    }

    /** The requested flip, made 0.3 seconds later. */
    method CompleteDelayedFlip()
      requires Valid() && pendingFlips > 0
      modifies this, enemy
      ensures Valid() && canFlip && pendingFlips == old(pendingFlips) - 1
      ensures enemy.facingRight == !old(enemy.facingRight)
    {
      Flip();
      pendingFlips := pendingFlips - 1;
    }
  }

  /** Asking a chicken to turn twice before it has turned requests one flip. */
  method FlipRequestedOnce(chicken: Chicken, xValue: real)
    requires chicken.Valid()
    modifies chicken
    ensures chicken.pendingFlips <= old(chicken.pendingFlips) + 1
    ensures !old(chicken.canFlip) ==> chicken.pendingFlips == old(chicken.pendingFlips)
  {
    chicken.HandleFlip(xValue);
    chicken.HandleFlip(xValue);
  }

  // ---------------------------------------------------------------- mushroom

  class Mushroom {
    const enemy: Enemy

    predicate Valid()
      reads this, enemy
    {
      enemy.Valid()
    }

    constructor(enemy: Enemy)
      requires enemy.Valid()
      ensures Valid() && this.enemy == enemy
    {
      this.enemy := enemy;
    }

    /** A frame. Dead: nothing but the base part. Alive: walk unless idling,
        then on the ground turn at a ledge or wall and idle for the idle
        duration. */
    method Update(deltaTime: real, sensors: Sensors)
      requires Valid()
      modifies enemy
      ensures Valid() && enemy.SensorsAre(sensors) && enemy.isDead == old(enemy.isDead)
      ensures enemy.isDead ==> enemy.FacingKept() && enemy.vx == old(enemy.vx) && enemy.vy == old(enemy.vy)
      ensures var turn := sensors.grounded && (!sensors.groundInFront || sensors.wallDetected);
        var timer := old(enemy.idleTimer) - deltaTime;
        !enemy.isDead ==>
          && (turn ==> enemy.facingRight == !old(enemy.facingRight) && enemy.idleTimer == enemy.idleDuration
                       && enemy.vx == 0.0 && enemy.vy == 0.0)
          && (!turn ==> enemy.FacingKept() && enemy.idleTimer == timer)
          && (!turn && timer > 0.0 ==> enemy.vx == old(enemy.vx))
          && (!turn && timer <= 0.0 ==> enemy.vx == enemy.moveSpeed * (enemy.facingDirection as real))
    {
      enemy.Update(deltaTime, sensors);
      if enemy.isDead {
        return;
      }
      HandleMovement();
      if enemy.isGrounded {
        HandleTurnAround();
      }
    }

    method HandleTurnAround()
      requires Valid()
      modifies enemy
      ensures Valid() && enemy.SensorsKept() && enemy.isDead == old(enemy.isDead)
      ensures var turn := !enemy.isGroundInFrontDetected || enemy.isWallDetected;
        && (turn ==> enemy.facingRight == !old(enemy.facingRight) && enemy.idleTimer == enemy.idleDuration
                     && enemy.vx == 0.0 && enemy.vy == 0.0)
        && (!turn ==> enemy.FacingKept() && enemy.idleTimer == old(enemy.idleTimer)
                      && enemy.vx == old(enemy.vx) && enemy.vy == old(enemy.vy))
      ensures enemy.moveSpeed == old(enemy.moveSpeed)
    {
      if !enemy.isGroundInFrontDetected || enemy.isWallDetected {
        enemy.Flip();
        enemy.StandIdle();
      }
    }

    /** Walks only once the idle timer has run out. */
    method HandleMovement()
      modifies enemy
      ensures enemy.idleTimer > 0.0 ==> enemy.vx == old(enemy.vx)
      ensures enemy.idleTimer <= 0.0 ==> enemy.vx == enemy.moveSpeed * (enemy.facingDirection as real)
      ensures enemy.vy == old(enemy.vy) && enemy.FacingKept() && enemy.SensorsKept() && enemy.MotionKept()
      ensures enemy.Valid() <==> old(enemy.Valid())
    {
      if enemy.idleTimer > 0.0 {
        return;
      }
      enemy.Walk();
    }
  }
}
