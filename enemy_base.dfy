/** The state and behaviour every enemy shares (Assets/Scripts/Enemies/Enemy.cs):
    facing, the idle timer, the raycasts, and death. The variants in module
    EnemyKinds hold one of these and add their own fields; where a variant
    overrides a virtual method, the variant's method calls the base one and
    adds its part. */
module EnemyBase {
  import opened Facing

  /** The four raycasts of HandleCollisions: ground below, ground ahead, a
      wall ahead and the player ahead. */
  datatype Sensors = Sensors(grounded: bool, groundInFront: bool, wallDetected: bool, playerDetected: bool)

  class Enemy {
    /** Inspector defaults: 2, 1.5 and 5. */
    var moveSpeed: real
    var idleDuration: real
    const deathImpactSpeed: real
    var idleTimer: real
    var canMove: bool
    var deathRotationDirection: int
    var isDead: bool
    /** Destroy was requested (ten seconds after death). */
    var destroyScheduled: bool

    var isPlayerDetected: bool
    var isGrounded: bool
    var isGroundInFrontDetected: bool
    var isWallDetected: bool

    var facingDirection: int
    var facingRight: bool
    /** The sprite renderer's flipX: the prefab was drawn facing the other way. */
    var spriteFlipX: bool

    var x: real
    var vx: real
    var vy: real
    /** The enabled flags of the colliders found in Awake. */
    const colliders: array<bool>
    var player: object?

    /** Facing is consistent and the death spin is one way or the other. */
    predicate Valid()
      reads this
    {
      Consistent(facingDirection, facingRight) && (deathRotationDirection == 1 || deathRotationDirection == -1)
    }

    twostate predicate FacingKept()
      reads this
    {
      facingDirection == old(facingDirection) && facingRight == old(facingRight)
    }

    twostate predicate SensorsKept()
      reads this
    {
      && isPlayerDetected == old(isPlayerDetected) && isGrounded == old(isGrounded)
      && isGroundInFrontDetected == old(isGroundInFrontDetected) && isWallDetected == old(isWallDetected)
    }

    /** Speeds, timers, the move and death flags and the player reference. */
    twostate predicate MotionKept()
      reads this
    {
      && moveSpeed == old(moveSpeed) && idleDuration == old(idleDuration) && idleTimer == old(idleTimer)
      && canMove == old(canMove) && isDead == old(isDead) && destroyScheduled == old(destroyScheduled)
      && deathRotationDirection == old(deathRotationDirection) && player == old(player)
      && spriteFlipX == old(spriteFlipX) && x == old(x)
    }

    predicate SensorsAre(s: Sensors)
      reads this
    {
      && isGrounded == s.grounded && isGroundInFrontDetected == s.groundInFront
      && isWallDetected == s.wallDetected && isPlayerDetected == s.playerDetected
    }

    /** A fresh enemy faces left, may move and is alive. */
    constructor(moveSpeed: real, idleDuration: real, deathImpactSpeed: real, x: real,
                spriteFlipX: bool, colliders: array<bool>)
      ensures Valid() && !facingRight && facingDirection == -1 && canMove && !isDead
      ensures deathRotationDirection == 1 && player == null && !destroyScheduled
      ensures this.moveSpeed == moveSpeed && this.idleDuration == idleDuration
      ensures this.deathImpactSpeed == deathImpactSpeed && this.x == x
      ensures this.spriteFlipX == spriteFlipX && this.colliders == colliders
      ensures idleTimer == 0.0 && vx == 0.0 && vy == 0.0
    {
      this.moveSpeed := moveSpeed;
      this.idleDuration := idleDuration;
      this.deathImpactSpeed := deathImpactSpeed;
      idleTimer := 0.0;
      canMove := true;
      deathRotationDirection := 1;
      isDead := false;
      destroyScheduled := false;
      isPlayerDetected, isGrounded, isGroundInFrontDetected, isWallDetected := false, false, false, false;
      facingDirection := -1;
      facingRight := false;
      this.spriteFlipX := spriteFlipX;
      this.x := x;
      vx, vy := 0.0, 0.0;
      this.colliders := colliders;
      player := null;
    }

    /** A sprite drawn flipped, on an enemy facing left, is turned around
        once so that the sprite and the facing agree. Returns whether it
        flipped, so that a variant can add its own part of Flip. */
    method Start() returns (flipped: bool)
      requires Valid()
      modifies this
      ensures Valid()
      ensures flipped <==> old(spriteFlipX) && !old(facingRight)
      ensures flipped ==> facingRight && !spriteFlipX
      ensures !flipped ==> FacingKept() && spriteFlipX == old(spriteFlipX)
      ensures SensorsKept() && vx == old(vx) && vy == old(vy)
      ensures canMove == old(canMove) && isDead == old(isDead) && idleTimer == old(idleTimer)
      ensures moveSpeed == old(moveSpeed) && idleDuration == old(idleDuration)
    {
      flipped := spriteFlipX && !facingRight;
      if flipped {
        spriteFlipX := false;
        Flip();
      }
    }

    /** Called once a second: takes the game manager's player while the
        reference is still empty, and keeps it afterwards. While the manager
        has no player either, the dereference throws: `failed` is that
        exception, and the reference stays empty until a later call. */
    method UpdatePlayerRef(gameManagerPlayer: object?) returns (failed: bool)
      modifies this
      ensures failed <==> old(player) == null && gameManagerPlayer == null
      ensures player == if old(player) == null then gameManagerPlayer else old(player)
      ensures Valid() <==> old(Valid())
      ensures FacingKept() && SensorsKept() && vx == old(vx) && vy == old(vy)
      ensures canMove == old(canMove) && isDead == old(isDead) && idleTimer == old(idleTimer)
    {
      failed := false;
      if player == null {
        if gameManagerPlayer == null {
          failed := true;
          return;
        }
        player := gameManagerPlayer;
      }
    }

    /** The shared part of every frame: the raycasts, then the idle timer
        runs down by the frame time, alive or dead. The death spin is visual. */
    method Update(deltaTime: real, sensors: Sensors)
      modifies this
      ensures SensorsAre(sensors)
      ensures idleTimer == old(idleTimer) - deltaTime
      ensures Valid() <==> old(Valid())
      ensures FacingKept() && vx == old(vx) && vy == old(vy)
      ensures moveSpeed == old(moveSpeed) && idleDuration == old(idleDuration)
      ensures canMove == old(canMove) && isDead == old(isDead) && destroyScheduled == old(destroyScheduled)
      ensures deathRotationDirection == old(deathRotationDirection) && player == old(player)
      ensures x == old(x) && spriteFlipX == old(spriteFlipX)
    {
      HandleCollisions(sensors);
      idleTimer := idleTimer - deltaTime;
    }

    method HandleCollisions(sensors: Sensors)
      modifies this
      ensures SensorsAre(sensors)
      ensures Valid() <==> old(Valid())
      ensures FacingKept() && MotionKept() && vx == old(vx) && vy == old(vy)
    {
      isGrounded := sensors.grounded;
      isGroundInFrontDetected := sensors.groundInFront;
      isWallDetected := sensors.wallDetected;
      isPlayerDetected := sensors.playerDetected;
    }

    /** Every collider is switched off, the body is thrown up and the enemy
        is dead; `coin` is the random draw that may reverse the death spin. */
    method Die(coin: bool)
      requires Valid()
      modifies this, colliders
      ensures Valid() && isDead && destroyScheduled
      ensures forall i :: 0 <= i < colliders.Length ==> !colliders[i]
      ensures vy == deathImpactSpeed && vx == old(vx)
      ensures deathRotationDirection == if coin then -old(deathRotationDirection) else old(deathRotationDirection)
      ensures FacingKept() && SensorsKept()
      ensures canMove == old(canMove) && idleTimer == old(idleTimer)
      ensures moveSpeed == old(moveSpeed) && idleDuration == old(idleDuration)
    {
      var i := 0;
      while i < colliders.Length
        invariant 0 <= i <= colliders.Length
        invariant forall j :: 0 <= j < i ==> !colliders[j]
        modifies colliders
      {
        colliders[i] := false;
        i := i + 1;
      }
      vy := deathImpactSpeed;
      isDead := true;
      if coin {
        deathRotationDirection := deathRotationDirection * -1;
      }
      destroyScheduled := true;
    }

    /** Turns towards `xValue` when it lies strictly on the side the enemy is
        not facing. */
    method HandleFlip(xValue: real)
      requires Valid()
      modifies this
      ensures Valid()
      ensures facingRight == if NeedsFlip(xValue, x, old(facingRight)) then !old(facingRight) else old(facingRight)
      ensures xValue != x ==> facingRight == (xValue > x)
      ensures xValue == x ==> FacingKept()
      ensures MotionKept() && SensorsKept() && vx == old(vx) && vy == old(vy)
    {
      if NeedsFlip(xValue, x, facingRight) {
        Flip();
      }
    }

    method Flip()
      requires Valid()
      modifies this
      ensures Valid() && facingRight == !old(facingRight)
      ensures MotionKept() && SensorsKept() && vx == old(vx) && vy == old(vy)
    {
      facingRight := !facingRight;
      facingDirection := facingDirection * -1;
    }

    /** The part of a turn that follows the flip: wait out the idle duration
        standing still. */
    method StandIdle()
      modifies this
      ensures idleTimer == idleDuration && vx == 0.0 && vy == 0.0
      ensures Valid() <==> old(Valid())
      ensures FacingKept() && SensorsKept()
      ensures moveSpeed == old(moveSpeed) && idleDuration == old(idleDuration)
      ensures canMove == old(canMove) && isDead == old(isDead)
    {
      idleTimer := idleDuration;
      vx, vy := 0.0, 0.0;
    }

    /** Walks: horizontal velocity is the speed in the facing direction. */
    method Walk()
      modifies this
      ensures vx == moveSpeed * (facingDirection as real) && vy == old(vy)
      ensures Valid() <==> old(Valid())
      ensures FacingKept() && SensorsKept() && MotionKept()
    {
      vx := moveSpeed * (facingDirection as real);
    }
  }
}
