/** The player controller (Assets/Scripts/Player/Player.cs): jumping with
    coyote time, a jump buffer, wall and double jumps; facing; knockback;
    damage by difficulty; and the respawn hand-over of control.

    Physics is abstracted: the ground and wall raycasts and the enemy overlap
    arrive as inputs of a frame, the body's velocity is a pair of fields that
    the code assigns, and `Time.time` is the `now` parameter. Coroutines are
    pending completions finished by the `End...` methods. */
module PlayerControl {
  import opened Engine
  import opened Facing
  import opened Difficulty
  import opened Skins
  import opened Prefs
  import opened Game
  import opened InGameUi

  /** Inspector settings. The windows default to 0.25 (buffer) and 0.5
      (coyote) seconds. */
  datatype Tuning = Tuning(
    moveSpeed: real,
    jumpForce: real,
    doubleJumpForce: real,
    bufferJumpWindow: real,
    coyoteJumpWindow: real,
    wallJumpForce: Point,
    knockbackPower: Point,
    mass: real)

  /** What one frame reads from the engine: the axes, the jump key, the two
      raycasts and how many enemies overlap the stomp circle. */
  datatype FrameInput = FrameInput(
    xInput: real,
    yInput: real,
    jumpPressed: bool,
    grounded: bool,
    wallDetected: bool,
    enemiesBelow: nat)

  /** The jump that a press of the jump key performs. */
  datatype JumpKind = Regular | OffWall | Double | NoJump

  /** The priority of JumpButton: a normal jump on the ground or in the
      coyote window; else a wall jump off a wall while steering and airborne;
      else the double jump if it is still available. */
  function ChooseJump(grounded: bool, coyoteOpen: bool, wallDetected: bool,
                      pressingHorizontal: bool, canDoubleJump: bool): (k: JumpKind)
    ensures k == Regular <==> grounded || coyoteOpen
    ensures k == OffWall <==> !grounded && !coyoteOpen && wallDetected && pressingHorizontal
    ensures k == Double <==>
      !grounded && !coyoteOpen && !(wallDetected && pressingHorizontal) && canDoubleJump
    ensures k == NoJump ==> !canDoubleJump
  {
    if grounded || coyoteOpen then Regular
    else if wallDetected && pressingHorizontal && !grounded then OffWall
    else if canDoubleJump then Double
    else NoJump
  }

  /** A time stamp's window is open at `now` when `now` is strictly before
      its end. */
  predicate WindowOpen(now: real, stamp: real, window: real) {
    now < stamp + window
  }

  /** Cancelling a window stamps it one second in the past, which closes it at
      that instant exactly when the window is at most one second long. */
  lemma CancelClosesWindow(now: real, window: real)
    ensures !WindowOpen(now, now - 1.0, window) <==> window <= 1.0
  {
  }

  /** The knockback direction: away from the source, to the right when level
      with it. */
  function KnockbackDir(x: real, sourceX: real): (dir: int)
    ensures dir == 1 || dir == -1
    ensures dir == -1 <==> x < sourceX
  {
    if x < sourceX then -1 else 1
  }

  /** What a hit does, by difficulty and fruit count. */
  datatype DamageOutcome = Unharmed | LoseFruit | Dies

  function Outcome(d: DifficultyType, fruits: int): (o: DamageOutcome)
    ensures o == Dies <==> d == Hard || (d == Normal && fruits <= 0)
    ensures o == LoseFruit <==> d == Normal && fruits > 0
    ensures o == Unharmed <==> d != Normal && d != Hard
  {
    if d == Normal then (if fruits <= 0 then Dies else LoseFruit)
    else if d == Hard then Dies
    else Unharmed
  }

  /** The fruit count after `hits` hits and whether one of them killed. A
      killing hit ends the run. */
  function AfterHits(d: DifficultyType, fruits: int, hits: nat): (int, bool)
  {
    if hits == 0 then (fruits, false)
    else match Outcome(d, fruits)
      case Dies => (fruits, true)
      case LoseFruit => AfterHits(d, fruits - 1, hits - 1)
      case Unharmed => AfterHits(d, fruits, hits - 1)
  }

  /** On Normal every fruit buys one survived hit: with `fruits` fruits the
      player outlives exactly `fruits` hits, each costing one fruit. */
  lemma {:induction false} NormalFruitsAreLives(fruits: nat, hits: nat)
    ensures AfterHits(Normal, fruits, hits).1 <==> hits > fruits
    ensures hits <= fruits ==> AfterHits(Normal, fruits, hits).0 == fruits - hits
  {
    if hits > 0 && fruits > 0 {
      NormalFruitsAreLives(fruits - 1, hits - 1);
    }
  }

  /** On Hard the first hit kills; on Easy or an unset difficulty no number
      of hits does. */
  lemma {:induction false} OtherDifficulties(d: DifficultyType, fruits: int, hits: nat)
    requires d != Normal
    ensures AfterHits(d, fruits, hits).1 <==> d == Hard && hits > 0
    ensures AfterHits(d, fruits, hits).0 == fruits
  {
    if hits > 0 && d != Hard {
      OtherDifficulties(d, fruits, hits - 1);
    }
  }

  /** The part of the player's state that the steps of one frame hand on to
      each other: the velocity, the double jump, the coyote and buffer stamps,
      the airborne flag and the wall-jump flag. */
  datatype Motion = Motion(vx: real, vy: real, canDoubleJump: bool, coyoteStamp: real,
                           bufferStamp: real, airborne: bool, wallJumping: bool)

  /** UpdateAirborneStatus, decided on last frame's ground raycast: landing
      restores the double jump and fires a jump buffered inside its window;
      taking off while falling opens the coyote window. */
  function AfterAirborneStatus(m: Motion, grounded: bool, now: real, t: Tuning): (r: Motion)
    ensures r.airborne == !grounded
    ensures r.vx == m.vx && r.wallJumping == m.wallJumping
  {
    if grounded && m.airborne then
      if WindowOpen(now, m.bufferStamp, t.bufferJumpWindow) then
        m.(vy := t.jumpForce, canDoubleJump := true, bufferStamp := now - 1.0, airborne := false)
      else
        m.(canDoubleJump := true, airborne := false)
    else if !grounded && !m.airborne then
      m.(coyoteStamp := if m.vy < 0.0 then now else m.coyoteStamp, airborne := true)
    else
      m
  }

  /** Falling onto at least one enemy bounces the player. */
  function AfterStomp(m: Motion, enemiesBelow: nat, t: Tuning): Motion {
    if m.vy < 0.0 && enemiesBelow > 0 then m.(vy := t.jumpForce) else m
  }

  /** The jump a press of the jump key performs in motion state `m`. */
  function PressedJump(m: Motion, now: real, grounded: bool, wallDetected: bool,
                       pressingHorizontal: bool, t: Tuning): JumpKind {
    ChooseJump(grounded, WindowOpen(now, m.coyoteStamp, t.coyoteJumpWindow),
               wallDetected, pressingHorizontal, m.canDoubleJump)
  }

  /** JumpButton: the jump ChooseJump picks, then the coyote window closed. */
  function AfterJumpButton(m: Motion, now: real, grounded: bool, wallDetected: bool,
                           pressingHorizontal: bool, facingDir: int, t: Tuning): Motion {
    var jumped := match PressedJump(m, now, grounded, wallDetected, pressingHorizontal, t)
      case Regular => m.(vy := t.jumpForce)
      case OffWall => m.(vx := t.wallJumpForce.x * (facingDir as real), vy := t.wallJumpForce.y,
                         canDoubleJump := true, wallJumping := true)
      case Double => m.(vy := t.doubleJumpForce, canDoubleJump := false, wallJumping := false)
      case NoJump => m;
    jumped.(coyoteStamp := now - 1.0)
  }

  /** A press of the jump key: the jump button's effect, and a buffered jump
      recorded while airborne. */
  function AfterJumpPress(m: Motion, now: real, grounded: bool, wallDetected: bool,
                          pressingHorizontal: bool, facingDir: int, t: Tuning): Motion {
    AfterJumpButton(m, now, grounded, wallDetected, pressingHorizontal, facingDir, t)
      .(bufferStamp := if m.airborne then now else m.bufferStamp)
  }

  /** Steering into a wall while falling halves the fall, unless holding down. */
  function AfterWallSlide(m: Motion, pressingHorizontal: bool, wallDetected: bool, yInput: real): Motion {
    if pressingHorizontal && wallDetected && m.vy < 0.0 then
      m.(vy := m.vy * (if yInput < 0.0 then 1.0 else 0.5))
    else
      m
  }

  /** Away from a wall the horizontal velocity follows the axis. */
  function AfterMovement(m: Motion, wallDetected: bool, xInput: real, t: Tuning): Motion {
    if wallDetected then m else m.(vx := xInput * t.moveSpeed)
  }

  /** One frame of a controllable player that is not knocked back, on last
      frame's raycasts `grounded` and `wallDetected`: the airborne status,
      stomps, the jump key, the wall slide and the steering, in that order. */
  function ControlledFrame(m: Motion, now: real, input: FrameInput, grounded: bool, wallDetected: bool,
                           facingDir: int, t: Tuning): (r: Motion)
    ensures r.airborne == !grounded
    ensures input.jumpPressed ==> r.coyoteStamp == now - 1.0
    ensures !input.jumpPressed ==> r.canDoubleJump == (m.canDoubleJump || (grounded && m.airborne))
    ensures !wallDetected ==> r.vx == input.xInput * t.moveSpeed
  {
    ControlledSteps(AfterAirborneStatus(m, grounded, now, t), now, input, grounded, wallDetected, facingDir, t)
  }

  /** The steps of such a frame after the airborne status: stomps, the jump
      key, the wall slide and the steering. */
  function ControlledSteps(m: Motion, now: real, input: FrameInput, grounded: bool, wallDetected: bool,
                           facingDir: int, t: Tuning): Motion
  {
    var stomped := AfterStomp(m, input.enemiesBelow, t);
    var pressed := if input.jumpPressed
      then AfterJumpPress(stomped, now, grounded, wallDetected, input.xInput != 0.0, facingDir, t)
      else stomped;
    var slid := AfterWallSlide(pressed, input.xInput != 0.0, wallDetected, input.yInput);
    AfterMovement(slid, wallDetected, input.xInput, t)
  }

  class Player {
    const tuning: Tuning
    const gameManager: GameManager
    /** How many animator overrides (skins) the player carries. */
    const animatorCount: nat

    var gameDifficulty: DifficultyType
    var skinId: int
    var animatorIndex: int

    /** Horizontal position and the body's velocity and gravity. */
    var x: real
    var vx: real
    var vy: real
    var gravityScale: real
    var defaultGravityScale: real
    var colliderEnabled: bool

    var bufferJumpActivated: real
    var canDoubleJump: bool
    var coyoteJumpActivated: real
    var facingDir: int
    var facingRight: bool
    var isAirborne: bool
    var isGrounded: bool
    var isKnocked: bool
    var isPressingHorizontalButtons: bool
    var isWallDetected: bool
    var isWallJumping: bool
    var xInput: real
    var yInput: real
    var canBeControlled: bool
    /** Destroyed by Die. */
    var destroyed: bool

    /** Wall-jump coroutines still waiting to clear `isWallJumping`, and push
        coroutines still waiting to give control back. */
    var pendingWallJumpEnds: nat
    var pendingPushEnds: nat

    /** Facing is consistent, a wall jump in progress has a coroutine to end
        it, and the body has mass. */
    predicate Valid()
      reads this
    {
      && Consistent(facingDir, facingRight)
      && (isWallJumping ==> pendingWallJumpEnds > 0)
      && tuning.mass > 0.0
    }

    constructor(tuning: Tuning, gameManager: GameManager, animatorCount: nat, x: real, gravityScale: real)
      requires tuning.mass > 0.0
      ensures Valid() && facingRight && !canBeControlled && !isKnocked && !destroyed
      ensures bufferJumpActivated == -1.0 && coyoteJumpActivated == -1.0
      ensures this.tuning == tuning && this.gameManager == gameManager && this.animatorCount == animatorCount
      ensures gameDifficulty == Unset && skinId == 0
    {
      this.tuning := tuning;
      this.gameManager := gameManager;
      this.animatorCount := animatorCount;
      gameDifficulty := Unset;
      skinId := 0;
      animatorIndex := 0;
      this.x := x;
      vx, vy := 0.0, 0.0;
      this.gravityScale := gravityScale;
      defaultGravityScale := gravityScale;
      colliderEnabled := true;
      bufferJumpActivated := -1.0;
      canDoubleJump := false;
      coyoteJumpActivated := -1.0;
      facingDir := 1;
      facingRight := true;
      isAirborne := false;
      isGrounded := false;
      isKnocked := false;
      isPressingHorizontalButtons := false;
      isWallDetected := false;
      isWallJumping := false;
      xInput, yInput := 0.0, 0.0;
      canBeControlled := false;
      destroyed := false;
      pendingWallJumpEnds, pendingPushEnds := 0, 0;
    }

    /** Remembers the gravity, reads the difficulty and the skin, and holds
        the player still until the respawn animation finishes. */
    method Start(difficultyManager: DifficultyManager?, skinManager: SkinManager?)
      requires Valid()
      modifies this
      ensures Valid()
      ensures defaultGravityScale == old(gravityScale) && gravityScale == 0.0
      ensures !canBeControlled && !colliderEnabled
      ensures gameDifficulty == if difficultyManager == null then old(gameDifficulty) else difficultyManager.difficulty
      ensures skinId == if skinManager == null then old(skinId) else skinManager.chooseSkinId
      ensures facingRight == old(facingRight) && isKnocked == old(isKnocked)
    {
      defaultGravityScale := gravityScale;
      UpdateGameDifficulty(difficultyManager);
      RespawnFinished(false);
      var _ := UpdateSkin(skinManager);
    }

    method UpdateGameDifficulty(difficultyManager: DifficultyManager?)
      modifies this
      ensures gameDifficulty == if difficultyManager == null then old(gameDifficulty) else difficultyManager.difficulty
      ensures Valid() <==> old(Valid())
      ensures gravityScale == old(gravityScale) && defaultGravityScale == old(defaultGravityScale)
      ensures facingRight == old(facingRight) && isKnocked == old(isKnocked) && skinId == old(skinId)
    {
      if difficultyManager != null {
        gameDifficulty := difficultyManager.difficulty;
      }
    }

    /** Takes the chosen skin's animator. The skin id is not range-checked:
        outside the animator list the lookup throws, after the id was taken;
        `failed` is that exception, and the animator stays as it was. */
    method UpdateSkin(skinManager: SkinManager?) returns (failed: bool)
      modifies this
      ensures skinId == if skinManager == null then old(skinId) else skinManager.chooseSkinId
      ensures failed <==> skinManager != null && !(0 <= skinId < animatorCount)
      ensures animatorIndex == if skinManager == null || failed then old(animatorIndex) else skinId
      ensures Valid() <==> old(Valid())
      ensures gravityScale == old(gravityScale) && defaultGravityScale == old(defaultGravityScale)
      ensures canBeControlled == old(canBeControlled) && colliderEnabled == old(colliderEnabled)
      ensures gameDifficulty == old(gameDifficulty) && facingRight == old(facingRight) && isKnocked == old(isKnocked)
    {
      failed := false;
      if skinManager == null {
        return;
      }
      skinId := skinManager.GetSkinId();
      if !(0 <= skinId < animatorCount) {
        failed := true;
        return;
      }
      animatorIndex := skinId;
    }

    /** A hit: on Normal it costs a fruit, or the life when there is none; on
        Hard it always kills; otherwise nothing happens. A death restarts the
        level. */
    method Damage()
      modifies this, gameManager, gameManager.inGame, gameManager.scenes
      ensures var o := Outcome(old(gameDifficulty), old(gameManager.fruitCollected));
        && (o == LoseFruit ==>
              gameManager.fruitCollected == old(gameManager.fruitCollected) - 1
              && !destroyed == !old(destroyed)
              && gameManager.scenes.requests == old(gameManager.scenes.requests))
        && (o == Dies ==>
              destroyed
              && gameManager.fruitCollected == old(gameManager.fruitCollected)
              && gameManager.scenes.requests ==
                 old(gameManager.scenes.requests) + [Named(LevelSceneName(gameManager.currentLevelIndex))])
        && (o == Unharmed ==>
              destroyed == old(destroyed)
              && gameManager.fruitCollected == old(gameManager.fruitCollected)
              && gameManager.scenes.requests == old(gameManager.scenes.requests))
      ensures Outcome(old(gameDifficulty), old(gameManager.fruitCollected)) == LoseFruit
        ==> gameManager.inGame.fruitText == FruitCounterText(gameManager.fruitCollected, gameManager.totalFruits)
      ensures Outcome(old(gameDifficulty), old(gameManager.fruitCollected)) != LoseFruit
        ==> gameManager.inGame.fruitText == old(gameManager.inGame.fruitText)
      ensures gameDifficulty == old(gameDifficulty)
      ensures vx == old(vx) && vy == old(vy) && BodyKept() && JumpStateKept() && InputAndFacingKept()
      ensures SettingsKept() && canBeControlled == old(canBeControlled) && isKnocked == old(isKnocked)
      ensures pendingPushEnds == old(pendingPushEnds)
      ensures gameManager.totalFruits == old(gameManager.totalFruits) && gameManager.levelTimer == old(gameManager.levelTimer)
      ensures gameManager.currentLevelIndex == old(gameManager.currentLevelIndex)
      ensures gameManager.nextLevelIndex == old(gameManager.nextLevelIndex)
      ensures gameManager.player == old(gameManager.player) && gameManager.respawnPoint == old(gameManager.respawnPoint)
      ensures gameManager.pendingRespawns == old(gameManager.pendingRespawns)
      ensures gameManager.canReactivate == old(gameManager.canReactivate)
    {
      if gameDifficulty == Normal {
        var fruits := gameManager.GetFruitCollected();
        if fruits <= 0 {
          Die();
          gameManager.RestartLevel();
        } else {
          gameManager.RemoveFruit();
        }
        return;
      }
      if gameDifficulty == Hard {
        Die();
        gameManager.RestartLevel();
      }
    }

    method Die()
      modifies this
      ensures destroyed && gameDifficulty == old(gameDifficulty)
      ensures vx == old(vx) && vy == old(vy) && BodyKept() && JumpStateKept() && InputAndFacingKept()
      ensures SettingsKept() && canBeControlled == old(canBeControlled) && isKnocked == old(isKnocked)
      ensures pendingPushEnds == old(pendingPushEnds)
    {
      destroyed := true;
    }

    /** One frame. The airborne status is updated first; then, while the
        player is not controllable, only the raycasts run; while knocked back
        nothing else runs; otherwise stomps, input, wall slide, movement,
        facing and raycasts in that order. */
    method Update(now: real, input: FrameInput)
      requires Valid()
      modifies this
      ensures Valid()
      ensures canBeControlled == old(canBeControlled) && isKnocked == old(isKnocked)
      ensures !old(canBeControlled) ==>
        && isGrounded == input.grounded && isWallDetected == input.wallDetected
        && InputAndFacingKept() && vx == old(vx) && isWallJumping == old(isWallJumping)
      ensures old(canBeControlled) && old(isKnocked) ==>
        && isGrounded == old(isGrounded) && isWallDetected == old(isWallDetected)
        && InputAndFacingKept() && vx == old(vx) && isWallJumping == old(isWallJumping)
      ensures old(canBeControlled) && !old(isKnocked) ==>
        && isGrounded == input.grounded && isWallDetected == input.wallDetected
        && xInput == input.xInput && yInput == input.yInput
        && isPressingHorizontalButtons == (input.xInput != 0.0)
        && (input.xInput != 0.0 ==> facingRight == (input.xInput > 0.0))
        && (input.xInput == 0.0 ==> facingRight == old(facingRight))
        && (!old(isWallDetected) ==> vx == input.xInput * tuning.moveSpeed)
      ensures !old(canBeControlled) || old(isKnocked) ==>
        MotionState() == AfterAirborneStatus(old(MotionState()), old(isGrounded), now, tuning)
      ensures old(canBeControlled) && !old(isKnocked) ==>
        MotionState() == ControlledFrame(old(MotionState()), now, input, old(isGrounded), old(isWallDetected),
                                         old(facingDir), tuning)
      ensures FrameUntouched()
      ensures var landed := AfterAirborneStatus(old(MotionState()), old(isGrounded), now, tuning);
        var wallJumped := old(canBeControlled) && !old(isKnocked) && input.jumpPressed
          && PressedJump(landed, now, old(isGrounded), old(isWallDetected), input.xInput != 0.0, tuning) == OffWall;
        pendingWallJumpEnds == if wallJumped then old(pendingWallJumpEnds) + 1 else old(pendingWallJumpEnds)
    {
      UpdateAirborneStatus(now);
      if !canBeControlled {
        HandleCollisions(input.grounded, input.wallDetected);
        return;
      }
      if isKnocked {
        return;
      }
      ControlledUpdate(now, input);
    }

    /** The rest of a frame of a controllable player that is not knocked
        back: stomps, input, wall slide, movement, facing and raycasts. */
    method ControlledUpdate(now: real, input: FrameInput)
      requires Valid()
      modifies this
      ensures Valid()
      ensures canBeControlled == old(canBeControlled) && isKnocked == old(isKnocked)
      ensures isGrounded == input.grounded && isWallDetected == input.wallDetected
      ensures xInput == input.xInput && yInput == input.yInput
      ensures isPressingHorizontalButtons == (input.xInput != 0.0)
      ensures input.xInput != 0.0 ==> facingRight == (input.xInput > 0.0)
      ensures input.xInput == 0.0 ==> facingRight == old(facingRight)
      ensures !old(isWallDetected) ==> vx == input.xInput * tuning.moveSpeed
      ensures MotionState() == ControlledSteps(old(MotionState()), now, input, old(isGrounded), old(isWallDetected),
                                               old(facingDir), tuning)
      ensures FrameUntouched()
      ensures var wallJumped := input.jumpPressed
          && PressedJump(old(MotionState()), now, old(isGrounded), old(isWallDetected), input.xInput != 0.0, tuning) == OffWall;
        pendingWallJumpEnds == if wallJumped then old(pendingWallJumpEnds) + 1 else old(pendingWallJumpEnds)
    {
      HandleEnemyDetection(input.enemiesBelow);
      HandleInputs(now, input.xInput, input.yInput, input.jumpPressed);
      Steer(input.grounded, input.wallDetected);
    }

    /** The end of a controlled frame, on the axes already read: wall slide,
        movement, facing and raycasts. */
    method Steer(grounded: bool, wallDetected: bool)
      requires Valid()
      modifies this
      ensures Valid()
      ensures canBeControlled == old(canBeControlled) && isKnocked == old(isKnocked)
      ensures isGrounded == grounded && isWallDetected == wallDetected
      ensures xInput == old(xInput) && yInput == old(yInput)
      ensures isPressingHorizontalButtons == old(isPressingHorizontalButtons)
      ensures old(xInput) != 0.0 ==> facingRight == (old(xInput) > 0.0)
      ensures old(xInput) == 0.0 ==> facingRight == old(facingRight)
      ensures !old(isWallDetected) ==> vx == old(xInput) * tuning.moveSpeed
      ensures MotionState() == AfterMovement(AfterWallSlide(old(MotionState()), old(isPressingHorizontalButtons),
                                                            old(isWallDetected), old(yInput)),
                                             old(isWallDetected), old(xInput), tuning)
      ensures FrameUntouched() && pendingWallJumpEnds == old(pendingWallJumpEnds)
    {
      HandleWallSlide();
      HandleMovement();
      HandleFlip();
      HandleCollisions(grounded, wallDetected);
    }

    /** The input axes and the facing are what they were before the call. */
    twostate predicate InputAndFacingKept()
      reads this
    {
      && xInput == old(xInput) && yInput == old(yInput)
      && isPressingHorizontalButtons == old(isPressingHorizontalButtons)
      && facingRight == old(facingRight) && facingDir == old(facingDir)
    }

    function MotionState(): Motion
      reads this
    {
      Motion(vx, vy, canDoubleJump, coyoteJumpActivated, bufferJumpActivated, isAirborne, isWallJumping)
    }

    /** Position, gravity and collider are what they were before the call. */
    twostate predicate BodyKept()
      reads this
    {
      && x == old(x) && gravityScale == old(gravityScale)
      && defaultGravityScale == old(defaultGravityScale) && colliderEnabled == old(colliderEnabled)
    }

    /** The jump bookkeeping and the raycast flags are what they were before
        the call. */
    twostate predicate JumpStateKept()
      reads this
    {
      && canDoubleJump == old(canDoubleJump)
      && bufferJumpActivated == old(bufferJumpActivated) && coyoteJumpActivated == old(coyoteJumpActivated)
      && isAirborne == old(isAirborne) && isGrounded == old(isGrounded) && isWallDetected == old(isWallDetected)
      && isWallJumping == old(isWallJumping) && pendingWallJumpEnds == old(pendingWallJumpEnds)
    }

    /** What no step of a frame touches: the body, the settings, the
        destroyed flag and the pending pushes. */
    twostate predicate FrameUntouched()
      reads this
    {
      && x == old(x) && gravityScale == old(gravityScale)
      && defaultGravityScale == old(defaultGravityScale) && colliderEnabled == old(colliderEnabled)
      && gameDifficulty == old(gameDifficulty) && skinId == old(skinId) && animatorIndex == old(animatorIndex)
      && destroyed == old(destroyed) && pendingPushEnds == old(pendingPushEnds)
    }

    /** Difficulty and skin are what they were before the call. */
    twostate predicate SettingsKept()
      reads this
    {
      gameDifficulty == old(gameDifficulty) && skinId == old(skinId) && animatorIndex == old(animatorIndex)
    }

    /** Stomping: while falling, each enemy under the player is killed (by
        the caller, see the enemies' Die) and the player bounces. */
    method HandleEnemyDetection(enemiesBelow: nat)
      modifies this
      ensures old(vy) < 0.0 && enemiesBelow > 0 ==> vy == tuning.jumpForce
      ensures !(old(vy) < 0.0 && enemiesBelow > 0) ==> vy == old(vy)
      ensures vx == old(vx) && isWallDetected == old(isWallDetected) && isAirborne == old(isAirborne)
      ensures canDoubleJump == old(canDoubleJump) && isWallJumping == old(isWallJumping)
      ensures pendingWallJumpEnds == old(pendingWallJumpEnds) && isGrounded == old(isGrounded)
      ensures coyoteJumpActivated == old(coyoteJumpActivated) && bufferJumpActivated == old(bufferJumpActivated)
      ensures InputAndFacingKept()
      ensures canBeControlled == old(canBeControlled) && isKnocked == old(isKnocked)
      ensures FrameUntouched()
      ensures MotionState() == AfterStomp(old(MotionState()), enemiesBelow, tuning)
    {
      if vy >= 0.0 {
        return;
      }
      var i := 0;
      while i < enemiesBelow
        invariant 0 <= i <= enemiesBelow
        invariant i > 0 ==> vy == tuning.jumpForce
        invariant i == 0 ==> vy == old(vy)
        invariant vx == old(vx) && InputAndFacingKept()
        invariant isWallDetected == old(isWallDetected) && isAirborne == old(isAirborne)
        invariant canDoubleJump == old(canDoubleJump) && isWallJumping == old(isWallJumping)
        invariant pendingWallJumpEnds == old(pendingWallJumpEnds) && isGrounded == old(isGrounded)
        invariant coyoteJumpActivated == old(coyoteJumpActivated) && bufferJumpActivated == old(bufferJumpActivated)
        invariant canBeControlled == old(canBeControlled) && isKnocked == old(isKnocked)
        invariant FrameUntouched()
      {
        Jump();
        i := i + 1;
      }
    }

    /** Respawn hand-over: control, the collider and gravity are on exactly
        when the respawn has finished. */
    method RespawnFinished(finished: bool)
      modifies this
      ensures canBeControlled == finished && colliderEnabled == finished
      ensures gravityScale == if finished then defaultGravityScale else 0.0
      ensures defaultGravityScale == old(defaultGravityScale)
      ensures Valid() <==> old(Valid())
      ensures gameDifficulty == old(gameDifficulty) && skinId == old(skinId)
      ensures facingRight == old(facingRight) && isKnocked == old(isKnocked)
    {
      var scale := defaultGravityScale;
      if finished {
        gravityScale := scale;
        canBeControlled := true;
        colliderEnabled := true;
      } else {
        gravityScale := 0.0;
        canBeControlled := false;
        colliderEnabled := false;
      }
    }

    /** Knocked away from the source unless already knocked back. The
        knockback lasts until EndKnockback. */
    method Knockback(sourceDamageX: real)
      modifies this
      ensures old(isKnocked) ==> vx == old(vx) && vy == old(vy) && isKnocked
      ensures !old(isKnocked) ==>
        && isKnocked
        && vx == tuning.knockbackPower.x * (KnockbackDir(x, sourceDamageX) as real)
        && vy == tuning.knockbackPower.y
      ensures x == old(x) && canBeControlled == old(canBeControlled)
      ensures Valid() <==> old(Valid())
      ensures BodyKept() && JumpStateKept() && InputAndFacingKept() && SettingsKept()
      ensures destroyed == old(destroyed) && pendingPushEnds == old(pendingPushEnds)
    {
      var knockbackDir: int := KnockbackDir(x, sourceDamageX);
      if isKnocked {
        return;
      }
      isKnocked := true;
      vx := tuning.knockbackPower.x * (knockbackDir as real);
      vy := tuning.knockbackPower.y;
    }

    /** The knockback coroutine's end. */
    method EndKnockback()
      requires isKnocked
      modifies this
      ensures !isKnocked && vx == old(vx) && vy == old(vy)
      ensures canBeControlled == old(canBeControlled)
      ensures Valid() <==> old(Valid())
      ensures BodyKept() && JumpStateKept() && InputAndFacingKept() && SettingsKept()
      ensures destroyed == old(destroyed) && pendingPushEnds == old(pendingPushEnds)
    {
      isKnocked := false;
    }

    /** A push (a trampoline): control is taken away, the velocity is
        cleared and the impulse applied, until EndPush. */
    method Push(direction: Point)
      requires Valid()
      modifies this
      ensures Valid() && !canBeControlled
      ensures vx == direction.x / tuning.mass && vy == direction.y / tuning.mass
      ensures pendingPushEnds == old(pendingPushEnds) + 1
      ensures BodyKept() && JumpStateKept() && InputAndFacingKept() && SettingsKept()
      ensures destroyed == old(destroyed) && isKnocked == old(isKnocked)
    {
      canBeControlled := false;
      vx, vy := 0.0, 0.0;
      vx, vy := vx + direction.x / tuning.mass, vy + direction.y / tuning.mass;
      pendingPushEnds := pendingPushEnds + 1;
    }

    /** A push coroutine's end gives control back. */
    method EndPush()
      requires pendingPushEnds > 0
      modifies this
      ensures canBeControlled && pendingPushEnds == old(pendingPushEnds) - 1
      ensures Valid() <==> old(Valid())
      ensures vx == old(vx) && vy == old(vy)
      ensures BodyKept() && JumpStateKept() && InputAndFacingKept() && SettingsKept()
      ensures destroyed == old(destroyed) && isKnocked == old(isKnocked)
    {
      canBeControlled := true;
      pendingPushEnds := pendingPushEnds - 1;
    }

    /** Landing (grounded while airborne) and take-off (airborne while not
        grounded), decided on last frame's ground raycast. */
    method UpdateAirborneStatus(now: real)
      requires Valid()
      modifies this
      ensures Valid()
      ensures old(isGrounded) ==> !isAirborne
      ensures !old(isGrounded) ==> isAirborne
      ensures old(isGrounded) && old(isAirborne) ==>
        && canDoubleJump
        && (WindowOpen(now, old(bufferJumpActivated), tuning.bufferJumpWindow) ==>
              vy == tuning.jumpForce && bufferJumpActivated == now - 1.0)
        && (!WindowOpen(now, old(bufferJumpActivated), tuning.bufferJumpWindow) ==>
              vy == old(vy) && bufferJumpActivated == old(bufferJumpActivated))
      ensures !old(isGrounded) && !old(isAirborne) ==>
        coyoteJumpActivated == if old(vy) < 0.0 then now else old(coyoteJumpActivated)
      ensures !(old(isGrounded) && old(isAirborne)) ==>
        canDoubleJump == old(canDoubleJump) && vy == old(vy) && bufferJumpActivated == old(bufferJumpActivated)
      ensures !(!old(isGrounded) && !old(isAirborne)) ==> coyoteJumpActivated == old(coyoteJumpActivated)
      ensures vx == old(vx) && isGrounded == old(isGrounded) && isWallDetected == old(isWallDetected)
      ensures isWallJumping == old(isWallJumping) && pendingWallJumpEnds == old(pendingWallJumpEnds)
      ensures InputAndFacingKept() && x == old(x)
      ensures canBeControlled == old(canBeControlled) && isKnocked == old(isKnocked)
      ensures FrameUntouched()
      ensures MotionState() == AfterAirborneStatus(old(MotionState()), old(isGrounded), now, tuning)
    {
      if isGrounded && isAirborne {
        HandleLanding(now);
      }
      if !isGrounded && !isAirborne {
        BecomeAirborne(now);
      }
    }

    /** Landing restores the double jump and fires a buffered jump. */
    method HandleLanding(now: real)
      modifies this
      ensures !isAirborne && canDoubleJump
      ensures WindowOpen(now, old(bufferJumpActivated), tuning.bufferJumpWindow)
        ==> vy == tuning.jumpForce && bufferJumpActivated == now - 1.0
      ensures !WindowOpen(now, old(bufferJumpActivated), tuning.bufferJumpWindow)
        ==> vy == old(vy) && bufferJumpActivated == old(bufferJumpActivated)
      ensures vx == old(vx) && isGrounded == old(isGrounded) && isWallDetected == old(isWallDetected)
      ensures isWallJumping == old(isWallJumping) && pendingWallJumpEnds == old(pendingWallJumpEnds)
      ensures coyoteJumpActivated == old(coyoteJumpActivated)
      ensures InputAndFacingKept() && x == old(x)
      ensures canBeControlled == old(canBeControlled) && isKnocked == old(isKnocked)
      ensures FrameUntouched()
    {
      isAirborne := false;
      canDoubleJump := true;
      AttemptBufferJump(now);
    }

    /** Taking off; falling off a ledge (not jumping) opens the coyote
        window. */
    method BecomeAirborne(now: real)
      modifies this
      ensures isAirborne
      ensures coyoteJumpActivated == if old(vy) < 0.0 then now else old(coyoteJumpActivated)
      ensures vx == old(vx) && vy == old(vy) && canDoubleJump == old(canDoubleJump)
      ensures bufferJumpActivated == old(bufferJumpActivated)
      ensures isGrounded == old(isGrounded) && isWallDetected == old(isWallDetected)
      ensures isWallJumping == old(isWallJumping) && pendingWallJumpEnds == old(pendingWallJumpEnds)
      ensures InputAndFacingKept() && x == old(x)
      ensures canBeControlled == old(canBeControlled) && isKnocked == old(isKnocked)
      ensures FrameUntouched()
    {
      isAirborne := true;
      if vy < 0.0 {
        ActivateCoyoteJump(now);
      }
    }

    /** Reads the axes; the jump key presses the jump and, in the air,
        records a buffered jump. */
    method HandleInputs(now: real, xAxis: real, yAxis: real, jumpPressed: bool)
      requires Valid()
      modifies this`xInput, this`yInput, this`isPressingHorizontalButtons, this`bufferJumpActivated,
        this`vx, this`vy, this`canDoubleJump, this`isWallJumping, this`pendingWallJumpEnds, this`coyoteJumpActivated
      ensures Valid()
      ensures xInput == xAxis && yInput == yAxis && isPressingHorizontalButtons == (xAxis != 0.0)
      ensures jumpPressed ==>
        && JumpDone(now, old(isGrounded), old(isWallDetected), xAxis != 0.0, old(MotionState()), old(pendingWallJumpEnds))
        && bufferJumpActivated == if isAirborne then now else old(bufferJumpActivated)
      ensures !jumpPressed ==>
        && vx == old(vx) && vy == old(vy) && canDoubleJump == old(canDoubleJump)
        && coyoteJumpActivated == old(coyoteJumpActivated) && bufferJumpActivated == old(bufferJumpActivated)
        && isWallJumping == old(isWallJumping)
      ensures facingRight == old(facingRight) && facingDir == old(facingDir)
      ensures isGrounded == old(isGrounded) && isWallDetected == old(isWallDetected) && isAirborne == old(isAirborne)
      ensures x == old(x)
      ensures canBeControlled == old(canBeControlled) && isKnocked == old(isKnocked)
      ensures FrameUntouched()
      ensures jumpPressed ==> MotionState() == AfterJumpPress(old(MotionState()), now, old(isGrounded),
                                                             old(isWallDetected), xAxis != 0.0, old(facingDir), tuning)
      ensures !jumpPressed ==> MotionState() == old(MotionState())
      ensures var wallJumped := jumpPressed && PressedJump(old(MotionState()), now, old(isGrounded),
                                                           old(isWallDetected), xAxis != 0.0, tuning) == OffWall;
        pendingWallJumpEnds == if wallJumped then old(pendingWallJumpEnds) + 1 else old(pendingWallJumpEnds)
    {
      xInput := xAxis;
      isPressingHorizontalButtons := xInput != 0.0;
      yInput := yAxis;
      if jumpPressed {
        PressJump(now);
      }
    }

    /** The jump key's branch of HandleInputs: the jump button, then the
        buffered jump request. */
    method PressJump(now: real)
      requires Valid()
      modifies this`bufferJumpActivated,
        this`vx, this`vy, this`canDoubleJump, this`isWallJumping, this`pendingWallJumpEnds, this`coyoteJumpActivated
      ensures Valid()
      ensures JumpDone(now, old(isGrounded), old(isWallDetected), old(isPressingHorizontalButtons),
                       old(MotionState()), old(pendingWallJumpEnds))
      ensures bufferJumpActivated == if isAirborne then now else old(bufferJumpActivated)
      ensures isGrounded == old(isGrounded) && isWallDetected == old(isWallDetected) && isAirborne == old(isAirborne)
      ensures InputAndFacingKept() && x == old(x)
      ensures canBeControlled == old(canBeControlled) && isKnocked == old(isKnocked)
      ensures FrameUntouched()
      ensures MotionState() == AfterJumpPress(old(MotionState()), now, old(isGrounded), old(isWallDetected),
                                              old(isPressingHorizontalButtons), old(facingDir), tuning)
      ensures var wallJumped := PressedJump(old(MotionState()), now, old(isGrounded), old(isWallDetected),
                                            old(isPressingHorizontalButtons), tuning) == OffWall;
        pendingWallJumpEnds == if wallJumped then old(pendingWallJumpEnds) + 1 else old(pendingWallJumpEnds)
    {
      JumpButton(now);
      RequestBufferJump(now);
    }

    /** The effect of a jump press on the motion `m` and the `pending`
        wall-jump ends before it, per ChooseJump; the coyote window is
        cancelled afterwards in every case. */
    predicate JumpDone(now: real, grounded: bool, wallDetected: bool, pressingHorizontal: bool,
                       m: Motion, pending: nat)
      reads this
    {
      var k := PressedJump(m, now, grounded, wallDetected, pressingHorizontal, tuning);
      && (k == Regular ==>
            vy == tuning.jumpForce && vx == m.vx && canDoubleJump == m.canDoubleJump
            && isWallJumping == m.wallJumping)
      && (k == OffWall ==>
            vx == tuning.wallJumpForce.x * (facingDir as real) && vy == tuning.wallJumpForce.y
            && canDoubleJump && isWallJumping)
      && (k == Double ==>
            vy == tuning.doubleJumpForce && vx == m.vx && !canDoubleJump && !isWallJumping)
      && (k == NoJump ==>
            vy == m.vy && vx == m.vx && canDoubleJump == m.canDoubleJump && isWallJumping == m.wallJumping)
      && pendingWallJumpEnds == (if k == OffWall then pending + 1 else pending)
      && coyoteJumpActivated == now - 1.0
    }

    method RequestBufferJump(now: real)
      modifies this`bufferJumpActivated
      ensures bufferJumpActivated == if isAirborne then now else old(bufferJumpActivated)
      ensures vx == old(vx) && vy == old(vy) && canDoubleJump == old(canDoubleJump)
      ensures coyoteJumpActivated == old(coyoteJumpActivated) && isWallJumping == old(isWallJumping)
      ensures pendingWallJumpEnds == old(pendingWallJumpEnds) && isAirborne == old(isAirborne)
      ensures isGrounded == old(isGrounded) && isWallDetected == old(isWallDetected)
      ensures InputAndFacingKept() && x == old(x)
      ensures canBeControlled == old(canBeControlled) && isKnocked == old(isKnocked)
      ensures FrameUntouched()
    {
      if isAirborne {
        bufferJumpActivated := now;
      }
    }

    /** Fires the buffered jump if it was pressed within the window, and
        spends it. */
    method AttemptBufferJump(now: real)
      modifies this
      ensures WindowOpen(now, old(bufferJumpActivated), tuning.bufferJumpWindow)
        ==> vy == tuning.jumpForce && bufferJumpActivated == now - 1.0
      ensures !WindowOpen(now, old(bufferJumpActivated), tuning.bufferJumpWindow)
        ==> vy == old(vy) && bufferJumpActivated == old(bufferJumpActivated)
      ensures vx == old(vx) && canDoubleJump == old(canDoubleJump) && isAirborne == old(isAirborne)
      ensures coyoteJumpActivated == old(coyoteJumpActivated) && isWallJumping == old(isWallJumping)
      ensures pendingWallJumpEnds == old(pendingWallJumpEnds)
      ensures isGrounded == old(isGrounded) && isWallDetected == old(isWallDetected)
      ensures InputAndFacingKept() && x == old(x)
      ensures canBeControlled == old(canBeControlled) && isKnocked == old(isKnocked)
      ensures FrameUntouched()
    {
      if now < bufferJumpActivated + tuning.bufferJumpWindow {
        bufferJumpActivated := now - 1.0;
        Jump();
      }
    }

    method ActivateCoyoteJump(now: real)
      modifies this`coyoteJumpActivated
      ensures coyoteJumpActivated == now
      ensures vx == old(vx) && vy == old(vy) && canDoubleJump == old(canDoubleJump) && isAirborne == old(isAirborne)
      ensures bufferJumpActivated == old(bufferJumpActivated) && isWallJumping == old(isWallJumping)
      ensures pendingWallJumpEnds == old(pendingWallJumpEnds)
      ensures isGrounded == old(isGrounded) && isWallDetected == old(isWallDetected)
      ensures InputAndFacingKept() && x == old(x)
      ensures canBeControlled == old(canBeControlled) && isKnocked == old(isKnocked)
      ensures FrameUntouched()
    {
      coyoteJumpActivated := now;
    }

    method CancelCoyoteJump(now: real)
      modifies this`coyoteJumpActivated
      ensures coyoteJumpActivated == now - 1.0
      ensures vx == old(vx) && vy == old(vy) && canDoubleJump == old(canDoubleJump) && isAirborne == old(isAirborne)
      ensures bufferJumpActivated == old(bufferJumpActivated) && isWallJumping == old(isWallJumping)
      ensures pendingWallJumpEnds == old(pendingWallJumpEnds)
      ensures isGrounded == old(isGrounded) && isWallDetected == old(isWallDetected)
      ensures InputAndFacingKept() && x == old(x)
      ensures canBeControlled == old(canBeControlled) && isKnocked == old(isKnocked)
      ensures FrameUntouched()
    {
      coyoteJumpActivated := now - 1.0;
    }

    /** A press of the jump key: at most one jump, chosen by ChooseJump, then
        the coyote window is closed. */
    method JumpButton(now: real)
      requires Valid()
      modifies this`vx, this`vy, this`canDoubleJump, this`isWallJumping, this`pendingWallJumpEnds, this`coyoteJumpActivated
      ensures Valid()
      ensures JumpDone(now, old(isGrounded), old(isWallDetected), old(isPressingHorizontalButtons),
                       old(MotionState()), old(pendingWallJumpEnds))
      ensures MotionState() == AfterJumpButton(old(MotionState()), now, old(isGrounded), old(isWallDetected),
                                               old(isPressingHorizontalButtons), old(facingDir), tuning)
      ensures bufferJumpActivated == old(bufferJumpActivated) && isAirborne == old(isAirborne)
      ensures isGrounded == old(isGrounded) && isWallDetected == old(isWallDetected)
      ensures InputAndFacingKept() && x == old(x)
      ensures canBeControlled == old(canBeControlled) && isKnocked == old(isKnocked)
      ensures FrameUntouched()
    {
      var coyoteJumpAvailable := now < coyoteJumpActivated + tuning.coyoteJumpWindow;
      if isGrounded || coyoteJumpAvailable {
        Jump();
      } else if isWallDetected && isPressingHorizontalButtons && !isGrounded {
        WallJump();
      } else if canDoubleJump {
        DoubleJump();
      }
      CancelCoyoteJump(now);
    }

    method Jump()
      modifies this`vy
      ensures vy == tuning.jumpForce
      ensures vx == old(vx) && canDoubleJump == old(canDoubleJump) && isAirborne == old(isAirborne)
      ensures bufferJumpActivated == old(bufferJumpActivated) && coyoteJumpActivated == old(coyoteJumpActivated)
      ensures isWallJumping == old(isWallJumping) && pendingWallJumpEnds == old(pendingWallJumpEnds)
      ensures isGrounded == old(isGrounded) && isWallDetected == old(isWallDetected)
      ensures InputAndFacingKept() && x == old(x)
      ensures canBeControlled == old(canBeControlled) && isKnocked == old(isKnocked)
      ensures FrameUntouched()
    {
      vy := tuning.jumpForce;
    }

    /** Spends the double jump and ends a wall jump early. */
    method DoubleJump()
      modifies this`isWallJumping, this`canDoubleJump, this`vy
      ensures !canDoubleJump && !isWallJumping && vy == tuning.doubleJumpForce
      ensures vx == old(vx) && isAirborne == old(isAirborne)
      ensures bufferJumpActivated == old(bufferJumpActivated) && coyoteJumpActivated == old(coyoteJumpActivated)
      ensures pendingWallJumpEnds == old(pendingWallJumpEnds)
      ensures isGrounded == old(isGrounded) && isWallDetected == old(isWallDetected)
      ensures InputAndFacingKept() && x == old(x)
      ensures canBeControlled == old(canBeControlled) && isKnocked == old(isKnocked)
      ensures FrameUntouched()
    {
      isWallJumping := false;
      canDoubleJump := false;
      vy := tuning.doubleJumpForce;
    }

    /** Jumps off the wall in the facing direction and grants the double
        jump again; the wall-jump state lasts until EndWallJump. */
    method WallJump()
      modifies this`vx, this`vy, this`canDoubleJump, this`isWallJumping, this`pendingWallJumpEnds
      ensures vx == tuning.wallJumpForce.x * (facingDir as real) && vy == tuning.wallJumpForce.y
      ensures canDoubleJump && isWallJumping && pendingWallJumpEnds == old(pendingWallJumpEnds) + 1
      ensures isAirborne == old(isAirborne)
      ensures bufferJumpActivated == old(bufferJumpActivated) && coyoteJumpActivated == old(coyoteJumpActivated)
      ensures isGrounded == old(isGrounded) && isWallDetected == old(isWallDetected)
      ensures InputAndFacingKept() && x == old(x)
      ensures canBeControlled == old(canBeControlled) && isKnocked == old(isKnocked)
      ensures FrameUntouched()
    {
      vx := tuning.wallJumpForce.x * (facingDir as real);
      vy := tuning.wallJumpForce.y;
      canDoubleJump := true;
      isWallJumping := true;
      pendingWallJumpEnds := pendingWallJumpEnds + 1;
    }

    /** A wall-jump coroutine's end. */
    method EndWallJump()
      requires Valid() && pendingWallJumpEnds > 0
      modifies this
      ensures Valid() && !isWallJumping && pendingWallJumpEnds == old(pendingWallJumpEnds) - 1
      ensures vx == old(vx) && vy == old(vy) && canDoubleJump == old(canDoubleJump)
    {
      isWallJumping := false;
      pendingWallJumpEnds := pendingWallJumpEnds - 1;
    }

    /** Steering: horizontal velocity follows the axis unless against a wall. */
    method HandleMovement()
      modifies this
      ensures vx == if old(isWallDetected) then old(vx) else xInput * tuning.moveSpeed
      ensures vy == old(vy) && canDoubleJump == old(canDoubleJump) && isAirborne == old(isAirborne)
      ensures bufferJumpActivated == old(bufferJumpActivated) && coyoteJumpActivated == old(coyoteJumpActivated)
      ensures isWallJumping == old(isWallJumping) && pendingWallJumpEnds == old(pendingWallJumpEnds)
      ensures isGrounded == old(isGrounded) && isWallDetected == old(isWallDetected)
      ensures InputAndFacingKept() && x == old(x)
      ensures canBeControlled == old(canBeControlled) && isKnocked == old(isKnocked)
      ensures FrameUntouched()
      ensures MotionState() == AfterMovement(old(MotionState()), isWallDetected, xInput, tuning)
    {
      if isWallDetected {
        return;
      }
      vx := xInput * tuning.moveSpeed;
    }

    /** Sliding down a wall while steering into it: the fall is halved, or
        kept at full speed while holding down. */
    method HandleWallSlide()
      modifies this
      ensures isPressingHorizontalButtons && isWallDetected && old(vy) < 0.0 ==>
        vy == old(vy) * (if yInput < 0.0 then 1.0 else 0.5)
      ensures !(isPressingHorizontalButtons && isWallDetected && old(vy) < 0.0) ==> vy == old(vy)
      ensures vx == old(vx) && canDoubleJump == old(canDoubleJump) && isAirborne == old(isAirborne)
      ensures bufferJumpActivated == old(bufferJumpActivated) && coyoteJumpActivated == old(coyoteJumpActivated)
      ensures isWallJumping == old(isWallJumping) && pendingWallJumpEnds == old(pendingWallJumpEnds)
      ensures isGrounded == old(isGrounded) && isWallDetected == old(isWallDetected)
      ensures InputAndFacingKept() && x == old(x)
      ensures canBeControlled == old(canBeControlled) && isKnocked == old(isKnocked)
      ensures FrameUntouched()
      ensures MotionState() == AfterWallSlide(old(MotionState()), isPressingHorizontalButtons, isWallDetected, yInput)
    {
      var yModifier := if yInput < 0.0 then 1.0 else 0.5;
      if !isPressingHorizontalButtons {
        return;
      }
      if isWallDetected && vy < 0.0 {
        vy := vy * yModifier;
      }
    }

    /** Turns to face the held direction; no input keeps the facing. */
    method HandleFlip()
      requires Valid()
      modifies this
      ensures Valid()
      ensures xInput != 0.0 ==> facingRight == (xInput > 0.0)
      ensures xInput == 0.0 ==> facingRight == old(facingRight)
      ensures vx == old(vx) && vy == old(vy) && canDoubleJump == old(canDoubleJump) && isAirborne == old(isAirborne)
      ensures isWallJumping == old(isWallJumping) && pendingWallJumpEnds == old(pendingWallJumpEnds)
      ensures isGrounded == old(isGrounded) && isWallDetected == old(isWallDetected)
      ensures xInput == old(xInput) && yInput == old(yInput) && x == old(x)
      ensures isPressingHorizontalButtons == old(isPressingHorizontalButtons)
      ensures canBeControlled == old(canBeControlled) && isKnocked == old(isKnocked)
      ensures FrameUntouched()
      ensures MotionState() == old(MotionState())
    {
      if (xInput < 0.0 && facingRight) || (xInput > 0.0 && !facingRight) {
        Flip();
      }
    }

    method Flip()
      requires Valid()
      modifies this
      ensures Valid() && facingRight == !old(facingRight)
      ensures vx == old(vx) && vy == old(vy) && canDoubleJump == old(canDoubleJump) && isAirborne == old(isAirborne)
      ensures isWallJumping == old(isWallJumping) && pendingWallJumpEnds == old(pendingWallJumpEnds)
      ensures isGrounded == old(isGrounded) && isWallDetected == old(isWallDetected)
      ensures xInput == old(xInput) && yInput == old(yInput) && x == old(x)
      ensures isPressingHorizontalButtons == old(isPressingHorizontalButtons)
      ensures canBeControlled == old(canBeControlled) && isKnocked == old(isKnocked)
      ensures FrameUntouched()
      ensures MotionState() == old(MotionState())
    {
      facingRight := !facingRight;
      facingDir := facingDir * -1;
    }

    /** The ground and wall raycasts. */
    method HandleCollisions(grounded: bool, wallDetected: bool)
      modifies this
      ensures isGrounded == grounded && isWallDetected == wallDetected
      ensures vx == old(vx) && vy == old(vy) && canDoubleJump == old(canDoubleJump) && isAirborne == old(isAirborne)
      ensures isWallJumping == old(isWallJumping) && pendingWallJumpEnds == old(pendingWallJumpEnds)
      ensures InputAndFacingKept() && x == old(x)
      ensures canBeControlled == old(canBeControlled) && isKnocked == old(isKnocked)
      ensures FrameUntouched()
      ensures MotionState() == old(MotionState())
    {
      isGrounded := grounded;
      isWallDetected := wallDetected;
    }
  }

  /** In the air, away from walls and past the coyote window, two presses of
      the jump key give one double jump: the first spends it and the second
      does nothing. This relies on the coyote window being at most one
      second, since cancelling it stamps it one second back. */
  method DoubleJumpOncePerFlight(p: Player, now: real)
    requires p.Valid() && !p.isGrounded && !p.isWallDetected && p.canDoubleJump
    requires !WindowOpen(now, p.coyoteJumpActivated, p.tuning.coyoteJumpWindow)
    requires p.tuning.coyoteJumpWindow <= 1.0
    modifies p
    ensures p.Valid() && !p.canDoubleJump && p.vy == p.tuning.doubleJumpForce
  {
    p.JumpButton(now);
    assert !p.canDoubleJump && p.vy == p.tuning.doubleJumpForce;
    p.JumpButton(now);
  }
}
