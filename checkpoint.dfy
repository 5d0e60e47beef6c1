/** A checkpoint that becomes the respawn point when the player reaches it
    (Assets/Scripts/Checkpoint/Checkpoint.cs). */
module Checkpoints {
  import opened Game

  class Checkpoint {
    const gameManager: GameManager
    var isActive: bool
    var canBeReactivated: bool

    constructor(gameManager: GameManager, canBeReactivated: bool)
      ensures this.gameManager == gameManager && this.canBeReactivated == canBeReactivated
      ensures !isActive
    {
      this.gameManager := gameManager;
      this.canBeReactivated := canBeReactivated;
      isActive := false;
    }

    /** The inspector setting is replaced by the game manager's. */
    method Start()
      modifies this
      ensures canBeReactivated == gameManager.canReactivate && isActive == old(isActive)
    {
      canBeReactivated := gameManager.canReactivate;
    }

    /** Something entered the trigger; `isPlayer` says whether it carries a
        player. An active checkpoint that cannot be reactivated ignores it;
        otherwise the player, and only the player, activates it. */
    method OnTriggerEnter2D(isPlayer: bool)
      modifies this, gameManager
      ensures canBeReactivated == old(canBeReactivated)
      ensures var activates := isPlayer && !(old(isActive) && !canBeReactivated);
        && (activates ==> isActive && gameManager.respawnPoint == this)
        && (!activates ==> isActive == old(isActive) && gameManager.respawnPoint == old(gameManager.respawnPoint))
      ensures old(isActive) ==> isActive
      ensures gameManager.player == old(gameManager.player) && gameManager.canReactivate == old(gameManager.canReactivate)
      ensures gameManager.pendingRespawns == old(gameManager.pendingRespawns) && gameManager.LevelStateKept()
    {
      if isActive && !canBeReactivated {
        return;
      }
      if isPlayer {
        ActivatedCheckpoint();
      }
    }

    /** Active for good, and the respawn point from now on. */
    method ActivatedCheckpoint()
      modifies this, gameManager
      ensures isActive && gameManager.respawnPoint == this
      ensures canBeReactivated == old(canBeReactivated)
      ensures gameManager.player == old(gameManager.player) && gameManager.canReactivate == old(gameManager.canReactivate)
      ensures gameManager.pendingRespawns == old(gameManager.pendingRespawns) && gameManager.LevelStateKept()
    {
      isActive := true;
      gameManager.UpdateRespawnPlayerPosition(this);
    }
  }

  /** With reactivation off, an active checkpoint ignores every later touch:
      it stays active and the respawn point stays where it was. */
  method FirstActivationSticks(checkpoint: Checkpoint, touches: seq<bool>)
    requires checkpoint.isActive && !checkpoint.canBeReactivated
    modifies checkpoint, checkpoint.gameManager
    ensures checkpoint.isActive && checkpoint.gameManager.respawnPoint == old(checkpoint.gameManager.respawnPoint)
  {
    var k := 0;
    while k < |touches|
      invariant 0 <= k <= |touches|
      invariant checkpoint.isActive && !checkpoint.canBeReactivated
      invariant checkpoint.gameManager.respawnPoint == old(checkpoint.gameManager.respawnPoint)
    {
      checkpoint.OnTriggerEnter2D(touches[k]);
      k := k + 1;
    }
  }
}
