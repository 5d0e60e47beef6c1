/** What the components ask of the engine and that the model keeps:
    positions, the scene loader (recorded as a log of requested scenes) and
    the global time scale. Fades that run before a scene load are not
    modelled: the load is recorded when it is requested. */
module Engine {

  datatype Point = Point(x: real, y: real)

  /** `SceneManager.LoadScene` by name or by build index. */
  datatype SceneRef = Named(name: string) | Indexed(index: int)

  class SceneLoader {
    var requests: seq<SceneRef>

    constructor()
      ensures requests == []
    {
      requests := [];
    }

    method Load(scene: SceneRef)
      modifies this
      ensures requests == old(requests) + [scene]
    {
      requests := requests + [scene];
    }
  }

  /** `Time.timeScale`. */
  class TimeSettings {
    var timeScale: real

    constructor()
      ensures timeScale == 1.0
    {
      timeScale := 1.0;
    }
  }
}

/** The `instance` pattern of the manager classes: the first object to wake
    becomes the instance, every later one destroys itself. */
module Singletons {
  import opened Common

  class Slot<T(==)> {
    var instance: Option<T>

    constructor()
      ensures instance == None
    {
      instance := None;
    }

    /** Returns whether `candidate` survives (false: it was destroyed). */
    method Awake(candidate: T) returns (kept: bool)
      modifies this
      ensures kept <==> old(instance) == None
      ensures instance == if kept then Some(candidate) else old(instance)
    {
      kept := instance == None;
      if kept {
        instance := Some(candidate);
      }
    }
  }
}

/** Facing bookkeeping shared by the player, the enemies and the menu
    character: an integer direction kept in step with a boolean, and the rule
    that turns a character towards a point. */
module Facing {

  /** The integer direction is 1 when facing right and -1 otherwise. */
  predicate Consistent(dir: int, right: bool) {
    dir == if right then 1 else -1
  }

  /** Whether a character at `x` must flip to face `targetX`: the target is
      strictly on the side it is not facing. */
  function NeedsFlip(targetX: real, x: real, right: bool): (flip: bool)
    ensures targetX == x ==> !flip
    ensures targetX != x ==> (flip <==> right != (targetX > x))
  {
    (targetX < x && right) || (targetX > x && !right)
  }
}
