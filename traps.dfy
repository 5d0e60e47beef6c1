/** The saw that runs back and forth along its waypoints
    (Assets/Scripts/Traps/Trap_Saw.cs). */
module SawTrap {
  import opened Engine

  /** The waypoint being approached and the direction of travel fit a path
      of `count` waypoints: the index is on the path, the direction is one
      step either way, and the end being travelled away from is never the
      one approached. */
  predicate OnPath(index: int, direction: int, count: int) {
    && count >= 2 && 0 <= index < count
    && (direction == 1 || direction == -1)
    && (direction == 1 ==> index >= 1)
    && (direction == -1 ==> index <= count - 2)
  }

  /** The waypoint and direction after arriving at waypoint `index`: at
      either end the direction reverses first, then the index steps on. */
  function Advance(index: int, direction: int, count: int): (r: (int, int))
    requires OnPath(index, direction, count)
    ensures OnPath(r.0, r.1, count)
    ensures r.1 == -direction <==> index == 0 || index == count - 1
    ensures r.0 == index + r.1
  {
    var newDirection := if index == count - 1 || index == 0 then -direction else direction;
    (index + newDirection, newDirection)
  }

  /** Starting at the first end heading forwards, the saw reaches the far end
      after `count - 1` arrivals and turns back. */
  function AdvanceTimes(index: int, direction: int, count: int, arrivals: nat): (r: (int, int))
    requires OnPath(index, direction, count)
    ensures OnPath(r.0, r.1, count)
    decreases arrivals
  {
    if arrivals == 0 then (index, direction)
    else
      var next := Advance(index, direction, count);
      AdvanceTimes(next.0, next.1, count, arrivals - 1)
  }

  /** Heading forwards from waypoint `index`, the saw arrives at each later
      waypoint in turn. */
  lemma {:induction false} ForwardRun(index: int, count: int, arrivals: nat)
    requires OnPath(index, 1, count) && index + arrivals <= count - 1
    ensures AdvanceTimes(index, 1, count, arrivals) == (index + arrivals, 1)
    decreases arrivals
  {
    if arrivals > 0 {
      assert Advance(index, 1, count) == (index + 1, 1);
      ForwardRun(index + 1, count, arrivals - 1);
    }
  }

  /** From the start (waypoint 1, forwards), `count - 2` arrivals bring the
      saw to the last waypoint still heading forwards, and the arrival there
      turns it back towards the one before. */
  lemma ReachesFarEnd(count: int)
    requires count >= 2
    ensures AdvanceTimes(1, 1, count, count - 2) == (count - 1, 1)
    ensures Advance(count - 1, 1, count) == (count - 2, -1)
  {
    ForwardRun(1, count, count - 2);
  }

  class Saw {
    /** Inspector defaults: 3 and 1. */
    const moveSpeed: real
    const coolDown: real
    /** The waypoint children's positions as the inspector array holds them. */
    var waypoints: array<Point>
    var wayPointsPosition: array<Point>
    var waypointIndex: int
    var moveDirection: int
    var canMove: bool
    var flipX: bool
    var position: Point

    /** The saw stays on its path. */
    predicate Valid()
      reads this
    {
      OnPath(waypointIndex, moveDirection, wayPointsPosition.Length)
    }

    constructor(moveSpeed: real, coolDown: real, waypoints: array<Point>, position: Point)
      ensures waypointIndex == 1 && moveDirection == 1 && canMove && !flipX
      ensures this.waypoints == waypoints && this.moveSpeed == moveSpeed && this.coolDown == coolDown
      ensures this.position == position
    {
      this.moveSpeed := moveSpeed;
      this.coolDown := coolDown;
      this.waypoints := waypoints;
      wayPointsPosition := new Point[0];
      waypointIndex := 1;
      moveDirection := 1;
      canMove := true;
      flipX := false;
      this.position := position;
    }

    /** Reads the waypoints, and places the saw on the first. The path needs
        two waypoints: with fewer the source indexes past the array's end. */
    method Start(children: seq<Point>)
      requires waypointIndex == 1 && moveDirection == 1 && |children| >= 2
      modifies this
      ensures Valid() && wayPointsPosition.Length == |children|
      ensures position == wayPointsPosition[0]
      ensures canMove == old(canMove) && waypointIndex == 1 && moveDirection == 1
    {
      UpdateWaypointsInfo(children);
      position := wayPointsPosition[0];
    }

    /** `children` are the waypoint children's positions. The inspector array
        is rebuilt from them only when their number differs from its length;
        the position array then copies whatever the inspector array holds. */
    method UpdateWaypointsInfo(children: seq<Point>)
      modifies this
      ensures wayPointsPosition.Length == waypoints.Length == |children|
      ensures wayPointsPosition[..] == waypoints[..]
      ensures |children| != old(waypoints.Length) ==> waypoints[..] == children && fresh(waypoints)
      ensures |children| == old(waypoints.Length) ==> waypoints == old(waypoints) && waypoints[..] == old(waypoints[..])
      ensures fresh(wayPointsPosition)
      ensures waypointIndex == old(waypointIndex) && moveDirection == old(moveDirection)
      ensures canMove == old(canMove) && flipX == old(flipX) && position == old(position)
    {
      if |children| != waypoints.Length {
        var rebuilt := new Point[|children|];
        var i := 0;
        while i < rebuilt.Length
          invariant 0 <= i <= rebuilt.Length
          invariant forall j :: 0 <= j < i ==> rebuilt[j] == children[j]
          modifies rebuilt
        {
          rebuilt[i] := children[i];
          i := i + 1;
        }
        assert rebuilt[..] == children;
        waypoints := rebuilt;
      }
      var positions := new Point[waypoints.Length];
      var index := 0;
      while index < positions.Length
        invariant 0 <= index <= positions.Length
        invariant forall j :: 0 <= j < index ==> positions[j] == waypoints[j]
        modifies positions
      {
        positions[index] := waypoints[index];
        index := index + 1;
      }
      assert positions[..] == waypoints[..];
      wayPointsPosition := positions;
    }

    /** One frame. `stepped` is the engine's step towards the current
        waypoint and `arrived` whether it is within 0.1 of it. A stopped saw
        does nothing. On arrival at either end the direction reverses and the
        cooldown stop begins; the index then steps on. */
    method Update(stepped: Point, arrived: bool)
      requires Valid()
      modifies this
      ensures Valid() && wayPointsPosition == old(wayPointsPosition) && flipX == old(flipX)
      ensures !old(canMove) ==>
        position == old(position) && waypointIndex == old(waypointIndex) && moveDirection == old(moveDirection) && !canMove
      ensures old(canMove) ==> position == stepped
      ensures old(canMove) && arrived ==>
        (waypointIndex, moveDirection) == Advance(old(waypointIndex), old(moveDirection), wayPointsPosition.Length)
      ensures old(canMove) && arrived ==>
        (!canMove <==> old(waypointIndex) == 0 || old(waypointIndex) == wayPointsPosition.Length - 1)
      ensures old(canMove) && !arrived ==>
        waypointIndex == old(waypointIndex) && moveDirection == old(moveDirection) && canMove
    {
      if !canMove {
        return;
      }
      position := stepped;
      if arrived {
        if waypointIndex == wayPointsPosition.Length - 1 || waypointIndex == 0 {
          moveDirection := moveDirection * -1;
          canMove := false;
        }
        waypointIndex := waypointIndex + moveDirection;
      }
    }

    /** The end of the cooldown stop: moving again, sprite turned. */
    method EndStop()
      requires !canMove
      modifies this
      ensures canMove && flipX == !old(flipX)
      ensures waypointIndex == old(waypointIndex) && moveDirection == old(moveDirection)
      ensures wayPointsPosition == old(wayPointsPosition) && position == old(position)
    {
      canMove := true;
      flipX := !flipX;
    }
  }
}

/** The platform that floats between two points and falls once the player
    lands on it (Assets/Scripts/Traps/Trap_FallingPlatform.cs). */
module FallingPlatformTrap {
  import opened Engine

  class FallingPlatform {
    /** Inspector defaults: 0.75, 3, 0.1 and 0.5. */
    const speed: real
    const travelDistance: real
    const impactSpeed: real
    const impactDuration: real
    const fallDelay: real
    var wayPoints: array<Point>
    var wayPointIndex: int
    var canMove: bool
    var impactTimer: real
    var impactHappened: bool
    /** The delayed switch-off was requested. */
    var switchOffScheduled: bool
    var isKinematic: bool
    var gravityScale: real
    var linearDamping: real
    var position: Point
    /** The enabled flags of the box colliders. */
    const colliders: array<bool>

    /** Two waypoints, one of which is the current target. */
    predicate Valid()
      reads this
    {
      wayPoints.Length == 2 && 0 <= wayPointIndex < wayPoints.Length
    }

    /** Waypoints are placeholders until Start sets them up. */
    constructor(speed: real, travelDistance: real, impactSpeed: real, impactDuration: real,
                fallDelay: real, position: Point, colliders: array<bool>)
      ensures Valid() && wayPointIndex == 0 && !canMove && !impactHappened && !switchOffScheduled
      ensures impactTimer == 0.0 && isKinematic
      ensures this.speed == speed && this.travelDistance == travelDistance
      ensures this.impactSpeed == impactSpeed && this.impactDuration == impactDuration
      ensures this.fallDelay == fallDelay && this.position == position && this.colliders == colliders
    {
      this.speed := speed;
      this.travelDistance := travelDistance;
      this.impactSpeed := impactSpeed;
      this.impactDuration := impactDuration;
      this.fallDelay := fallDelay;
      wayPoints := new Point[2];
      wayPointIndex := 0;
      canMove := false;
      impactTimer := 0.0;
      impactHappened := false;
      switchOffScheduled := false;
      isKinematic := true;
      gravityScale := 1.0;
      linearDamping := 0.0;
      this.position := position;
      this.colliders := colliders;
    }

    /** Sets up the waypoints; movement starts after a random delay, which is
        the separate `ActivatePlatform` step. */
    method Start()
      requires Valid()
      modifies this
      ensures Valid() && wayPoints.Length == 2
      ensures wayPoints[0] == Point(position.x, position.y + travelDistance / 2.0)
      ensures wayPoints[1] == Point(position.x, position.y - travelDistance / 2.0)
      ensures canMove == old(canMove) && wayPointIndex == old(wayPointIndex) && position == old(position)
    {
      SetupWaypoints();
    }

    method ActivatePlatform()
      modifies this
      ensures canMove
      ensures wayPoints == old(wayPoints) && wayPointIndex == old(wayPointIndex) && position == old(position)
    {
      canMove := true;
    }

    /** Exactly two waypoints, half the travel distance above and below the
        current position. */
    method SetupWaypoints()
      requires Valid()
      modifies this
      ensures Valid() && fresh(wayPoints) && wayPoints.Length == 2
      ensures wayPoints[0] == Point(position.x, position.y + travelDistance / 2.0)
      ensures wayPoints[1] == Point(position.x, position.y - travelDistance / 2.0)
      ensures canMove == old(canMove) && wayPointIndex == old(wayPointIndex) && position == old(position)
    {
      var points := new Point[2];
      var yOffset := travelDistance / 2.0;
      points[0] := Point(position.x, position.y + yOffset);
      points[1] := Point(position.x, position.y - yOffset);
      wayPoints := points;
    }

    /** One frame: the impact drop, then the float. `lowered` is where the
        impact drop moves the platform to, and `stepped` and `arrived` the
        engine's step towards the current waypoint. */
    method Update(deltaTime: real, lowered: Point, stepped: Point, arrived: bool)
      requires Valid()
      modifies this
      ensures Valid() && wayPoints == old(wayPoints) && canMove == old(canMove)
      ensures impactTimer == if old(impactTimer) < 0.0 then old(impactTimer) else old(impactTimer) - deltaTime
      ensures wayPointIndex == if canMove && arrived then (old(wayPointIndex) + 1) % 2 else old(wayPointIndex)
      ensures canMove ==> position == stepped
      ensures !canMove ==> position == if old(impactTimer) < 0.0 then old(position) else lowered
    {
      HandleImpact(deltaTime, lowered);
      HandleMovement(stepped, arrived);
    }

    /** Floats towards the current waypoint; on arrival the target passes to
        the other one. A platform that may not move stays put. */
    method HandleMovement(stepped: Point, arrived: bool)
      requires Valid()
      modifies this
      ensures Valid() && wayPoints == old(wayPoints) && canMove == old(canMove)
      ensures impactTimer == old(impactTimer)
      ensures !canMove ==> position == old(position) && wayPointIndex == old(wayPointIndex)
      ensures canMove ==> position == stepped
      ensures wayPointIndex == if canMove && arrived then (old(wayPointIndex) + 1) % 2 else old(wayPointIndex)
    {
      if !canMove {
        return;
      }
      position := stepped;
      if arrived {
        wayPointIndex := wayPointIndex + 1;
        if wayPointIndex >= wayPoints.Length {
          wayPointIndex := 0;
        }
      }
    }

    /** While the impact timer has not run out, it runs down and the
        platform dips to `lowered`. */
    method HandleImpact(deltaTime: real, lowered: Point)
      modifies this
      ensures old(impactTimer) < 0.0 ==> impactTimer == old(impactTimer) && position == old(position)
      ensures old(impactTimer) >= 0.0 ==> impactTimer == old(impactTimer) - deltaTime && position == lowered
      ensures wayPoints == old(wayPoints) && wayPointIndex == old(wayPointIndex) && canMove == old(canMove)
    {
      if impactTimer < 0.0 {
        return;
      }
      impactTimer := impactTimer - deltaTime;
      position := lowered;
    }

    /** The first touch by the player starts the impact and schedules the
        fall; anything else, and every later touch, changes nothing. */
    method OnTriggerEnter2D(isPlayer: bool)
      modifies this
      ensures old(impactHappened) || !isPlayer ==>
        impactHappened == old(impactHappened) && impactTimer == old(impactTimer)
        && switchOffScheduled == old(switchOffScheduled)
      ensures !old(impactHappened) && isPlayer ==>
        impactHappened && impactTimer == impactDuration && switchOffScheduled
      ensures canMove == old(canMove) && wayPoints == old(wayPoints) && wayPointIndex == old(wayPointIndex)
      ensures position == old(position)
    {
      if impactHappened {
        return;
      }
      if isPlayer {
        switchOffScheduled := true;
        impactTimer := impactDuration;
        impactHappened := true;
      }
    }

    /** The fall: the platform stops floating, gravity takes it and every
        collider is switched off. */
    method SwitchOffPlatform()
      modifies this, colliders
      ensures !canMove && !isKinematic && gravityScale == 3.5 && linearDamping == 0.5
      ensures forall i :: 0 <= i < colliders.Length ==> !colliders[i]
      ensures wayPoints == old(wayPoints) && wayPointIndex == old(wayPointIndex)
      ensures impactHappened == old(impactHappened) && impactTimer == old(impactTimer)
    {
      canMove := false;
      isKinematic := false;
      gravityScale := 3.5;
      linearDamping := 0.5;
      var i := 0;
      while i < colliders.Length
        invariant 0 <= i <= colliders.Length
        invariant forall j :: 0 <= j < i ==> !colliders[j]
        modifies colliders
      {
        colliders[i] := false;
        i := i + 1;
      }
    }
  }

  /** Only the first touch by the player counts: touches after it leave the
      impact as the first one set it. */
  method ImpactOnce(platform: FallingPlatform, touches: seq<bool>)
    requires !platform.impactHappened && |touches| > 0 && touches[0]
    modifies platform
    ensures platform.impactHappened && platform.switchOffScheduled
    ensures platform.impactTimer == platform.impactDuration
  {
    var k := 0;
    while k < |touches|
      invariant 0 <= k <= |touches|
      invariant k > 0 ==> platform.impactHappened && platform.switchOffScheduled
      invariant k > 0 ==> platform.impactTimer == platform.impactDuration
      invariant k == 0 ==> !platform.impactHappened
    {
      platform.OnTriggerEnter2D(touches[k]);
      k := k + 1;
    }
  }
}

/** The fire jet that a button switches off for a while
    (Assets/Scripts/Traps/Trap_Fire.cs). */
module FireTrap {
  class Fire {
    const offDuration: real
    var isActive: bool
    /** The capsule collider's enabled flag and the animator's isActive. */
    var colliderEnabled: bool
    var animActive: bool
    /** A switch-off is under way and the fire will come back on. */
    var relightPending: bool

    /** The collider and the animation show the fire's state, and a pending
        relight means the fire is off. */
    predicate Valid()
      reads this
    {
      colliderEnabled == isActive && animActive == isActive && (relightPending ==> !isActive)
    }

    constructor(offDuration: real)
      ensures Valid() && !isActive && !relightPending && this.offDuration == offDuration
    {
      this.offDuration := offDuration;
      isActive := false;
      colliderEnabled := false;
      animActive := false;
      relightPending := false;
    }

    /** The fire starts burning. */
    method Start()
      requires Valid() && !relightPending
      modifies this
      ensures Valid() && isActive && !relightPending
    {
      SetFire(true);
    }

    /** A burning fire goes out now and relights after the off duration; a
        fire already out ignores the request, so off periods never overlap. */
    method SwitchOffFire()
      requires Valid()
      modifies this
      ensures Valid()
      ensures old(isActive) ==> !isActive && relightPending
      ensures !old(isActive) ==> isActive == old(isActive) && relightPending == old(relightPending)
    {
      if !isActive {
        return;
      }
      SetFire(false);
      relightPending := true;
    }

    /** The end of the off period. */
    method Relight()
      requires Valid() && relightPending
      modifies this
      ensures Valid() && isActive && !relightPending
    {
      relightPending := false;
      SetFire(true);
    }

    /** Sets the fire's state, its collider and its animation together. */
    method SetFire(active: bool)
      modifies this
      ensures isActive == active && colliderEnabled == active && animActive == active
      ensures relightPending == old(relightPending)
    {
      animActive := active;
      colliderEnabled := active;
      isActive := active;
    }
  }

  /** A second switch-off during the off period does not start another. */
  method SwitchOffTwice(fire: Fire)
    requires fire.Valid() && fire.isActive
    modifies fire
    ensures fire.Valid() && !fire.isActive && fire.relightPending
  {
    fire.SwitchOffFire();
    fire.SwitchOffFire();
  }
}
