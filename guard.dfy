/**
 * The patrol guard: a three-state controller driven once per frame by `Update`.
 *
 * Roaming, it patrols its route and accumulates a clamped suspicion timer while it
 * sees the player; once the timer reaches `timeToSpotPlayer` and somebody listens
 * to the spotted event it chases. Chasing, it hands its motion to the navigation
 * agent and gives up when the player gets further than `stopChaseDistance`.
 * Returning, it walks back to where it started and, once there, starts over.
 *
 * The engine's geometry enters as per-frame `Sensors`. The navigation agent, the
 * spotlight colour and the debug log have no effect on the guard's own state and
 * are not modelled.
 */
module GuardAI {
  import opened UnityMath
  import Patrol

  datatype State = Roaming | ChaseTarget | StopChasing

  /** `guardReachedStartPosition`: how close to its start the guard must come to be home. */
  const ReachedStartDistance: real := 0.1

  /** The guard's serialized configuration, fixed for its lifetime. */
  datatype Settings = Settings(
    viewDistance: real,
    viewDistanceChase: real,     // serialized but never read by the controller
    stopChaseDistance: real,
    timeToSpotPlayer: real,
    waitTicks: nat,              // `guardWaitTime`, as a number of frames
    pathPoints: seq<Vector3>)    // positions of the children of `pathHolder`, in order

  /** What the engine tells the guard in one frame. */
  datatype Sensors = Sensors(
    dt: real,                    // `Time.deltaTime`
    position: Vector3,           // `transform.position`
    spotAngle: real,             // `spotlight.spotAngle`
    playerDistance: real,        // `Vector3.Distance(transform.position, player.position)`
    playerAngle: real,           // `Vector3.Angle(transform.forward, dirToPlayer)`
    lineBlocked: bool,           // `Physics.Linecast(transform.position, player.position, viewMask)`
    hasSpottedListener: bool,    // `OnGuardHasSpottedPlayer != null`
    motion: Patrol.Motion)       // what the patrol's movement step achieves this frame

  /**
   * The guard's own state. `playerFound` records whether `Start` has looked up
   * the player: until it has, every use of the player reference throws and ends
   * the frame's `Update` early.
   */
  datatype GuardData = GuardData(
    state: State,
    playerVisibleTimer: real,
    viewAngle: real,
    guardStartingPosition: Vector3,
    playerFound: bool,
    patrol: Patrol.Route)

  /**
   * The controller's invariant: the patrol coroutine, if any, is well formed, and
   * none runs while the guard walks home, so the `Start` that ends the walk never
   * launches a second one beside it.
   */
  predicate Valid(g: GuardData)
  {
    Patrol.Valid(g.patrol) && (g.state == StopChasing ==> g.patrol == Patrol.NoRoute)
  }

  /**
   * `CanSeePlayer`: the player is seen when strictly nearer than the view distance,
   * strictly inside half the view angle of the facing direction, and not hidden
   * behind the view mask. The tests run in that order and stop at the first failure.
   */
  function CanSeePlayer(viewDistance: real, viewAngle: real, distance: real, angle: real, blocked: bool): (seen: bool)
    ensures seen <==> distance < viewDistance && angle < viewAngle / 2.0 && !blocked
  {
    if distance < viewDistance then
      if angle < viewAngle / 2.0 then
        !blocked
      else
        false
    else
      false
  }

  /** Whether the guard in state `g` sees the player in the frame `s`. */
  function SeesPlayer(cfg: Settings, g: GuardData, s: Sensors): bool
  {
    CanSeePlayer(cfg.viewDistance, g.viewAngle, s.playerDistance, s.playerAngle, s.lineBlocked)
  }

  /** The suspicion timer moves up by the frame time while the player is seen, down otherwise. */
  function Accumulate(timer: real, seen: bool, dt: real): (t: real)
  {
    if seen then timer + dt else timer - dt
  }

  /** The path points lifted or lowered to the guard's own height. */
  function AtHeight(points: seq<Vector3>, y: real): (lifted: seq<Vector3>)
    ensures |lifted| == |points|
    ensures forall i :: 0 <= i < |points| ==>
      lifted[i].y == y && lifted[i].x == points[i].x && lifted[i].z == points[i].z
  {
    seq(|points|, i requires 0 <= i < |points| => Vector3(points[i].x, y, points[i].z))
  }

  /**
   * `Start`: recapture the home position and the view angle; then, unless the
   * suspicion timer is already past the threshold, look the player up, launch the
   * patrol over the path points at the guard's height and enter Roaming.
   */
  function StartSpec(cfg: Settings, g: GuardData, position: Vector3, spotAngle: real, first: Patrol.Motion): (g': GuardData)
    ensures g'.guardStartingPosition == position && g'.viewAngle == spotAngle
    ensures g'.playerVisibleTimer == g.playerVisibleTimer
    ensures Patrol.Valid(g.patrol) ==> Patrol.Valid(g'.patrol)
    ensures g.playerVisibleTimer <= cfg.timeToSpotPlayer ==>
      && g'.state == Roaming && g'.playerFound
      && g'.patrol == Patrol.Launch(AtHeight(cfg.pathPoints, position.y), first, cfg.waitTicks)
      && (g'.patrol.Following? <==> 2 <= |cfg.pathPoints|)
      && (g'.patrol.Following? ==> g'.patrol.waypoints == AtHeight(cfg.pathPoints, position.y))
    ensures g.playerVisibleTimer > cfg.timeToSpotPlayer ==>
      g'.state == g.state && g'.playerFound == g.playerFound && g'.patrol == g.patrol
  {
    var g1 := g.(guardStartingPosition := position, viewAngle := spotAngle);
    if g.playerVisibleTimer <= cfg.timeToSpotPlayer then
      g1.(playerFound := true,
          patrol := Patrol.Launch(AtHeight(cfg.pathPoints, position.y), first, cfg.waitTicks),
          state := Roaming)
    else
      g1
  }

  /** One call of `Update`. */
  function UpdateSpec(cfg: Settings, g: GuardData, s: Sensors): (g': GuardData)
    ensures Valid(g) ==> Valid(g')
  {
    match g.state
    case Roaming =>
      if !g.playerFound then g
      else
        var timer := Clamp(Accumulate(g.playerVisibleTimer, SeesPlayer(cfg, g, s), s.dt), 0.0, cfg.timeToSpotPlayer);
        var g1 := g.(playerVisibleTimer := timer);
        if timer >= cfg.timeToSpotPlayer && s.hasSpottedListener then g1.(state := ChaseTarget) else g1
    case ChaseTarget =>
      var g1 := g.(patrol := Patrol.NoRoute);
      if g.playerFound && s.playerDistance > cfg.stopChaseDistance then g1.(state := StopChasing) else g1
    case StopChasing =>
      var g1 := g.(viewAngle := s.spotAngle);
      if !g.playerFound then g1
      else
        var g2 := g1.(playerVisibleTimer := Accumulate(g.playerVisibleTimer, SeesPlayer(cfg, g1, s), s.dt));
        if DistanceBelow(s.position, g.guardStartingPosition, ReachedStartDistance) then
          StartSpec(cfg, g2.(state := Roaming), s.position, s.spotAngle, s.motion)
        else
          g2
  }

  /** `Enable`: switch to chasing, whatever the current state. */
  function EnableSpec(g: GuardData): (g': GuardData)
    ensures Valid(g) ==> Valid(g')
  {
    g.(state := ChaseTarget)
  }

  /**
   * One whole frame: `Update`, then one resumption of the patrol coroutine that
   * was running before it, unless `Update` stopped it. A patrol that this frame's
   * `Start` launched has already run up to its first `yield` inside
   * `StartCoroutine`, so it is not resumed again in the same frame.
   */
  function FrameSpec(cfg: Settings, g: GuardData, s: Sensors): (g': GuardData)
    requires Valid(g)
    ensures Valid(g')
  {
    var g1 := UpdateSpec(cfg, g, s);
    if g.patrol.Following? then g1.(patrol := Patrol.Resume(g1.patrol, s.motion, cfg.waitTicks)) else g1
  }

  /** A run of whole frames. */
  function Run(cfg: Settings, g: GuardData, ss: seq<Sensors>): (g': GuardData)
    requires Valid(g)
    ensures Valid(g')
    decreases |ss|
  {
    if ss == [] then g else Run(cfg, FrameSpec(cfg, g, ss[0]), ss[1..])
  }

  /** What the engine reports to the patrol coroutine in each frame of a run. */
  function Motions(ss: seq<Sensors>): (ms: seq<Patrol.Motion>)
    ensures |ms| == |ss|
    ensures forall i :: 0 <= i < |ss| ==> ms[i] == ss[i].motion
  {
    seq(|ss|, i requires 0 <= i < |ss| => ss[i].motion)
  }

  /** The total frame time of a run. */
  function TotalTime(ss: seq<Sensors>): (total: real)
    decreases |ss|
  {
    if ss == [] then 0.0 else ss[0].dt + TotalTime(ss[1..])
  }

  /** The guard object: its fields are the state `Update` and `Start` change in place. */
  class Guard {
    const settings: Settings
    var state: State
    var playerVisibleTimer: real
    var viewAngle: real
    var guardStartingPosition: Vector3
    var playerFound: bool
    var patrol: Patrol.Route

    function Data(): GuardData
      reads this
    {
      GuardData(state, playerVisibleTimer, viewAngle, guardStartingPosition, playerFound, patrol)
    }

    /**
     * The guard as the engine loads it, before `Start`: Roaming (the enum's first
     * value), the serialized timer value, no player reference and no patrol.
     */
    constructor (settings: Settings, initialTimer: real)
      ensures this.settings == settings
      ensures Data() == GuardData(Roaming, initialTimer, 0.0, Vector3(0.0, 0.0, 0.0), false, Patrol.NoRoute)
      ensures Valid(Data())
    {
      this.settings := settings;
      state := Roaming;
      playerVisibleTimer := initialTimer;
      viewAngle := 0.0;
      guardStartingPosition := Vector3(0.0, 0.0, 0.0);
      playerFound := false;
      patrol := Patrol.NoRoute;
    }

    /**
     * `Start`, called once by the engine and again by `Update` when the guard is
     * home. No patrol coroutine may be running: the engine calls it before any
     * exists and `Update` only after chasing has stopped them all.
     */
    method Start(position: Vector3, spotAngle: real, first: Patrol.Motion)
      requires patrol == Patrol.NoRoute
      modifies this
      ensures Data() == StartSpec(settings, old(Data()), position, spotAngle, first)
    {
      guardStartingPosition := position;
      viewAngle := spotAngle;
      var waypoints := new Vector3[|settings.pathPoints|];
      if playerVisibleTimer <= settings.timeToSpotPlayer {
        playerFound := true;
        for i := 0 to waypoints.Length
          modifies waypoints
          invariant forall j :: 0 <= j < i ==>
            waypoints[j] == Vector3(settings.pathPoints[j].x, position.y, settings.pathPoints[j].z)
        {
          waypoints[i] := settings.pathPoints[i];
          waypoints[i] := Vector3(waypoints[i].x, position.y, waypoints[i].z);
        }
        assert waypoints[..] == AtHeight(settings.pathPoints, position.y);
        patrol := Patrol.Launch(waypoints[..], first, settings.waitTicks);
        state := Roaming;
      }
    }

    /** `Update`, once per frame, before the coroutines resume. */
    method Update(s: Sensors)
      requires Valid(Data())
      modifies this
      ensures Data() == UpdateSpec(settings, old(Data()), s)
      ensures Valid(Data())
    {
      match state
      case Roaming =>
        if playerFound {
          if CanSeePlayer(settings.viewDistance, viewAngle, s.playerDistance, s.playerAngle, s.lineBlocked) {
            playerVisibleTimer := playerVisibleTimer + s.dt;
          } else {
            playerVisibleTimer := playerVisibleTimer - s.dt;
          }
          playerVisibleTimer := Clamp(playerVisibleTimer, 0.0, settings.timeToSpotPlayer);
          if playerVisibleTimer >= settings.timeToSpotPlayer {
            if s.hasSpottedListener {
              state := ChaseTarget;
            }
          }
        }
      case ChaseTarget =>
        patrol := Patrol.NoRoute;
        if playerFound && s.playerDistance > settings.stopChaseDistance {
          state := StopChasing;
        }
      case StopChasing =>
        viewAngle := s.spotAngle;
        if playerFound {
          if CanSeePlayer(settings.viewDistance, viewAngle, s.playerDistance, s.playerAngle, s.lineBlocked) {
            playerVisibleTimer := playerVisibleTimer + s.dt;
          } else {
            playerVisibleTimer := playerVisibleTimer - s.dt;
          }
          if DistanceBelow(s.position, guardStartingPosition, ReachedStartDistance) {
            state := Roaming;
            Start(s.position, s.spotAngle, s.motion);
          }
        }
    }

    /** One resumption of the patrol coroutine, after `Update` in the same frame. */
    method ResumePatrol(m: Patrol.Motion)
      requires Valid(Data())
      modifies this`patrol
      ensures patrol == Patrol.Resume(old(patrol), m, settings.waitTicks)
      ensures Valid(Data())
    {
      patrol := Patrol.Resume(patrol, m, settings.waitTicks);
    }

    /** One whole frame as the engine runs it: `Update`, then the patrol that was already running. */
    method RunFrame(s: Sensors)
      requires Valid(Data())
      modifies this
      ensures Data() == FrameSpec(settings, old(Data()), s)
      ensures Valid(Data())
    {
      var running := patrol.Following?;
      Update(s);
      if running {
        ResumePatrol(s.motion);
      }
    }

    /** `Enable`, called from outside the guard. */
    method Enable()
      requires Valid(Data())
      modifies this`state
      ensures Data() == EnableSpec(old(Data()))
      ensures Valid(Data())
    {
      state := ChaseTarget;
    }
  }
}
