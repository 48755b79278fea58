/**
 * What the guard controller guarantees, frame by frame and over runs of frames.
 */
module GuardProperties {
  import opened UnityMath
  import Patrol
  import opened GuardAI

  /**
   * The view cone is strict at its edges and shrinking distance or angle never
   * hides a player who was seen.
   */
  lemma SightCone(viewDistance: real, viewAngle: real, distance: real, angle: real, blocked: bool)
    ensures !CanSeePlayer(viewDistance, viewAngle, viewDistance, angle, blocked)
    ensures !CanSeePlayer(viewDistance, viewAngle, distance, viewAngle / 2.0, blocked)
    ensures !CanSeePlayer(viewDistance, viewAngle, distance, angle, true)
    ensures forall d, a ::
      (d <= distance && a <= angle && CanSeePlayer(viewDistance, viewAngle, distance, angle, blocked))
      ==> CanSeePlayer(viewDistance, viewAngle, d, a, blocked)
  {
  }

  /** `viewDistanceChase` has no influence on anything the controller does. */
  lemma ChaseViewDistanceUnused(cfg: Settings, g: GuardData, s: Sensors, v: real)
    ensures UpdateSpec(cfg.(viewDistanceChase := v), g, s) == UpdateSpec(cfg, g, s)
  {
  }

  /**
   * In Roaming the suspicion timer moves by the frame time, up while the player is
   * seen and down otherwise, and is then clamped to `[0, timeToSpotPlayer]`.
   */
  lemma RoamingTimerStaysClamped(cfg: Settings, g: GuardData, s: Sensors)
    requires g.state == Roaming && g.playerFound && 0.0 <= cfg.timeToSpotPlayer
    ensures var t, t' := g.playerVisibleTimer, UpdateSpec(cfg, g, s).playerVisibleTimer;
      && 0.0 <= t' <= cfg.timeToSpotPlayer
      && (0.0 <= t <= cfg.timeToSpotPlayer && 0.0 <= s.dt ==>
            t' == if SeesPlayer(cfg, g, s) then Min(cfg.timeToSpotPlayer, t + s.dt) else Max(0.0, t - s.dt))
      && (0.0 <= t <= cfg.timeToSpotPlayer && 0.0 < s.dt ==>
            (t' > t ==> SeesPlayer(cfg, g, s)) && (t' < t ==> !SeesPlayer(cfg, g, s)))
  {
  }

  /**
   * Roaming turns into ChaseTarget exactly when the clamped timer has reached the
   * threshold and the spotted event has a subscriber; with no subscriber the guard
   * keeps roaming even at the threshold. Roaming never jumps to StopChasing, and
   * the patrol, home position and view angle are left alone.
   */
  lemma RoamingChasesOnlyWhenHeard(cfg: Settings, g: GuardData, s: Sensors)
    requires g.state == Roaming
    ensures var g' := UpdateSpec(cfg, g, s);
      && (g'.state == ChaseTarget <==>
            g.playerFound && g'.playerVisibleTimer >= cfg.timeToSpotPlayer && s.hasSpottedListener)
      && (g'.state == Roaming || g'.state == ChaseTarget)
      && (!s.hasSpottedListener ==> g'.state == Roaming)
      && g'.patrol == g.patrol
      && g'.guardStartingPosition == g.guardStartingPosition
      && g'.viewAngle == g.viewAngle
  {
  }

  /**
   * A ChaseTarget frame stops the patrol coroutine, leaves the timer alone and
   * gives up the chase exactly when the player is further than `stopChaseDistance`.
   */
  lemma ChaseGivesUpBeyondStopDistance(cfg: Settings, g: GuardData, s: Sensors)
    requires g.state == ChaseTarget
    ensures var g' := UpdateSpec(cfg, g, s);
      && g'.patrol == Patrol.NoRoute
      && g'.playerVisibleTimer == g.playerVisibleTimer
      && (g'.state == StopChasing <==> g.playerFound && s.playerDistance > cfg.stopChaseDistance)
      && (g'.state == ChaseTarget || g'.state == StopChasing)
  {
  }

  /**
   * The frame that enters ChaseTarget from Roaming does not stop the patrol; the
   * next frame does, whatever it senses.
   */
  lemma ChaseCancelsPatrolOneFrameLater(cfg: Settings, g: GuardData, s1: Sensors, s2: Sensors)
    requires g.state == Roaming
    requires UpdateSpec(cfg, g, s1).state == ChaseTarget
    ensures UpdateSpec(cfg, g, s1).patrol == g.patrol
    ensures UpdateSpec(cfg, UpdateSpec(cfg, g, s1), s2).patrol == Patrol.NoRoute
  {
  }

  /**
   * Walking home never resumes the chase: the timer moves by the frame time
   * without any clamp, and the guard turns to Roaming exactly when it is within
   * `guardReachedStartPosition` of its start. It then re-runs `Start`: the home
   * position is recaptured, and the patrol restarts only if the unclamped timer
   * has not passed the threshold and the route has at least two waypoints.
   */
  lemma StopChasingReturnsHome(cfg: Settings, g: GuardData, s: Sensors)
    requires Valid(g) && g.state == StopChasing && g.playerFound
    ensures var g' := UpdateSpec(cfg, g, s);
      && g'.state != ChaseTarget
      && g'.playerVisibleTimer == Accumulate(g.playerVisibleTimer,
           CanSeePlayer(cfg.viewDistance, s.spotAngle, s.playerDistance, s.playerAngle, s.lineBlocked), s.dt)
      && g'.viewAngle == s.spotAngle
      && (g'.state == Roaming <==> DistanceBelow(s.position, g.guardStartingPosition, ReachedStartDistance))
      && (g'.state == Roaming ==>
            g'.guardStartingPosition == s.position
            && (g'.patrol.Following? <==>
                  g'.playerVisibleTimer <= cfg.timeToSpotPlayer && 2 <= |cfg.pathPoints|))
      && (g'.state == StopChasing ==> g'.patrol == Patrol.NoRoute)
  {
  }

  /**
   * Unlike Roaming, StopChasing lets the timer leave `[0, timeToSpotPlayer]`: seen
   * at the threshold it goes above, unseen at zero it goes below.
   */
  lemma StopChasingTimerUnclamped(cfg: Settings, g: GuardData, s: Sensors)
    requires g.state == StopChasing && g.playerFound && 0.0 < s.dt
    ensures var t, t' := g.playerVisibleTimer, UpdateSpec(cfg, g, s).playerVisibleTimer;
      && ((CanSeePlayer(cfg.viewDistance, s.spotAngle, s.playerDistance, s.playerAngle, s.lineBlocked)
             && t >= cfg.timeToSpotPlayer) ==> t' > cfg.timeToSpotPlayer)
      && ((!CanSeePlayer(cfg.viewDistance, s.spotAngle, s.playerDistance, s.playerAngle, s.lineBlocked)
             && t <= 0.0) ==> t' < 0.0)
  {
  }

  /**
   * A guard that reaches home with its timer past the threshold is put back in
   * Roaming by `Update`, but its `Start` launches no patrol.
   */
  lemma SuspiciousReturnLaunchesNoPatrol(cfg: Settings, g: GuardData, s: Sensors)
    requires Valid(g) && g.state == StopChasing && g.playerFound
    requires DistanceBelow(s.position, g.guardStartingPosition, ReachedStartDistance)
    requires UpdateSpec(cfg, g, s).playerVisibleTimer > cfg.timeToSpotPlayer
    ensures UpdateSpec(cfg, g, s).state == Roaming
    ensures UpdateSpec(cfg, g, s).patrol == Patrol.NoRoute
  {
  }

  /**
   * Without a subscriber to the spotted event a roaming guard roams for good, and
   * its patrol is never stopped or replaced: frame after frame it evolves exactly
   * as the patrol coroutine alone would under the same engine reports.
   */
  lemma {:induction false} NoListenerKeepsRoaming(cfg: Settings, g: GuardData, ss: seq<Sensors>)
    requires Valid(g) && g.state == Roaming
    requires forall i :: 0 <= i < |ss| ==> !ss[i].hasSpottedListener
    ensures Run(cfg, g, ss).state == Roaming
    ensures Run(cfg, g, ss).patrol == Patrol.Resumes(g.patrol, Motions(ss), cfg.waitTicks)
    ensures Run(cfg, g, ss).guardStartingPosition == g.guardStartingPosition
    decreases |ss|
  {
    if ss != [] {
      RoamingChasesOnlyWhenHeard(cfg, g, ss[0]);
      assert Motions(ss)[0] == ss[0].motion;
      assert Motions(ss)[1..] == Motions(ss[1..]);
      NoListenerKeepsRoaming(cfg, FrameSpec(cfg, g, ss[0]), ss[1..]);
    }
  }

  /**
   * Hence, with nobody subscribed, a guard that came home without a patrol stays
   * without one, and a patrolling guard keeps its route and moves its cursor
   * exactly once per arrival.
   */
  lemma NoListenerPatrolAdvancesPerArrival(cfg: Settings, g: GuardData, ss: seq<Sensors>)
    requires Valid(g) && g.state == Roaming
    requires forall i :: 0 <= i < |ss| ==> !ss[i].hasSpottedListener
    ensures g.patrol == Patrol.NoRoute ==> Run(cfg, g, ss).patrol == Patrol.NoRoute
    ensures g.patrol.Following? ==>
      && Run(cfg, g, ss).patrol.Following?
      && Run(cfg, g, ss).patrol.waypoints == g.patrol.waypoints
      && Run(cfg, g, ss).patrol.index
           == Patrol.Advance(g.patrol.index, |g.patrol.waypoints|,
                             Patrol.Arrivals(g.patrol, Motions(ss), cfg.waitTicks))
  {
    NoListenerKeepsRoaming(cfg, g, ss);
    if g.patrol.Following? {
      Patrol.CursorCountsArrivals(g.patrol, Motions(ss), cfg.waitTicks);
    }
  }

  lemma {:induction false} TotalTimeNonNegative(ss: seq<Sensors>)
    requires forall i :: 0 <= i < |ss| ==> 0.0 <= ss[i].dt
    ensures 0.0 <= TotalTime(ss)
    decreases |ss|
  {
    if ss != [] {
      TotalTimeNonNegative(ss[1..]);
    }
  }

  /**
   * Seeing the player frame after frame with nobody subscribed, the roaming
   * guard's timer is its start value plus the elapsed time, capped at
   * `timeToSpotPlayer`, and the guard never leaves Roaming.
   */
  lemma {:induction false} SustainedSightWithoutListener(cfg: Settings, g: GuardData, ss: seq<Sensors>)
    requires Valid(g) && g.state == Roaming && g.playerFound
    requires 0.0 <= g.playerVisibleTimer <= cfg.timeToSpotPlayer
    requires forall i :: 0 <= i < |ss| ==>
      SeesPlayer(cfg, g, ss[i]) && 0.0 <= ss[i].dt && !ss[i].hasSpottedListener
    ensures Run(cfg, g, ss).state == Roaming
    ensures Run(cfg, g, ss).playerVisibleTimer == Min(cfg.timeToSpotPlayer, g.playerVisibleTimer + TotalTime(ss))
    decreases |ss|
  {
    if ss != [] {
      var g1 := FrameSpec(cfg, g, ss[0]);
      assert g1 == g.(playerVisibleTimer := Min(cfg.timeToSpotPlayer, g.playerVisibleTimer + ss[0].dt),
                      patrol := g1.patrol);
      SustainedSightWithoutListener(cfg, g1, ss[1..]);
      TotalTimeNonNegative(ss[1..]);
    }
  }

  /** A prefix run of at least one frame is the first frame followed by the rest. */
  lemma RunPrefix(cfg: Settings, g: GuardData, ss: seq<Sensors>, j: nat)
    requires Valid(g) && 0 < j <= |ss|
    ensures Run(cfg, g, ss[..j]) == Run(cfg, FrameSpec(cfg, g, ss[0]), ss[1..][..j - 1])
  {
    assert ss[..j][0] == ss[0];
    assert ss[..j][1..] == ss[1..][..j - 1];
  }

  /**
   * Seeing the player frame after frame with a subscriber attached, a roaming
   * guard whose timer plus the elapsed time reaches `timeToSpotPlayer` switches
   * to ChaseTarget at some frame `k`, and roams at every frame before it.
   */
  lemma {:induction false} SustainedSightWithListener(cfg: Settings, g: GuardData, ss: seq<Sensors>)
    requires Valid(g) && g.state == Roaming && g.playerFound
    requires 0.0 <= g.playerVisibleTimer && 0.0 <= cfg.timeToSpotPlayer
    requires forall i :: 0 <= i < |ss| ==>
      SeesPlayer(cfg, g, ss[i]) && 0.0 <= ss[i].dt && ss[i].hasSpottedListener
    requires 0 < |ss| && g.playerVisibleTimer + TotalTime(ss) >= cfg.timeToSpotPlayer
    ensures exists k ::
      (0 < k <= |ss| && Run(cfg, g, ss[..k]).state == ChaseTarget &&
       forall j :: 0 <= j < k ==> Run(cfg, g, ss[..j]).state == Roaming)
    decreases |ss|
  {
    var g1 := FrameSpec(cfg, g, ss[0]);
    RunPrefix(cfg, g, ss, 1);
    assert ss[..0] == [];
    if g1.state == ChaseTarget {
      assert Run(cfg, g, ss[..1]).state == ChaseTarget;
      assert forall j :: 0 <= j < 1 ==> Run(cfg, g, ss[..j]).state == Roaming;
    } else {
      var rest := ss[1..];
      assert g1 == g.(playerVisibleTimer := g.playerVisibleTimer + ss[0].dt, patrol := g1.patrol);
      assert |rest| > 0;
      SustainedSightWithListener(cfg, g1, rest);
      var k' :| 0 < k' <= |rest| && Run(cfg, g1, rest[..k']).state == ChaseTarget &&
        forall j :: 0 <= j < k' ==> Run(cfg, g1, rest[..j]).state == Roaming;
      RunPrefix(cfg, g, ss, k' + 1);
      forall j | 0 <= j < k' + 1
        ensures Run(cfg, g, ss[..j]).state == Roaming
      {
        if j > 0 {
          RunPrefix(cfg, g, ss, j);
        }
      }
    }
  }

  /**
   * Re-entering Roaming keeps nothing of the previous patrol: whatever patrol,
   * state or home two guards had, `Start` with the same inputs leaves them equal
   * but for their timers, and running it twice is the same as running it once.
   */
  lemma StartForgetsPreviousEpisode(cfg: Settings, g1: GuardData, g2: GuardData,
                                    position: Vector3, spotAngle: real, first: Patrol.Motion)
    requires g1.playerVisibleTimer <= cfg.timeToSpotPlayer && g2.playerVisibleTimer <= cfg.timeToSpotPlayer
    ensures StartSpec(cfg, g1, position, spotAngle, first)
         == StartSpec(cfg, g2, position, spotAngle, first).(playerVisibleTimer := g1.playerVisibleTimer)
    ensures StartSpec(cfg, StartSpec(cfg, g1, position, spotAngle, first), position, spotAngle, first)
         == StartSpec(cfg, g1, position, spotAngle, first)
  {
  }

  /** `Update` keeps the controller's invariant. */
  lemma UpdatePreservesValid(cfg: Settings, g: GuardData, s: Sensors)
    requires Valid(g)
    ensures Valid(UpdateSpec(cfg, g, s))
  {
  }

  /**
   * After `Enable`, the very next `Update` stops the patrol, and the guard is
   * then chasing or, with the player out of range, returning.
   */
  lemma EnableThenUpdateStopsPatrol(cfg: Settings, g: GuardData, s: Sensors)
    ensures EnableSpec(g).state == ChaseTarget
    ensures UpdateSpec(cfg, EnableSpec(g), s).patrol == Patrol.NoRoute
    ensures UpdateSpec(cfg, EnableSpec(g), s).state in {ChaseTarget, StopChasing}
  {
  }
}
