/**
 * The guard's patrol: the `FollowPath` coroutine together with the `TurnToFace`
 * coroutine it waits on, written as an explicit resumable phase. Each call of
 * `Resume` is one resumption of the coroutine by the engine's scheduler.
 *
 * The geometry (`Vector3.MoveTowards`, `Mathf.MoveTowardsAngle`) is not modelled:
 * on each resumption the engine reports whether the step brought the guard onto
 * its waypoint (`arrived`) and whether it already faces the next one (`aligned`).
 * A `WaitForSeconds` wait is a countdown of resumptions.
 */
module Patrol {
  import opened UnityMath

  /** Where the patrol coroutine is suspended. */
  datatype Phase =
    | Walking                 // the `while (true)` loop, moving toward the current waypoint
    | Waiting(ticksLeft: nat) // `yield return new WaitForSeconds(guardWaitTime)`
    | Turning                 // `yield return StartCoroutine(TurnToFace(...))`

  /** What the engine reports for one resumption. */
  datatype Motion = Motion(arrived: bool, aligned: bool)

  /**
   * The patrol coroutine of a guard: none running, or one following the
   * given waypoints with `index` the waypoint it is heading for.
   */
  datatype Route =
    | NoRoute
    | Following(waypoints: seq<Vector3>, index: nat, phase: Phase)

  /** A running patrol has at least two waypoints and a cursor inside them. */
  predicate Valid(r: Route)
  {
    r.Following? ==> 2 <= |r.waypoints| && r.index < |r.waypoints|
  }

  /** The cursor step `(guardWaypointIndex + 1) % waypoints.Length`. */
  function Next(i: nat, n: nat): (j: nat)
    requires i < n
    ensures j < n
    ensures j == i + 1 || (i == n - 1 && j == 0)
  {
    (i + 1) % n
  }

  /** The cursor after `k` arrivals. */
  function Advance(i: nat, n: nat, k: nat): (j: nat)
    requires i < n
    ensures j < n
  {
    if k == 0 then i else Next(Advance(i, n, k - 1), n)
  }

  /** Arrivals compose: `a` arrivals followed by `b` more are `a + b` arrivals. */
  lemma {:induction false} AdvanceAdds(i: nat, n: nat, a: nat, b: nat)
    requires i < n
    ensures Advance(Advance(i, n, a), n, b) == Advance(i, n, a + b)
  {
    if b > 0 {
      AdvanceAdds(i, n, a, b - 1);
    }
  }

  /** Within its first two laps the cursor counts up and wraps round once past the last waypoint. */
  lemma {:induction false} AdvanceWithinTwoLaps(i: nat, n: nat, k: nat)
    requires i < n && i + k < 2 * n
    ensures Advance(i, n, k) == if i + k < n then i + k else i + k - n
  {
    if k > 0 {
      AdvanceWithinTwoLaps(i, n, k - 1);
    }
  }

  /**
   * After as many arrivals as there are waypoints the cursor is back where it
   * started, and not before.
   */
  lemma CycleCloses(i: nat, n: nat)
    requires i < n
    ensures Advance(i, n, n) == i
    ensures forall k :: 0 < k < n ==> Advance(i, n, k) != i
  {
    AdvanceWithinTwoLaps(i, n, n);
    forall k | 0 < k < n
      ensures Advance(i, n, k) != i
    {
      AdvanceWithinTwoLaps(i, n, k);
    }
  }

  /** The cursor is periodic: `n` further arrivals never change where it points. */
  lemma AdvancePeriodic(i: nat, n: nat, k: nat)
    requires i < n
    ensures Advance(i, n, k + n) == Advance(i, n, k)
  {
    AdvanceAdds(i, n, k, n);
    CycleCloses(Advance(i, n, k), n);
  }

  /**
   * One resumption of the patrol coroutine. Walking: on arrival the cursor
   * advances to the next waypoint and the wait begins. Waiting: one tick of the
   * countdown elapses; when none is left the turn begins. Turning: once aligned
   * with the new waypoint the guard walks again.
   */
  function Resume(r: Route, m: Motion, waitTicks: nat): (r': Route)
    requires Valid(r)
    ensures Valid(r')
    ensures r'.Following? == r.Following?
    ensures r.Following? ==> r'.waypoints == r.waypoints
    ensures r.Following? ==>
      r'.index == if r.phase == Walking && m.arrived then Next(r.index, |r.waypoints|) else r.index
    ensures r.Following? && r.phase == Walking ==>
      r'.phase == if m.arrived then Waiting(waitTicks) else Walking
    ensures r.Following? && r.phase.Waiting? ==>
      r'.phase == if r.phase.ticksLeft == 0 then Turning else Waiting(r.phase.ticksLeft - 1)
    ensures r.Following? && r.phase == Turning ==>
      r'.phase == if m.aligned then Walking else Turning
  {
    match r
    case NoRoute => NoRoute
    case Following(w, i, phase) =>
      match phase
      case Walking => if m.arrived then Following(w, Next(i, |w|), Waiting(waitTicks)) else r
      case Waiting(k) => if k == 0 then Following(w, i, Turning) else Following(w, i, Waiting(k - 1))
      case Turning => if m.aligned then Following(w, i, Walking) else r
  }

  /**
   * `StartCoroutine(FollowPath(waypoints))` up to its first suspension: the guard is
   * put on `waypoints[0]`, heads for `waypoints[1]` and takes its first step. With
   * fewer than two waypoints the coroutine faults on an out-of-range index and no
   * patrol runs.
   */
  function Launch(waypoints: seq<Vector3>, first: Motion, waitTicks: nat): (r: Route)
    ensures Valid(r)
    ensures r.Following? <==> 2 <= |waypoints|
    ensures r.Following? ==> r.waypoints == waypoints
    ensures r.Following? && !first.arrived ==> r.index == 1 && r.phase == Walking
    ensures r.Following? && first.arrived ==> r.index == Next(1, |waypoints|) && r.phase == Waiting(waitTicks)
  {
    if |waypoints| < 2 then NoRoute
    else Resume(Following(waypoints, 1, Walking), first, waitTicks)
  }

  /** A run of resumptions, one per frame. */
  function Resumes(r: Route, ms: seq<Motion>, waitTicks: nat): (r': Route)
    requires Valid(r)
    ensures Valid(r')
    ensures r'.Following? == r.Following?
    ensures r.Following? ==> r'.waypoints == r.waypoints
    decreases |ms|
  {
    if ms == [] then r else Resumes(Resume(r, ms[0], waitTicks), ms[1..], waitTicks)
  }

  /** How many times a run of resumptions reaches a waypoint. */
  function Arrivals(r: Route, ms: seq<Motion>, waitTicks: nat): nat
    requires Valid(r)
    decreases |ms|
  {
    if ms == [] then 0
    else
      (if r.Following? && r.phase == Walking && ms[0].arrived then 1 else 0)
      + Arrivals(Resume(r, ms[0], waitTicks), ms[1..], waitTicks)
  }

  /** Over any run, the cursor moves exactly once per arrival and the waypoints stay fixed. */
  lemma {:induction false} CursorCountsArrivals(r: Route, ms: seq<Motion>, waitTicks: nat)
    requires Valid(r) && r.Following?
    ensures Resumes(r, ms, waitTicks).Following?
    ensures Resumes(r, ms, waitTicks).waypoints == r.waypoints
    ensures Resumes(r, ms, waitTicks).index == Advance(r.index, |r.waypoints|, Arrivals(r, ms, waitTicks))
    decreases |ms|
  {
    if ms != [] {
      var r1 := Resume(r, ms[0], waitTicks);
      var a := if r.phase == Walking && ms[0].arrived then 1 else 0;
      CursorCountsArrivals(r1, ms[1..], waitTicks);
      assert r1.index == Advance(r.index, |r.waypoints|, a);
      AdvanceAdds(r.index, |r.waypoints|, a, Arrivals(r1, ms[1..], waitTicks));
    }
  }

  /** A run that reaches a waypoint as many times as the route is long ends on the waypoint it began with. */
  lemma LapReturnsCursor(r: Route, ms: seq<Motion>, waitTicks: nat)
    requires Valid(r) && r.Following?
    requires Arrivals(r, ms, waitTicks) == |r.waypoints|
    ensures Resumes(r, ms, waitTicks).Following? && Resumes(r, ms, waitTicks).index == r.index
  {
    CursorCountsArrivals(r, ms, waitTicks);
    CycleCloses(r.index, |r.waypoints|);
  }

  /**
   * A wait of `k` ticks takes exactly `k + 1` resumptions, whatever the engine
   * reports meanwhile, and ends in the turn toward the same waypoint.
   */
  lemma {:induction false} WaitThenTurn(r: Route, ms: seq<Motion>, waitTicks: nat)
    requires Valid(r) && r.Following? && r.phase.Waiting?
    requires |ms| == r.phase.ticksLeft + 1
    ensures Resumes(r, ms, waitTicks) == Following(r.waypoints, r.index, Turning)
    ensures forall j :: 0 < j < |ms| ==> Resumes(r, ms[..j], waitTicks).Following? && Resumes(r, ms[..j], waitTicks).phase.Waiting?
    decreases |ms|
  {
    var r1 := Resume(r, ms[0], waitTicks);
    if r.phase.ticksLeft == 0 {
      assert ms[1..] == [];
    } else {
      assert r1 == Following(r.waypoints, r.index, Waiting(r.phase.ticksLeft - 1));
      WaitThenTurn(r1, ms[1..], waitTicks);
      forall j | 0 < j < |ms|
        ensures Resumes(r, ms[..j], waitTicks).Following? && Resumes(r, ms[..j], waitTicks).phase.Waiting?
      {
        assert ms[..j][0] == ms[0];
        if j > 1 {
          assert ms[..j][1..] == ms[1..][..j - 1];
        } else {
          assert ms[..j][1..] == [];
        }
      }
    }
  }
}
